/** App.tsx, the part with logic: the preset rule tables and the initializer that takes a
    saved snapshot when one loads and the defaults otherwise. */
module App {
  import opened Types
  import opened RuleConfig
  import opened EntryForm

  /** The preset categories, all unconfigured. */
  const InitialCategories: seq<EncodingRule> := [
    EncodingRule("c_stationery", "文具", ""),
    EncodingRule("c_electronics", "电子产品", ""),
    EncodingRule("c_bottle", "水杯", "")
  ]

  /** The fixed campus locations, all unconfigured. */
  const FixedLocations: seq<EncodingRule> := [
    EncodingRule("l_spring", "春楼", ""),
    EncodingRule("l_summer", "夏楼", ""),
    EncodingRule("l_autumn", "秋楼", ""),
    EncodingRule("l_winter", "冬楼", ""),
    EncodingRule("l_canteen", "食堂", ""),
    EncodingRule("l_gym", "体育馆", ""),
    EncodingRule("l_playground", "操场", ""),
    EncodingRule("l_court", "篮球场", "")
  ]

  function DefaultState(): GlobalState {
    GlobalState(InitialCategories, FixedLocations, [])
  }

  /** The invariant every handler keeps: both rule tables well formed and the item list consistent. */
  predicate Consistent(g: GlobalState) {
    WellFormedTable(g.categories) && WellFormedTable(g.locations) && ItemsConsistent(g.lostItems)
  }

  /** The `globalState` initializer. `saved` is the parsed snapshot; None stands for no entry,
      an empty entry or one that does not parse. */
  function InitialState(saved: Option<GlobalState>): (g: GlobalState)
    ensures saved.None? ==> g == DefaultState()
    ensures saved.Some? ==> g == saved.value
  {
    match saved
    case None => DefaultState()
    case Some(s) => s
  }

  /** A rule table whose codes are all empty is well formed once its ids are distinct. */
  lemma UnconfiguredTableWellFormed(rules: seq<EncodingRule>)
    requires forall r :: r in rules ==> r.code == ""
    requires DistinctIds(rules)
    ensures WellFormedTable(rules)
  {
    forall i, j | 0 <= i < j < |rules| ensures NoClash(rules[i], rules[j]) {
      assert rules[i] in rules;
    }
  }

  lemma PresetCategoriesWellFormed()
    ensures WellFormedTable(InitialCategories)
  {
    var c := InitialCategories;
    forall i, j | 0 <= i < j < |c| ensures IdsDiffer(c[i], c[j]) {
      assert c[i].id[2] != c[j].id[2];
    }
    UnconfiguredTableWellFormed(c);
  }

  lemma PresetLocationsWellFormed()
    ensures WellFormedTable(FixedLocations)
  {
    var l := FixedLocations;
    forall i, j | 0 <= i < j < |l| ensures IdsDiffer(l[i], l[j]) {
      assert l[i].id[2] != l[j].id[2] || l[i].id[3] != l[j].id[3];
    }
    UnconfiguredTableWellFormed(l);
  }

  /** The defaults: three categories and eight locations with distinct ids and no codes,
      among them both outdoor locations of the entry form, and no records; they satisfy
      the invariant. */
  lemma DefaultStateConsistent()
    ensures var g := DefaultState();
      && |g.categories| == 3 && |g.locations| == 8 && g.lostItems == []
      && (forall r :: r in g.categories + g.locations ==> r.code == "")
      && (forall o :: o in OutdoorLocations ==> exists r :: r in g.locations && r.id == o)
      && Consistent(g)
  {
    var g := DefaultState();
    assert g.locations[6].id == "l_playground" && g.locations[7].id == "l_court";
    PresetCategoriesWellFormed();
    PresetLocationsWellFormed();
  }

  /** The loaded snapshot is taken without validation: a snapshot whose categories share a
      code is installed as it is. */
  lemma SnapshotNotValidated()
    ensures var s := GlobalState([EncodingRule("a", "A", "X"), EncodingRule("b", "B", "X")], [], []);
      InitialState(Some(s)) == s && !Consistent(InitialState(Some(s)))
  {
    var s := GlobalState([EncodingRule("a", "A", "X"), EncodingRule("b", "B", "X")], [], []);
    assert !NoClash(s.categories[0], s.categories[1]);
  }
}
