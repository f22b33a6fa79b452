/** The rule table of RuleConfigManager.tsx: two namespaces (categories and locations)
    mapping labels to codes of at most one character, with a duplicate-code check that
    runs before any change. */
module RuleConfig {
  import opened Text
  import opened Seqs
  import opened Types

  /** Two rules do not clash unless the first holds a non-empty code the second also holds. */
  predicate NoClash(a: EncodingRule, b: EncodingRule) {
    a.code == "" || a.code != b.code
  }

  predicate IdsDiffer(a: EncodingRule, b: EncodingRule) {
    a.id != b.id
  }

  /** Within one namespace no two rules share a non-empty code. */
  predicate UniqueCodes(rules: seq<EncodingRule>) {
    Pairwise(rules, NoClash)
  }

  predicate DistinctIds(rules: seq<EncodingRule>) {
    Pairwise(rules, IdsDiffer)
  }

  predicate ShortCodes(rules: seq<EncodingRule>) {
    forall r :: r in rules ==> |r.code| <= 1
  }

  /** The namespace invariant the handlers keep. */
  predicate WellFormedTable(rules: seq<EncodingRule>) {
    UniqueCodes(rules) && DistinctIds(rules) && ShortCodes(rules)
  }

  /** `raw.toUpperCase().slice(0, 1)`: the first character, upper-cased. */
  function Normalize(raw: string): (code: string)
    ensures |code| <= 1
    ensures code == "" <==> raw == ""
    ensures code != "" ==> code[0] == UpperChar(raw[0])
  {
    Upper(raw)[..if |raw| == 0 then 0 else 1]
  }

  /** The `some` test of addCategory: a rule already holds this non-empty code. */
  predicate CodeInUse(rules: seq<EncodingRule>, code: string) {
    exists r :: r in rules && r.code == code && r.code != ""
  }

  /** The `some` test of the code updates: a rule with another id holds this code. */
  predicate HeldByOther(rules: seq<EncodingRule>, id: string, code: string) {
    exists r :: r in rules && r.id != id && r.code == code
  }

  /** Array.prototype.find by id. */
  function FindById(rules: seq<EncodingRule>, id: string): (r: Option<EncodingRule>)
    ensures r.Some? ==> r.value in rules && r.value.id == id
    ensures r.None? <==> forall x :: x in rules ==> x.id != id
    ensures forall k :: 0 <= k < |rules| && rules[k].id == id && (forall j :: 0 <= j < k ==> rules[j].id != id) ==>
      r == Some(rules[k])
    decreases |rules|
  {
    if rules == [] then None
    else if rules[0].id == id then Some(rules[0])
    else FindById(rules[1..], id)
  }

  /** With distinct ids, find returns the one rule holding the id. */
  lemma {:induction false} FindByIdAt(rules: seq<EncodingRule>, k: nat)
    requires DistinctIds(rules) && k < |rules|
    ensures FindById(rules, rules[k].id) == Some(rules[k])
    decreases |rules|
  {
    if k > 0 {
      assert IdsDiffer(rules[0], rules[k]);
      assert DistinctIds(rules[1..]) by {
        forall i, j | 0 <= i < j < |rules[1..]| ensures IdsDiffer(rules[1..][i], rules[1..][j]) {
          assert rules[1..][i] == rules[i + 1] && rules[1..][j] == rules[j + 1];
        }
      }
      FindByIdAt(rules[1..], k - 1);
    }
  }

  /** What a handler did to its table: nothing (a silent return), a rejected code, or a new table. */
  datatype Outcome = Ignored | Rejected(code: string) | Applied(rules: seq<EncodingRule>)

  function TableAfter(o: Outcome, rules: seq<EncodingRule>): seq<EncodingRule> {
    if o.Applied? then o.rules else rules
  }

  /** addCategory's table transform. */
  function AddRule(rules: seq<EncodingRule>, labelText: string, raw: string, freshId: string): (o: Outcome)
    ensures o.Ignored? <==> labelText == "" || raw == ""
    ensures o.Rejected? <==> labelText != "" && raw != "" && CodeInUse(rules, Normalize(raw))
    ensures o.Rejected? ==> o.code == Normalize(raw)
    ensures o.Applied? ==> o.rules == rules + [EncodingRule(freshId, labelText, Normalize(raw))]
  {
    if labelText == "" || raw == "" then Ignored
    else
      var code := Normalize(raw);
      if CodeInUse(rules, code) then Rejected(code)
      else Applied(rules + [EncodingRule(freshId, labelText, code)])
  }

  function SetCode(rules: seq<EncodingRule>, id: string, code: string): seq<EncodingRule> {
    seq(|rules|, k requires 0 <= k < |rules| => if rules[k].id == id then rules[k].(code := code) else rules[k])
  }

  /** The label branch of updateCategory: only the labels of the rules with this id change. */
  function SetLabel(rules: seq<EncodingRule>, id: string, labelText: string): (r: seq<EncodingRule>)
    ensures |r| == |rules|
    ensures forall k :: 0 <= k < |rules| ==>
      && r[k].id == rules[k].id
      && r[k].code == rules[k].code
      && r[k].labelText == (if rules[k].id == id then labelText else rules[k].labelText)
  {
    seq(|rules|, k requires 0 <= k < |rules| => if rules[k].id == id then rules[k].(labelText := labelText) else rules[k])
  }

  /** The code branch of updateCategory, and updateLocationCode: rejected iff the normalised
      code is non-empty and held by a rule with another id; otherwise only the code of the
      rules with this id changes. */
  function UpdateCode(rules: seq<EncodingRule>, id: string, raw: string): (o: Outcome)
    ensures !o.Ignored?
    ensures o.Rejected? <==> Normalize(raw) != "" && HeldByOther(rules, id, Normalize(raw))
    ensures o.Rejected? ==> o.code == Normalize(raw)
    ensures o.Applied? ==> |o.rules| == |rules| && forall k :: 0 <= k < |rules| ==>
      && o.rules[k].id == rules[k].id
      && o.rules[k].labelText == rules[k].labelText
      && o.rules[k].code == (if rules[k].id == id then Normalize(raw) else rules[k].code)
  {
    var code := Normalize(raw);
    if code != "" && HeldByOther(rules, id, code) then Rejected(code)
    else Applied(SetCode(rules, id, code))
  }

  function IdIsNot(id: string): EncodingRule -> bool {
    (r: EncodingRule) => r.id != id
  }

  /** removeCategory's transform: the rules with this id are dropped, the others kept in order. */
  function RemoveRule(rules: seq<EncodingRule>, id: string): (r: seq<EncodingRule>)
    ensures IsSubseq(r, rules)
    ensures forall x :: x in r <==> x in rules && x.id != id
    ensures forall x: EncodingRule :: x.id != id ==> multiset(r)[x] == multiset(rules)[x]
  {
    FilterIsSubseq(rules, IdIsNot(id));
    FilterMultiplicity(rules, IdIsNot(id));
    Filter(rules, IdIsNot(id))
  }

  /** Removing an unknown id changes nothing. */
  lemma RemoveUnknownIsNoop(rules: seq<EncodingRule>, id: string)
    requires forall x :: x in rules ==> x.id != id
    ensures RemoveRule(rules, id) == rules
  {
    FilterKeepsAll(rules, IdIsNot(id));
  }

  lemma RemoveRuleKeepsWellFormed(rules: seq<EncodingRule>, id: string)
    requires WellFormedTable(rules)
    ensures WellFormedTable(RemoveRule(rules, id))
  {
    FilterKeepsPairwise(rules, IdIsNot(id), NoClash);
    FilterKeepsPairwise(rules, IdIsNot(id), IdsDiffer);
  }

  /** A successful add keeps the namespace invariant, given a fresh id. */
  lemma AddRuleKeepsWellFormed(rules: seq<EncodingRule>, labelText: string, raw: string, freshId: string)
    requires WellFormedTable(rules)
    requires forall x :: x in rules ==> x.id != freshId
    ensures WellFormedTable(TableAfter(AddRule(rules, labelText, raw, freshId), rules))
  {
    var o := AddRule(rules, labelText, raw, freshId);
    if o.Applied? {
      var x := EncodingRule(freshId, labelText, Normalize(raw));
      forall k | 0 <= k < |rules| ensures NoClash(rules[k], x) && IdsDiffer(rules[k], x) {
        assert rules[k] in rules;
      }
      AppendKeepsPairwise(rules, x, NoClash);
      AppendKeepsPairwise(rules, x, IdsDiffer);
    }
  }

  /** An accepted code update keeps the namespace invariant. */
  lemma UpdateCodeKeepsWellFormed(rules: seq<EncodingRule>, id: string, raw: string)
    requires WellFormedTable(rules)
    ensures WellFormedTable(TableAfter(UpdateCode(rules, id, raw), rules))
  {
    var o := UpdateCode(rules, id, raw);
    if o.Applied? {
      var r, c := o.rules, Normalize(raw);
      forall i, j | 0 <= i < j < |r| ensures NoClash(r[i], r[j]) && IdsDiffer(r[i], r[j]) {
        assert IdsDiffer(rules[i], rules[j]) && NoClash(rules[i], rules[j]);
        if rules[i].id == id && c != "" {
          assert rules[j] in rules;
        } else if rules[j].id == id && r[i].code != "" {
          assert rules[i] in rules;
        }
      }
      assert forall x :: x in r ==> exists k :: 0 <= k < |r| && r[k] == x;
    }
  }

  lemma SetLabelKeepsWellFormed(rules: seq<EncodingRule>, id: string, labelText: string)
    requires WellFormedTable(rules)
    ensures WellFormedTable(SetLabel(rules, id, labelText))
  {
    var r := SetLabel(rules, id, labelText);
    forall i, j | 0 <= i < j < |r| ensures NoClash(r[i], r[j]) && IdsDiffer(r[i], r[j]) {
      assert IdsDiffer(rules[i], rules[j]) && NoClash(rules[i], rules[j]);
    }
    assert forall x :: x in r ==> exists k :: 0 <= k < |r| && r[k] == x;
  }

  /** In a well-formed table, clearing a code or re-setting a rule's own code is never rejected. */
  lemma ClearOrOwnCodeAccepted(rules: seq<EncodingRule>, k: nat, raw: string)
    requires WellFormedTable(rules) && k < |rules|
    requires Normalize(raw) == "" || Normalize(raw) == rules[k].code
    ensures UpdateCode(rules, rules[k].id, raw).Applied?
  {
    var id, c := rules[k].id, Normalize(raw);
    if c != "" {
      forall j | 0 <= j < |rules| && rules[j].id != id ensures rules[j].code != c {
        if j < k {
          assert NoClash(rules[j], rules[k]);
        } else {
          assert NoClash(rules[k], rules[j]);
        }
      }
      assert !HeldByOther(rules, id, c) by {
        forall x | x in rules && x.id != id ensures x.code != c {
          var j :| 0 <= j < |rules| && rules[j] == x;
        }
      }
    }
  }

  /** Why distinct ids belong to the invariant: the code update is a `map` over every rule
      with the id, so two rules sharing an id both take the new code. */
  lemma SharedIdBreaksUniqueness()
    ensures var rules := [EncodingRule("x", "a", ""), EncodingRule("x", "b", "")];
      UpdateCode(rules, "x", "q") == Applied([EncodingRule("x", "a", "Q"), EncodingRule("x", "b", "Q")])
      && !UniqueCodes([EncodingRule("x", "a", "Q"), EncodingRule("x", "b", "Q")])
  {
    var rules := [EncodingRule("x", "a", ""), EncodingRule("x", "b", "")];
    assert Normalize("q") == "Q";
    assert !HeldByOther(rules, "x", "Q");
    assert SetCode(rules, "x", "Q") == [EncodingRule("x", "a", "Q"), EncodingRule("x", "b", "Q")];
    var bad := [EncodingRule("x", "a", "Q"), EncodingRule("x", "b", "Q")];
    assert !NoClash(bad[0], bad[1]);
    assert !Pairwise(bad, NoClash);
  }

  function AddedMessage(labelText: string, code: string): string {
    "已成功添加规则：" + labelText + " -> [" + code + "]"
  }

  function DuplicateAddMessage(code: string): string {
    "添加失败：代码 \"" + code + "\" 已经被使用，请更换其他字符。"
  }

  function CategoryConflictMessage(code: string): string {
    "规则冲突：代码 \"" + code + "\" 已被其他分类占用！"
  }

  function LocationConflictMessage(code: string): string {
    "规则冲突：地点代码 \"" + code + "\" 已存在！"
  }

  datatype Field = LabelField | CodeField

  /** The configuration view: its two form fields and its four handlers. */
  class RuleConfigManager {
    var newCatLabel: string
    var newCatCode: string

    constructor()
      ensures newCatLabel == "" && newCatCode == ""
    {
      newCatLabel := "";
      newCatCode := "";
    }

    method SetNewCatLabel(value: string)
      modifies this`newCatLabel
      ensures newCatLabel == value
    {
      newCatLabel := value;
    }

    method SetNewCatCode(value: string)
      modifies this`newCatCode
      ensures newCatCode == value
    {
      newCatCode := value;
    }

    method AddCategory(store: Store, freshId: string) returns (note: Option<Notification>)
      requires forall r :: r in store.state.categories ==> r.id != freshId
      modifies this, store
      ensures var o := AddRule(old(store.state.categories), old(newCatLabel), old(newCatCode), freshId);
        && store.state == old(store.state).(categories := TableAfter(o, old(store.state.categories)))
        && (o.Ignored? ==> note == None)
        && (o.Rejected? ==> note == Some(Notification(Error, DuplicateAddMessage(o.code))))
        && (o.Applied? ==> note == Some(Notification(Success, AddedMessage(old(newCatLabel), Normalize(old(newCatCode))))))
        && (newCatLabel, newCatCode) == (if o.Applied? then ("", "") else (old(newCatLabel), old(newCatCode)))
      ensures old(WellFormedTable(store.state.categories)) ==> WellFormedTable(store.state.categories)
    {
      var cats := store.state.categories;
      var o := AddRule(cats, newCatLabel, newCatCode, freshId);
      ghost var wf := WellFormedTable(cats);
      if wf {
        AddRuleKeepsWellFormed(cats, newCatLabel, newCatCode, freshId);
      }
      match o
      case Ignored =>
        note := None;
      case Rejected(code) =>
        note := Some(Notification(Error, DuplicateAddMessage(code)));
      case Applied(rules) =>
        store.state := store.state.(categories := rules);
        note := Some(Notification(Success, AddedMessage(newCatLabel, Normalize(newCatCode))));
        newCatLabel := "";
        newCatCode := "";
    }

    method RemoveCategory(store: Store, id: string)
      modifies store
      ensures store.state == old(store.state).(categories := RemoveRule(old(store.state.categories), id))
      ensures old(WellFormedTable(store.state.categories)) ==> WellFormedTable(store.state.categories)
    {
      ghost var wf := WellFormedTable(store.state.categories);
      if wf {
        RemoveRuleKeepsWellFormed(store.state.categories, id);
      }
      store.state := store.state.(categories := RemoveRule(store.state.categories, id));
    }

    method UpdateCategory(store: Store, id: string, field: Field, value: string) returns (note: Option<Notification>)
      modifies store
      ensures field == LabelField ==>
        store.state == old(store.state).(categories := SetLabel(old(store.state.categories), id, value)) && note == None
      ensures field == CodeField ==> var o := UpdateCode(old(store.state.categories), id, value);
        && store.state == old(store.state).(categories := TableAfter(o, old(store.state.categories)))
        && note == (if o.Rejected? then Some(Notification(Error, CategoryConflictMessage(o.code))) else None)
      ensures old(WellFormedTable(store.state.categories)) ==> WellFormedTable(store.state.categories)
    {
      var cats := store.state.categories;
      ghost var wf := WellFormedTable(cats);
      note := None;
      if field == CodeField {
        var o := UpdateCode(cats, id, value);
        if wf {
          UpdateCodeKeepsWellFormed(cats, id, value);
        }
        if o.Rejected? {
          note := Some(Notification(Error, CategoryConflictMessage(o.code)));
        } else {
          store.state := store.state.(categories := o.rules);
        }
      } else {
        if wf {
          SetLabelKeepsWellFormed(cats, id, value);
        }
        store.state := store.state.(categories := SetLabel(cats, id, value));
      }
    }

    /** Uniqueness is checked among locations only: categories are another namespace. */
    method UpdateLocationCode(store: Store, id: string, code: string) returns (note: Option<Notification>)
      modifies store
      ensures var o := UpdateCode(old(store.state.locations), id, code);
        && store.state == old(store.state).(locations := TableAfter(o, old(store.state.locations)))
        && note == (if o.Rejected? then Some(Notification(Error, LocationConflictMessage(o.code))) else None)
      ensures old(WellFormedTable(store.state.locations)) ==> WellFormedTable(store.state.locations)
    {
      var locs := store.state.locations;
      var o := UpdateCode(locs, id, code);
      ghost var wf := WellFormedTable(locs);
      if wf {
        UpdateCodeKeepsWellFormed(locs, id, code);
      }
      if o.Rejected? {
        note := Some(Notification(Error, LocationConflictMessage(o.code)));
      } else {
        note := None;
        store.state := store.state.(locations := o.rules);
      }
    }
  }
}
