/** StandardEntryForm.tsx: the floor and finder domains, the ten-digit time code, the
    composition of `T-LF-YYMMDDHHMM-GCCNN`, and the validated submit that prepends a record. */
module EntryForm {
  import opened Text
  import opened Seqs
  import opened Types
  import opened RuleConfig

  /** Locations that have no floors, keyed by id. */
  const OutdoorLocations: seq<string> := ["l_playground", "l_court"]

  predicate IsOutdoor(locId: string) {
    locId in OutdoorLocations
  }

  /** The floor options offered for a location. */
  function Floors(locId: string): seq<string> {
    if IsOutdoor(locId) then ["0"] else ["1", "2", "3", "4", "5"]
  }

  /** The floor the location handler selects: "0" outdoors, "1" indoors; always an offered option. */
  function DefaultFloor(locId: string): (f: string)
    ensures f in Floors(locId)
    ensures f == "0" <==> IsOutdoor(locId)
  {
    if IsOutdoor(locId) then "0" else "1"
  }

  const Grades: seq<string> := ["1", "2", "3", "4", "5", "6"]

  /** `n.toString().padStart(2, '0')` for n below 100. */
  function TwoDigits(n: nat): (s: string)
    requires n < 100
    ensures |s| == 2 && IsDigit(s[0]) && IsDigit(s[1])
    ensures (s[0] as int - '0' as int) * 10 + (s[1] as int - '0' as int) == n
  {
    [DigitChar(n / 10), DigitChar(n % 10)]
  }

  /** Class numbers "01".."13". */
  function Classes(): seq<string> {
    seq(13, i requires 0 <= i < 13 => TwoDigits(i + 1))
  }

  /** Student numbers "01".."44". */
  function Students(): seq<string> {
    seq(44, i requires 0 <= i < 44 => TwoDigits(i + 1))
  }

  predicate InDomains(grade: string, classNum: string, studentId: string) {
    grade in Grades && classNum in Classes() && studentId in Students()
  }

  function PersonCode(grade: string, classNum: string, studentId: string): string {
    grade + classNum + studentId
  }

  /** A finder drawn from the three domains gives a person segment of five digits. */
  lemma PersonCodeShape(grade: string, classNum: string, studentId: string)
    requires InDomains(grade, classNum, studentId)
    ensures var p := PersonCode(grade, classNum, studentId);
      |p| == 5 && forall k :: 0 <= k < 5 ==> IsDigit(p[k])
  {
    var i :| 0 <= i < 13 && Classes()[i] == classNum;
    var j :| 0 <= j < 44 && Students()[j] == studentId;
    assert classNum == TwoDigits(i + 1) && studentId == TwoDigits(j + 1);
    var p := PersonCode(grade, classNum, studentId);
    assert |grade| == 1 && IsDigit(grade[0]);
    forall k | 0 <= k < 5 ensures IsDigit(p[k]) {
      if k == 0 {
        assert p[k] == grade[0];
      } else if k < 3 {
        assert p[k] == classNum[k - 1];
      } else {
        assert p[k] == studentId[k - 3];
      }
    }
  }

  /** String.prototype.slice with non-negative bounds, clamped to the string. */
  function Slice(s: string, from: nat, to: nat): (r: string)
    requires from <= to
    ensures |r| <= to - from
    ensures to <= |s| ==> r == s[from..to]
    ensures from <= |s| < to ==> r == s[from..]
    ensures from >= |s| ==> r == ""
  {
    var a := if from < |s| then from else |s|;
    var b := if to < |s| then to else |s|;
    s[a..b]
  }

  /** getTimeCode: the sentinel when the date-time field is empty, otherwise the characters at
      [2,4), [5,7), [8,10), [11,13) and [14,16) of the field. */
  function TimeCode(dateTimeInput: string): (t: string)
    ensures dateTimeInput == "" ==> t == "0000000000"
    ensures |t| <= 10
  {
    if dateTimeInput == "" then "0000000000"
    else
      Slice(dateTimeInput, 2, 4) + Slice(dateTimeInput, 5, 7) + Slice(dateTimeInput, 8, 10)
      + Slice(dateTimeInput, 11, 13) + Slice(dateTimeInput, 14, 16)
  }

  /** A valid normalized local date and time string with a four-digit year, `YYYY-MM-DDTHH:mm`
      (section 2.3.5.5 of the WHATWG HTML Living Standard), possibly followed by seconds. */
  predicate IsLocalDateTime(s: string) {
    && |s| >= 16
    && IsDigit(s[0]) && IsDigit(s[1]) && IsDigit(s[2]) && IsDigit(s[3]) && s[4] == '-'
    && IsDigit(s[5]) && IsDigit(s[6]) && s[7] == '-'
    && IsDigit(s[8]) && IsDigit(s[9]) && s[10] == 'T'
    && IsDigit(s[11]) && IsDigit(s[12]) && s[13] == ':'
    && IsDigit(s[14]) && IsDigit(s[15])
  }

  /** For a well-formed field the time code is ten digits: the year without its century,
      then month, day, hour and minute, with every separator dropped. */
  lemma TimeCodeOfLocalDateTime(s: string)
    requires IsLocalDateTime(s)
    ensures var t := TimeCode(s);
      && t == s[2..4] + s[5..7] + s[8..10] + s[11..13] + s[14..16]
      && |t| == 10
      && (forall k :: 0 <= k < 10 ==> IsDigit(t[k]))
  {
    var t := TimeCode(s);
    assert t == s[2..4] + s[5..7] + s[8..10] + s[11..13] + s[14..16];
    assert t == [s[2], s[3], s[5], s[6], s[8], s[9], s[11], s[12], s[14], s[15]];
  }

  /** `rule?.code || '?'`: the rule's code, or `?` for a missing rule or an empty code. */
  function CodeOrUnset(rule: Option<EncodingRule>): (c: string)
    ensures c != ""
    ensures rule.Some? && rule.value.code != "" ==> c == rule.value.code
    ensures rule.None? || rule.value.code == "" ==> c == "?"
  {
    if rule.Some? && rule.value.code != "" then rule.value.code else "?"
  }

  /** The canonical format `T-LF-YYMMDDHHMM-GCCNN`. */
  function ComposeCode(typeCode: string, locCode: string, floor: string, timeCode: string, personCode: string): string {
    typeCode + "-" + locCode + floor + "-" + timeCode + "-" + personCode
  }

  /** The form fields that go into a record. */
  datatype Draft = Draft(
    itemName: string,
    typeId: string,
    locId: string,
    floor: string,
    grade: string,
    classNum: string,
    studentId: string)

  /** The code-composition effect: current rule codes (or `?`), floor, time code and finder. */
  function PreviewCode(g: GlobalState, d: Draft, timeCode: string): string {
    ComposeCode(
      CodeOrUnset(FindById(g.categories, d.typeId)),
      CodeOrUnset(FindById(g.locations, d.locId)),
      d.floor, timeCode, PersonCode(d.grade, d.classNum, d.studentId))
  }

  function FinderLabel(grade: string, classNum: string, studentId: string): string {
    grade + "年" + classNum + "班 " + studentId + "号"
  }

  predicate HasCode(rule: Option<EncodingRule>) {
    rule.Some? && rule.value.code != ""
  }

  datatype SubmitResult = Skipped | Unconfigured | Stored(item: LostItem)

  /** handleSubmit's decision: silent return on a missing name or selection, an error when
      either rule is missing or unconfigured, otherwise a fresh `lost` record with no claim details. */
  function SubmitItem(g: GlobalState, d: Draft, timestamp: int, code: string, freshId: string): (r: SubmitResult)
    ensures r.Skipped? <==> d.itemName == "" || d.typeId == "" || d.locId == ""
    ensures r.Unconfigured? <==>
      !r.Skipped? && !(HasCode(FindById(g.categories, d.typeId)) && HasCode(FindById(g.locations, d.locId)))
    ensures r.Stored? ==>
      && r.item.id == freshId && r.item.status == Lost
      && r.item.claimedBy.None? && r.item.claimTimestamp.None?
      && r.item.generatedCode == code
      && r.item.finder == FinderLabel(d.grade, d.classNum, d.studentId)
      && r.item == LostItem(freshId, d.typeId, d.locId, d.itemName, d.floor, timestamp,
                            r.item.finder, d.grade, d.classNum, d.studentId, code, Lost, None, None)
  {
    if d.itemName == "" || d.typeId == "" || d.locId == "" then Skipped
    else if !HasCode(FindById(g.categories, d.typeId)) || !HasCode(FindById(g.locations, d.locId)) then Unconfigured
    else Stored(LostItem(freshId, d.typeId, d.locId, d.itemName, d.floor, timestamp,
                         FinderLabel(d.grade, d.classNum, d.studentId), d.grade, d.classNum, d.studentId,
                         code, Lost, None, None))
  }

  /** A record stored from an up-to-date preview carries the real rule codes in the T and L
      positions, never the `?` fallback. */
  lemma StoredCodeUsesRuleCodes(g: GlobalState, d: Draft, timeCode: string, timestamp: int, freshId: string)
    requires SubmitItem(g, d, timestamp, PreviewCode(g, d, timeCode), freshId).Stored?
    ensures var cat, loc := FindById(g.categories, d.typeId), FindById(g.locations, d.locId);
      && cat.Some? && cat.value in g.categories && cat.value.id == d.typeId && cat.value.code != ""
      && loc.Some? && loc.value in g.locations && loc.value.id == d.locId && loc.value.code != ""
      && SubmitItem(g, d, timestamp, PreviewCode(g, d, timeCode), freshId).item.generatedCode
         == ComposeCode(cat.value.code, loc.value.code, d.floor, timeCode, PersonCode(d.grade, d.classNum, d.studentId))
  {
  }

  /** A stored record keeps the item-list invariant when its id is fresh. */
  lemma StoreKeepsItemsConsistent(items: seq<LostItem>, item: LostItem)
    requires ItemsConsistent(items)
    requires item.status == Lost && item.claimedBy.None? && item.claimTimestamp.None?
    requires forall it :: it in items ==> it.id != item.id
    ensures ItemsConsistent([item] + items)
  {
    forall k | 0 <= k < |items| ensures ItemIdsDiffer(item, items[k]) {
      assert items[k] in items;
    }
    PrependKeepsPairwise(item, items, ItemIdsDiffer);
    var r := [item] + items;
    forall k | 0 <= k < |r| ensures ClaimInfoConsistent(r[k]) {
      if k > 0 {
        assert r[k] == items[k - 1];
      }
    }
  }

  function UnconfiguredMessage(): string {
    "错误：所选的分类或地点尚未在“规则配置”中设置代码。"
  }

  function SubmittedMessage(code: string): string {
    "物品登记成功！已生成编码：" + code
  }

  /** The entry form's own state: its fields and the code preview. */
  class StandardEntryForm {
    var itemName: string
    var typeId: string
    var locId: string
    var floor: string
    var isAutoTime: bool
    var dateTimeInput: string
    var grade: string
    var classNum: string
    var studentId: string
    var generatedCode: string

    /** The selects only ever hold offered options. */
    predicate Valid()
      reads this
    {
      floor in Floors(locId) && InDomains(grade, classNum, studentId)
    }

    function CurrentDraft(): Draft
      reads this
    {
      Draft(itemName, typeId, locId, floor, grade, classNum, studentId)
    }

    /** The code the composition effect derives from the form and the current rules. */
    function Preview(g: GlobalState): string
      reads this
    {
      PreviewCode(g, CurrentDraft(), TimeCode(dateTimeInput))
    }

    constructor()
      ensures Valid()
      ensures itemName == "" && typeId == "" && locId == "" && floor == "1"
      ensures isAutoTime && dateTimeInput == ""
      ensures grade == "1" && classNum == "01" && studentId == "01" && generatedCode == ""
    {
      itemName, typeId, locId, floor := "", "", "", "1";
      isAutoTime, dateTimeInput := true, "";
      grade, classNum, studentId := "1", "01", "01";
      generatedCode := "";
      assert Classes()[0] == "01" && Students()[0] == "01";
    }

    /** The effect that recomputes the preview whenever its inputs change. */
    method RefreshCode(g: GlobalState)
      modifies this`generatedCode
      ensures generatedCode == Preview(g)
    {
      generatedCode := PreviewCode(g, CurrentDraft(), TimeCode(dateTimeInput));
    }

    method SetItemName(name: string)
      modifies this`itemName
      ensures itemName == name
    {
      itemName := name;
    }

    method SelectType(id: string)
      modifies this`typeId
      ensures typeId == id
    {
      typeId := id;
    }

    /** Changing the location resets the floor to "0" outdoors and "1" indoors. */
    method SelectLocation(newId: string)
      requires Valid()
      modifies this`locId, this`floor
      ensures Valid()
      ensures locId == newId && floor == DefaultFloor(newId)
    {
      locId := newId;
      floor := DefaultFloor(newId);
    }

    method SelectFloor(f: string)
      requires Valid() && f in Floors(locId)
      modifies this`floor
      ensures Valid() && floor == f
    {
      floor := f;
    }

    method SelectGrade(g: string)
      requires Valid() && g in Grades
      modifies this`grade
      ensures Valid() && grade == g
    {
      grade := g;
    }

    method SelectClass(c: string)
      requires Valid() && c in Classes()
      modifies this`classNum
      ensures Valid() && classNum == c
    {
      classNum := c;
    }

    method SelectStudent(n: string)
      requires Valid() && n in Students()
      modifies this`studentId
      ensures Valid() && studentId == n
    {
      studentId := n;
    }

    /** Typing a time switches the clock off. */
    method HandleTimeChange(value: string)
      modifies this`isAutoTime, this`dateTimeInput
      ensures !isAutoTime && dateTimeInput == value
    {
      isAutoTime := false;
      dateTimeInput := value;
    }

    /** `now` is the clock's current local date-time string. */
    method ResetAutoTime(now: string)
      modifies this`isAutoTime, this`dateTimeInput
      ensures isAutoTime && dateTimeInput == now
    {
      isAutoTime := true;
      dateTimeInput := now;
    }

    /** handleSubmit. `timestamp` is the parsed date-time field and `freshId` a new record id. */
    method Submit(store: Store, timestamp: int, freshId: string) returns (note: Option<Notification>)
      requires forall it :: it in store.state.lostItems ==> it.id != freshId
      modifies this`itemName, this`isAutoTime, store
      ensures var r := SubmitItem(old(store.state), old(CurrentDraft()), timestamp, old(generatedCode), freshId);
        && (r.Stored? ==>
              && store.state == old(store.state).(lostItems := [r.item] + old(store.state.lostItems))
              && itemName == "" && isAutoTime
              && note == Some(Notification(Success, SubmittedMessage(old(generatedCode)))))
        && (!r.Stored? ==>
              store.state == old(store.state) && itemName == old(itemName) && isAutoTime == old(isAutoTime))
        && (r.Skipped? ==> note == None)
        && (r.Unconfigured? ==> note == Some(Notification(Error, UnconfiguredMessage())))
        && (r.Stored? && old(Valid()) ==>
              r.item.floor in Floors(r.item.locId) && InDomains(r.item.grade, r.item.classNum, r.item.studentId))
      ensures old(ItemsConsistent(store.state.lostItems)) ==> ItemsConsistent(store.state.lostItems)
    {
      var r := SubmitItem(store.state, CurrentDraft(), timestamp, generatedCode, freshId);
      match r
      case Skipped =>
        note := None;
      case Unconfigured =>
        note := Some(Notification(Error, UnconfiguredMessage()));
      case Stored(item) =>
        ghost var wf := ItemsConsistent(store.state.lostItems);
        if wf {
          StoreKeepsItemsConsistent(store.state.lostItems, item);
        }
        store.state := store.state.(lostItems := [item] + store.state.lostItems);
        itemName := "";
        isAutoTime := true;
        note := Some(Notification(Success, SubmittedMessage(generatedCode)));
    }
  }
}
