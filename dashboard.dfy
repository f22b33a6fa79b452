/** views/Dashboard.tsx, the computed part: counts by status, the claim-rate percentage,
    the zero-inclusive per-category and per-location distributions and the activity log. */
module Dashboard {
  import opened Seqs
  import opened Types
  import opened RuleConfig
  import opened ItemTable

  function TotalItems(items: seq<LostItem>): nat {
    |items|
  }

  function LostCount(items: seq<LostItem>): nat {
    |Filter(items, IsLost)|
  }

  function ClaimedCount(items: seq<LostItem>): nat {
    |Filter(items, IsClaimed)|
  }

  /** Every record is either lost or claimed, so the two counts add up to the total. */
  lemma CountsPartition(items: seq<LostItem>)
    ensures LostCount(items) + ClaimedCount(items) == TotalItems(items)
  {
    FilterSplitsLength(items, IsLost, IsClaimed);
  }

  /** Euclidean division brackets its dividend. */
  lemma DivisionBracket(n: nat, d: nat)
    requires d > 0
    ensures (n / d) * d <= n < (n / d) * d + d
  {
  }

  /** A quotient bracketed by 200p + t over 2t, for p <= t, is at most 100. */
  lemma PercentAtMostHundred(part: nat, total: nat, q: nat)
    requires 0 < total && part <= total && q * (2 * total) <= 200 * part + total
    ensures q <= 100
  {
  }

  /** `Math.round(part / total * 100)`, or 0 for an empty list: the nearest whole percentage,
      halves rounded up. */
  function RoundedPercent(part: nat, total: nat): (r: nat)
    requires part <= total
    ensures total == 0 ==> r == 0
    ensures total > 0 ==> r <= 100 && r * (2 * total) <= 200 * part + total < r * (2 * total) + 2 * total
  {
    if total == 0 then 0
    else
      var q := (200 * part + total) / (2 * total);
      DivisionBracket(200 * part + total, 2 * total);
      PercentAtMostHundred(part, total, q);
      q
  }

  function ClaimRate(items: seq<LostItem>): (rate: nat)
    ensures rate <= 100
    ensures |items| == 0 ==> rate == 0
    ensures |items| > 0 ==>
      rate * (2 * |items|) <= 200 * ClaimedCount(items) + |items| < rate * (2 * |items|) + 2 * |items|
  {
    CountsPartition(items);
    RoundedPercent(ClaimedCount(items), TotalItems(items))
  }

  /** A bar of the category chart or a spoke of the location radar (`fullMark` 20). */
  datatype ChartEntry =
    | Bar(subject: string, count: nat)
    | Radar(subject: string, count: nat, fullMark: nat)

  function TypeIdOf(item: LostItem): string {
    item.typeId
  }

  function LocIdOf(item: LostItem): string {
    item.locId
  }

  function HasKey(key: LostItem -> string, id: string): LostItem -> bool {
    (item: LostItem) => key(item) == id
  }

  /** The record's reference resolves to some rule of the table. */
  function KeyResolves(key: LostItem -> string, rules: seq<EncodingRule>): LostItem -> bool {
    (item: LostItem) => exists r :: r in rules && r.id == key(item)
  }

  /** `categoryData`: one bar per category, in table order, zero counts included. */
  function CategoryData(cats: seq<EncodingRule>, items: seq<LostItem>): (data: seq<ChartEntry>)
    ensures |data| == |cats|
    ensures forall k :: 0 <= k < |cats| ==>
      data[k].Bar? && data[k].subject == cats[k].labelText
      && data[k].count == |Filter(items, HasKey(TypeIdOf, cats[k].id))|
  {
    seq(|cats|, k requires 0 <= k < |cats| => Bar(cats[k].labelText, |Filter(items, HasKey(TypeIdOf, cats[k].id))|))
  }

  /** `locationData`: one radar spoke per location, in table order, zero counts included. */
  function LocationData(locs: seq<EncodingRule>, items: seq<LostItem>): (data: seq<ChartEntry>)
    ensures |data| == |locs|
    ensures forall k :: 0 <= k < |locs| ==>
      data[k].Radar? && data[k].subject == locs[k].labelText && data[k].fullMark == 20
      && data[k].count == |Filter(items, HasKey(LocIdOf, locs[k].id))|
  {
    seq(|locs|, k requires 0 <= k < |locs| => Radar(locs[k].labelText, |Filter(items, HasKey(LocIdOf, locs[k].id))|, 20))
  }

  function SumCounts(data: seq<ChartEntry>): nat {
    if data == [] then 0 else data[0].count + SumCounts(data[1..])
  }

  /** The sum, over the rules, of the records referring to each rule. */
  function Tally(key: LostItem -> string, rules: seq<EncodingRule>, items: seq<LostItem>): nat {
    if rules == [] then 0 else |Filter(items, HasKey(key, rules[0].id))| + Tally(key, rules[1..], items)
  }

  /** How many rules hold this id. */
  function Hits(rules: seq<EncodingRule>, id: string): nat {
    if rules == [] then 0 else (if rules[0].id == id then 1 else 0) + Hits(rules[1..], id)
  }

  lemma DistinctIdsTail(rules: seq<EncodingRule>)
    requires DistinctIds(rules) && rules != []
    ensures DistinctIds(rules[1..])
  {
    forall i, j | 0 <= i < j < |rules[1..]| ensures IdsDiffer(rules[1..][i], rules[1..][j]) {
      assert IdsDiffer(rules[i + 1], rules[j + 1]);
    }
  }

  lemma {:induction false} HitsOfDistinct(rules: seq<EncodingRule>, id: string)
    requires DistinctIds(rules)
    ensures Hits(rules, id) == if exists r :: r in rules && r.id == id then 1 else 0
    decreases |rules|
  {
    if rules != [] {
      DistinctIdsTail(rules);
      HitsOfDistinct(rules[1..], id);
      if rules[0].id == id {
        forall r | r in rules[1..] ensures r.id != id {
          var j :| 0 <= j < |rules[1..]| && rules[1..][j] == r;
          assert IdsDiffer(rules[0], rules[j + 1]);
        }
      } else {
        assert forall r :: r in rules && r.id == id ==> r in rules[1..] by {
          assert rules == [rules[0]] + rules[1..];
        }
      }
    }
  }

  lemma {:induction false} TallyCons(key: LostItem -> string, rules: seq<EncodingRule>, x: LostItem, rest: seq<LostItem>)
    ensures Tally(key, rules, [x] + rest) == Hits(rules, key(x)) + Tally(key, rules, rest)
    decreases |rules|
  {
    if rules != [] {
      FilterCons(x, rest, HasKey(key, rules[0].id));
      TallyCons(key, rules[1..], x, rest);
    }
  }

  /** With distinct rule ids, the tally counts each record whose reference resolves exactly once,
      and the others not at all. */
  lemma {:induction false} TallyCountsResolved(key: LostItem -> string, rules: seq<EncodingRule>, items: seq<LostItem>)
    requires DistinctIds(rules)
    ensures Tally(key, rules, items) == |Filter(items, KeyResolves(key, rules))|
    decreases |items|
  {
    if items == [] {
      assert Tally(key, rules, items) == 0 by {
        TallyZero(key, rules);
      }
    } else {
      var x, rest := items[0], items[1..];
      assert items == [x] + rest;
      TallyCons(key, rules, x, rest);
      HitsOfDistinct(rules, key(x));
      FilterCons(x, rest, KeyResolves(key, rules));
      TallyCountsResolved(key, rules, rest);
    }
  }

  lemma {:induction false} TallyZero(key: LostItem -> string, rules: seq<EncodingRule>)
    ensures Tally(key, rules, []) == 0
    decreases |rules|
  {
    if rules != [] {
      TallyZero(key, rules[1..]);
    }
  }

  lemma {:induction false} SumIsTally(key: LostItem -> string, rules: seq<EncodingRule>, items: seq<LostItem>, data: seq<ChartEntry>)
    requires |data| == |rules|
    requires forall k :: 0 <= k < |rules| ==> data[k].count == |Filter(items, HasKey(key, rules[k].id))|
    ensures SumCounts(data) == Tally(key, rules, items)
    decreases |rules|
  {
    if rules != [] {
      SumIsTally(key, rules[1..], items, data[1..]);
    }
  }

  /** The category bars add up to the records whose category still exists: a record with a
      dangling `typeId` is in no bar, so the bars never add up to more than the total. */
  lemma CategoryCountsCoverKnownItems(cats: seq<EncodingRule>, items: seq<LostItem>)
    requires DistinctIds(cats)
    ensures SumCounts(CategoryData(cats, items)) == |Filter(items, KeyResolves(TypeIdOf, cats))|
    ensures SumCounts(CategoryData(cats, items)) <= TotalItems(items)
    ensures (forall it :: it in items ==> exists c :: c in cats && c.id == it.typeId) ==>
      SumCounts(CategoryData(cats, items)) == TotalItems(items)
  {
    SumIsTally(TypeIdOf, cats, items, CategoryData(cats, items));
    TallyCountsResolved(TypeIdOf, cats, items);
    if forall it :: it in items ==> exists c :: c in cats && c.id == it.typeId {
      FilterKeepsAll(items, KeyResolves(TypeIdOf, cats));
    }
  }

  /** The same for the location spokes and `locId`. */
  lemma LocationCountsCoverKnownItems(locs: seq<EncodingRule>, items: seq<LostItem>)
    requires DistinctIds(locs)
    ensures SumCounts(LocationData(locs, items)) == |Filter(items, KeyResolves(LocIdOf, locs))|
    ensures SumCounts(LocationData(locs, items)) <= TotalItems(items)
    ensures (forall it :: it in items ==> exists l :: l in locs && l.id == it.locId) ==>
      SumCounts(LocationData(locs, items)) == TotalItems(items)
  {
    SumIsTally(LocIdOf, locs, items, LocationData(locs, items));
    TallyCountsResolved(LocIdOf, locs, items);
    if forall it :: it in items ==> exists l :: l in locs && l.id == it.locId {
      FilterKeepsAll(items, KeyResolves(LocIdOf, locs));
    }
  }

  /** The activity log: the first ten records, which are the newest since submit prepends. */
  function RecentLog(items: seq<LostItem>): (log: seq<LostItem>)
    ensures |log| == if |items| < 10 then |items| else 10
    ensures log == items[..|log|]
  {
    items[..if |items| < 10 then |items| else 10]
  }

  /** A stored record adds one to the total and to the lost count, and heads the log. */
  lemma SubmitAddsOneLost(item: LostItem, items: seq<LostItem>)
    requires item.status == Lost
    ensures LostCount([item] + items) == LostCount(items) + 1
    ensures ClaimedCount([item] + items) == ClaimedCount(items)
    ensures RecentLog([item] + items)[0] == item
  {
    FilterCons(item, items, IsLost);
    FilterCons(item, items, IsClaimed);
  }

  /** Claiming the record at the head, whose id no other record has. */
  lemma ClaimHead(items: seq<LostItem>, claimerName: string, claimTimestamp: int)
    requires items != [] && items[0].status == Lost
    requires forall it :: it in items[1..] ==> it.id != items[0].id
    ensures var r := ClaimById(items, items[0].id, claimerName, claimTimestamp);
      LostCount(r) + 1 == LostCount(items) && ClaimedCount(r) == ClaimedCount(items) + 1
  {
    var x, rest := items[0], items[1..];
    var y := ClaimRecord(x, claimerName, claimTimestamp);
    ClaimAbsentIsNoop(rest, x.id, claimerName, claimTimestamp);
    assert ClaimById(items, x.id, claimerName, claimTimestamp) == [y] + rest;
    assert items == [x] + rest;
    FilterCons(x, rest, IsLost);
    FilterCons(x, rest, IsClaimed);
    FilterCons(y, rest, IsLost);
    FilterCons(y, rest, IsClaimed);
  }

  /** Claiming past a head record with another id leaves the head alone. */
  lemma ClaimPastHead(items: seq<LostItem>, id: string, claimerName: string, claimTimestamp: int)
    requires items != [] && items[0].id != id
    ensures var r, t := ClaimById(items, id, claimerName, claimTimestamp), ClaimById(items[1..], id, claimerName, claimTimestamp);
      && LostCount(r) == LostCount(t) + LostCount(items) - LostCount(items[1..])
      && ClaimedCount(r) == ClaimedCount(t) + ClaimedCount(items) - ClaimedCount(items[1..])
  {
    var x, rest := items[0], items[1..];
    var t := ClaimById(rest, id, claimerName, claimTimestamp);
    assert ClaimById(items, id, claimerName, claimTimestamp) == [x] + t;
    assert items == [x] + rest;
    FilterCons(x, rest, IsLost);
    FilterCons(x, rest, IsClaimed);
    FilterCons(x, t, IsLost);
    FilterCons(x, t, IsClaimed);
  }

  /** Claiming a `lost` record in a list with distinct ids moves exactly one record from the
      lost count to the claimed count. */
  lemma {:induction false} ClaimMovesOneRecord(items: seq<LostItem>, k: nat, claimerName: string, claimTimestamp: int)
    requires Pairwise(items, ItemIdsDiffer)
    requires k < |items| && items[k].status == Lost
    ensures var r := ClaimById(items, items[k].id, claimerName, claimTimestamp);
      && TotalItems(r) == TotalItems(items)
      && LostCount(r) + 1 == LostCount(items)
      && ClaimedCount(r) == ClaimedCount(items) + 1
    decreases |items|
  {
    var rest := items[1..];
    if k == 0 {
      forall it | it in rest ensures it.id != items[0].id {
        var j :| 0 <= j < |rest| && rest[j] == it;
        assert ItemIdsDiffer(items[0], items[j + 1]);
      }
      ClaimHead(items, claimerName, claimTimestamp);
    } else {
      assert ItemIdsDiffer(items[0], items[k]);
      assert Pairwise(rest, ItemIdsDiffer) by {
        forall i, j | 0 <= i < j < |rest| ensures ItemIdsDiffer(rest[i], rest[j]) {
          assert ItemIdsDiffer(items[i + 1], items[j + 1]);
        }
      }
      assert rest[k - 1] == items[k];
      ClaimMovesOneRecord(rest, k - 1, claimerName, claimTimestamp);
      ClaimPastHead(items, items[k].id, claimerName, claimTimestamp);
    }
  }
}
