/** views/ItemDataTable.tsx: the category-and-search filter, the claim-button gating,
    the claim update and the id-to-name lookups. */
module ItemTable {
  import opened Text
  import opened Seqs
  import opened Types
  import opened RuleConfig

  /** `(item.claimedBy || '')`. */
  function ClaimedByText(item: LostItem): string {
    match item.claimedBy
    case None => ""
    case Some(name) => name
  }

  /** `field.toLowerCase().includes(term.toLowerCase())`. */
  predicate ContainsIgnoringCase(field: string, term: string) {
    Contains(Lower(field), Lower(term))
  }

  predicate MatchesSearch(item: LostItem, term: string) {
    || ContainsIgnoringCase(item.itemName, term)
    || ContainsIgnoringCase(item.generatedCode, term)
    || ContainsIgnoringCase(item.finder, term)
    || ContainsIgnoringCase(ClaimedByText(item), term)
  }

  predicate MatchesType(item: LostItem, filterType: string) {
    filterType == "all" || item.typeId == filterType
  }

  function Shown(filterType: string, term: string): LostItem -> bool {
    (item: LostItem) => MatchesType(item, filterType) && MatchesSearch(item, term)
  }

  /** `filteredItems`: the records passing the category filter and the search, in list order. */
  function FilteredItems(items: seq<LostItem>, filterType: string, term: string): (r: seq<LostItem>)
    ensures IsSubseq(r, items)
    ensures forall x :: x in r <==> x in items && MatchesType(x, filterType) && MatchesSearch(x, term)
    ensures forall x: LostItem :: MatchesType(x, filterType) && MatchesSearch(x, term) ==> multiset(r)[x] == multiset(items)[x]
  {
    FilterIsSubseq(items, Shown(filterType, term));
    FilterMultiplicity(items, Shown(filterType, term));
    Filter(items, Shown(filterType, term))
  }

  /** With no category filter and an empty search every record is shown. */
  lemma EmptySearchShowsAll(items: seq<LostItem>)
    ensures FilteredItems(items, "all", "") == items
  {
    forall x | x in items ensures Shown("all", "")(x) {
      ContainsEmpty(Lower(x.itemName));
    }
    FilterKeepsAll(items, Shown("all", ""));
  }

  /** The search does not depend on the case of the term. */
  lemma SearchIgnoresCase(item: LostItem, term: string)
    ensures MatchesSearch(item, Upper(term)) == MatchesSearch(item, term)
  {
    LowerOfUpper(term);
  }

  function ClaimRecord(item: LostItem, claimerName: string, claimTimestamp: int): LostItem {
    item.(status := Claimed, claimedBy := Some(claimerName), claimTimestamp := Some(claimTimestamp))
  }

  /** submitClaim's `map`: the record with this id becomes `claimed` with the claim details;
      every other field and every other record stay as they were. */
  function ClaimById(items: seq<LostItem>, id: string, claimerName: string, claimTimestamp: int): (r: seq<LostItem>)
    ensures |r| == |items|
    ensures forall k :: 0 <= k < |items| && items[k].id != id ==> r[k] == items[k]
    ensures forall k :: 0 <= k < |items| && items[k].id == id ==>
      && r[k].status == Claimed
      && r[k].claimedBy == Some(claimerName)
      && r[k].claimTimestamp == Some(claimTimestamp)
      && r[k] == items[k].(status := r[k].status, claimedBy := r[k].claimedBy, claimTimestamp := r[k].claimTimestamp)
    decreases |items|
  {
    if items == [] then []
    else
      [if items[0].id == id then ClaimRecord(items[0], claimerName, claimTimestamp) else items[0]]
      + ClaimById(items[1..], id, claimerName, claimTimestamp)
  }

  /** Claiming an id no record has changes nothing. */
  lemma {:induction false} ClaimAbsentIsNoop(items: seq<LostItem>, id: string, claimerName: string, claimTimestamp: int)
    requires forall it :: it in items ==> it.id != id
    ensures ClaimById(items, id, claimerName, claimTimestamp) == items
    decreases |items|
  {
    if items != [] {
      ClaimAbsentIsNoop(items[1..], id, claimerName, claimTimestamp);
    }
  }

  /** Claiming never rewrites a generated code and never turns a claimed record back into a lost one. */
  lemma ClaimKeepsCodesAndClaims(items: seq<LostItem>, id: string, claimerName: string, claimTimestamp: int, k: nat)
    requires k < |items|
    ensures var r := ClaimById(items, id, claimerName, claimTimestamp);
      && r[k].id == items[k].id
      && r[k].generatedCode == items[k].generatedCode
      && (items[k].status == Claimed ==> r[k].status == Claimed)
  {
  }

  /** A claim keeps the item-list invariant. */
  lemma ClaimKeepsItemsConsistent(items: seq<LostItem>, id: string, claimerName: string, claimTimestamp: int)
    requires ItemsConsistent(items)
    ensures ItemsConsistent(ClaimById(items, id, claimerName, claimTimestamp))
  {
    var r := ClaimById(items, id, claimerName, claimTimestamp);
    forall i, j | 0 <= i < j < |r| ensures ItemIdsDiffer(r[i], r[j]) {
      assert ItemIdsDiffer(items[i], items[j]);
    }
  }

  /** getCategoryName / getLocationName: `find(...)?.label || '未知'`. A dangling id, and also
      a rule whose label is empty, shows as 未知. */
  function NameOrUnknown(rules: seq<EncodingRule>, id: string): (name: string)
    ensures name != ""
    ensures (forall x :: x in rules ==> x.id != id) ==> name == "未知"
    ensures name != "未知" ==> exists x :: x in rules && x.id == id && x.labelText == name
    ensures forall k :: 0 <= k < |rules| && rules[k].id == id && (forall j :: 0 <= j < k ==> rules[j].id != id) ==>
      name == (if rules[k].labelText != "" then rules[k].labelText else "未知")
  {
    var r := FindById(rules, id);
    if r.Some? && r.value.labelText != "" then r.value.labelText else "未知"
  }

  function ClaimedMessage(itemName: string): string {
    "物品 " + itemName + " 已成功认领！"
  }

  /** The table view's own state: the filter, the search term and the claim dialog. */
  class ItemDataTable {
    var filterType: string
    var searchTerm: string
    var selectedItem: Option<LostItem>
    var claimingItem: Option<LostItem>
    var claimerName: string
    var claimDateStr: string

    constructor()
      ensures filterType == "all" && searchTerm == ""
      ensures selectedItem == None && claimingItem == None
      ensures claimerName == "" && claimDateStr == ""
    {
      filterType, searchTerm := "all", "";
      selectedItem, claimingItem := None, None;
      claimerName, claimDateStr := "", "";
    }

    /** The rows the table shows for the current filter and search term. */
    function Rows(g: GlobalState): (rows: seq<LostItem>)
      reads this
      ensures IsSubseq(rows, g.lostItems)
    {
      FilteredItems(g.lostItems, filterType, searchTerm)
    }

    method SetSearchTerm(term: string)
      modifies this`searchTerm
      ensures searchTerm == term
      ensures forall g :: Rows(g) == FilteredItems(g.lostItems, filterType, term)
    {
      searchTerm := term;
    }

    method SetFilterType(id: string)
      modifies this`filterType
      ensures filterType == id
      ensures forall g :: Rows(g) == FilteredItems(g.lostItems, id, searchTerm)
    {
      filterType := id;
    }

    /** The QR button of a row opens the label for that record; closing it clears the selection. */
    method ShowLabel(item: LostItem)
      modifies this`selectedItem
      ensures selectedItem == Some(item)
    {
      selectedItem := Some(item);
    }

    method CloseLabel()
      modifies this`selectedItem
      ensures selectedItem == None
    {
      selectedItem := None;
    }

    method SetClaimerName(name: string)
      modifies this`claimerName
      ensures claimerName == name
    {
      claimerName := name;
    }

    method SetClaimDate(value: string)
      modifies this`claimDateStr
      ensures claimDateStr == value
    {
      claimDateStr := value;
    }

    /** The dialog's close and cancel buttons. */
    method CancelClaim()
      modifies this`claimingItem
      ensures claimingItem == None
    {
      claimingItem := None;
    }

    /** openClaimModal, reachable only from a `lost` row; `now` is the current local date-time string. */
    method OpenClaimModal(item: LostItem, now: string)
      requires IsLost(item)
      modifies this`claimingItem, this`claimerName, this`claimDateStr
      ensures claimingItem == Some(item) && claimerName == "" && claimDateStr == now
    {
      claimingItem := Some(item);
      claimerName := "";
      claimDateStr := now;
    }

    /** submitClaim. `claimTimestamp` is the parsed claim date. The store's record with the
        dialog's id is `lost`, because only `lost` rows open the dialog. */
    method SubmitClaim(store: Store, claimTimestamp: int) returns (note: Option<Notification>)
      requires claimingItem.Some? ==>
        forall it :: it in store.state.lostItems && it.id == claimingItem.value.id ==> it.status == Lost
      modifies this`claimingItem, store
      ensures old(claimingItem.None? || claimerName == "" || claimDateStr == "") ==>
        store.state == old(store.state) && claimingItem == old(claimingItem) && note == None
      ensures old(claimingItem.Some? && claimerName != "" && claimDateStr != "") ==>
        && store.state == old(store.state).(lostItems :=
             ClaimById(old(store.state.lostItems), old(claimingItem.value.id), claimerName, claimTimestamp))
        && claimingItem == None
        && note == Some(Notification(Success, ClaimedMessage(old(claimingItem.value.itemName))))
      ensures old(ItemsConsistent(store.state.lostItems)) ==> ItemsConsistent(store.state.lostItems)
    {
      if claimingItem.None? || claimerName == "" || claimDateStr == "" {
        note := None;
        return;
      }
      var item := claimingItem.value;
      ghost var wf := ItemsConsistent(store.state.lostItems);
      if wf {
        ClaimKeepsItemsConsistent(store.state.lostItems, item.id, claimerName, claimTimestamp);
      }
      store.state := store.state.(lostItems := ClaimById(store.state.lostItems, item.id, claimerName, claimTimestamp));
      note := Some(Notification(Success, ClaimedMessage(item.itemName)));
      claimingItem := None;
    }
  }
}
