/** The records of types.ts: encoding rules, lost-item records, the global state
    and the small enumerations, plus the state cell every view receives. */
module Types {
  import opened Seqs

  /** An optional TypeScript field (`claimedBy?`, `claimTimestamp?`) or a `find` result. */
  datatype Option<T> = None | Some(value: T)

  /** A label-to-code mapping in one of the two namespaces; `code` is "" while unconfigured. */
  datatype EncodingRule = EncodingRule(id: string, labelText: string, code: string)

  /** The two lifecycle states of a record. */
  datatype Status = Lost | Claimed

  /** One lost-item record. `typeId` and `locId` refer to rules by id, not by code;
      `timestamp` and `claimTimestamp` are epoch milliseconds. */
  datatype LostItem = LostItem(
    id: string,
    typeId: string,
    locId: string,
    itemName: string,
    floor: string,
    timestamp: int,
    finder: string,
    grade: string,
    classNum: string,
    studentId: string,
    generatedCode: string,
    status: Status,
    claimedBy: Option<string>,
    claimTimestamp: Option<int>)

  /** The aggregate root: three ordered lists. */
  datatype GlobalState = GlobalState(
    categories: seq<EncodingRule>,
    locations: seq<EncodingRule>,
    lostItems: seq<LostItem>)

  datatype ViewState = Dashboard | Config | Entry | List

  datatype NotificationType = Success | Error | Info

  /** What a handler passes to `showNotification`. */
  datatype Notification = Notification(kind: NotificationType, message: string)

  predicate IsLost(item: LostItem) {
    item.status == Lost
  }

  predicate IsClaimed(item: LostItem) {
    item.status == Claimed
  }

  /** Claim details are present exactly on claimed records. */
  predicate ClaimInfoConsistent(item: LostItem) {
    && (item.status == Lost ==> item.claimedBy.None? && item.claimTimestamp.None?)
    && (item.status == Claimed ==> item.claimedBy.Some? && item.claimTimestamp.Some?)
  }

  predicate ItemIdsDiffer(a: LostItem, b: LostItem) {
    a.id != b.id
  }

  /** The item-list invariant: distinct ids, and claim details exactly on claimed records. */
  predicate ItemsConsistent(items: seq<LostItem>) {
    && Pairwise(items, ItemIdsDiffer)
    && (forall k :: 0 <= k < |items| ==> ClaimInfoConsistent(items[k]))
  }

  /** The state cell shared by all views: `state` together with `setState` (the `ViewProps`
      of types.ts); a handler's `setState(prev => ...)` is an assignment to `state`. */
  class Store {
    var state: GlobalState

    constructor(init: GlobalState)
      ensures state == init
    {
      state := init;
    }
  }
}
