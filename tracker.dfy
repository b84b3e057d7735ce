/**
 * The records the bug tracker hands back, as the notifier reads them.
 * A field the tracker may leave out (nil in Ruby) is an Option.
 */
module Tracker {
  import opened Wrappers
  import opened Timestamps

  /** A user record such as `creator_detail`; only its `real_name` is read. */
  datatype Detail = Detail(realName: Option<string>)

  /** The result of `bug_data(id)`: the keys the notifier reads. */
  datatype BugData = BugData(
    id: int,
    summary: Option<string>,
    status: Option<string>,
    creator: Option<string>,
    creatorDetail: Option<Detail>,
    assignedToDetail: Option<Detail>,
    severity: Option<string>,
    version: Option<string>,
    product: Option<string>,
    component: Option<string>)

  /** One bug of a filtered search: its `id` and `last_change_time`. */
  datatype SearchHit = SearchHit(id: int, lastChangeTime: Timestamp)

  /** One field change inside a history entry. */
  datatype Change = Change(fieldName: string, removed: string, added: string)

  /** One edit event of a bug's history: its `when` and its `changes`. */
  datatype HistoryEntry = HistoryEntry(when: Timestamp, changes: seq<Change>)

  /** String interpolation `"#{v}"`: nil renders as the empty string. */
  function Show(v: Option<string>): string
  {
    match v
    case None => ""
    case Some(s) => s
  }
}
