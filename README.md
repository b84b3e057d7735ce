# Telegram notifications for Bugzilla: a verified model

This project models, in Dafny, the core of a small Ruby service. The service
watches a Bugzilla tracker and posts a message to a Telegram channel for
every new bug. It has four parts, and each is modelled here with the
tracker replaced by plain input data.

- **The new-bug scan and the watermark** (`notifications.dfy`, class
  `Notifications.Notifier`). The watermark is the last bug already
  announced. The scan probes the ids above it until the first one that does
  not exist. One message is rendered per bug found, and every message goes
  to the channel. The watermark then moves to the last bug found. When
  nothing is found, nothing is formed or sent.
- **History-based change detection and its checkpoint**
  (`additional_bugs.dfy`, class `AdditionalBugScan.AdditionalBugs`). Each
  filter hash is stamped in place with the start time and sent as a search.
  The ids found are de-duplicated. A bug is kept when its history has an
  entry strictly after the start time that sets one of the filter's fields
  to the filter's value. The checkpoint is the latest-changed bug of the
  last search. The next call skips that bug when its start time equals the
  recorded time.
- **The product allow-list** (`bug_filter.dfy`, `filters.dfy`). A bug passes
  when no list is configured, when the bug has no product, or when its
  product is listed. The model proves the four unit-test cases of each class.
- **Message rendering** (`message.dfy`, and `FormMessage` in
  `notifications.dfy`). These are exact layouts of the notification texts,
  plus the one-line form used for logging.

Supporting modules:

- `wrappers.dfy` has `Option` and `Result`.
- `timestamps.dfy` has the string order Ruby uses on timestamps, and proves
  it is a strict total order.
- `tracker.dfy` has the tracker's records.
- `text.dfy` has:
  - `Integer#to_s`;
  - `Array#join`;
  - splitting into lines;
  - counting a character;
  - the `gsub` used by the logger form.

How Ruby constructs are modelled:

- A value that can be nil is an `Option`. Interpolating nil gives the empty
  string.
- The tracker's answers are function-typed `var` fields. The tracker is a
  live server, so a caller may assign new answers between two calls:
  - `bugExists` and `bugData` stand for `bug_exists?` and `bug_data`;
  - `Bugzilla.search` and `Bugzilla.history` stand for `get_bugs_by_filter`
    and `get_bug_history`.
- The channel is the list `Notifier.sent` of texts in send order.
- The watermark file is the integer field `Notifier.watermark`.
- A filter hash the caller owns and the scan mutates is an object of class
  `FilterHash`. Its `entries` field is a `map`. Two list positions may hold
  the same object, as two references to one Ruby hash can.
- `Enumerable#max_by` yields the first element with the greatest key. The model
  does the same (`LatestIndex`).

## Model

| member | source | states |
|---|---|---|
| Timestamps.Less | lib/onlyoffice_telegram_bugzilla_notifications/additional_bugs.rb:94 | Ruby `String#<` on timestamps: lexicographic by character, a proper prefix first; the `>` of line 94 and the `<=>` inside `max_by` at line 44 both use it; `LessIrreflexive`, `LessTransitive` and `LessTotal` prove it a strict total order |
| Timestamps.LessIrreflexive | lib/onlyoffice_telegram_bugzilla_notifications/additional_bugs.rb:94 | no timestamp is later than itself, so an entry at the start time is not "after" it |
| Timestamps.LessTransitive | lib/onlyoffice_telegram_bugzilla_notifications/additional_bugs.rb:44 | the string order used on timestamps is transitive |
| Timestamps.LessTotal | lib/onlyoffice_telegram_bugzilla_notifications/additional_bugs.rb:44 | any two timestamps are equal or one is earlier than the other |
| Timestamps.LessAsymmetric | lib/onlyoffice_telegram_bugzilla_notifications/additional_bugs.rb:44 | two timestamps are never each earlier than the other |
| Timestamps.NotLessIsAtLeast | lib/onlyoffice_telegram_bugzilla_notifications/additional_bugs.rb:94 | "not later than" is exactly "earlier or equal" |
| Text.IntToString | lib/onlyoffice_telegram_bugzilla_notifications.rb:66 | the decimal text of a bug id has no line break and denotes the id, with a leading minus sign for negatives and no leading zero |
| Tracker.Show | lib/onlyoffice_telegram_bugzilla_notifications/message.rb:10-17 | interpolating a value that may be nil: nil gives the empty string; the layout lemmas (`MessageLines`, `FormMessageLines`) state the texts built from it |
| Text.DigitsValue | lib/onlyoffice_telegram_bugzilla_notifications.rb:56 | `String#to_i` on a string of digits: the number it denotes; `DigitsValueOfNatToString` proves it inverts `Integer#to_s` |
| Text.DigitsValueOfNatToString | lib/onlyoffice_telegram_bugzilla_notifications.rb:55-61 | parsing the decimal text of a non-negative id gives that id back: the watermark written is the watermark read |
| Text.Escape | lib/onlyoffice_telegram_bugzilla_notifications/message.rb:27 | the escaped text has no line break and is one character longer per line break of the input |
| Text.LinesOfJoin | lib/onlyoffice_telegram_bugzilla_notifications/message.rb:10-17 | joining lines that have no line break with line breaks, then splitting, gives the lines back |
| Text.CountJoin | lib/onlyoffice_telegram_bugzilla_notifications/message.rb:10-17 | such a join holds exactly one line break fewer than it has lines |
| Text.EscapeJoin | lib/onlyoffice_telegram_bugzilla_notifications/message.rb:27 | escaping a join of lines without line breaks gives the same lines joined by a backslash and `n` |
| BugFilters.SafeInclude | lib/onlyoffice_telegram_bugzilla_notifications/bug_filter.rb:24 | `products&.include?(product)`: nil for a nil list, otherwise membership; `ProductAllowed` states the chain it is part of |
| BugFilters.Truthy | lib/onlyoffice_telegram_bugzilla_notifications/bug_filter.rb:24 | Ruby truthiness of that nil-or-boolean value, as `\|\|` reads it |
| BugFilters.ProductAllowed | lib/onlyoffice_telegram_bugzilla_notifications/bug_filter.rb:24 | the `&.include? \|\| nil? \|\| nil?` chain is true exactly when the list is absent, the product is absent or the product is listed; it is false exactly when a list is present and a present product is not on it |
| BugFilters.ByProduct | lib/onlyoffice_telegram_bugzilla_notifications/bug_filter.rb:23-25 | no list gives true, no product gives true, and otherwise the verdict is list membership |
| BugFilters.FilteredAll | lib/onlyoffice_telegram_bugzilla_notifications/bug_filter.rb:16-18 | `filtered_all?` always equals `by_product` |
| BugFilters.ListedProductDecides | lib/onlyoffice_telegram_bugzilla_notifications/bug_filter.rb:24 | with a list and a product, the verdict is exactly whether the product is listed |
| BugFilters.UnitTestCases | tests/unit/onlyoffice_telegram_bugzilla_notifications/bug_filter_by_product_spec.rb:12-46 | the four RSpec cases: listed true, not listed false, no list true, no product true |
| ProductFilters.NewFilters | lib/onlyoffice_telegram_bugzilla_notifications/filters.rb:10-15 | the object keeps its config and bug id, and its bug data is the tracker's data for that id |
| ProductFilters.ByProduct | lib/onlyoffice_telegram_bugzilla_notifications/filters.rb:26-28 | no list gives true, no product gives true, and otherwise the verdict is list membership |
| ProductFilters.CheckAll | lib/onlyoffice_telegram_bugzilla_notifications/filters.rb:19-21 | `check_all` always equals `by_product` |
| ProductFilters.VerdictDependsOnFetchedData | lib/onlyoffice_telegram_bugzilla_notifications/filters.rb:10-15 | two trackers that report the same product for the bug give the same verdict |
| ProductFilters.AgreesWithBugFilter | lib/onlyoffice_telegram_bugzilla_notifications/filters.rb:26-28 | `Filters#check_all` equals `BugFilter#filtered_all?` on the same config and bug data |
| ProductFilters.UnitTestCases | tests/unit/onlyoffice_telegram_bugzilla_notifications/bug_filter_spec.rb:12-46 | the four RSpec cases, driven through a stubbed tracker and `check_all`; that spec names `BugFilter` but calls a three-argument `new` and `check_all`, which only `Filters` has, so the model runs its cases on `Filters` |
| Messages.RealName | lib/onlyoffice_telegram_bugzilla_notifications/message.rb:12-13 | `['real_name']` of a user record, interpolated; the nil record itself is the error case of `NewMessage` |
| Messages.Heading | lib/onlyoffice_telegram_bugzilla_notifications/message.rb:10 | the first line `Bug <id>. <summary>`; `MessageEnds` proves every text starts with it |
| Messages.Link | lib/onlyoffice_telegram_bugzilla_notifications/message.rb:17 | the last line `<url>/show_bug.cgi?id=<id>`; `MessageEnds` proves every text ends with it |
| Messages.NewMessage | lib/onlyoffice_telegram_bugzilla_notifications/message.rb:9-18 | construction fails exactly when `creator_detail` or `assigned_to_detail` is nil, naming the one that is missing; otherwise the text is the eight lines of the layout joined by line breaks |
| Messages.ToS | lib/onlyoffice_telegram_bugzilla_notifications/message.rb:21-23 | `to_s` is the stored text; `MessageLines`, `MessageEnds` and `ForLogger` state what it holds |
| Messages.ForLogger | lib/onlyoffice_telegram_bugzilla_notifications/message.rb:26-28 | the logger form has no line break and is one character longer than `to_s` per line break |
| Messages.Layout | lib/onlyoffice_telegram_bugzilla_notifications/message.rb:10-17 | the layout has eight lines, beginning with the heading `Bug <id>. <summary>` and ending with the link |
| Messages.LayoutWithoutNewline | lib/onlyoffice_telegram_bugzilla_notifications/message.rb:10-17 | when no value holds a line break, no line of the layout does |
| Messages.MessageLines | lib/onlyoffice_telegram_bugzilla_notifications/message.rb:10-17 | when no value holds a line break, `to_s` splits into exactly the eight layout lines and holds seven line breaks |
| Messages.MessageEnds | lib/onlyoffice_telegram_bugzilla_notifications/message.rb:10-17 | whatever the values hold, `to_s` starts with `Bug <id>. <summary>` and a line break, and ends with a line break and `<url>/show_bug.cgi?id=<id>` |
| Messages.LoggerLine | lib/onlyoffice_telegram_bugzilla_notifications/message.rb:26-28 | when no value holds a line break, the logger form is the eight lines joined by a backslash and `n` |
| AdditionalBugScan.Stamp | lib/onlyoffice_telegram_bugzilla_notifications/additional_bugs.rb:74 | the stamped filter maps `last_change_time` to the start time, has the old keys plus that one, and keeps every other value |
| AdditionalBugScan.StampIdempotent | lib/onlyoffice_telegram_bugzilla_notifications/additional_bugs.rb:74 | stamping a stamped filter again with the same time changes nothing |
| AdditionalBugScan.EntryMatches | lib/onlyoffice_telegram_bugzilla_notifications/additional_bugs.rb:93-99 | the block of the outer `any?`: the entry is strictly after the given time and one of its changes matches; `AnyEntryMatches` proves the outer `any?` is an existential over it |
| AdditionalBugScan.MatchChangeWithFilters | lib/onlyoffice_telegram_bugzilla_notifications/additional_bugs.rb:106-110 | a change matches exactly when its field is a key of the filter and its added value is that key's value; an empty filter never matches |
| AdditionalBugScan.AnyChangeMatches | lib/onlyoffice_telegram_bugzilla_notifications/additional_bugs.rb:96-98 | true exactly when some change of the entry matches |
| AdditionalBugScan.AnyEntryMatches | lib/onlyoffice_telegram_bugzilla_notifications/additional_bugs.rb:93-99 | true exactly when some entry after the given time has a matching change |
| AdditionalBugScan.BugMatchesHistoryFilters | lib/onlyoffice_telegram_bugzilla_notifications/additional_bugs.rb:90-100 | true exactly when some entry strictly after the filter's `last_change_time` has a change that sets a filter field other than `last_change_time` to the filter's value; an empty history never matches |
| AdditionalBugScan.EntryAtStartTimeNeverMatches | lib/onlyoffice_telegram_bugzilla_notifications/additional_bugs.rb:94 | an entry at exactly the start time never matches, whatever it changes |
| AdditionalBugScan.EarlierEntryIgnored | lib/onlyoffice_telegram_bugzilla_notifications/additional_bugs.rb:93-99 | adding or removing an entry that is not after the start time never changes the verdict |
| AdditionalBugScan.Ids | lib/onlyoffice_telegram_bugzilla_notifications/additional_bugs.rb:78 | `map { \|bug\| bug['id'] }`; stated by `IdsAt` |
| AdditionalBugScan.IdsAt | lib/onlyoffice_telegram_bugzilla_notifications/additional_bugs.rb:78 | the map gives exactly one id per search hit, the id of the hit at the same position |
| AdditionalBugScan.FirstIndex | lib/onlyoffice_telegram_bugzilla_notifications/additional_bugs.rb:78 | the position of the first occurrence of an id |
| AdditionalBugScan.OrderedHasNoDuplicates | lib/onlyoffice_telegram_bugzilla_notifications/additional_bugs.rb:78 | a list in first-occurrence order has no duplicates |
| AdditionalBugScan.Uniq | lib/onlyoffice_telegram_bugzilla_notifications/additional_bugs.rb:78 | `Array#uniq`; stated by `UniqSpec` |
| AdditionalBugScan.UniqSpec | lib/onlyoffice_telegram_bugzilla_notifications/additional_bugs.rb:78 | `uniq` keeps exactly the ids of its input, without duplicates, in order of first occurrence |
| AdditionalBugScan.Kept | lib/onlyoffice_telegram_bugzilla_notifications/additional_bugs.rb:79-82 | the `select` block: false for the checkpoint bug when the start time is the checkpoint time (`next` yields nil), otherwise the history verdict for the stamped filter; `SelectSpec` and `CheckpointBugSkipped` use it |
| AdditionalBugScan.Select | lib/onlyoffice_telegram_bugzilla_notifications/additional_bugs.rb:78-83 | `Array#select` with that block; stated by `SelectSpec` and `SelectKeepsOrder` |
| AdditionalBugScan.SelectSpec | lib/onlyoffice_telegram_bugzilla_notifications/additional_bugs.rb:78-83 | `select` keeps exactly the ids that are not the skipped checkpoint bug and whose history matches |
| AdditionalBugScan.SelectKeepsOrder | lib/onlyoffice_telegram_bugzilla_notifications/additional_bugs.rb:78-83 | `select` keeps the first-occurrence order of its input |
| AdditionalBugScan.ProcessFilter | lib/onlyoffice_telegram_bugzilla_notifications/additional_bugs.rb:71-84 | the ids `process_filter_config` returns for a hash: stamp, search, map, `uniq`, `select`; stated by `ProcessFilterResult` and `CheckpointBugSkipped` |
| AdditionalBugScan.ProcessFilterResult | lib/onlyoffice_telegram_bugzilla_notifications/additional_bugs.rb:71-84 | one filter's result has no duplicates, keeps the search's first-occurrence order, and holds exactly the found ids that are not the skipped checkpoint bug and whose history matches the stamped filter |
| AdditionalBugScan.CheckpointBugSkipped | lib/onlyoffice_telegram_bugzilla_notifications/additional_bugs.rb:79 | when the start time equals the recorded checkpoint time, the checkpoint bug is never in the result |
| AdditionalBugScan.ProcessFilterStamped | lib/onlyoffice_telegram_bugzilla_notifications/additional_bugs.rb:74 | processing an already stamped filter gives the same result |
| AdditionalBugScan.ProcessFilterRestamped | lib/onlyoffice_telegram_bugzilla_notifications/additional_bugs.rb:74 | a filter that another list position already stamped gives the same stamp and the same result |
| AdditionalBugScan.FilterResult | lib/onlyoffice_telegram_bugzilla_notifications/additional_bugs.rb:71-72 | one list element's ids: `[]` for an element that is not a Hash (`return [] unless filters.is_a?(Hash)`), otherwise `ProcessFilter` of its entries |
| AdditionalBugScan.AllResults | lib/onlyoffice_telegram_bugzilla_notifications/additional_bugs.rb:30-36 | the ids `fetch_additional_bugs` returns: each filter's ids concatenated in list order, `[]` for a non-hash; stated by `AllResultsAppend` and `RepeatedFilterRepeatsBugs` |
| AdditionalBugScan.AllResultsStep | lib/onlyoffice_telegram_bugzilla_notifications/additional_bugs.rb:32-34 | the results of the first i+1 filters are those of the first i followed by filter i's |
| AdditionalBugScan.AllResultsSnoc | lib/onlyoffice_telegram_bugzilla_notifications/additional_bugs.rb:32-34 | adding one filter at the end appends its result |
| AdditionalBugScan.AllResultsAppend | lib/onlyoffice_telegram_bugzilla_notifications/additional_bugs.rb:32-34 | the results of two filter lists in a row are the concatenation of their results |
| AdditionalBugScan.RepeatedFilterRepeatsBugs | lib/onlyoffice_telegram_bugzilla_notifications/additional_bugs.rb:33 | the same filter listed twice yields its bugs twice: there is no de-duplication across filters |
| AdditionalBugScan.LastSearch | lib/onlyoffice_telegram_bugzilla_notifications/additional_bugs.rb:61 | `@bugs` after the loop; stated by `LastSearchWithoutHash` and `LastSearchOfLastHash` |
| AdditionalBugScan.LastSearchWithoutHash | lib/onlyoffice_telegram_bugzilla_notifications/additional_bugs.rb:72 | a list with no hash makes no search and leaves `@bugs` as it was |
| AdditionalBugScan.LastSearchOfLastHash | lib/onlyoffice_telegram_bugzilla_notifications/additional_bugs.rb:32-35 | `@bugs` ends as the search made for the last hash in the list |
| AdditionalBugScan.LastSearchStep | lib/onlyoffice_telegram_bugzilla_notifications/additional_bugs.rb:61 | each hash's search overwrites `@bugs`; a non-hash leaves it |
| AdditionalBugScan.LoopStep | lib/onlyoffice_telegram_bugzilla_notifications/additional_bugs.rb:32-34 | one turn of the loop extends the results and the last search by exactly filter i's contribution |
| AdditionalBugScan.LatestIndex | lib/onlyoffice_telegram_bugzilla_notifications/additional_bugs.rb:44 | `max_by`: a position whose `last_change_time` no bug exceeds, and before which every bug is strictly earlier |
| AdditionalBugScan.LaterThanLatest | lib/onlyoffice_telegram_bugzilla_notifications/additional_bugs.rb:44 | a bug later than the current maximum becomes the first maximum |
| AdditionalBugScan.NewCheckpoint | lib/onlyoffice_telegram_bugzilla_notifications/additional_bugs.rb:42-46 | there is no checkpoint exactly when `@bugs` is nil or empty; otherwise it is a searched bug whose `last_change_time` is at least every other's |
| AdditionalBugScan.SnapshotSharedAlike | lib/onlyoffice_telegram_bugzilla_notifications/additional_bugs.rb:32 | positions holding the same hash object see the same entries |
| AdditionalBugScan.PartlyStampedAll | lib/onlyoffice_telegram_bugzilla_notifications/additional_bugs.rb:32-34 | once every position has been visited, every hash is stamped |
| AdditionalBugScan.PartlyStampedSkip | lib/onlyoffice_telegram_bugzilla_notifications/additional_bugs.rb:72 | visiting a non-hash stamps nothing |
| AdditionalBugScan.StampSharedStep | lib/onlyoffice_telegram_bugzilla_notifications/additional_bugs.rb:74 | after stamping the hash at i, every position up to i is stamped and later ones are stamped at most once |
| AdditionalBugScan.FilterHash.constructor | lib/onlyoffice_telegram_bugzilla_notifications/additional_bugs.rb:71 | a filter hash holds the given entries |
| AdditionalBugScan.AdditionalBugs.constructor | lib/onlyoffice_telegram_bugzilla_notifications/additional_bugs.rb:8-12 | a new scanner has no search and no checkpoint |
| AdditionalBugScan.AdditionalBugs.GetBugsByFilters | lib/onlyoffice_telegram_bugzilla_notifications/additional_bugs.rb:60-63 | the search result is returned and stored as `@bugs` |
| AdditionalBugScan.AdditionalBugs.LastCheckTimeFromBugs | lib/onlyoffice_telegram_bugzilla_notifications/additional_bugs.rb:41-48 | with no search or an empty one it returns nil and keeps the checkpoint; otherwise it records the id and time of the latest-changed bug and returns them |
| AdditionalBugScan.AdditionalBugs.ProcessFilterConfig | lib/onlyoffice_telegram_bugzilla_notifications/additional_bugs.rb:71-84 | a non-hash yields no ids and touches neither `@bugs` nor any hash; a hash is stamped in place, its search is stored as `@bugs`, and the ids are the filter's result |
| AdditionalBugScan.AdditionalBugs.ScanStep | lib/onlyoffice_telegram_bugzilla_notifications/additional_bugs.rb:32-34 | one turn of the `each` loop, seen through the whole list: results, last search and hash contents all move on by one position |
| AdditionalBugScan.AdditionalBugs.ScanFilters | lib/onlyoffice_telegram_bugzilla_notifications/additional_bugs.rb:31-34 | the ids are the per-filter results concatenated in list order; `@bugs` is the last hash's search; every hash ends stamped |
| AdditionalBugScan.AdditionalBugs.FetchAdditionalBugs | lib/onlyoffice_telegram_bugzilla_notifications/additional_bugs.rb:30-37 | the ids are the per-filter results in list order, judged against the checkpoint as it was on entry; the checkpoint then moves to the latest-changed bug of the last search only, or stays when that search is missing or empty; every hash ends stamped |
| Notifications.FormHeading | lib/onlyoffice_telegram_bugzilla_notifications.rb:66 | the first line `Bug <id>. <summary>` of `form_message` |
| Notifications.FormLink | lib/onlyoffice_telegram_bugzilla_notifications.rb:71 | the last line `<url>/show_bug.cgi?id=<id>`; `FormMessageEndsWithLink` proves every text ends with it |
| Notifications.FormLayout | lib/onlyoffice_telegram_bugzilla_notifications.rb:64-72 | a message has six lines |
| Notifications.FormMessage | lib/onlyoffice_telegram_bugzilla_notifications.rb:64-72 | the text of `form_message`; stated by `FormMessageJoin`, `FormMessageLines` and `FormMessageEndsWithLink` |
| Notifications.FormMessageJoin | lib/onlyoffice_telegram_bugzilla_notifications.rb:64-72 | the text is the six lines, in fixed order, joined by line breaks: heading, reporter, severity, version, product and component, link |
| Notifications.FormLayoutPlain | lib/onlyoffice_telegram_bugzilla_notifications.rb:66-71 | when no value holds a line break, no line does |
| Notifications.FormMessageLines | lib/onlyoffice_telegram_bugzilla_notifications.rb:66-71 | when no value holds a line break, the text splits into exactly the six lines and holds five line breaks |
| Notifications.FormMessageEndsWithLink | lib/onlyoffice_telegram_bugzilla_notifications.rb:71 | whatever the values hold, the text ends with a line break and `<url>/show_bug.cgi?id=<id>` |
| Notifications.Rendered | lib/onlyoffice_telegram_bugzilla_notifications.rb:28-33 | one text per bug |
| Notifications.RenderedAt | lib/onlyoffice_telegram_bugzilla_notifications.rb:30-32 | the text at each position is the message for the bug at that position: scan order is kept |
| Notifications.MaximalRunUnique | lib/onlyoffice_telegram_bugzilla_notifications.rb:20-24 | from a given watermark, only one list can be consecutive from w+1, all existing, and stopped by a missing id |
| Notifications.MaximalRunEmpty | lib/onlyoffice_telegram_bugzilla_notifications.rb:20-21 | the scan finds nothing exactly when bug w+1 does not exist |
| Notifications.FirstMissing | lib/onlyoffice_telegram_bugzilla_notifications.rb:21 | the first id above the watermark that does not exist, when some does not |
| Notifications.MaximalRunLast | lib/onlyoffice_telegram_bugzilla_notifications.rb:20-24 | a run that is not empty ends at w+k, and bug w+k+1 after it does not exist |
| Notifications.RunToFirstMissing | lib/onlyoffice_telegram_bugzilla_notifications.rb:20-24 | the ids strictly between the watermark and the first missing id are such a list, so the scan's result is w+1 .. w+k with w+k+1 missing |
| Notifications.Notifier.constructor | lib/onlyoffice_telegram_bugzilla_notifications.rb:10-16 | the notifier starts from the stored watermark, with nothing scanned, formed or sent |
| Notifications.Notifier.FetchBugsToSend | lib/onlyoffice_telegram_bugzilla_notifications.rb:18-26 | the bugs to send are w+1, w+2, ... w+k, all existing, and bug w+k+1 does not exist |
| Notifications.Notifier.FormMessages | lib/onlyoffice_telegram_bugzilla_notifications.rb:28-33 | one message per bug to send, in scan order |
| Notifications.Notifier.SendMessages | lib/onlyoffice_telegram_bugzilla_notifications.rb:36-43 | the channel receives the messages in order, then the watermark is the last bug to send |
| Notifications.Notifier.UpdateLastNotifiedBug | lib/onlyoffice_telegram_bugzilla_notifications.rb:59-62 | the watermark becomes the given bug; nil is stored as an empty file, which reads back as 0 |
| Notifications.Notifier.FetchInfoAndSend | lib/onlyoffice_telegram_bugzilla_notifications.rb:45-50 | with an empty scan, nothing is formed or sent and the watermark stays; otherwise one message per new bug is sent in scan order and the watermark rises to w+k; in both cases the tracker reported bug w+1 missing, for the new watermark w |

## Left out

- Telegram delivery (`Telegram::Bot::Client.run`, `sendMessage`) is network I/O. Sending is modelled as appending to `Notifier.sent`. A send cannot fail in the model. In Ruby a `sendMessage` that raises ends `send_messages` before `update_last_notified_bug` runs (lines 37-42), so some messages may be out while the watermark stays; that failure path is not modelled.
- File persistence of the watermark (`File.read(...).to_i`, `File.write`) is modelled as the integer field `Notifier.watermark`. The parsing of arbitrary file contents by `to_i` is not modelled.
- The tracker client (`bug_exists?`, `bug_data`, `get_bug_history`, `get_bugs_by_filter`) is a foreign library. Its answers are function-typed inputs. `get_bug_history` (additional_bugs.rb:53-55) only forwards to `Bugzilla.history`, so it has no member of its own.
- The tracker's answers stay fixed during one call. A change while a call runs (for example a bug created during the scan) is concurrency and is not modelled. Between calls the answers may change, by assigning `AdditionalBugs.bugzilla` or `Notifier.bugExists` and `Notifier.bugData`.
- The YAML configuration and the `Logger` are ambient. The configured URL is a parameter; log lines are not modelled.
- `convert_filters_to_hash` (additional_bugs.rb:115-119) turns string keys into string keys. A filter is already a string-to-string map here, so it is the identity.
- `exit` in `fetch_info_and_send` ends the process. It is modelled as a return from `FetchInfoAndSend`.
- The accessors `last_checked_bug_id` and `last_checked_time` read a field. The fields are public here.
- `@bugs_to_send` is nil before the first scan, and `@messages` before the first forming. The model starts both as empty lists. So `SendMessages` called before any scan sets the watermark to 0, through `UpdateLastNotifiedBug(None)`; in Ruby that call raises `NoMethodError` on `nil.each` or `nil.last` (lines 38 and 42) and leaves the file as it was. `FetchInfoAndSend` always scans first, so it never meets this case.
- A `products` configuration entry that is not an array is not modelled. The list is an `Option<seq<string>>`.
- Timestamps are compared as strings, as the code does. Date parsing is not modelled.
- AdditionalBugScan.BugMatchesHistoryFilters: requires the filter to hold `last_change_time`. Its only caller stamps that key first. On a filter without it, Ruby would compare with nil and raise.
- Notifications.Notifier.FetchBugsToSend: requires some id above the watermark not to exist. Without one, the Ruby loop never ends.
- Notifications.Notifier.FetchInfoAndSend: requires the same, for the same reason.
- Messages.NewMessage: the code raises `NoMethodError` when `creator_detail` or `assigned_to_detail` is nil. The model follows the code and returns a `Failure`.
- `bot.rb` and `gems.rb` are a connectivity check and a dependency manifest. They are not part of this model.
