/**
 * additional_bugs.rb: bugs found not by a new id but by a change in their
 * history. Each filter hash of a chat is stamped with the start time, sent
 * to the tracker as a search, and a found bug is kept when one of its
 * history entries after the start time sets a field to the filter's value.
 * The object remembers the latest-changed bug of the last search as its
 * checkpoint.
 */
module AdditionalBugScan {
  import opened Wrappers
  import opened Timestamps
  import opened Tracker

  /** The tracker calls the scan makes: `get_bugs_by_filter` and `get_bug_history`. */
  datatype Bugzilla = Bugzilla(search: map<string, string> -> seq<SearchHit>,
                               history: int -> seq<HistoryEntry>)

  /** The key the start time is written to, and which the history check skips. */
  const TimeKey: string := "last_change_time"

  // ---------------------------------------------------------------------
  // Matching one bug's history against a filter

  /** `filters['last_change_time'] = start_check_time`, as a value. */
  function Stamp(filters: map<string, string>, start: Timestamp): (r: map<string, string>)
    ensures TimeKey in r && r[TimeKey] == start
    ensures r.Keys == filters.Keys + {TimeKey}
    ensures forall k :: k in filters && k != TimeKey ==> r[k] == filters[k]
  {
    filters[TimeKey := start]
  }

  /** Stamping twice with the same time is stamping once. */
  lemma StampIdempotent(filters: map<string, string>, start: Timestamp)
    ensures Stamp(Stamp(filters, start), start) == Stamp(filters, start)
  {
    var once := Stamp(filters, start);
    var twice := Stamp(once, start);
    assert twice.Keys == once.Keys;
    assert forall k :: k in once ==> twice[k] == once[k];
  }

  /** match_change_with_filters?: some pair of the filter is the change's field and added value. */
  function MatchChangeWithFilters(change: Change, filters: map<string, string>): (r: bool)
    ensures r <==> change.fieldName in filters && filters[change.fieldName] == change.added
    ensures filters == map[] ==> !r
  {
    exists field | field in filters :: change.fieldName == field && change.added == filters[field]
  }

  /** The inner `history['changes'].any?`. */
  function AnyChangeMatches(changes: seq<Change>, filters: map<string, string>): (r: bool)
    ensures r <==> exists j :: 0 <= j < |changes| && MatchChangeWithFilters(changes[j], filters)
    decreases |changes|
  {
    changes != [] && (MatchChangeWithFilters(changes[0], filters) || AnyChangeMatches(changes[1..], filters))
  }

  /** The block of the outer `any?`: `next unless history['when'] > since`, then the changes. */
  predicate EntryMatches(entry: HistoryEntry, since: Timestamp, filters: map<string, string>)
  {
    Less(since, entry.when) && AnyChangeMatches(entry.changes, filters)
  }

  /** The outer `bug_history.any?`. */
  function AnyEntryMatches(history: seq<HistoryEntry>, since: Timestamp, filters: map<string, string>): (r: bool)
    ensures r <==> exists i :: 0 <= i < |history| && EntryMatches(history[i], since, filters)
    decreases |history|
  {
    history != [] && (EntryMatches(history[0], since, filters) || AnyEntryMatches(history[1..], since, filters))
  }

  /**
   * bug_matches_history_filters?: some history entry strictly after
   * `filters['last_change_time']` has a change whose field and added value are
   * a pair of the filter other than the time key itself.
   */
  function BugMatchesHistoryFilters(history: seq<HistoryEntry>, filters: map<string, string>): (r: bool)
    requires TimeKey in filters
    ensures r <==> exists i, j :: 0 <= i < |history| && 0 <= j < |history[i].changes|
                    && Less(filters[TimeKey], history[i].when)
                    && history[i].changes[j].fieldName != TimeKey
                    && history[i].changes[j].fieldName in filters
                    && filters[history[i].changes[j].fieldName] == history[i].changes[j].added
    ensures history == [] ==> !r
  {
    AnyEntryMatches(history, filters[TimeKey], filters - {TimeKey})
  }

  /** An entry stamped exactly at the start time never matches, whatever it changed. */
  lemma EntryAtStartTimeNeverMatches(entry: HistoryEntry, filters: map<string, string>)
    requires TimeKey in filters && entry.when == filters[TimeKey]
    ensures !BugMatchesHistoryFilters([entry], filters)
  {
    LessIrreflexive(entry.when);
  }

  /** Entries at or before the start time can be added anywhere without changing the verdict. */
  lemma EarlierEntryIgnored(before: seq<HistoryEntry>, entry: HistoryEntry, after: seq<HistoryEntry>,
                            filters: map<string, string>)
    requires TimeKey in filters && !Less(filters[TimeKey], entry.when)
    ensures BugMatchesHistoryFilters(before + [entry] + after, filters)
            == BugMatchesHistoryFilters(before + after, filters)
  {
    var since := filters[TimeKey];
    var hf := filters - {TimeKey};
    var long := before + [entry] + after;
    var short := before + after;
    if AnyEntryMatches(long, since, hf) {
      var i :| 0 <= i < |long| && EntryMatches(long[i], since, hf);
      if i < |before| {
        assert short[i] == long[i];
      } else {
        assert i > |before|;
        assert short[i - 1] == long[i];
      }
    }
    if AnyEntryMatches(short, since, hf) {
      var i :| 0 <= i < |short| && EntryMatches(short[i], since, hf);
      if i < |before| {
        assert long[i] == short[i];
      } else {
        assert long[i + 1] == short[i];
      }
    }
  }

  // ---------------------------------------------------------------------
  // `.map { |bug| bug['id'] }.uniq.select { ... }`

  /** `.map { |bug| bug['id'] }`. */
  function Ids(hits: seq<SearchHit>): seq<int>
    decreases |hits|
  {
    if hits == [] then [] else Ids(hits[..|hits| - 1]) + [hits[|hits| - 1].id]
  }

  /** `.map` gives one id per hit, in the order of the hits. */
  lemma {:induction false} IdsAt(hits: seq<SearchHit>)
    ensures |Ids(hits)| == |hits|
    ensures forall i :: 0 <= i < |hits| ==> Ids(hits)[i] == hits[i].id
    decreases |hits|
  {
    if hits != [] {
      IdsAt(hits[..|hits| - 1]);
    }
  }

  predicate NoDuplicates(s: seq<int>)
  {
    forall i, j :: 0 <= i < j < |s| ==> s[i] != s[j]
  }

  /** The position of the first occurrence of `x` in `s`. */
  function FirstIndex(s: seq<int>, x: int): (k: nat)
    requires x in s
    ensures k < |s| && s[k] == x && x !in s[..k]
  {
    if s[0] == x then 0
    else
      var k := FirstIndex(s[1..], x);
      assert s[..k + 1] == [s[0]] + s[1..][..k];
      k + 1
  }

  lemma FirstIndexUnique(s: seq<int>, x: int, k: nat)
    requires k < |s| && s[k] == x && x !in s[..k]
    ensures FirstIndex(s, x) == k
  {
  }

  /** Every element of `r` is in `s`, and `r` lists them in the order of their first occurrence in `s`. */
  predicate InFirstOccurrenceOrder(r: seq<int>, s: seq<int>)
  {
    (forall x :: x in r ==> x in s)
    && forall i, j :: 0 <= i < j < |r| ==> FirstIndex(s, r[i]) < FirstIndex(s, r[j])
  }

  lemma OrderedHasNoDuplicates(r: seq<int>, s: seq<int>)
    requires InFirstOccurrenceOrder(r, s)
    ensures NoDuplicates(r)
  {
  }

  /** Array#uniq: keeps an element only when it did not occur before. */
  function Uniq(s: seq<int>): seq<int>
    decreases |s|
  {
    if s == [] then []
    else
      var p := Uniq(s[..|s| - 1]);
      if s[|s| - 1] in p then p else p + [s[|s| - 1]]
  }

  /** Array#uniq keeps each element of `s` once, in the order of first occurrence. */
  lemma {:induction false} UniqSpec(s: seq<int>)
    ensures forall x :: x in Uniq(s) <==> x in s
    ensures InFirstOccurrenceOrder(Uniq(s), s)
    ensures NoDuplicates(Uniq(s))
    decreases |s|
  {
    if s != [] {
      var init := s[..|s| - 1];
      var last := s[|s| - 1];
      var p := Uniq(init);
      UniqSpec(init);
      forall x | x in init ensures FirstIndex(s, x) == FirstIndex(init, x) {
        var k := FirstIndex(init, x);
        assert s[..k] == init[..k];
        FirstIndexUnique(s, x, k);
      }
      assert forall x :: x in s <==> x in init || x == last;
      if last !in p {
        FirstIndexUnique(s, last, |s| - 1);
        var r := p + [last];
        assert forall i :: 0 <= i < |p| ==> r[i] == p[i] && p[i] in init;
      }
    }
  }

  /**
   * The `select` block: `next` (nil, so the bug is dropped) for the bug of
   * the remembered checkpoint when the start time is the checkpoint's time;
   * otherwise whether its history matches the stamped filter.
   */
  predicate Kept(id: int, filters: map<string, string>, start: Timestamp,
                 lastId: Option<int>, lastTime: Option<Timestamp>, bz: Bugzilla)
  {
    !(Some(id) == lastId && Some(start) == lastTime)
    && TimeKey in filters && BugMatchesHistoryFilters(bz.history(id), filters)
  }

  /** Array#select with the block above. */
  function Select(ids: seq<int>, filters: map<string, string>, start: Timestamp,
                  lastId: Option<int>, lastTime: Option<Timestamp>, bz: Bugzilla): seq<int>
    decreases |ids|
  {
    if ids == [] then []
    else
      var p := Select(ids[..|ids| - 1], filters, start, lastId, lastTime, bz);
      if Kept(ids[|ids| - 1], filters, start, lastId, lastTime, bz) then p + [ids[|ids| - 1]] else p
  }

  /** Selecting keeps exactly the elements for which the block is true. */
  lemma {:induction false} SelectSpec(ids: seq<int>, filters: map<string, string>, start: Timestamp,
                                      lastId: Option<int>, lastTime: Option<Timestamp>, bz: Bugzilla)
    ensures forall x :: x in Select(ids, filters, start, lastId, lastTime, bz)
                        <==> x in ids && Kept(x, filters, start, lastId, lastTime, bz)
    decreases |ids|
  {
    if ids != [] {
      var init := ids[..|ids| - 1];
      assert forall x :: x in ids <==> x in init || x == ids[|ids| - 1];
      SelectSpec(init, filters, start, lastId, lastTime, bz);
    }
  }

  /** Selecting keeps the order of first occurrence. */
  lemma {:induction false} SelectKeepsOrder(ids: seq<int>, s: seq<int>, filters: map<string, string>,
                                            start: Timestamp, lastId: Option<int>,
                                            lastTime: Option<Timestamp>, bz: Bugzilla)
    requires InFirstOccurrenceOrder(ids, s)
    ensures InFirstOccurrenceOrder(Select(ids, filters, start, lastId, lastTime, bz), s)
    decreases |ids|
  {
    if ids != [] {
      var init := ids[..|ids| - 1];
      var last := ids[|ids| - 1];
      assert forall x :: x in init ==> x in ids;
      assert InFirstOccurrenceOrder(init, s) by {
        assert forall i :: 0 <= i < |init| ==> init[i] == ids[i];
      }
      SelectKeepsOrder(init, s, filters, start, lastId, lastTime, bz);
      SelectSpec(init, filters, start, lastId, lastTime, bz);
      var p := Select(init, filters, start, lastId, lastTime, bz);
      if Kept(last, filters, start, lastId, lastTime, bz) {
        var r := p + [last];
        forall i, j | 0 <= i < j < |r| ensures FirstIndex(s, r[i]) < FirstIndex(s, r[j]) {
          if j == |p| {
            assert r[i] == p[i] && p[i] in init;
            var k :| 0 <= k < |init| && init[k] == p[i];
            assert ids[k] == r[i] && ids[|ids| - 1] == r[j];
          } else {
            assert r[i] == p[i] && r[j] == p[j];
          }
        }
      }
    }
  }

  /** The ids process_filter_config returns for a filter hash with the given entries. */
  function ProcessFilter(entries: map<string, string>, start: Timestamp,
                         lastId: Option<int>, lastTime: Option<Timestamp>, bz: Bugzilla): seq<int>
  {
    var stamped := Stamp(entries, start);
    Select(Uniq(Ids(bz.search(stamped))), stamped, start, lastId, lastTime, bz)
  }

  /**
   * One filter's result lists, without duplicates and in the order of their
   * first occurrence, exactly those ids of the stamped search whose bug is kept.
   */
  lemma ProcessFilterResult(entries: map<string, string>, start: Timestamp,
                            lastId: Option<int>, lastTime: Option<Timestamp>, bz: Bugzilla)
    ensures var stamped := Stamp(entries, start);
            var found := Ids(bz.search(stamped));
            var r := ProcessFilter(entries, start, lastId, lastTime, bz);
            NoDuplicates(r) && InFirstOccurrenceOrder(r, found)
            && forall x :: x in r <==> x in found && !(Some(x) == lastId && Some(start) == lastTime)
                                       && BugMatchesHistoryFilters(bz.history(x), stamped)
  {
    var stamped := Stamp(entries, start);
    var found := Ids(bz.search(stamped));
    var u := Uniq(found);
    UniqSpec(found);
    SelectSpec(u, stamped, start, lastId, lastTime, bz);
    SelectKeepsOrder(u, found, stamped, start, lastId, lastTime, bz);
    OrderedHasNoDuplicates(ProcessFilter(entries, start, lastId, lastTime, bz), found);
  }

  /** The checkpoint's bug is dropped, whatever its history, when the start time is the checkpoint's time. */
  lemma CheckpointBugSkipped(entries: map<string, string>, start: Timestamp, lastId: int, bz: Bugzilla)
    ensures lastId !in ProcessFilter(entries, start, Some(lastId), Some(start), bz)
  {
    var stamped := Stamp(entries, start);
    SelectSpec(Uniq(Ids(bz.search(stamped))), stamped, start, Some(lastId), Some(start), bz);
  }

  /** Stamping the hash before processing it changes nothing: the filter stamps it anyway. */
  lemma ProcessFilterStamped(entries: map<string, string>, start: Timestamp,
                             lastId: Option<int>, lastTime: Option<Timestamp>, bz: Bugzilla)
    ensures ProcessFilter(Stamp(entries, start), start, lastId, lastTime, bz)
            == ProcessFilter(entries, start, lastId, lastTime, bz)
  {
    StampIdempotent(entries, start);
  }

  /** A hash that is unstamped or already stamped is processed as if it were unstamped. */
  lemma ProcessFilterRestamped(entries: map<string, string>, current: map<string, string>, start: Timestamp,
                               lastId: Option<int>, lastTime: Option<Timestamp>, bz: Bugzilla)
    requires current == entries || current == Stamp(entries, start)
    ensures Stamp(current, start) == Stamp(entries, start)
    ensures ProcessFilter(current, start, lastId, lastTime, bz) == ProcessFilter(entries, start, lastId, lastTime, bz)
  {
    StampIdempotent(entries, start);
  }

  // ---------------------------------------------------------------------
  // The whole filter list, and the checkpoint

  /** The result for one element of the filter list: `[]` for an element that is not a Hash. */
  function FilterResult(filter: Option<map<string, string>>, start: Timestamp,
                        lastId: Option<int>, lastTime: Option<Timestamp>, bz: Bugzilla): seq<int>
  {
    match filter
    case None => []
    case Some(entries) => ProcessFilter(entries, start, lastId, lastTime, bz)
  }

  /** fetch_additional_bugs' result: the per-filter results concatenated in list order. */
  function AllResults(filters: seq<Option<map<string, string>>>, start: Timestamp,
                      lastId: Option<int>, lastTime: Option<Timestamp>, bz: Bugzilla): seq<int>
    decreases |filters|
  {
    if filters == [] then []
    else AllResults(filters[..|filters| - 1], start, lastId, lastTime, bz)
         + FilterResult(filters[|filters| - 1], start, lastId, lastTime, bz)
  }

  lemma AllResultsStep(filters: seq<Option<map<string, string>>>, i: nat, start: Timestamp,
                       lastId: Option<int>, lastTime: Option<Timestamp>, bz: Bugzilla)
    requires i < |filters|
    ensures AllResults(filters[..i + 1], start, lastId, lastTime, bz)
            == AllResults(filters[..i], start, lastId, lastTime, bz)
               + FilterResult(filters[i], start, lastId, lastTime, bz)
  {
    assert filters[..i + 1][..i] == filters[..i];
  }

  lemma AllResultsSnoc(filters: seq<Option<map<string, string>>>, f: Option<map<string, string>>,
                       start: Timestamp, lastId: Option<int>, lastTime: Option<Timestamp>, bz: Bugzilla)
    ensures AllResults(filters + [f], start, lastId, lastTime, bz)
            == AllResults(filters, start, lastId, lastTime, bz) + FilterResult(f, start, lastId, lastTime, bz)
  {
    assert (filters + [f])[..|filters|] == filters;
  }

  /** The results of two parts of the list are concatenated: no de-duplication across filters. */
  lemma {:induction false} AllResultsAppend(a: seq<Option<map<string, string>>>, b: seq<Option<map<string, string>>>,
                                            start: Timestamp, lastId: Option<int>,
                                            lastTime: Option<Timestamp>, bz: Bugzilla)
    ensures AllResults(a + b, start, lastId, lastTime, bz)
            == AllResults(a, start, lastId, lastTime, bz) + AllResults(b, start, lastId, lastTime, bz)
    decreases |b|
  {
    if b == [] {
      assert a + b == a;
    } else {
      var b', f := b[..|b| - 1], b[|b| - 1];
      assert b == b' + [f];
      assert a + b == (a + b') + [f];
      AllResultsAppend(a, b', start, lastId, lastTime, bz);
      AllResultsSnoc(a + b', f, start, lastId, lastTime, bz);
      AllResultsSnoc(b', f, start, lastId, lastTime, bz);
      ConcatAssoc(AllResults(a, start, lastId, lastTime, bz), AllResults(b', start, lastId, lastTime, bz),
                  FilterResult(f, start, lastId, lastTime, bz));
    }
  }

  lemma ConcatAssoc(x: seq<int>, y: seq<int>, z: seq<int>)
    ensures x + y + z == x + (y + z)
  {
  }

  /** The same filter listed twice yields its bugs twice. */
  lemma RepeatedFilterRepeatsBugs(entries: map<string, string>, start: Timestamp,
                                  lastId: Option<int>, lastTime: Option<Timestamp>, bz: Bugzilla)
    ensures var once := ProcessFilter(entries, start, lastId, lastTime, bz);
            AllResults([Some(entries), Some(entries)], start, lastId, lastTime, bz) == once + once
  {
    var f := Some(entries);
    AllResultsSnoc([], f, start, lastId, lastTime, bz);
    AllResultsSnoc([f], f, start, lastId, lastTime, bz);
    assert [] + [f] == [f] && [f] + [f] == [f, f];
  }

  /** `@bugs` after the list: the search of the last Hash in it, or what it was before. */
  function LastSearch(filters: seq<Option<map<string, string>>>, start: Timestamp, bz: Bugzilla,
                      before: Option<seq<SearchHit>>): Option<seq<SearchHit>>
    decreases |filters|
  {
    if filters == [] then before
    else
      var last := filters[|filters| - 1];
      if last.Some? then Some(bz.search(Stamp(last.value, start)))
      else LastSearch(filters[..|filters| - 1], start, bz, before)
  }

  /** A list without a Hash leaves `@bugs` as it was. */
  lemma {:induction false} LastSearchWithoutHash(filters: seq<Option<map<string, string>>>, start: Timestamp,
                                                 bz: Bugzilla, before: Option<seq<SearchHit>>)
    requires forall i :: 0 <= i < |filters| ==> filters[i].None?
    ensures LastSearch(filters, start, bz, before) == before
    decreases |filters|
  {
    if filters != [] {
      var init := filters[..|filters| - 1];
      assert forall i :: 0 <= i < |init| ==> init[i] == filters[i];
      LastSearchWithoutHash(init, start, bz, before);
    }
  }

  /** Each search overwrites `@bugs`: after the list it holds the search of the last Hash in it. */
  lemma {:induction false} LastSearchOfLastHash(filters: seq<Option<map<string, string>>>, i: nat, start: Timestamp,
                                                bz: Bugzilla, before: Option<seq<SearchHit>>)
    requires i < |filters| && filters[i].Some?
    requires forall j :: i < j < |filters| ==> filters[j].None?
    ensures LastSearch(filters, start, bz, before) == Some(bz.search(Stamp(filters[i].value, start)))
    decreases |filters|
  {
    if i < |filters| - 1 {
      var init := filters[..|filters| - 1];
      assert forall j :: i < j < |init| ==> init[j] == filters[j];
      LastSearchOfLastHash(init, i, start, bz, before);
    }
  }

  lemma LastSearchStep(filters: seq<Option<map<string, string>>>, i: nat, start: Timestamp, bz: Bugzilla,
                       before: Option<seq<SearchHit>>)
    requires i < |filters|
    ensures LastSearch(filters[..i + 1], start, bz, before)
            == if filters[i].Some? then Some(bz.search(Stamp(filters[i].value, start)))
               else LastSearch(filters[..i], start, bz, before)
  {
    assert filters[..i + 1][..i] == filters[..i];
  }

  /** One turn of fetch_additional_bugs' loop, on the snapshot of the list. */
  lemma LoopStep(snap: seq<Option<map<string, string>>>, cur: seq<Option<map<string, string>>>, i: nat,
                 start: Timestamp, lastId: Option<int>, lastTime: Option<Timestamp>, bz: Bugzilla,
                 before: Option<seq<SearchHit>>,
                 result: seq<int>, bugs: Option<seq<SearchHit>>, ids: seq<int>, bugs': Option<seq<SearchHit>>)
    requires i < |snap| && PartlyStamped(cur, snap, i, start)
    requires result == AllResults(snap[..i], start, lastId, lastTime, bz)
    requires bugs == LastSearch(snap[..i], start, bz, before)
    requires snap[i].None? ==> ids == [] && bugs' == bugs
    requires snap[i].Some? ==> ids == ProcessFilter(cur[i].value, start, lastId, lastTime, bz)
                               && bugs' == Some(bz.search(Stamp(cur[i].value, start)))
    ensures result + ids == AllResults(snap[..i + 1], start, lastId, lastTime, bz)
    ensures bugs' == LastSearch(snap[..i + 1], start, bz, before)
  {
    if snap[i].Some? {
      ProcessFilterRestamped(snap[i].value, cur[i].value, start, lastId, lastTime, bz);
    }
    AllResultsStep(snap, i, start, lastId, lastTime, bz);
    LastSearchStep(snap, i, start, bz, before);
  }

  /**
   * The position `@bugs.max_by { |bug| bug['last_change_time'] }` picks: a bug
   * changed no earlier than any other, and the first such bug, since max_by
   * replaces its candidate only on a strictly greater key.
   */
  function LatestIndex(hits: seq<SearchHit>): (k: nat)
    requires |hits| > 0
    ensures k < |hits|
    ensures forall j :: 0 <= j < |hits| ==> !Less(hits[k].lastChangeTime, hits[j].lastChangeTime)
    ensures forall j :: 0 <= j < k ==> Less(hits[j].lastChangeTime, hits[k].lastChangeTime)
    decreases |hits|
  {
    if |hits| == 1 then
      LessIrreflexive(hits[0].lastChangeTime);
      0
    else
      var n := |hits| - 1;
      var m := LatestIndex(hits[..n]);
      assert forall j :: 0 <= j < n ==> hits[..n][j] == hits[j];
      if Less(hits[m].lastChangeTime, hits[n].lastChangeTime) then
        LaterThanLatest(hits, m, n);
        n
      else
        LessIrreflexive(hits[m].lastChangeTime);
        NotLessIsAtLeast(hits[m].lastChangeTime, hits[n].lastChangeTime);
        m
  }

  /** A key above the maximum of a prefix is above every key of the prefix. */
  lemma LaterThanLatest(hits: seq<SearchHit>, m: nat, n: nat)
    requires m < n < |hits|
    requires forall j :: 0 <= j < n ==> !Less(hits[m].lastChangeTime, hits[j].lastChangeTime)
    requires Less(hits[m].lastChangeTime, hits[n].lastChangeTime)
    ensures forall j :: 0 <= j < n ==> Less(hits[j].lastChangeTime, hits[n].lastChangeTime)
    ensures forall j :: 0 <= j <= n ==> !Less(hits[n].lastChangeTime, hits[j].lastChangeTime)
  {
    forall j | 0 <= j < n ensures Less(hits[j].lastChangeTime, hits[n].lastChangeTime) {
      NotLessIsAtLeast(hits[m].lastChangeTime, hits[j].lastChangeTime);
      if hits[j].lastChangeTime != hits[m].lastChangeTime {
        LessTransitive(hits[j].lastChangeTime, hits[m].lastChangeTime, hits[n].lastChangeTime);
      }
    }
    forall j | 0 <= j <= n ensures !Less(hits[n].lastChangeTime, hits[j].lastChangeTime) {
      if j < n {
        LessAsymmetric(hits[j].lastChangeTime, hits[n].lastChangeTime);
      } else {
        LessIrreflexive(hits[n].lastChangeTime);
      }
    }
  }

  /** last_check_time_from_bugs' outcome: no checkpoint for nil or empty `@bugs`, else the latest hit. */
  function NewCheckpoint(bugs: Option<seq<SearchHit>>): (r: Option<SearchHit>)
    ensures r.None? <==> bugs.None? || bugs.value == []
    ensures r.Some? ==> r.value in bugs.value
                        && forall h :: h in bugs.value ==> !Less(r.value.lastChangeTime, h.lastChangeTime)
  {
    if bugs.None? || bugs.value == [] then None else Some(bugs.value[LatestIndex(bugs.value)])
  }

  // ---------------------------------------------------------------------
  // The stateful object

  /** A filter hash of the chat's configuration, which the scan stamps in place. */
  class FilterHash {
    var entries: map<string, string>

    constructor (entries: map<string, string>)
      ensures this.entries == entries
    {
      this.entries := entries;
    }
  }

  /** An element of the configured filter list: a Hash, or anything else. */
  datatype FilterEntry = HashEntry(hash: FilterHash) | OtherEntry

  function Hashes(list: seq<FilterEntry>): set<FilterHash>
  {
    set i | 0 <= i < |list| && list[i].HashEntry? :: list[i].hash
  }

  /** The entries of each Hash in the list, as values. */
  function Snapshot(list: seq<FilterEntry>): (r: seq<Option<map<string, string>>>)
    reads Hashes(list)
    ensures |r| == |list|
  {
    seq(|list|, i requires 0 <= i < |list| reads Hashes(list) =>
      if list[i].HashEntry? then Some(list[i].hash.entries) else None)
  }

  /** Elements that share one Hash object have the same entries in `snap`. */
  ghost predicate SharedAlike(list: seq<FilterEntry>, snap: seq<Option<map<string, string>>>)
  {
    |snap| == |list|
    && (forall j :: 0 <= j < |list| ==> (snap[j].Some? <==> list[j].HashEntry?))
    && forall j, k :: (0 <= j < |list| && 0 <= k < |list| && list[j].HashEntry? && list[k].HashEntry?
                       && list[j].hash == list[k].hash) ==> snap[j] == snap[k]
  }

  lemma SnapshotSharedAlike(list: seq<FilterEntry>)
    ensures SharedAlike(list, Snapshot(list))
  {
  }

  /**
   * Part way through the list: every Hash holds its original entries or their
   * stamped form, and the Hashes of the first `i` elements are stamped.
   */
  ghost predicate PartlyStamped(cur: seq<Option<map<string, string>>>, snap: seq<Option<map<string, string>>>,
                                i: nat, start: Timestamp)
  {
    |cur| == |snap|
    && forall j :: 0 <= j < |snap| ==>
         (cur[j].Some? <==> snap[j].Some?)
         && (snap[j].Some? ==> (cur[j].value == snap[j].value || cur[j].value == Stamp(snap[j].value, start))
                               && (j < i ==> cur[j].value == Stamp(snap[j].value, start)))
  }

  /** Every Hash of the list stamped with the start time. */
  function StampAll(snap: seq<Option<map<string, string>>>, start: Timestamp): (r: seq<Option<map<string, string>>>)
    ensures |r| == |snap|
  {
    seq(|snap|, j requires 0 <= j < |snap| => if snap[j].Some? then Some(Stamp(snap[j].value, start)) else None)
  }

  lemma PartlyStampedAll(cur: seq<Option<map<string, string>>>, snap: seq<Option<map<string, string>>>,
                         start: Timestamp)
    requires PartlyStamped(cur, snap, |snap|, start)
    ensures cur == StampAll(snap, start)
  {
    assert forall j :: 0 <= j < |snap| ==> cur[j] == StampAll(snap, start)[j];
  }

  lemma PartlyStampedSkip(cur: seq<Option<map<string, string>>>, snap: seq<Option<map<string, string>>>,
                          i: nat, start: Timestamp)
    requires PartlyStamped(cur, snap, i, start) && i < |snap| && snap[i].None?
    ensures PartlyStamped(cur, snap, i + 1, start)
  {
  }

  /** The entries after element `i`'s Hash is stamped: every element sharing that object sees it. */
  ghost function StampShared(cur: seq<Option<map<string, string>>>, list: seq<FilterEntry>, i: nat,
                             start: Timestamp): (r: seq<Option<map<string, string>>>)
    requires |cur| == |list| && i < |list| && list[i].HashEntry? && cur[i].Some?
    ensures |r| == |cur|
  {
    seq(|cur|, j requires 0 <= j < |cur| =>
      if list[j].HashEntry? && list[j].hash == list[i].hash then Some(Stamp(cur[i].value, start)) else cur[j])
  }

  lemma StampSharedStep(cur: seq<Option<map<string, string>>>, snap: seq<Option<map<string, string>>>,
                        list: seq<FilterEntry>, i: nat, start: Timestamp)
    requires SharedAlike(list, snap) && PartlyStamped(cur, snap, i, start)
    requires i < |list| && list[i].HashEntry?
    ensures PartlyStamped(StampShared(cur, list, i, start), snap, i + 1, start)
  {
    var next := StampShared(cur, list, i, start);
    StampIdempotent(snap[i].value, start);
    forall j | 0 <= j < |snap| && list[j].HashEntry? && list[j].hash == list[i].hash
      ensures next[j] == Some(Stamp(snap[j].value, start))
    {
      assert snap[j] == snap[i];
    }
  }

  class AdditionalBugs {
    /**
     * `@bugzilla`: the answers the tracker gives now. The tracker is a live
     * server, so between two calls its answers may change; that is an
     * assignment to this field. During one call they stay fixed.
     */
    var bugzilla: Bugzilla
    /** `@bugs`: the result of the latest search, nil before the first. */
    var bugs: Option<seq<SearchHit>>
    /** `@last_checked_bug_id` and `@last_checked_time`: the checkpoint. */
    var lastCheckedBugId: Option<int>
    var lastCheckedTime: Option<Timestamp>

    constructor (bugzilla: Bugzilla)
      ensures this.bugzilla == bugzilla
      ensures bugs == None && lastCheckedBugId == None && lastCheckedTime == None
    {
      this.bugzilla := bugzilla;
      bugs := None;
      lastCheckedBugId := None;
      lastCheckedTime := None;
    }

    /** get_bugs_by_filters: search and remember the result in `@bugs`. */
    method GetBugsByFilters(filters: map<string, string>) returns (found: seq<SearchHit>)
      modifies this`bugs
      ensures found == bugzilla.search(filters) && bugs == Some(found)
    {
      found := bugzilla.search(filters);
      bugs := Some(found);
    }

    /** last_check_time_from_bugs. */
    method LastCheckTimeFromBugs() returns (r: Option<SearchHit>)
      modifies this`lastCheckedBugId, this`lastCheckedTime
      ensures r == NewCheckpoint(bugs)
      ensures r.None? ==> lastCheckedBugId == old(lastCheckedBugId) && lastCheckedTime == old(lastCheckedTime)
      ensures r.Some? ==> lastCheckedBugId == Some(r.value.id) && lastCheckedTime == Some(r.value.lastChangeTime)
    {
      if bugs.None? || bugs.value == [] {
        return None;
      }
      var latest := bugs.value[LatestIndex(bugs.value)];
      lastCheckedBugId := Some(latest.id);
      lastCheckedTime := Some(latest.lastChangeTime);
      r := Some(latest);
    }

    /** process_filter_config: stamp the hash, search with it, and keep the matching ids. */
    method ProcessFilterConfig(filter: FilterEntry, start: Timestamp) returns (ids: seq<int>)
      modifies this`bugs, if filter.HashEntry? then {filter.hash} else {}
      ensures filter.OtherEntry? ==> ids == [] && bugs == old(bugs)
      ensures filter.HashEntry? ==>
                filter.hash.entries == Stamp(old(filter.hash.entries), start)
                && bugs == Some(bugzilla.search(filter.hash.entries))
                && ids == ProcessFilter(old(filter.hash.entries), start, lastCheckedBugId, lastCheckedTime, bugzilla)
    {
      if filter.OtherEntry? {
        return [];
      }
      filter.hash.entries := filter.hash.entries[TimeKey := start];
      // convert_filters_to_hash: the keys are strings already
      var filtersHash := filter.hash.entries;
      var found := GetBugsByFilters(filtersHash);
      ids := Select(Uniq(Ids(found)), filter.hash.entries, start, lastCheckedBugId, lastCheckedTime, bugzilla);
    }

    /**
     * One turn of the `filters_list.each` loop: the filter at `i` is processed
     * and the loop's account of the results, the last search and the list's
     * hashes moves on by one position.
     */
    method ScanStep(filtersList: seq<FilterEntry>, i: nat, start: Timestamp,
                    ghost snap: seq<Option<map<string, string>>>, ghost cur: seq<Option<map<string, string>>>,
                    ghost result: seq<int>, ghost before: Option<seq<SearchHit>>)
      returns (ids: seq<int>, ghost cur': seq<Option<map<string, string>>>)
      requires i < |filtersList| && SharedAlike(filtersList, snap)
      requires Snapshot(filtersList) == cur && PartlyStamped(cur, snap, i, start)
      requires result == AllResults(snap[..i], start, lastCheckedBugId, lastCheckedTime, bugzilla)
      requires bugs == LastSearch(snap[..i], start, bugzilla, before)
      modifies this`bugs, Hashes(filtersList)
      ensures result + ids == AllResults(snap[..i + 1], start, lastCheckedBugId, lastCheckedTime, bugzilla)
      ensures bugs == LastSearch(snap[..i + 1], start, bugzilla, before)
      ensures Snapshot(filtersList) == cur' && PartlyStamped(cur', snap, i + 1, start)
    {
      var filter := filtersList[i];
      ghost var bugsPrev := bugs;
      if filter.HashEntry? {
        assert filter.hash.entries == cur[i].value;
      }
      ids := ProcessFilterConfig(filter, start);
      if filter.HashEntry? {
        ghost var now := Snapshot(filtersList);
        forall j | 0 <= j < |filtersList|
          ensures now[j] == StampShared(cur, filtersList, i, start)[j]
        {
          if filtersList[j].HashEntry? && filtersList[j].hash != filter.hash {
            assert filtersList[j].hash in Hashes(filtersList) - {filter.hash};
          }
        }
        StampSharedStep(cur, snap, filtersList, i, start);
        cur' := StampShared(cur, filtersList, i, start);
      } else {
        PartlyStampedSkip(cur, snap, i, start);
        cur' := cur;
      }
      LoopStep(snap, cur, i, start, lastCheckedBugId, lastCheckedTime, bugzilla, before, result, bugsPrev, ids, bugs);
    }

    /** The `filters_list.each` loop of fetch_additional_bugs. */
    method ScanFilters(filtersList: seq<FilterEntry>, start: Timestamp) returns (result: seq<int>)
      modifies this`bugs, Hashes(filtersList)
      ensures result == AllResults(old(Snapshot(filtersList)), start, lastCheckedBugId, lastCheckedTime, bugzilla)
      ensures bugs == LastSearch(old(Snapshot(filtersList)), start, bugzilla, old(bugs))
      ensures Snapshot(filtersList) == StampAll(old(Snapshot(filtersList)), start)
    {
      ghost var snap := Snapshot(filtersList);
      ghost var cur := snap;
      SnapshotSharedAlike(filtersList);
      ghost var bugsBefore := bugs;
      result := [];
      var i := 0;
      while i < |filtersList|
        invariant 0 <= i <= |filtersList|
        invariant result == AllResults(snap[..i], start, lastCheckedBugId, lastCheckedTime, bugzilla)
        invariant bugs == LastSearch(snap[..i], start, bugzilla, bugsBefore)
        invariant Snapshot(filtersList) == cur && PartlyStamped(cur, snap, i, start)
      {
        var ids;
        ids, cur := ScanStep(filtersList, i, start, snap, cur, result, bugsBefore);
        result := result + ids;
        i := i + 1;
      }
      assert snap[..i] == snap;
      PartlyStampedAll(cur, snap, start);
    }

    /** fetch_additional_bugs: every filter in turn, then the checkpoint from the last search. */
    method FetchAdditionalBugs(filtersList: seq<FilterEntry>, start: Timestamp) returns (result: seq<int>)
      modifies this`bugs, this`lastCheckedBugId, this`lastCheckedTime, Hashes(filtersList)
      ensures result == AllResults(old(Snapshot(filtersList)), start, old(lastCheckedBugId),
                                   old(lastCheckedTime), bugzilla)
      ensures bugs == LastSearch(old(Snapshot(filtersList)), start, bugzilla, old(bugs))
      ensures NewCheckpoint(bugs).None? ==>
                lastCheckedBugId == old(lastCheckedBugId) && lastCheckedTime == old(lastCheckedTime)
      ensures NewCheckpoint(bugs).Some? ==>
                lastCheckedBugId == Some(NewCheckpoint(bugs).value.id)
                && lastCheckedTime == Some(NewCheckpoint(bugs).value.lastChangeTime)
      ensures Snapshot(filtersList) == StampAll(old(Snapshot(filtersList)), start)
    {
      result := ScanFilters(filtersList, start);
      var _ := LastCheckTimeFromBugs();
    }
  }
}
