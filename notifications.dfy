/**
 * The notifier of the main file: scan the bugs created after the last
 * notified one, render a message for each, send them to the channel and
 * move the watermark to the last bug sent.
 */
module Notifications {
  import opened Wrappers
  import opened Tracker
  import opened Text

  // ---------------------------------------------------------------------
  // form_message

  /** The first line form_message writes. */
  function FormHeading(bugId: int, metadata: BugData): string
  {
    "Bug " + IntToString(bugId) + ". " + Show(metadata.summary)
  }

  /** The last line form_message writes: the link to the bug. */
  function FormLink(bugId: int, bugzillaUrl: string): string
  {
    bugzillaUrl + "/show_bug.cgi?id=" + IntToString(bugId)
  }

  /** The six lines form_message writes for a bug, in their fixed order. */
  function FormLayout(bugId: int, metadata: BugData, bugzillaUrl: string): (ls: seq<string>)
    ensures |ls| == 6
  {
    [ FormHeading(bugId, metadata),
      "Reported by: " + Show(metadata.creator),
      "Severity: " + Show(metadata.severity),
      "Version: " + Show(metadata.version),
      Show(metadata.product) + " -> " + Show(metadata.component),
      FormLink(bugId, bugzillaUrl) ]
  }

  /** form_message(bug_id): the text sent for one bug, from the bug data the tracker returns. */
  function FormMessage(bugId: int, metadata: BugData, bugzillaUrl: string): string
  {
    var heading := FormHeading(bugId, metadata);
    var reporter := "Reported by: " + Show(metadata.creator);
    var severity := "Severity: " + Show(metadata.severity);
    var version := "Version: " + Show(metadata.version);
    var component := Show(metadata.product) + " -> " + Show(metadata.component);
    var link := FormLink(bugId, bugzillaUrl);
    heading + "\n" + reporter + "\n" + severity + "\n" + version + "\n" + component + "\n" + link
  }

  /** The text is the six lines of the layout joined by line breaks. */
  lemma FormMessageJoin(bugId: int, metadata: BugData, bugzillaUrl: string)
    ensures FormMessage(bugId, metadata, bugzillaUrl) == Join(FormLayout(bugId, metadata, bugzillaUrl), "\n")
  {
    var ls := FormLayout(bugId, metadata, bugzillaUrl);
    Join6(ls[0], ls[1], ls[2], ls[3], ls[4], ls[5], "\n");
    assert ls == [ls[0], ls[1], ls[2], ls[3], ls[4], ls[5]];
  }

  /** No value that goes into the text holds a line break. */
  predicate PlainFields(metadata: BugData, bugzillaUrl: string)
  {
    NoNewline(Show(metadata.summary)) && NoNewline(Show(metadata.creator))
    && NoNewline(Show(metadata.severity)) && NoNewline(Show(metadata.version))
    && NoNewline(Show(metadata.product)) && NoNewline(Show(metadata.component))
    && NoNewline(bugzillaUrl)
  }

  lemma FormLayoutPlain(bugId: int, metadata: BugData, bugzillaUrl: string)
    requires PlainFields(metadata, bugzillaUrl)
    ensures AllNoNewline(FormLayout(bugId, metadata, bugzillaUrl))
  {
    var id := IntToString(bugId);
    NoNewlineConcat("Bug ", id);
    NoNewlineConcat("Bug " + id, ". ");
    NoNewlineConcat("Bug " + id + ". ", Show(metadata.summary));
    NoNewlineConcat("Reported by: ", Show(metadata.creator));
    NoNewlineConcat("Severity: ", Show(metadata.severity));
    NoNewlineConcat("Version: ", Show(metadata.version));
    NoNewlineConcat(Show(metadata.product), " -> ");
    NoNewlineConcat(Show(metadata.product) + " -> ", Show(metadata.component));
    NoNewlineConcat(bugzillaUrl, "/show_bug.cgi?id=");
    NoNewlineConcat(bugzillaUrl + "/show_bug.cgi?id=", id);
  }

  /**
   * When no value holds a line break, the text has exactly six lines: the
   * heading, reporter, severity, version, product -> component and the link;
   * so it holds exactly five line breaks.
   */
  lemma FormMessageLines(bugId: int, metadata: BugData, bugzillaUrl: string)
    requires PlainFields(metadata, bugzillaUrl)
    ensures Lines(FormMessage(bugId, metadata, bugzillaUrl)) == FormLayout(bugId, metadata, bugzillaUrl)
    ensures Count('\n', FormMessage(bugId, metadata, bugzillaUrl)) == 5
  {
    FormMessageJoin(bugId, metadata, bugzillaUrl);
    FormLayoutPlain(bugId, metadata, bugzillaUrl);
    LinesOfJoin(FormLayout(bugId, metadata, bugzillaUrl));
    CountJoin(FormLayout(bugId, metadata, bugzillaUrl));
  }

  /** Whatever the values hold, the text ends with a line break and the link to the bug. */
  lemma FormMessageEndsWithLink(bugId: int, metadata: BugData, bugzillaUrl: string)
    ensures var s := FormMessage(bugId, metadata, bugzillaUrl);
            var l := "\n" + (bugzillaUrl + "/show_bug.cgi?id=" + IntToString(bugId));
            |s| >= |l| && s[|s| - |l|..] == l
  {
    var ls := FormLayout(bugId, metadata, bugzillaUrl);
    var front := ls[0] + "\n" + ls[1] + "\n" + ls[2] + "\n" + ls[3] + "\n" + ls[4];
    assert FormMessage(bugId, metadata, bugzillaUrl) == front + ("\n" + ls[5]);
  }

  /** The texts form_messages builds: one per bug, in the order of the bugs. */
  function Rendered(bugs: seq<int>, bugData: int -> BugData, bugzillaUrl: string): (texts: seq<string>)
    ensures |texts| == |bugs|
    decreases |bugs|
  {
    if bugs == [] then []
    else
      var last := bugs[|bugs| - 1];
      Rendered(bugs[..|bugs| - 1], bugData, bugzillaUrl) + [FormMessage(last, bugData(last), bugzillaUrl)]
  }

  /** The text at position `j` is the message of the bug at position `j`. */
  lemma {:induction false} RenderedAt(bugs: seq<int>, bugData: int -> BugData, bugzillaUrl: string, j: int)
    requires 0 <= j < |bugs|
    ensures Rendered(bugs, bugData, bugzillaUrl)[j] == FormMessage(bugs[j], bugData(bugs[j]), bugzillaUrl)
    decreases |bugs|
  {
    if j < |bugs| - 1 {
      var init := bugs[..|bugs| - 1];
      RenderedAt(init, bugData, bugzillaUrl, j);
      assert init[j] == bugs[j];
    }
  }

  // ---------------------------------------------------------------------
  // The scan of fetch_bugs_to_send

  /**
   * `run` is what fetch_bugs_to_send collects from watermark `w`: the ids
   * w+1, w+2, ... in order, each an existing bug, up to the first id that
   * does not exist.
   */
  ghost predicate IsMaximalRun(bugExists: int -> bool, w: int, run: seq<int>)
  {
    (forall j :: 0 <= j < |run| ==> run[j] == w + 1 + j)
    && (forall x :: w < x <= w + |run| ==> bugExists(x))
    && !bugExists(w + |run| + 1)
  }

  /** There is only one such run: the scan's result is determined by the watermark. */
  lemma MaximalRunUnique(bugExists: int -> bool, w: int, r1: seq<int>, r2: seq<int>)
    requires IsMaximalRun(bugExists, w, r1) && IsMaximalRun(bugExists, w, r2)
    ensures r1 == r2
  {
    assert |r1| == |r2|;
    assert forall j :: 0 <= j < |r1| ==> r1[j] == r2[j];
  }

  /** A run that is not empty ends at w+k, and the id after it does not exist. */
  lemma MaximalRunLast(bugExists: int -> bool, w: int, run: seq<int>)
    requires IsMaximalRun(bugExists, w, run) && run != []
    ensures run[|run| - 1] == w + |run| && IsMaximalRun(bugExists, run[|run| - 1], [])
  {
  }

  /** The scan finds nothing exactly when the bug after the watermark does not exist. */
  lemma MaximalRunEmpty(bugExists: int -> bool, w: int, run: seq<int>)
    requires IsMaximalRun(bugExists, w, run)
    ensures run == [] <==> !bugExists(w + 1)
  {
    if run != [] {
      assert run[0] == w + 1;
    }
  }

  /** The first id above `w` that does not exist, given that some id up to `n` does not. */
  function FirstMissing(bugExists: int -> bool, w: int, n: int): (m: int)
    requires w < n && !bugExists(n)
    ensures w < m <= n && !bugExists(m)
    ensures forall x :: w < x < m ==> bugExists(x)
    decreases n - w
  {
    if !bugExists(w + 1) then w + 1 else FirstMissing(bugExists, w + 1, n)
  }

  /** The ids strictly between `w` and the first missing one form the run. */
  lemma RunToFirstMissing(bugExists: int -> bool, w: int, n: int)
    requires w < n && !bugExists(n)
    ensures var m := FirstMissing(bugExists, w, n);
            IsMaximalRun(bugExists, w, seq(m - w - 1, j => w + 1 + j))
  {
    var m := FirstMissing(bugExists, w, n);
    var run := seq(m - w - 1, j => w + 1 + j);
    assert forall j :: 0 <= j < |run| ==> w < run[j] < m;
  }

  // ---------------------------------------------------------------------
  // The notifier

  /**
   * TelegramBuzillaNotificaions: the tracker's answers are the functions
   * `bugExists` and `bugData`; the channel is the list `sent`; the watermark
   * file is the integer `watermark`. The tracker is a live server, so its
   * answers may change between two calls (an assignment to those fields);
   * during one call they stay fixed.
   */
  class Notifier {
    var bugExists: int -> bool
    var bugData: int -> BugData
    const bugzillaUrl: string
    /** The last notified bug, as the watermark file holds it. */
    var watermark: int
    /** `@bugs_to_send`. */
    var bugsToSend: seq<int>
    /** `@messages`. */
    var messages: seq<string>
    /** The texts sent to the channel, oldest first. */
    var sent: seq<string>

    constructor (bugExists: int -> bool, bugData: int -> BugData, bugzillaUrl: string, watermark: int)
      ensures this.bugExists == bugExists && this.bugData == bugData && this.bugzillaUrl == bugzillaUrl
      ensures this.watermark == watermark
      ensures bugsToSend == [] && messages == [] && sent == []
    {
      this.bugExists := bugExists;
      this.bugData := bugData;
      this.bugzillaUrl := bugzillaUrl;
      this.watermark := watermark;
      bugsToSend := [];
      messages := [];
      sent := [];
    }

    /** fetch_bugs_to_send: probe the ids after the watermark until one does not exist. */
    method FetchBugsToSend()
      requires exists n :: watermark < n && !bugExists(n)
      modifies this`bugsToSend
      ensures IsMaximalRun(bugExists, watermark, bugsToSend)
    {
      ghost var n :| watermark < n && !bugExists(n);
      bugsToSend := [];
      var currentBug := watermark + 1;
      while bugExists(currentBug)
        invariant currentBug == watermark + 1 + |bugsToSend| && currentBug <= n
        invariant forall j :: 0 <= j < |bugsToSend| ==> bugsToSend[j] == watermark + 1 + j
        invariant forall x :: watermark < x < currentBug ==> bugExists(x)
        decreases n - currentBug
      {
        bugsToSend := bugsToSend + [currentBug];
        currentBug := currentBug + 1;
      }
    }

    /** form_messages: one text per bug to send, in the same order. */
    method FormMessages()
      modifies this`messages
      ensures messages == Rendered(bugsToSend, bugData, bugzillaUrl)
    {
      var bugs, formed := bugsToSend, [];
      var i := 0;
      while i < |bugs|
        invariant 0 <= i <= |bugs|
        invariant formed == Rendered(bugs[..i], bugData, bugzillaUrl)
      {
        assert bugs[..i + 1][..i] == bugs[..i];
        formed := formed + [FormMessage(bugs[i], bugData(bugs[i]), bugzillaUrl)];
        i := i + 1;
      }
      assert bugs[..i] == bugs;
      messages := formed;
    }

    /** send_messages: every text to the channel in order, then the watermark moves to the last bug. */
    method SendMessages(msgs: seq<string>)
      modifies this`sent, this`watermark
      ensures sent == old(sent) + msgs
      ensures watermark == if bugsToSend == [] then 0 else bugsToSend[|bugsToSend| - 1]
    {
      var i := 0;
      while i < |msgs|
        invariant 0 <= i <= |msgs|
        invariant sent == old(sent) + msgs[..i]
      {
        sent := sent + [msgs[i]];
        i := i + 1;
      }
      assert msgs[..i] == msgs;
      UpdateLastNotifiedBug(if bugsToSend == [] then None else Some(bugsToSend[|bugsToSend| - 1]));
    }

    /** update_last_notified_bug: nil is written as an empty file, which reads back as 0. */
    method UpdateLastNotifiedBug(bug: Option<int>)
      modifies this`watermark
      ensures watermark == if bug.Some? then bug.value else 0
    {
      watermark := if bug.Some? then bug.value else 0;
    }

    /**
     * fetch_info_and_send: after it, the tracker has reported the bug
     * after the new watermark missing; when this scan found nothing, nothing is formed or sent and the
     * watermark stays; otherwise one text per new bug is sent and the
     * watermark is the last of them.
     */
    method FetchInfoAndSend()
      requires exists n :: watermark < n && !bugExists(n)
      modifies this`bugsToSend, this`messages, this`sent, this`watermark
      ensures IsMaximalRun(bugExists, old(watermark), bugsToSend)
      ensures IsMaximalRun(bugExists, watermark, [])
      ensures bugsToSend == [] ==>
                messages == old(messages) && sent == old(sent) && watermark == old(watermark)
      ensures bugsToSend != [] ==>
                messages == Rendered(bugsToSend, bugData, bugzillaUrl)
                && sent == old(sent) + messages
                && watermark == old(watermark) + |bugsToSend| > old(watermark)
    {
      FetchBugsToSend();
      if bugsToSend == [] {
        return;
      }
      MaximalRunLast(bugExists, old(watermark), bugsToSend);
      FormMessages();
      SendMessages(messages);
    }
  }
}
