/**
 * message.rb: the notification text for one bug, built once when the
 * Message is created, and its one-line form for the log.
 */
module Messages {
  import opened Wrappers
  import opened Tracker
  import opened Text

  /** A Message object: the string its constructor built. */
  datatype Message = Message(text: string)

  /** What Message.new raises: a nested user record that is nil has no `real_name`. */
  datatype MessageError = NoCreatorDetail | NoAssigneeDetail

  /** The part of `"#{d['real_name']}"` that can succeed: `d` must be a record. */
  function RealName(d: Detail): string
  {
    Show(d.realName)
  }

  /** Message.new(bug_data, bugzilla_url), with the error Ruby raises on a nil user record. */
  function NewMessage(bug: BugData, bugzillaUrl: string): (r: Result<Message, MessageError>)
    ensures r.Failure? <==> bug.creatorDetail.None? || bug.assignedToDetail.None?
    ensures r.Failure? ==> r.error == if bug.creatorDetail.None? then NoCreatorDetail else NoAssigneeDetail
    ensures r.Success? ==> r.value.text == Join(Layout(bug, bugzillaUrl), "\n")
  {
    match (bug.creatorDetail, bug.assignedToDetail)
    case (None, _) => Failure(NoCreatorDetail)
    case (Some(_), None) => Failure(NoAssigneeDetail)
    case (Some(creator), Some(assignee)) =>
      var heading := Heading(bug);
      var status := "Status: " + Show(bug.status);
      var reporter := "Reported by: " + RealName(creator);
      var assignedTo := "Assigned to: " + RealName(assignee);
      var severity := "Severity: " + Show(bug.severity);
      var version := "Version: " + Show(bug.version);
      var component := Show(bug.product) + " -> " + Show(bug.component);
      var link := Link(bug, bugzillaUrl);
      var text := heading + "\n" + status + "\n" + reporter + "\n" + assignedTo + "\n"
        + severity + "\n" + version + "\n" + component + "\n" + link;
      Join8(heading, status, reporter, assignedTo, severity, version, component, link, "\n");
      Success(Message(text))
  }

  /** Message#to_s. */
  function ToS(m: Message): string
  {
    m.text
  }

  /** Message#for_logger: every line break written as a backslash and an `n`. */
  function ForLogger(m: Message): (r: string)
    ensures NoNewline(r)
    ensures |r| == |ToS(m)| + Count('\n', ToS(m))
  {
    Escape(ToS(m))
  }

  /** The first line of a message. */
  function Heading(bug: BugData): string
  {
    "Bug " + IntToString(bug.id) + ". " + Show(bug.summary)
  }

  /** The last line of a message: the link to the bug. */
  function Link(bug: BugData, bugzillaUrl: string): string
  {
    bugzillaUrl + "/show_bug.cgi?id=" + IntToString(bug.id)
  }

  /** The eight lines of a message, in their fixed order. */
  function Layout(bug: BugData, bugzillaUrl: string): (ls: seq<string>)
    requires bug.creatorDetail.Some? && bug.assignedToDetail.Some?
    ensures |ls| == 8
    ensures ls[0] == Heading(bug) && ls[7] == Link(bug, bugzillaUrl)
  {
    [ Heading(bug),
      "Status: " + Show(bug.status),
      "Reported by: " + RealName(bug.creatorDetail.value),
      "Assigned to: " + RealName(bug.assignedToDetail.value),
      "Severity: " + Show(bug.severity),
      "Version: " + Show(bug.version),
      Show(bug.product) + " -> " + Show(bug.component),
      Link(bug, bugzillaUrl) ]
  }

  /** No value that goes into the message holds a line break. */
  predicate FieldsWithoutNewline(bug: BugData, bugzillaUrl: string)
  {
    NoNewline(Show(bug.summary)) && NoNewline(Show(bug.status))
    && (bug.creatorDetail.Some? ==> NoNewline(RealName(bug.creatorDetail.value)))
    && (bug.assignedToDetail.Some? ==> NoNewline(RealName(bug.assignedToDetail.value)))
    && NoNewline(Show(bug.severity)) && NoNewline(Show(bug.version))
    && NoNewline(Show(bug.product)) && NoNewline(Show(bug.component))
    && NoNewline(bugzillaUrl)
  }

  lemma LayoutWithoutNewline(bug: BugData, bugzillaUrl: string)
    requires bug.creatorDetail.Some? && bug.assignedToDetail.Some?
    requires FieldsWithoutNewline(bug, bugzillaUrl)
    ensures AllNoNewline(Layout(bug, bugzillaUrl))
  {
    var id := IntToString(bug.id);
    var ls := Layout(bug, bugzillaUrl);
    forall i | 0 <= i < 8 ensures NoNewline(ls[i]) {
      NoNewlineConcat("Bug " + id + ". ", Show(bug.summary));
      NoNewlineConcat("Bug " + id, ". ");
      NoNewlineConcat("Bug ", id);
      NoNewlineConcat("Status: ", Show(bug.status));
      NoNewlineConcat("Reported by: ", RealName(bug.creatorDetail.value));
      NoNewlineConcat("Assigned to: ", RealName(bug.assignedToDetail.value));
      NoNewlineConcat("Severity: ", Show(bug.severity));
      NoNewlineConcat("Version: ", Show(bug.version));
      NoNewlineConcat(Show(bug.product) + " -> ", Show(bug.component));
      NoNewlineConcat(Show(bug.product), " -> ");
      NoNewlineConcat(bugzillaUrl + "/show_bug.cgi?id=", id);
      NoNewlineConcat(bugzillaUrl, "/show_bug.cgi?id=");
    }
  }

  /**
   * When no field holds a line break, to_s has exactly eight lines, in the
   * order heading, status, reporter, assignee, severity, version,
   * product -> component, link; so it holds exactly seven line breaks.
   */
  lemma MessageLines(bug: BugData, bugzillaUrl: string)
    requires bug.creatorDetail.Some? && bug.assignedToDetail.Some?
    requires FieldsWithoutNewline(bug, bugzillaUrl)
    ensures NewMessage(bug, bugzillaUrl).Success?
    ensures Lines(ToS(NewMessage(bug, bugzillaUrl).value)) == Layout(bug, bugzillaUrl)
    ensures Count('\n', ToS(NewMessage(bug, bugzillaUrl).value)) == 7
  {
    LayoutWithoutNewline(bug, bugzillaUrl);
    LinesOfJoin(Layout(bug, bugzillaUrl));
    CountJoin(Layout(bug, bugzillaUrl));
  }

  /** Whatever the fields hold, to_s starts with the heading and ends with the link. */
  lemma MessageEnds(bug: BugData, bugzillaUrl: string)
    requires bug.creatorDetail.Some? && bug.assignedToDetail.Some?
    ensures NewMessage(bug, bugzillaUrl).Success?
    ensures var s := ToS(NewMessage(bug, bugzillaUrl).value);
            var h := Heading(bug) + "\n";
            var l := "\n" + Link(bug, bugzillaUrl);
            |s| >= |h| + |l| && s[..|h|] == h && s[|s| - |l|..] == l
  {
    var ls := Layout(bug, bugzillaUrl);
    var s := Join(ls, "\n");
    var h := Heading(bug) + "\n";
    var l := "\n" + Link(bug, bugzillaUrl);
    var middle := Join(ls[1..7], "\n");
    assert ls[1..7][0] == ls[1];
    assert s == h + middle + l by {
      JoinSplitLast(ls[1..], "\n");
      assert ls[1..][..6] == ls[1..7];
    }
    assert s[..|h|] == h;
    assert s[|s| - |l|..] == l;
  }

  /** Joining lines: the last line can be split off. */
  lemma {:induction false} JoinSplitLast(ls: seq<string>, sep: string)
    requires |ls| >= 2
    ensures Join(ls, sep) == Join(ls[..|ls| - 1], sep) + sep + ls[|ls| - 1]
    decreases |ls|
  {
    if |ls| > 2 {
      JoinSplitLast(ls[1..], sep);
      assert ls[1..][..|ls| - 2] == ls[..|ls| - 1][1..];
    }
  }

  /**
   * When no field holds a line break, the log form is the eight lines
   * joined by a backslash and an `n`.
   */
  lemma LoggerLine(bug: BugData, bugzillaUrl: string)
    requires bug.creatorDetail.Some? && bug.assignedToDetail.Some?
    requires FieldsWithoutNewline(bug, bugzillaUrl)
    ensures NewMessage(bug, bugzillaUrl).Success?
    ensures ForLogger(NewMessage(bug, bugzillaUrl).value) == Join(Layout(bug, bugzillaUrl), "\\n")
  {
    LayoutWithoutNewline(bug, bugzillaUrl);
    EscapeJoin(Layout(bug, bugzillaUrl));
  }
}
