/** Control's side of a turn: the frame reader and the automaton that re-validates the adapter's log. */
module EventStream {
  import opened Text
  import opened ChatEvents
  import TurnAdapter

  const MAX_BUFFER := 65_536
  const MAX_TEXT_UNITS := 128_000
  const MAX_DELTA_UNITS := 16_000

  const MAX_SEQUENCE := 100_000

  predicate IsAlphanumeric(c: char) {
    'A' <= c <= 'Z' || 'a' <= c <= 'z' || '0' <= c <= '9'
  }

  /** The identifiers of sessions, turns and parts. */
  predicate IsIdentifier(s: string) {
    1 <= |s| <= 128 && IsAlphanumeric(s[0]) && forall i :: 0 <= i < |s| ==> IsAlphanumeric(s[i]) || s[i] in "._:-"
  }

  predicate IsToolName(s: string) {
    1 <= |s| <= 160 && forall i :: 0 <= i < |s| ==> IsAlphanumeric(s[i]) || s[i] in "_.:-"
  }

  predicate IsFilename(s: string) {
    forall i :: 0 <= i < |s| ==> s[i] >= ' ' && s[i] != '/' && s[i] != '\\'
  }

  predicate IsLink(link: Link) {
    link.http && Utf16Length(link.text) <= 2_048
  }

  /** A field of prose and the schema's limit for it, counted in UTF-16 units. */
  datatype Prose = Prose(text: string, limit: nat)

  /** Prose is trimmed first, and then neither empty nor too long. */
  predicate Fits(p: Prose) {
    1 <= Utf16Length(Trim(p.text)) <= p.limit
  }

  function Optional(text: Option<string>, limit: nat): seq<Prose> {
    if text.Some? then [Prose(text.value, limit)] else []
  }

  /** All prose of an event besides message text. */
  function ProseOf(b: Body): seq<Prose> {
    match b
    case TurnStart(_) => []
    case TextDelta(_, _) => []
    case Progress(_, caption, _) => [Prose(caption, 240)]
    case Tool(_, _, _, summary, caption) => Optional(summary, 500) + Optional(caption, 240)
    case Plan(title, summary, _) => [Prose(title, 240)] + Optional(summary, 500)
    case ProviderSummary(summary, provider) => [Prose(summary, 500)] + Optional(provider, 80)
    case WebAction(_, caption, _) => [Prose(caption, 240)]
    case Source(title, _) => [Prose(title, 240)]
    case Approval(_, _, _, summary) => [Prose(summary, 500)]
    case Artifact(_, filename, _) => [Prose(filename, 180)]
    case ComputerAction(_, caption, _) => [Prose(caption, 240)]
    case Notice(notice) => [Prose(notice, 500)]
    case ErrorReport(_, report) => [Prose(report, 500)]
    case TurnFinish(_, message, _) => Optional(message, 500)
  }

  /** The fields that have a form rather than prose. */
  predicate FormsFit(b: Body) {
    match b
    case TurnStart(messageId) => IsIdentifier(messageId)
    case TextDelta(textId, _) => IsIdentifier(textId)
    case Progress(activityId, _, _) => IsIdentifier(activityId)
    case Tool(toolCallId, name, _, _, _) => IsIdentifier(toolCallId) && IsToolName(Trim(name))
    case WebAction(action, _, url) => action in {"search", "open", "find"} && (url.Some? ==> IsLink(url.value))
    case Source(_, url) => IsLink(url)
    case Approval(approvalId, _, _, _) => IsIdentifier(approvalId)
    case Artifact(_, filename, _) => IsFilename(Trim(filename))
    case ComputerAction(actionId, _, _) => IsIdentifier(actionId)
    case TurnFinish(_, _, session) => session.Some? ==> 1 <= Utf16Length(session.value) <= 512
    case _ => true
  }

  /** What the event schema demands of every field but the number and the text delta. */
  predicate FieldsFit(e: Event) {
    && IsIdentifier(e.sessionId) && IsIdentifier(e.turnId) && FormsFit(e.body)
    && forall p :: p in ProseOf(e.body) ==> Fits(p)
  }

  predicate SchemaAccepts(e: Event) {
    && e.sequence <= MAX_SEQUENCE && FieldsFit(e)
    && (e.body.TextDelta? ==> 1 <= Utf16Length(e.body.delta) <= MAX_DELTA_UNITS)
  }

  function TrimOptional(text: Option<string>): Option<string> {
    if text.Some? then Some(Trim(text.value)) else None
  }

  /** The event that the schema hands on: its prose trimmed, everything else as it came. */
  function Parsed(e: Event): Event {
    e.(body := match e.body
               case Progress(id, caption, state) => Progress(id, Trim(caption), state)
               case Tool(id, name, state, summary, caption) =>
                 Tool(id, Trim(name), state, TrimOptional(summary), TrimOptional(caption))
               case Plan(title, summary, state) => Plan(Trim(title), TrimOptional(summary), state)
               case ProviderSummary(summary, provider) => ProviderSummary(Trim(summary), TrimOptional(provider))
               case WebAction(action, caption, url) => WebAction(action, Trim(caption), url)
               case Source(title, url) => Source(Trim(title), url)
               case Approval(id, operation, state, summary) => Approval(id, operation, state, Trim(summary))
               case Artifact(id, filename, revision) => Artifact(id, Trim(filename), revision)
               case ComputerAction(id, caption, state) => ComputerAction(id, Trim(caption), state)
               case Notice(notice) => Notice(Trim(notice))
               case ErrorReport(code, report) => ErrorReport(code, Trim(report))
               case TurnFinish(state, message, session) => TurnFinish(state, TrimOptional(message), session)
               case _ => e.body)
  }

  function ParsedAll(log: seq<Event>): (r: seq<Event>)
    ensures |r| == |log| && forall i :: 0 <= i < |log| ==> r[i] == Parsed(log[i])
  {
    seq(|log|, i requires 0 <= i < |log| => Parsed(log[i]))
  }

  /** The validator's variables; `turnId` is empty until the first event names it. */
  datatype Check = Check(expected: nat, turnId: string, terminal: bool, textSize: nat)

  const FRESH := Check(0, "", false, 0)

  /** One event: the new state, or `None` where the source throws. */
  function Accept(c: Check, sessionId: string, e: Event): Option<Check> {
    if || !SchemaAccepts(e)
       || e.sessionId != sessionId
       || e.sequence != c.expected
       || (c.expected == 0 && !e.body.TurnStart?)
       || (c.turnId != "" && e.turnId != c.turnId)
       || c.terminal
    then None
    else
      var textSize := c.textSize + Utf16Length(DeltaOf(e));
      if textSize > MAX_TEXT_UNITS then None
      else Some(Check(c.expected + 1, if c.turnId == "" then e.turnId else c.turnId, e.body.TurnFinish?, textSize))
  }

  function AcceptAll(sessionId: string, log: seq<Event>): Option<Check> {
    if log == [] then Some(FRESH)
    else
      var c := AcceptAll(sessionId, log[..|log| - 1]);
      if c.None? then None else Accept(c.value, sessionId, log[|log| - 1])
  }

  predicate Accepted(sessionId: string, log: seq<Event>) {
    var c := AcceptAll(sessionId, log);
    c.Some? && c.value.terminal
  }

  function TextUnits(log: seq<Event>): nat {
    if log == [] then 0 else TextUnits(log[..|log| - 1]) + Utf16Length(DeltaOf(log[|log| - 1]))
  }

  /** What the automaton means for a prefix: numbered from zero, started, one session, one turn, and nothing after
      a `turn-finish`. */
  ghost predicate WellFormedPrefix(sessionId: string, log: seq<Event>) {
    && (forall i :: 0 <= i < |log| ==>
                      && SchemaAccepts(log[i]) && log[i].sequence == i
                      && log[i].sessionId == sessionId && log[i].turnId == log[0].turnId)
    && (forall i :: 0 <= i < |log| - 1 ==> !log[i].body.TurnFinish?)
    && (log != [] ==> log[0].body.TurnStart?)
    && TextUnits(log) <= MAX_TEXT_UNITS
  }

  /** The automaton's state after a prefix that it accepts. */
  function CheckOf(log: seq<Event>): Check {
    if log == [] then FRESH else Check(|log|, log[0].turnId, log[|log| - 1].body.TurnFinish?, TextUnits(log))
  }

  lemma {:induction false} AcceptsWellFormedPrefixes(sessionId: string, log: seq<Event>)
    ensures AcceptAll(sessionId, log).Some? <==> WellFormedPrefix(sessionId, log)
    ensures AcceptAll(sessionId, log).Some? ==> AcceptAll(sessionId, log).value == CheckOf(log)
  {
    if log != [] {
      var before, last := log[..|log| - 1], log[|log| - 1];
      AcceptsWellFormedPrefixes(sessionId, before);
      WellFormedSnoc(sessionId, log);
      if WellFormedPrefix(sessionId, before) {
        AcceptNext(sessionId, log);
      }
      hide WellFormedPrefix, Accept, CheckOf;
    }
  }

  /** One more event keeps a prefix well formed exactly when it fits after the rest. */
  lemma {:induction false} WellFormedSnoc(sessionId: string, log: seq<Event>)
    requires log != []
    ensures WellFormedPrefix(sessionId, log)
            <==> WellFormedPrefix(sessionId, log[..|log| - 1]) && FitsAfter(sessionId, log)
  {
    var before, n := log[..|log| - 1], |log| - 1;
    TextUnitsGrow(log);
    hide SchemaAccepts, TextUnits;
    assert forall i :: 0 <= i < n ==> before[i] == log[i];
    if WellFormedPrefix(sessionId, before) && FitsAfter(sessionId, log) {
      assert n > 0 ==> log[0] == before[0] && log[n - 1] == before[n - 1];
    }
  }

  lemma {:induction false} TextUnitsGrow(log: seq<Event>)
    requires log != []
    ensures TextUnits(log[..|log| - 1]) <= TextUnits(log)
  {
  }

  predicate FitsAfter(sessionId: string, log: seq<Event>)
    requires log != []
  {
    var n := |log| - 1;
    && SchemaAccepts(log[n]) && log[n].sequence == n && log[n].sessionId == sessionId && log[n].turnId == log[0].turnId
    && (if n == 0 then log[0].body.TurnStart? else !log[n - 1].body.TurnFinish?)
    && TextUnits(log) <= MAX_TEXT_UNITS
  }

  lemma {:induction false} AcceptNext(sessionId: string, log: seq<Event>)
    requires log != [] && WellFormedPrefix(sessionId, log[..|log| - 1])
    ensures Accept(CheckOf(log[..|log| - 1]), sessionId, log[|log| - 1]).Some? <==> FitsAfter(sessionId, log)
    ensures FitsAfter(sessionId, log)
            ==> Accept(CheckOf(log[..|log| - 1]), sessionId, log[|log| - 1]) == Some(CheckOf(log))
  {
    var before, n := log[..|log| - 1], |log| - 1;
    if n > 0 {
      assert before[0] == log[0] && SchemaAccepts(before[0]) && before[n - 1] == log[n - 1];
    }
    hide SchemaAccepts, Utf16Length;
  }

  /** The automaton accepts exactly the complete turns. */
  lemma {:induction false} AcceptedIff(sessionId: string, log: seq<Event>)
    ensures Accepted(sessionId, log) <==>
            WellFormedPrefix(sessionId, log) && log != [] && log[|log| - 1].body.TurnFinish?
  {
    AcceptsWellFormedPrefixes(sessionId, log);
  }

  /** What the adapter does not ensure by itself: the log is not too long, every delta and the whole text stay within
      Control's limits when counted in UTF-16 units, and so do all other fields. */
  predicate Conforms(log: seq<Event>) {
    && |log| <= MAX_SEQUENCE + 1 && TextUnits(log) <= MAX_TEXT_UNITS
    && forall i :: 0 <= i < |log| ==>
                     FieldsFit(log[i])
                     && (log[i].body.TextDelta? ==> Utf16Length(log[i].body.delta) <= MAX_DELTA_UNITS)
  }

  /** Refinement of the two halves of the protocol: Control accepts what the adapter closes exactly when it also
      conforms to the event schema, which counts UTF-16 units where the adapter counts characters and limits the number
      of events. */
  lemma {:induction false} AdapterLogAccepted(log: seq<Event>, sessionId: string, turnId: string)
    requires TurnAdapter.ClosedLog(log, sessionId, turnId)
    ensures Accepted(sessionId, log) <==> Conforms(log)
  {
    AcceptedIff(sessionId, log);
    var n := |log| - 1;
    forall i | 0 <= i < |log|
      ensures log[i].sequence == i && log[i].sessionId == sessionId && log[i].turnId == turnId
      ensures log[i].body.TextDelta? ==> 1 <= Utf16Length(log[i].body.delta)
      ensures log[i].body.TurnFinish? == (i == n)
    {
      if i < n {
        assert log[..n][i] == log[i];
      }
      if log[i].body.TextDelta? {
        Utf16Bounds(log[i].body.delta);
      }
    }
    assert log[..n][0] == log[0];
    hide FieldsFit, TextUnits, Utf16Length;
    assert SchemaAccepts(log[n]) ==> n <= MAX_SEQUENCE;
  }

  lemma {:induction false} Utf16Append(a: string, b: string)
    ensures Utf16Length(a + b) == Utf16Length(a) + Utf16Length(b)
  {
    if b == "" {
      assert a + b == a;
    } else {
      assert (a + b)[..|a + b| - 1] == a + b[..|b| - 1];
      Utf16Append(a, b[..|b| - 1]);
    }
  }

  lemma {:induction false} TextUnitsCountText(log: seq<Event>)
    ensures TextUnits(log) == Utf16Length(LogText(log))
  {
    if log != [] {
      TextUnitsCountText(log[..|log| - 1]);
      Utf16Append(LogText(log[..|log| - 1]), DeltaOf(log[|log| - 1]));
    }
  }

  /** Prose within its limit as the adapter counts it, and in the Basic Multilingual Plane. */
  predicate IsPlain(p: Prose) {
    !Blank(p.text) && |p.text| <= p.limit && BasicPlane(p.text)
  }

  /** A turn that lies in the Basic Multilingual Plane and within the adapter's own limits is accepted up to the limit
      on the number of its events. */
  lemma {:induction false} BasicPlaneTurnAccepted(log: seq<Event>, sessionId: string, turnId: string)
    requires TurnAdapter.ClosedLog(log, sessionId, turnId)
    requires |LogText(log)| <= TurnAdapter.MAX_TEXT && BasicPlane(LogText(log))
    requires IsIdentifier(sessionId) && IsIdentifier(turnId)
    requires forall i :: 0 <= i < |log| ==> FormsFit(log[i].body)
    requires forall i :: 0 <= i < |log| ==> forall p :: p in ProseOf(log[i].body) ==> IsPlain(p)
    ensures Accepted(sessionId, log) <==> |log| <= MAX_SEQUENCE + 1
  {
    AdapterLogAccepted(log, sessionId, turnId);
    TextUnitsCountText(log);
    Utf16Bounds(LogText(log));
    forall i | 0 <= i < |log|
      ensures FieldsFit(log[i])
      ensures log[i].body.TextDelta? ==> Utf16Length(log[i].body.delta) <= MAX_DELTA_UNITS
    {
      assert i < |log| - 1 ==> log[..|log| - 1][i] == log[i];
      forall p | p in ProseOf(log[i].body) ensures Fits(p) {
        PlainFits(p);
      }
      if log[i].body.TextDelta? {
        DeltaIsInText(log, i);
        Utf16Bounds(log[i].body.delta);
      }
    }
  }

  lemma {:induction false} PlainFits(p: Prose)
    requires IsPlain(p)
    ensures Fits(p)
  {
    TrimIsPart(p.text);
    Utf16Bounds(Trim(p.text));
  }

  lemma {:induction false} DeltaIsInText(log: seq<Event>, i: nat)
    requires i < |log| && BasicPlane(LogText(log))
    ensures BasicPlane(DeltaOf(log[i]))
  {
    var n := |log| - 1;
    var before := LogText(log[..n]);
    assert LogText(log) == before + DeltaOf(log[n]);
    assert before == LogText(log)[..|before|] && DeltaOf(log[n]) == LogText(log)[|before|..];
    if i < n {
      DeltaIsInText(log[..n], i);
    }
  }

  /** A closed adapter log that Control refuses: one slice of 16,000 supplementary characters. */
  lemma {:induction false} SupplementarySliceRefused(text: string)
    requires |text| == TurnAdapter.SLICE && forall i :: 0 <= i < |text| ==> text[i] == '\U{1F600}'
    ensures var log := [Event(0, "s", "t", TurnStart("m")),
                        Event(1, "s", "t", TextDelta(TurnAdapter.TextIdOf("t"), text)),
                        Event(2, "s", "t", TurnFinish(Completed, None, None))];
            && TurnAdapter.ClosedLog(log, "s", "t") && |LogText(log)| <= TurnAdapter.MAX_TEXT
            && !Accepted("s", log)
  {
    var log := [Event(0, "s", "t", TurnStart("m")), Event(1, "s", "t", TextDelta(TurnAdapter.TextIdOf("t"), text)),
                Event(2, "s", "t", TurnFinish(Completed, None, None))];
    AdapterLogAccepted(log, "s", "t");
    SupplementaryLength(text);
    assert log[1].body.delta == text;
    assert log[..2][..1] == log[..1];
    assert log[..1][..0] == [];
    assert LogText(log) == LogText(log[..2]) + "" == LogText(log[..1]) + text + "" == text;
  }

  lemma {:induction false} SupplementaryLength(text: string)
    requires forall i :: 0 <= i < |text| ==> text[i] == '\U{1F600}'
    ensures Utf16Length(text) == 2 * |text|
  {
    if text != "" {
      SupplementaryLength(text[..|text| - 1]);
    }
  }

  // ----- Frames ---------------------------------------------------------------------------------------------

  /** The complete lines of `wire`, without their terminators. */
  function Lines(wire: string): seq<string> {
    if wire == "" then []
    else
      var before := wire[..|wire| - 1];
      if wire[|wire| - 1] == '\n' then Lines(before) + [Tail(before)] else Lines(before)
  }

  /** What follows the last line terminator of `wire`. */
  function Tail(wire: string): string {
    if wire == "" || wire[|wire| - 1] == '\n' then "" else Tail(wire[..|wire| - 1]) + [wire[|wire| - 1]]
  }

  lemma {:induction false} LinesAppendOpen(wire: string, more: string)
    requires '\n' !in more
    ensures Lines(wire + more) == Lines(wire) && Tail(wire + more) == Tail(wire) + more
  {
    if more == "" {
      assert wire + more == wire && Tail(wire) + more == Tail(wire);
    } else {
      var shorter := more[..|more| - 1];
      assert (wire + more)[..|wire + more| - 1] == wire + shorter;
      LinesAppendOpen(wire, shorter);
      assert Tail(wire) + shorter + [more[|more| - 1]] == Tail(wire) + more;
    }
  }

  lemma {:induction false} LinesAppendLine(wire: string, line: string)
    requires '\n' !in line && Tail(wire) == ""
    ensures Lines(wire + line + "\n") == Lines(wire) + [line] && Tail(wire + line + "\n") == ""
  {
    LinesAppendOpen(wire, line);
    assert (wire + line + "\n")[..|wire + line + "\n"| - 1] == wire + line;
    assert Tail(wire) + line == line;
  }

  /** The reader after some lines: still reading, or stopped by a bad event. `yielded` is what its consumer got. */
  datatype Reader = Reading(check: Check, yielded: seq<Event>) | Refused(yielded: seq<Event>)

  function ReadLine(r: Reader, sessionId: string, decode: string -> Option<Event>, line: string): Reader {
    if r.Refused? || line == "" then r
    else
      var decoded := decode(line);
      if decoded.None? then Refused(r.yielded)
      else
        var next := Accept(r.check, sessionId, decoded.value);
        if next.None? then Refused(r.yielded) else Reading(next.value, r.yielded + [Parsed(decoded.value)])
  }

  function ReadLines(sessionId: string, decode: string -> Option<Event>, lines: seq<string>): Reader {
    if lines == [] then Reading(FRESH, [])
    else ReadLine(ReadLines(sessionId, decode, lines[..|lines| - 1]), sessionId, decode, lines[|lines| - 1])
  }

  lemma {:induction false} ReadLinesSnoc(sessionId: string, decode: string -> Option<Event>, lines: seq<string>,
                                         line: string)
    ensures ReadLines(sessionId, decode, lines + [line]) ==
            ReadLine(ReadLines(sessionId, decode, lines), sessionId, decode, line)
  {
    assert (lines + [line])[..|lines|] == lines;
  }

  /** No chunk makes the unread buffer exceed 64 KiB. */
  ghost predicate FramesFit(chunks: seq<string>) {
    forall i :: 0 <= i < |chunks| ==> |Tail(Flatten(chunks[..i]))| + |chunks[i]| <= MAX_BUFFER
  }

  function IndexOfNewline(s: string): (i: nat)
    ensures i <= |s| && '\n' !in s[..i] && (i < |s| ==> s[i] == '\n')
  {
    if s == "" || s[0] == '\n' then 0
    else
      var i := 1 + IndexOfNewline(s[1..]);
      assert s[..i] == [s[0]] + s[1..][..i - 1];
      i
  }

  /** Lines are never taken back by later input. */
  lemma {:induction false} LinesGrow(wire: string, more: string)
    ensures |Lines(wire)| <= |Lines(wire + more)|
    ensures Lines(wire + more)[..|Lines(wire)|] == Lines(wire)
  {
    if more == "" {
      assert wire + more == wire;
    } else {
      assert (wire + more)[..|wire + more| - 1] == wire + more[..|more| - 1];
      LinesGrow(wire, more[..|more| - 1]);
    }
  }

  lemma {:induction false} TakeLine(sessionId: string, decode: string -> Option<Event>, split: string, buffer: string,
                                    index: nat)
    requires Tail(split) == "" && index < |buffer| && '\n' !in buffer[..index] && buffer[index] == '\n'
    ensures split + buffer[..index] + "\n" + buffer[index + 1..] == split + buffer
    ensures Tail(split + buffer[..index] + "\n") == ""
    ensures ReadLines(sessionId, decode, Lines(split + buffer[..index] + "\n")) ==
            ReadLine(ReadLines(sessionId, decode, Lines(split)), sessionId, decode, buffer[..index])
  {
    CutLine(split, buffer, index);
    LinesAppendLine(split, buffer[..index]);
    ReadLinesSnoc(sessionId, decode, Lines(split), buffer[..index]);
  }

  lemma {:induction false} CutLine(split: string, buffer: string, index: nat)
    requires index < |buffer| && buffer[index] == '\n'
    ensures split + buffer[..index] + "\n" + buffer[index + 1..] == split + buffer
  {
    assert [buffer[index]] + buffer[index + 1..] == buffer[index..];
    assert buffer[..index] + buffer[index..] == buffer;
  }

  /** The inner loop: take every complete line off the buffer. `split` is the input already taken. */
  method TakeLines(sessionId: string, decode: string -> Option<Event>, check0: Check, yielded0: seq<Event>,
                   buffer0: string, ghost split0: string)
    returns (check: Check, yielded: seq<Event>, buffer: string, ok: bool, ghost split: string)
    requires Tail(split0) == "" && ReadLines(sessionId, decode, Lines(split0)) == Reading(check0, yielded0)
    ensures split + buffer == split0 + buffer0 && Tail(split) == ""
    ensures ReadLines(sessionId, decode, Lines(split)) == if ok then Reading(check, yielded) else Refused(yielded)
    ensures ok ==> '\n' !in buffer
  {
    hide Parsed, Accept, Lines, Tail, ReadLines, IndexOfNewline;
    check, yielded, buffer, split := check0, yielded0, buffer0, split0;
    var index := IndexOfNewline(buffer);
    while index < |buffer|
      invariant index == IndexOfNewline(buffer)
      invariant split + buffer == split0 + buffer0 && Tail(split) == ""
      invariant ReadLines(sessionId, decode, Lines(split)) == Reading(check, yielded)
      decreases |buffer|
    {
      var line := buffer[..index];
      TakeLine(sessionId, decode, split, buffer, index);
      split := split + line + "\n";
      buffer := buffer[index + 1..];
      if line != "" {
        var decoded := decode(line);
        if decoded.None? {
          ok := false;
          return;
        }
        var next := Accept(check, sessionId, decoded.value);
        if next.None? {
          ok := false;
          return;
        }
        check, yielded := next.value, yielded + [Parsed(decoded.value)];
      }
      index := IndexOfNewline(buffer);
    }
    assert buffer[..index] == buffer;
    ok := true;
  }

  /** The outcome on a whole input, as the reader's consumer sees it. */
  ghost predicate ReadOutcome(sessionId: string, decode: string -> Option<Event>, chunks: seq<string>,
                              yielded: seq<Event>, ok: bool) {
    var r := ReadLines(sessionId, decode, Lines(Flatten(chunks)));
    && (ok <==> FramesFit(chunks) && r.Reading? && r.check.terminal && Blank(Tail(Flatten(chunks))))
    && (ok ==> yielded == r.yielded)
    && yielded <= r.yielded
  }

  /** The reader after its first `i` chunks: `split` has been taken off as lines and `buffer` is waiting. */
  ghost predicate ReaderAt(sessionId: string, decode: string -> Option<Event>, chunks: seq<string>, i: nat,
                           split: string, buffer: string, check: Check, yielded: seq<Event>) {
    && i <= |chunks| && split + buffer == Flatten(chunks[..i])
    && Tail(split) == "" && '\n' !in buffer
    && ReadLines(sessionId, decode, Lines(split)) == Reading(check, yielded)
    && forall k :: 0 <= k < i ==> |Tail(Flatten(chunks[..k]))| + |chunks[k]| <= MAX_BUFFER
  }

  lemma {:induction false} Overflows(sessionId: string, decode: string -> Option<Event>, chunks: seq<string>, i: nat,
                  split: string, buffer: string, check: Check, yielded: seq<Event>)
    requires ReaderAt(sessionId, decode, chunks, i, split, buffer, check, yielded)
    requires i < |chunks| && |buffer| + |chunks[i]| > MAX_BUFFER
    ensures ReadOutcome(sessionId, decode, chunks, yielded, false)
  {
    OpenTail(split, buffer);
    assert !FramesFit(chunks) by {
      assert |Tail(Flatten(chunks[..i]))| + |chunks[i]| > MAX_BUFFER;
    }
    ReadSoFar(sessionId, decode, chunks, i, split, buffer);
  }

  lemma {:induction false} Advances(sessionId: string, decode: string -> Option<Event>, chunks: seq<string>, i: nat,
                 split: string, buffer: string, check: Check, yielded: seq<Event>,
                 split': string, buffer': string, check': Check, yielded': seq<Event>, ok: bool)
    requires ReaderAt(sessionId, decode, chunks, i, split, buffer, check, yielded)
    requires i < |chunks| && |buffer| + |chunks[i]| <= MAX_BUFFER
    requires split' + buffer' == split + (buffer + chunks[i]) && Tail(split') == "" && (ok ==> '\n' !in buffer')
    requires ReadLines(sessionId, decode, Lines(split')) == if ok then Reading(check', yielded') else Refused(yielded')
    ensures ok ==> ReaderAt(sessionId, decode, chunks, i + 1, split', buffer', check', yielded')
    ensures !ok ==> ReadOutcome(sessionId, decode, chunks, yielded', false)
  {
    OpenTail(split, buffer);
    TakeMore(chunks, i, split, buffer);
    if !ok {
      ReadSoFar(sessionId, decode, chunks, i + 1, split', buffer');
    }
  }

  lemma {:induction false} Finishes(sessionId: string, decode: string -> Option<Event>, chunks: seq<string>,
                 split: string, buffer: string, check: Check, yielded: seq<Event>)
    requires ReaderAt(sessionId, decode, chunks, |chunks|, split, buffer, check, yielded)
    ensures ReadOutcome(sessionId, decode, chunks, yielded, Blank(buffer) && check.terminal)
  {
    assert chunks[..|chunks|] == chunks;
    OpenTail(split, buffer);
  }

  /** The reader's loop over network chunks. It succeeds exactly when no chunk overflows the buffer, every line is a
      decodable event the automaton accepts, the last is a `turn-finish` and only white space is left over; its
      consumer always receives a prefix of the same events. */
  method StreamTurn(sessionId: string, decode: string -> Option<Event>, chunks: seq<string>)
    returns (yielded: seq<Event>, ok: bool)
    ensures ReadOutcome(sessionId, decode, chunks, yielded, ok)
  {
    var buffer, check := "", FRESH;
    yielded := [];
    ghost var split := "";
    assert split + buffer == Flatten(chunks[..0]);
    assert ReaderAt(sessionId, decode, chunks, 0, split, buffer, check, yielded);
    for i := 0 to |chunks|
      invariant ReaderAt(sessionId, decode, chunks, i, split, buffer, check, yielded)
    {
      ghost var was := (split, buffer, check, yielded);
      buffer := buffer + chunks[i];
      if |buffer| > MAX_BUFFER {
        Overflows(sessionId, decode, chunks, i, was.0, was.1, was.2, was.3);
        return yielded, false;
      }
      check, yielded, buffer, ok, split := TakeLines(sessionId, decode, check, yielded, buffer, split);
      Advances(sessionId, decode, chunks, i, was.0, was.1, was.2, was.3, split, buffer, check, yielded, ok);
      if !ok {
        return;
      }
    }
    Finishes(sessionId, decode, chunks, split, buffer, check, yielded);
    ok := Blank(buffer) && check.terminal;
  }

  lemma {:induction false} OpenTail(split: string, buffer: string)
    requires Tail(split) == "" && '\n' !in buffer
    ensures Lines(split + buffer) == Lines(split) && Tail(split + buffer) == buffer
  {
    LinesAppendOpen(split, buffer);
    assert "" + buffer == buffer;
  }

  lemma {:induction false} TakeMore(chunks: seq<string>, i: nat, split: string, buffer: string)
    requires i < |chunks| && split + buffer == Flatten(chunks[..i])
    ensures split + (buffer + chunks[i]) == Flatten(chunks[..i + 1])
  {
    assert chunks[..i + 1][..i] == chunks[..i];
    assert split + (buffer + chunks[i]) == split + buffer + chunks[i];
  }

  /** What a reader has seen after the first `i` chunks is a prefix of the outcome on all of them. */
  lemma {:induction false} ReadSoFar(sessionId: string, decode: string -> Option<Event>, chunks: seq<string>, i: nat,
                                     split: string, rest: string)
    requires i <= |chunks| && split + rest == Flatten(chunks[..i])
    ensures var now := ReadLines(sessionId, decode, Lines(split));
            var end := ReadLines(sessionId, decode, Lines(Flatten(chunks)));
            now.yielded <= end.yielded && (now.Refused? ==> end.Refused?)
  {
    assert chunks == chunks[..i] + chunks[i..];
    FlattenAppend(chunks[..i], chunks[i..]);
    var more := rest + Flatten(chunks[i..]);
    assert split + more == Flatten(chunks);
    LinesGrow(split, more);
    var all := Lines(Flatten(chunks));
    assert all == Lines(split) + all[|Lines(split)|..];
    YieldsGrow(sessionId, decode, Lines(split), all[|Lines(split)|..]);
  }

  lemma {:induction false} YieldsGrow(sessionId: string, decode: string -> Option<Event>, lines: seq<string>,
                                      more: seq<string>)
    ensures var now, end := ReadLines(sessionId, decode, lines), ReadLines(sessionId, decode, lines + more);
            now.yielded <= end.yielded && (now.Refused? ==> end.Refused?)
  {
    if more == [] {
      assert lines + more == lines;
    } else {
      assert (lines + more)[..|lines + more| - 1] == lines + more[..|more| - 1];
      YieldsGrow(sessionId, decode, lines, more[..|more| - 1]);
    }
  }

  // ----- End to end -----------------------------------------------------------------------------------------

  /** The wire form of a log: one encoded event per line. */
  function Wire(log: seq<Event>, encode: Event -> string): string {
    if log == [] then "" else Wire(log[..|log| - 1], encode) + encode(log[|log| - 1]) + "\n"
  }

  /** An encoding that can be read back and never contains a line terminator. */
  ghost predicate Codec(encode: Event -> string, decode: string -> Option<Event>) {
    forall e :: decode(encode(e)) == Some(e) && encode(e) != "" && '\n' !in encode(e)
  }

  lemma {:induction false} WireStep(sessionId: string, before: seq<Event>, wire: string, frame: string, e: Event,
                                    decode: string -> Option<Event>)
    requires Tail(wire) == "" && frame != "" && '\n' !in frame && decode(frame) == Some(e)
    requires Reads(sessionId, before, ReadLines(sessionId, decode, Lines(wire)))
    ensures Tail(wire + frame + "\n") == ""
    ensures Reads(sessionId, before + [e], ReadLines(sessionId, decode, Lines(wire + frame + "\n")))
  {
    AcceptAllSnoc(sessionId, before, e);
    hide Lines, Tail, ReadLines, AcceptAll, Accept;
    LinesAppendLine(wire, frame);
    ReadLinesSnoc(sessionId, decode, Lines(wire), frame);
  }

  lemma {:induction false} AcceptAllSnoc(sessionId: string, log: seq<Event>, e: Event)
    ensures AcceptAll(sessionId, log + [e]) ==
            if AcceptAll(sessionId, log).None? then None else Accept(AcceptAll(sessionId, log).value, sessionId, e)
  {
    assert (log + [e])[..|log|] == log;
  }

  /** The reader stands where the automaton stands. */
  ghost predicate Reads(sessionId: string, log: seq<Event>, r: Reader) {
    && (r.Reading? <==> AcceptAll(sessionId, log).Some?)
    && (r.Reading? ==> r == Reading(AcceptAll(sessionId, log).value, ParsedAll(log)))
  }

  lemma {:induction false} WireReads(sessionId: string, log: seq<Event>, encode: Event -> string,
                                     decode: string -> Option<Event>)
    requires Codec(encode, decode)
    ensures Tail(Wire(log, encode)) == ""
    ensures Reads(sessionId, log, ReadLines(sessionId, decode, Lines(Wire(log, encode))))
  {
    if log != [] {
      var before, last := log[..|log| - 1], log[|log| - 1];
      WireReads(sessionId, before, encode, decode);
      assert decode(encode(last)) == Some(last);
      hide Reads, Lines, Tail, ReadLines;
      WireStep(sessionId, before, Wire(before, encode), encode(last), last, decode);
      assert before + [last] == log;
    }
  }

  /** However the network cuts the wire form of a log into chunks that fit the buffer, the reader's outcome is that
      of the automaton on the log: `StreamTurn` yields the whole log, its prose trimmed, if it is accepted and fails if
      it is not. */
  lemma {:induction false} ChunkingIsInvisible(sessionId: string, log: seq<Event>, chunks: seq<string>,
                                               encode: Event -> string, decode: string -> Option<Event>)
    requires Codec(encode, decode) && Flatten(chunks) == Wire(log, encode)
    ensures var r := ReadLines(sessionId, decode, Lines(Flatten(chunks)));
            && (Accepted(sessionId, log) <==> r.Reading? && r.check.terminal && Blank(Tail(Flatten(chunks))))
            && (Accepted(sessionId, log) ==> r.yielded == ParsedAll(log))
  {
    WireReads(sessionId, log, encode, decode);
  }

  /** A frame longer than the buffer is refused however it is cut. */
  lemma {:induction false} OversizedFrameNeverFits(chunks: seq<string>, line: string)
    requires line in Lines(Flatten(chunks)) && |line| > MAX_BUFFER
    ensures !FramesFit(chunks)
  {
    var n := |chunks| - 1;
    var before, last := Flatten(chunks[..n]), chunks[n];
    if line in Lines(before) {
      OversizedFrameNeverFits(chunks[..n], line);
      var i :| 0 <= i < n && |Tail(Flatten(chunks[..n][..i]))| + |chunks[..n][i]| > MAX_BUFFER;
      assert chunks[..n][..i] == chunks[..i];
    } else {
      NewLineBound(before, last, line);
      assert |Tail(Flatten(chunks[..n]))| + |chunks[n]| > MAX_BUFFER;
    }
  }

  /** A line completed by `more` is no longer than what was waiting plus `more`. */
  lemma {:induction false} NewLineBound(wire: string, more: string, line: string)
    requires line in Lines(wire + more) && line !in Lines(wire)
    ensures |line| <= |Tail(wire)| + |more|
  {
    assert wire + "" == wire;
    if more != "" {
      var shorter := more[..|more| - 1];
      assert (wire + more)[..|wire + more| - 1] == wire + shorter;
      if line in Lines(wire + shorter) {
        NewLineBound(wire, shorter, line);
      } else {
        TailBound(wire, shorter);
      }
    }
  }

  lemma {:induction false} TailBound(wire: string, more: string)
    ensures |Tail(wire + more)| <= |Tail(wire)| + |more|
  {
    if more == "" {
      assert wire + more == wire;
    } else {
      assert (wire + more)[..|wire + more| - 1] == wire + more[..|more| - 1];
      TailBound(wire, more[..|more| - 1]);
    }
  }
}
