/** Turns that the adapter completes and Control refuses: what decides it, and vendor inputs that show each case. */
module TurnRefusals {
  import opened Text
  import opened ChatEvents
  import opened TurnText
  import opened TurnAdapter
  import opened EventStream
  import opened TurnPipeline
  import opened ChatMessage

  /** What the schema demands of a body, with the units of a text delta. */
  predicate BodyFits(b: Body) {
    && FormsFit(b) && (forall p :: p in ProseOf(b) ==> Fits(p))
    && (b.TextDelta? ==> Utf16Length(b.delta) <= MAX_DELTA_UNITS)
  }

  lemma {:induction false} BodiesOfOpen(log: seq<Event>, sessionId: string, turnId: string)
    requires OpenLog(log, sessionId, turnId)
    ensures |Bodies(log)| == if log == [] then 0 else |log| - 1
    ensures forall i :: 0 < i < |log| ==> log[i].body == Bodies(log)[i - 1]
  {
    if log != [] {
      var before := log[..|log| - 1];
      assert forall i :: 0 <= i < |before| ==> before[i] == log[i];
      BodiesOfOpen(before, sessionId, turnId);
    }
  }

  lemma {:induction false} BodiesOfClosed(log: seq<Event>, sessionId: string, turnId: string)
    requires ClosedLog(log, sessionId, turnId)
    ensures |Bodies(log)| == |log| - 2
    ensures forall i :: 0 < i < |log| - 1 ==> log[i].body == Bodies(log)[i - 1]
    ensures forall i :: 0 <= i < |log| ==> log[i].sessionId == sessionId && log[i].turnId == turnId
    ensures log[0].body.TurnStart? && log[|log| - 1].body.TurnFinish?
  {
    var before := log[..|log| - 1];
    BodiesOfOpen(before, sessionId, turnId);
    assert Bodies(log) == Bodies(before) + [];
    assert forall i :: 0 <= i < |before| ==> before[i] == log[i];
  }

  /** Whether a closed log conforms is decided by what it tells and by the two events of its frame. */
  lemma {:induction false} ConformsIff(log: seq<Event>, sessionId: string, turnId: string)
    requires ClosedLog(log, sessionId, turnId)
    ensures Conforms(log)
            <==> |Bodies(log)| <= MAX_SEQUENCE - 1 && Utf16Length(LogText(log)) <= MAX_TEXT_UNITS
                 && FieldsFit(log[0]) && FieldsFit(log[|log| - 1]) && forall b :: b in Bodies(log) ==> BodyFits(b)
  {
    BodiesOfClosed(log, sessionId, turnId);
    TextUnitsCountText(log);
    FitsWithin(log, Bodies(log), sessionId, turnId);
    hide ClosedLog, Bodies, LogText, FieldsFit, BodyFits, Utf16Length, TextUnits;
  }

  predicate EventFits(e: Event) {
    FieldsFit(e) && (e.body.TextDelta? ==> Utf16Length(e.body.delta) <= MAX_DELTA_UNITS)
  }

  /** Every event fits exactly if the two of the frame do and everything told between them. */
  lemma {:induction false} FitsWithin(log: seq<Event>, bodies: seq<Body>, sessionId: string, turnId: string)
    requires |log| >= 2 && |bodies| == |log| - 2 && forall i :: 0 < i < |log| - 1 ==> log[i].body == bodies[i - 1]
    requires forall i :: 0 <= i < |log| ==> log[i].sessionId == sessionId && log[i].turnId == turnId
    requires !log[0].body.TextDelta? && !log[|log| - 1].body.TextDelta?
    ensures (forall i :: 0 <= i < |log| ==> EventFits(log[i]))
            <==> FieldsFit(log[0]) && FieldsFit(log[|log| - 1]) && forall b :: b in bodies ==> BodyFits(b)
  {
    forall i | 0 <= i < |log| ensures FieldsFit(log[0]) ==> (EventFits(log[i]) <==> BodyFits(log[i].body)) {
      FitsByBody(log[0], log[i]);
    }
    assert FieldsFit(log[|log| - 1]) <==> EventFits(log[|log| - 1]);
    assert FieldsFit(log[0]) <==> EventFits(log[0]);
    hide FieldsFit, BodyFits, EventFits;
    assert forall i :: 0 <= i < |bodies| ==> bodies[i] == log[i + 1].body;
    if FieldsFit(log[0]) && forall i :: 0 <= i < |log| ==> EventFits(log[i]) {
      forall b | b in bodies ensures BodyFits(b) {
        var i :| 0 <= i < |bodies| && bodies[i] == b;
        assert EventFits(log[i + 1]);
      }
    }
    if FieldsFit(log[0]) && FieldsFit(log[|log| - 1]) && forall b :: b in bodies ==> BodyFits(b) {
      forall i | 0 < i < |log| - 1 ensures EventFits(log[i]) {
        assert bodies[i - 1] in bodies;
      }
    }
  }

  lemma {:induction false} FitsByBody(first: Event, e: Event)
    requires e.sessionId == first.sessionId && e.turnId == first.turnId
    ensures FieldsFit(first) ==> (EventFits(e) <==> BodyFits(e.body))
  {
    hide FormsFit, ProseOf, Fits, IsIdentifier, Utf16Length;
  }

  /** Which completed turns conform is decided by the vendor's inputs: by how much the turn tells, by the length of the
      message in UTF-16 units, and by each body told. */
  lemma {:induction false} CompletedConformsIff(log: seq<Event>, sessionId: string, turnId: string, inputs: seq<Input>,
                                                outbox: Outbox, summarize: string -> string)
    requires ClosedLog(log, sessionId, turnId) && TellsAll(log, inputs, outbox, turnId, summarize)
    ensures var told := TurnBodies(inputs, EndState(inputs), outbox, turnId, summarize);
            Conforms(log)
            <==> |told| <= MAX_SEQUENCE - 1 && Utf16Length(VendorMessage(inputs).emitted) <= MAX_TEXT_UNITS
                 && FieldsFit(log[0]) && FieldsFit(log[|log| - 1]) && forall b :: b in told ==> BodyFits(b)
  {
    hide ClosedLog, TurnBodies, VendorMessage, EndState;
    ConformsIff(log, sessionId, turnId);
  }

  const FINISH := Vendor(VendorFinish(Completed, None))
  const NO_FILES := Collected([], None)

  /** Nothing goes wrong and the vendor completes the turn without asking. */
  predicate Completes(inputs: seq<Input>) {
    && Fault !in inputs && |VendorMessage(inputs).emitted| <= MAX_TEXT && !VendorMessage(inputs).needsInput
    && VendorState(inputs) == Some(Completed)
  }

  lemma {:induction false} IsCompleted(inputs: seq<Input>, finish: Body)
    requires EndsAs(finish, inputs, NO_FILES) && Completes(inputs)
    ensures finish.state == Completed && EndState(inputs) == Completed
  {
    VendorEndIs(inputs);
    TextFidelity(Deltas(inputs));
    hide EndedBy, Flush, FeedAll, HasMarker, EndsAs, NoFinishAfter, Breaks;
    FinalStateIff(inputs, NO_FILES, finish);
  }

  // ----- Text in supplementary characters --------------------------------------------------------------------

  lemma {:induction false} SupplementaryCompletes(inputs: seq<Input>, text: string)
    requires inputs == [Vendor(VendorText(text)), FINISH]
    requires 0 < |text| <= MAX_TEXT && text[0] == '\U{1F600}'
    ensures Completes(inputs) && VendorMessage(inputs).emitted == text
  {
    OneText(inputs, text);
    hide Deltas, VendorState, FeedAll, Feed, Flush, Flatten;
    FedOnce(text);
    TextFidelity([text]);
    assert StripLeft(text) == text && text[0] != NEEDS_INPUT_MARKER[0];
  }

  lemma {:induction false} OneText(inputs: seq<Input>, text: string)
    requires inputs == [Vendor(VendorText(text)), FINISH]
    ensures Deltas(inputs) == [text] && VendorState(inputs) == Some(Completed) && Fault !in inputs
  {
    var first := inputs[..1];
    assert first[..0] == [] && first[0] == Vendor(VendorText(text));
    assert Deltas(first) == [] + [text] == [text];
  }

  /** Text of supplementary characters that the adapter releases as a completed turn, within its own limit, and Control
      refuses however the wire is cut. */
  method SupplementaryTurnRefused(text: string, turnId: string, encode: Event -> string,
                                  decode: string -> Option<Event>, cut: string -> seq<string>)
    returns (state: Option<TurnState>, log: seq<Event>)
    requires MAX_TEXT < 2 * |text| <= 2 * MAX_TEXT && forall i :: 0 <= i < |text| ==> text[i] == '\U{1F600}'
    requires Codec(encode, decode)
    requires forall wire :: Flatten(cut(wire)) == wire
    ensures log != [] && log[|log| - 1].body.TurnFinish? && FinalState(log) == Completed && LogText(log) == text
    ensures state.None?
  {
    hide *;
    var inputs := [Vendor(VendorText(text)), FINISH];
    var sessionId, files, summarize := "session", NO_FILES, (caption: string) => "";
    var message;
    state, message, log := RelayTurn(sessionId, turnId, "message", inputs, files, None, summarize, encode, decode, cut,
                                     artifactId => artifactId);
    SupplementaryOutcome(log, sessionId, inputs, text, files, turnId, summarize);
  }

  lemma {:induction false} SupplementaryOutcome(log: seq<Event>, sessionId: string, inputs: seq<Input>, text: string,
                                                outbox: Outbox, turnId: string, summarize: string -> string)
    requires IsTurn(log, sessionId, turnId, "message", inputs, outbox, None, summarize) && outbox == NO_FILES
    requires inputs == [Vendor(VendorText(text)), FINISH]
    requires MAX_TEXT < 2 * |text| <= 2 * MAX_TEXT && forall i :: 0 <= i < |text| ==> text[i] == '\U{1F600}'
    ensures log != [] && log[|log| - 1].body.TurnFinish? && FinalState(log) == Completed
    ensures LogText(log) == text && !Conforms(log)
  {
    hide EndsAs, Breaks, Completes, VendorMessage, TurnBodies, EndState, ClosedLog, FieldsFit, LogText, Bodies;
    SupplementaryCompletes(inputs, text);
    IsCompleted(inputs, log[|log| - 1].body);
    SupplementaryLength(text);
    TextUnitsCountText(log);
  }

  // ----- Too many events -------------------------------------------------------------------------------------

  ghost predicate AllLetters(inputs: seq<Input>, n: nat) {
    n <= |inputs| && forall i :: 0 <= i < n ==> inputs[i] == Vendor(VendorText("a"))
  }

  lemma {:induction false} LetterFed(p: Parser)
    requires p == START || (p.known && p.pending == "" && !p.needsInput)
    ensures Feed(p, "a") == Parser("", true, false, p.emitted + "a") && Released(p, "a") == "a"
  {
    assert StripLeft("a") == "a" && NEEDS_INPUT_MARKER[0] == '[';
    assert "" + "a" == "a" && (p.emitted + "a")[|p.emitted|..] == "a";
  }

  lemma {:induction false} LetterSlice(turnId: string)
    ensures |Slices(turnId, "a")| == 1 && Slices(turnId, "") == []
  {
    assert "a"[..0] == "";
  }

  /** Every one-character delta is released and told as an event of its own. */
  lemma {:induction false} LettersTold(inputs: seq<Input>, n: nat, turnId: string, summarize: string -> string)
    requires AllLetters(inputs, n)
    ensures var p, notes := FeedAll(Deltas(inputs[..n])), NotedAll(inputs[..n], turnId, summarize);
            && (if n == 0 then p == START else p.known && p.pending == "" && !p.needsInput) && |p.emitted| == n
            && !notes.planned && notes.plan.None? && !notes.working && |notes.told| == n
    ensures VendorState(inputs[..n]).None? && Fault !in inputs[..n]
  {
    if n == 0 {
      NoInputs(inputs, turnId, summarize);
    } else {
      LettersTold(inputs, n - 1, turnId, summarize);
      InputStep(inputs, n - 1);
      InputNoted(inputs, n - 1, turnId, summarize);
      LetterFed(FeedAll(Deltas(inputs[..n - 1])));
      LetterSlice(turnId);
      hide FeedAll, Deltas, NotedAll, Feed, Released, Slices, VendorEnd;
    }
  }

  lemma {:induction false} LettersTurn(inputs: seq<Input>, n: nat, turnId: string, summarize: string -> string)
    requires |inputs| == n + 1 && AllLetters(inputs, n) && inputs[n] == FINISH && 0 < n <= MAX_TEXT
    ensures Completes(inputs) && |VendorMessage(inputs).emitted| == n
    ensures |TurnBodies(inputs, Completed, NO_FILES, turnId, summarize)| == n
  {
    hide FeedAll, Deltas, NotedAll, Feed, Slices, VendorEnd, Closing, Released;
    LettersTold(inputs, n, turnId, summarize);
    InputStep(inputs, n);
    InputNoted(inputs, n, turnId, summarize);
    LetterSlice(turnId);
    assert inputs[..n + 1] == inputs;
    NothingClosing(NotedAll(inputs, turnId, summarize), turnId);
  }

  lemma {:induction false} NothingClosing(n: Notes, turnId: string)
    requires !n.planned && !n.working
    ensures Closing(n, Completed, NO_FILES, turnId) == []
  {
  }

  /** One-character deltas, within the adapter's limit on text and in the Basic Multilingual Plane, that it
      completes and Control refuses because there are too many of them. */
  method LongTurnRefused(count: nat, turnId: string, encode: Event -> string, decode: string -> Option<Event>,
                         cut: string -> seq<string>)
    returns (state: Option<TurnState>, log: seq<Event>)
    requires MAX_SEQUENCE <= count <= MAX_TEXT && Codec(encode, decode)
    requires forall wire :: Flatten(cut(wire)) == wire
    ensures log != [] && log[|log| - 1].body.TurnFinish? && FinalState(log) == Completed
    ensures |LogText(log)| == count && |log| == count + 2
    ensures state.None?
  {
    hide *;
    var inputs := Letters(count);
    var sessionId, files, summarize := "session", NO_FILES, (caption: string) => "";
    var message;
    state, message, log := RelayTurn(sessionId, turnId, "message", inputs, files, None, summarize, encode, decode, cut,
                                     artifactId => artifactId);
    LettersOutcome(log, sessionId, inputs, count, files, turnId, summarize);
  }

  method Letters(count: nat) returns (inputs: seq<Input>)
    ensures |inputs| == count + 1 && AllLetters(inputs, count) && inputs[count] == FINISH
  {
    inputs := seq(count, i => Vendor(VendorText("a"))) + [FINISH];
  }

  lemma {:induction false} LettersOutcome(log: seq<Event>, sessionId: string, inputs: seq<Input>, count: nat,
                                          outbox: Outbox, turnId: string, summarize: string -> string)
    requires IsTurn(log, sessionId, turnId, "message", inputs, outbox, None, summarize) && outbox == NO_FILES
    requires |inputs| == count + 1 && AllLetters(inputs, count) && inputs[count] == FINISH
    requires MAX_SEQUENCE <= count <= MAX_TEXT
    ensures log != [] && log[|log| - 1].body.TurnFinish? && FinalState(log) == Completed
    ensures |LogText(log)| == count && |log| == count + 2 && !Conforms(log)
  {
    hide EndsAs, Breaks, Completes, VendorMessage, TurnBodies, EndState, Conforms, ClosedLog, AllLetters, LogText,
         Bodies;
    LettersTurn(inputs, count, turnId, summarize);
    IsCompleted(inputs, log[|log| - 1].body);
    CompletedConformsIff(log, sessionId, turnId, inputs, outbox, summarize);
    BodiesOfClosed(log, sessionId, turnId);
  }

  // ----- A summary cut by characters -------------------------------------------------------------------------

  /** Runs of white space become one space, at the ends nothing. */
  function Squeezed(text: string): string {
    if text == "" then ""
    else
      var n := |text| - 1;
      var before := Squeezed(text[..n]);
      if IsPythonSpace(text[n]) then before
      else if before != "" && IsPythonSpace(text[n - 1]) then before + [' ', text[n]]
      else before + [text[n]]
  }

  /** `safe_summary`: what becomes of a vendor's message. */
  function SafeSummary(message: string, fallback: string): string {
    var squeezed := Squeezed(message);
    var summary := if |squeezed| > 500 then squeezed[..500] else squeezed;
    if summary == "" then fallback else summary
  }

  lemma {:induction false} SqueezedNothing(text: string)
    requires forall i :: 0 <= i < |text| ==> !IsPythonSpace(text[i])
    ensures Squeezed(text) == text
  {
    if text != "" {
      var n := |text| - 1;
      hide IsPythonSpace;
      SqueezedNothing(text[..n]);
      assert text == text[..n] + [text[n]];
      assert !IsPythonSpace(text[n]) && (n > 0 ==> !IsPythonSpace(text[n - 1]));
    }
  }

  predicate IsWord(word: string) {
    word != "" && forall i :: 0 <= i < |word| ==> !IsPythonSpace(word[i])
  }

  /** White space at the end is dropped. */
  lemma {:induction false} SqueezedGap(text: string, gap: string)
    requires AllPythonSpace(gap)
    ensures Squeezed(text + gap) == Squeezed(text)
  {
    hide IsPythonSpace;
    if gap == "" {
      assert text + gap == text;
    } else {
      assert (text + gap)[..|text + gap| - 1] == text + gap[..|gap| - 1];
      SqueezedGap(text, gap[..|gap| - 1]);
    }
  }

  /** A word behind white space, or at the start, is set off from those before it by one space. */
  lemma {:induction false} SqueezedWord(text: string, word: string)
    requires IsWord(word) && (text != "" ==> IsPythonSpace(text[|text| - 1]))
    ensures Squeezed(text + word) == if Squeezed(text) == "" then word else Squeezed(text) + " " + word
  {
    hide IsPythonSpace;
    var n := |word| - 1;
    var all := text + word;
    assert all[..|all| - 1] == text + word[..n] && all[|all| - 1] == word[n];
    if n == 0 {
      assert text + word[..n] == text && word == [word[0]];
      assert text == "" ==> Squeezed(text) == "";
    } else {
      SqueezedWord(text, word[..n]);
      SqueezedLetter(all);
      hide Squeezed;
      assert word == word[..n] + [word[n]] && all[|all| - 2] == word[n - 1];
    }
  }

  /** A letter behind a letter is added to it. */
  lemma {:induction false} SqueezedLetter(text: string)
    requires |text| > 1 && !IsPythonSpace(text[|text| - 1]) && !IsPythonSpace(text[|text| - 2])
    ensures Squeezed(text) == Squeezed(text[..|text| - 1]) + [text[|text| - 1]]
  {
    hide IsPythonSpace;
  }

  /** A summary is the message's words, cut at 500 characters; without any it is the fallback. */
  lemma {:induction false} SafeSummaryIs(message: string, fallback: string)
    ensures var words, summary := Squeezed(message), SafeSummary(message, fallback);
            if words == "" then summary == fallback
            else summary <= words && |summary| == if |words| <= 500 then |words| else 500
  {
    hide Squeezed;
  }

  /** A message of 251 to 500 supplementary characters passes the adapter's limit and not Control's. */
  lemma {:induction false} SupplementarySummary(message: string, fallback: string)
    requires 251 <= |message| <= 500 && forall i :: 0 <= i < |message| ==> message[i] == '\U{1F600}'
    ensures SafeSummary(message, fallback) == message && !Fits(Prose(message, 500))
  {
    SqueezedNothing(message);
    SupplementaryLength(message);
    assert TrimStart(message) == message && TrimEnd(message) == message;
  }

  /** A zero-width no-break space is white space to Control and not to the adapter. */
  lemma {:induction false} InvisibleSummary(fallback: string)
    ensures SafeSummary("\U{FEFF}", fallback) == "\U{FEFF}" && !Fits(Prose("\U{FEFF}", 500))
  {
    SqueezedNothing("\U{FEFF}");
    TrimIsPart("\U{FEFF}");
    assert Blank("\U{FEFF}");
  }

  function Progressing(message: string): VendorEvent {
    VendorTool("tool", "search", ToolRunning, Some(SafeSummary(message, "Tool is running")), "Working")
  }

  lemma {:induction false} ProgressTold(inputs: seq<Input>, report: string, turnId: string, summarize: string -> string)
    requires inputs == [Vendor(Progressing(report)), FINISH]
    ensures Completes(inputs) && VendorMessage(inputs).emitted == ""
    ensures ActivityBody(Progressing(report)) in TurnBodies(inputs, Completed, NO_FILES, turnId, summarize)
  {
    InputStep(inputs, 0);
    InputStep(inputs, 1);
    InputNoted(inputs, 0, turnId, summarize);
    InputNoted(inputs, 1, turnId, summarize);
    NoInputs(inputs, turnId, summarize);
    assert inputs[..2] == inputs;
    hide Deltas, FeedAll, VendorEnd, NotedAll, SafeSummary;
    var tool := ActivityBody(Progressing(report));
    var first, all := NotedAll(inputs[..1], turnId, summarize), NotedAll(inputs, turnId, summarize);
    assert first.told[|first.told| - 1] == tool;
    assert all.told == first.told;
  }

  /** A turn that reports progress of one tool and finishes: the adapter completes it, and Control takes it only if the
      summary made of the report fits Control's limit. */
  method SummaryTurnRefused(report: string, turnId: string, encode: Event -> string, decode: string -> Option<Event>,
                            cut: string -> seq<string>)
    returns (state: Option<TurnState>, log: seq<Event>)
    requires !Fits(Prose(SafeSummary(report, "Tool is running"), 500)) && Codec(encode, decode)
    requires forall wire :: Flatten(cut(wire)) == wire
    ensures log != [] && log[|log| - 1].body.TurnFinish? && FinalState(log) == Completed && LogText(log) == ""
    ensures state.None?
  {
    hide *;
    var inputs := [Vendor(Progressing(report)), FINISH];
    var sessionId, files, summarize := "session", NO_FILES, (caption: string) => "";
    var message;
    state, message, log := RelayTurn(sessionId, turnId, "message", inputs, files, None, summarize, encode, decode, cut,
                                     artifactId => artifactId);
    SummaryOutcome(log, sessionId, inputs, report, files, turnId, summarize);
  }

  lemma {:induction false} SummaryOutcome(log: seq<Event>, sessionId: string, inputs: seq<Input>, report: string,
                                          outbox: Outbox, turnId: string, summarize: string -> string)
    requires IsTurn(log, sessionId, turnId, "message", inputs, outbox, None, summarize) && outbox == NO_FILES
    requires inputs == [Vendor(Progressing(report)), FINISH]
    requires !Fits(Prose(SafeSummary(report, "Tool is running"), 500))
    ensures log != [] && log[|log| - 1].body.TurnFinish? && FinalState(log) == Completed
    ensures LogText(log) == "" && !Conforms(log)
  {
    hide EndsAs, Breaks, Completes, VendorMessage, TurnBodies, EndState, Conforms, ClosedLog, BodyFits, SafeSummary,
         Fits, LogText,
         Bodies;
    ProgressTold(inputs, report, turnId, summarize);
    SummaryIsProse(report);
    IsCompleted(inputs, log[|log| - 1].body);
    CompletedConformsIff(log, sessionId, turnId, inputs, outbox, summarize);
  }

  lemma {:induction false} SummaryIsProse(report: string)
    ensures BodyFits(ActivityBody(Progressing(report))) ==> Fits(Prose(SafeSummary(report, "Tool is running"), 500))
  {
    var summary := SafeSummary(report, "Tool is running");
    hide SafeSummary, Fits, FormsFit;
    assert summary != "" by { SummaryGiven(report); }
    assert Prose(summary, 500) in ProseOf(ActivityBody(Progressing(report)));
  }

  lemma {:induction false} SummaryGiven(report: string)
    ensures SafeSummary(report, "Tool is running") != ""
  {
  }
}
