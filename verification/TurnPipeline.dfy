/** One turn from the vendor's events to the persisted message: produced by the adapter, cut into chunks by the
    network, re-validated by Control and accumulated. */
module TurnPipeline {
  import opened Text
  import opened ChatEvents
  import opened TurnText
  import opened TurnAdapter
  import opened EventStream
  import opened ChatMessage
  import opened MessageRestarts
  import opened MessageParts

  /** Control replaces an announced file by the stored revision it ingested. */
  function Finalize(e: Event, revisionOf: string -> string): Event {
    if e.body.Artifact? then e.(body := e.body.(revisionId := Some(revisionOf(e.body.artifactId)))) else e
  }

  function FinalizeAll(log: seq<Event>, revisionOf: string -> string): (r: seq<Event>)
    ensures |r| == |log| && forall i :: 0 <= i < |log| ==> r[i] == Finalize(log[i], revisionOf)
  {
    seq(|log|, i requires 0 <= i < |log| => Finalize(log[i], revisionOf))
  }

  /** Two logs that differ in the fields of activities only. */
  ghost predicate SameFrame(log: seq<Event>, log': seq<Event>) {
    |log'| == |log| && forall i :: 0 <= i < |log| ==> SameRole(log[i], log'[i])
  }

  predicate SameRole(e: Event, e': Event) {
    && e'.sequence == e.sequence && e'.sessionId == e.sessionId && e'.turnId == e.turnId
    && e'.body.TurnStart? == e.body.TurnStart? && e'.body.TurnFinish? == e.body.TurnFinish?
    && (e.body.TextDelta? || e'.body.TextDelta? ==> e'.body == e.body)
    && (e.body.TurnFinish? && e'.body.TurnFinish? ==> e'.body.state == e.body.state)
  }

  lemma {:induction false} SameFrameSameText(log: seq<Event>, log': seq<Event>)
    requires SameFrame(log, log')
    ensures LogText(log') == LogText(log)
  {
    if log != [] {
      SameFrameSameText(log[..|log| - 1], log'[..|log| - 1]);
      assert SameRole(log[|log| - 1], log'[|log| - 1]);
      hide SameRole;
    }
  }

  lemma {:induction false} SameFrameClosed(log: seq<Event>, log': seq<Event>, sessionId: string, turnId: string)
    requires SameFrame(log, log') && ClosedLog(log, sessionId, turnId)
    ensures ClosedLog(log', sessionId, turnId) && FinalState(log') == FinalState(log)
  {
    var n := |log| - 1;
    assert SameRole(log[n], log'[n]);
    forall i | 0 <= i < n ensures SameRole(log[..n][i], log'[..n][i]) {
      assert SameRole(log[i], log'[i]);
    }
  }

  /** What Control accumulates: the events as its schema hands them on, with their files stored. */
  function Taken(log: seq<Event>, revisionOf: string -> string): seq<Event> {
    FinalizeAll(ParsedAll(log), revisionOf)
  }

  lemma {:induction false} TakenSameFrame(log: seq<Event>, revisionOf: string -> string)
    ensures SameFrame(log, ParsedAll(log)) && SameFrame(log, Taken(log, revisionOf))
  {
  }

  /** The message of a log: in its state, with its text, and with every file whose identifier no later activity takes as
      the revision that Control stored. */
  ghost predicate Persisted(m: Message, log: seq<Event>, revisionOf: string -> string)
    requires log != [] && log[|log| - 1].body.TurnFinish?
  {
    && m.state == Some(FinalState(log)) && MessageText(m.parts) == LogText(log)
    && forall i :: 0 <= i < |log| && log[i].body.Artifact? && LeftAlone(log, i, log[i].body.artifactId)
           ==> FilePart(log[i].body.artifactId, revisionOf(log[i].body.artifactId)) in m.parts
  }

  lemma {:induction false} FilesPersisted(log: seq<Event>, revisionOf: string -> string)
    requires StartsOnce(Taken(log, revisionOf)) && ApplyAll(Taken(log, revisionOf)).Ok? && log != []
    ensures ApplyAll(Taken(log, revisionOf)).value.message.Some?
    ensures var parts := ApplyAll(Taken(log, revisionOf)).value.message.value.parts;
            forall i :: 0 <= i < |log| && log[i].body.Artifact? && LeftAlone(log, i, log[i].body.artifactId)
              ==> FilePart(log[i].body.artifactId, revisionOf(log[i].body.artifactId)) in parts
  {
    var taken := Taken(log, revisionOf);
    AccumulatesIff(taken);
    forall i | 0 <= i < |log| && log[i].body.Artifact? && LeftAlone(log, i, log[i].body.artifactId)
      ensures FilePart(log[i].body.artifactId, revisionOf(log[i].body.artifactId))
              in ApplyAll(taken).value.message.value.parts
    {
      TakenGives(log, revisionOf);
      hide ApplyAll, Taken;
      PartIsShown(taken, i);
    }
  }

  lemma {:induction false} TakenGives(log: seq<Event>, revisionOf: string -> string)
    ensures var taken := Taken(log, revisionOf);
            && |taken| == |log|
            && forall i :: 0 <= i < |log| ==>
                 && GivesId(taken[i]) == GivesId(log[i]) && IsActivity(taken[i]) == IsActivity(log[i])
                 && taken[i].body.Artifact? == log[i].body.Artifact?
                 && (log[i].body.Artifact? ==> taken[i].body.revisionId == Some(revisionOf(log[i].body.artifactId))
                                               && taken[i].body.artifactId == log[i].body.artifactId)
  {
  }

  /** A successful read of an adapter's wire yields a log whose accumulated message has the log's text. */
  lemma {:induction false} ReadTurn(log: seq<Event>, sessionId: string, turnId: string, chunks: seq<string>,
                                    yielded: seq<Event>, ok: bool, encode: Event -> string,
                                    decode: string -> Option<Event>, revisionOf: string -> string)
    requires ClosedLog(log, sessionId, turnId) && Codec(encode, decode)
    requires Flatten(chunks) == Wire(log, encode) && ReadOutcome(sessionId, decode, chunks, yielded, ok)
    ensures ok <==> FramesFit(chunks) && Conforms(log)
    ensures ok
            ==> var a := ApplyAll(Taken(log, revisionOf));
                && yielded == ParsedAll(log) && ClosedLog(yielded, sessionId, turnId)
                && FinalState(yielded) == FinalState(log)
                && a.Ok? && a.value.message.Some? && Persisted(a.value.message.value, log, revisionOf)
  {
    ChunkingIsInvisible(sessionId, log, chunks, encode, decode);
    AdapterLogAccepted(log, sessionId, turnId);
    TakenSameFrame(log, revisionOf);
    if Conforms(log) {
      assert turnId != "" by {
        hide OpenLog, TextUnits;
      }
      SameFrameClosed(log, ParsedAll(log), sessionId, turnId);
      MessagePersists(log, sessionId, turnId, revisionOf);
    }
    hide Conforms, ClosedLog, Persisted, Accepted, Codec, FinalState, ApplyAll, LogText, Taken, Wire, SameFrame;
  }

  lemma {:induction false} MessagePersists(log: seq<Event>, sessionId: string, turnId: string,
                                           revisionOf: string -> string)
    requires ClosedLog(log, sessionId, turnId) && turnId != ""
    ensures var a := ApplyAll(Taken(log, revisionOf));
            a.Ok? && a.value.message.Some? && Persisted(a.value.message.value, log, revisionOf)
  {
    var taken := Taken(log, revisionOf);
    TakenSameFrame(log, revisionOf);
    SameFrameClosed(log, taken, sessionId, turnId);
    SameFrameSameText(log, taken);
    MessageKeepsText(taken, sessionId, turnId);
    FinishedMessage(taken);
    ClosedStartsOnce(taken, sessionId, turnId);
    FilesPersisted(log, revisionOf);
    hide ClosedLog, OpenLog, ApplyAll, LogText, Taken, SameFrame, MessageText, StartsOnce;
  }

  lemma {:induction false} ClosedStartsOnce(log: seq<Event>, sessionId: string, turnId: string)
    requires ClosedLog(log, sessionId, turnId)
    ensures StartsOnce(log)
  {
    assert forall i :: 0 <= i < |log| - 1 ==> log[i] == log[..|log| - 1][i];
  }

  method EncodeWire(log: seq<Event>, encode: Event -> string) returns (wire: string)
    ensures wire == Wire(log, encode)
  {
    wire := "";
    for i := 0 to |log|
      invariant wire == Wire(log[..i], encode)
    {
      assert log[..i + 1][..i] == log[..i];
      wire := wire + encode(log[i]) + "\n";
    }
    assert log[..|log|] == log;
  }

  method Accumulate(log: seq<Event>, revisionOf: string -> string) returns (message: Option<Message>)
    ensures var a := ApplyAll(FinalizeAll(log, revisionOf)); a.Ok? ==> message == a.value.message
    ensures var a := ApplyAll(FinalizeAll(log, revisionOf)); a.Err? ==> message == None
  {
    var accumulator := new AgentMessageAccumulator();
    ghost var events := FinalizeAll(log, revisionOf);
    for i := 0 to |log|
      invariant ApplyAll(events[..i]) == Ok(accumulator.View())
    {
      assert events[..i + 1][..i] == events[..i];
      assert events[..i + 1][|events[..i + 1]| - 1] == Finalize(log[i], revisionOf);
      var error := accumulator.Apply(Finalize(log[i], revisionOf));
      if error.Some? {
        ErrorsLast(events, i + 1);
        return None;
      }
    }
    assert events[..|log|] == events;
    message := accumulator.message;
  }

  lemma {:induction false} ErrorsLast(log: seq<Event>, i: nat)
    requires i <= |log| && ApplyAll(log[..i]).Err?
    ensures ApplyAll(log) == ApplyAll(log[..i])
    decreases |log|
  {
    if i == |log| {
      assert log[..i] == log;
    } else {
      assert log[..|log| - 1][..i] == log[..i];
      ErrorsLast(log[..|log| - 1], i);
    }
  }

  /** A cancellation that comes before `turn-start` leaves a log that Control refuses under every cutting. */
  lemma {:induction false} UnstartedTurnRefused(log: seq<Event>, sessionId: string, chunks: seq<string>,
                                                yielded: seq<Event>, ok: bool,
                                                encode: Event -> string, decode: string -> Option<Event>)
    requires |log| == 1 && log[0].body.TurnFinish? && Codec(encode, decode)
    requires Flatten(chunks) == Wire(log, encode) && ReadOutcome(sessionId, decode, chunks, yielded, ok)
    ensures !ok
  {
    ChunkingIsInvisible(sessionId, log, chunks, encode, decode);
    AcceptedIff(sessionId, log);
  }

  /** End to end. For every vendor behaviour, wherever an exception or the one cancellation strikes, and every way
      the network cuts the wire, Control takes the turn exactly when it had started, its frames fit Control's buffer
      and its log conforms to the event schema. The message of a turn that is taken has exactly the text of the
      adapter's log: all that the vendor's deltas release if the turn ends as completed or needs_input, a beginning of
      it otherwise. */
  method RelayTurn(sessionId: string, turnId: string, messageId: string, inputs: seq<Input>, outbox: Outbox,
                   cancelAt: Option<nat>,
                   approachSummary: string -> string, encode: Event -> string, decode: string -> Option<Event>,
                   cut: string -> seq<string>, revisionOf: string -> string)
    returns (state: Option<TurnState>, message: Option<Message>, log: seq<Event>)
    requires Codec(encode, decode)
    requires forall wire :: Flatten(cut(wire)) == wire
    ensures IsTurn(log, sessionId, turnId, messageId, inputs, outbox, cancelAt, approachSummary)
    ensures state.Some? <==> cancelAt != Some(0) && FramesFit(cut(Wire(log, encode))) && Conforms(log)
    ensures state.Some?
            ==> && log != [] && log[|log| - 1].body.TurnFinish? && state.value == log[|log| - 1].body.state
                && message.Some? && message.value.state == state && Persisted(message.value, log, revisionOf)
  {
    hide IsTurn, Conforms, ReadOutcome, ClosedLog, ApplyAll, FinalizeAll, ParsedAll;
    var turn := ProduceTurn(sessionId, turnId, messageId, inputs, outbox, cancelAt, approachSummary);
    log := turn.events;
    TurnIs(log, sessionId, turnId, messageId, inputs, outbox, cancelAt, approachSummary);
    var wire := EncodeWire(log, encode);
    var chunks := cut(wire);
    assert Flatten(chunks) == wire;
    var yielded, ok := StreamTurn(sessionId, decode, chunks);
    if cancelAt == Some(0) {
      UnstartedTurnRefused(log, sessionId, chunks, yielded, ok, encode, decode);
      return None, None, log;
    }
    ReadTurn(log, sessionId, turnId, chunks, yielded, ok, encode, decode, revisionOf);
    if !ok {
      return None, None, log;
    }
    message := Accumulate(yielded, revisionOf);
    ClosedEnds(yielded, sessionId, turnId);
    state := Some(FinalState(yielded));
  }

  lemma {:induction false} TurnIs(log: seq<Event>, sessionId: string, turnId: string, messageId: string,
                                  inputs: seq<Input>,
                                  outbox: Outbox, cancelAt: Option<nat>, summarize: string -> string)
    requires IsTurn(log, sessionId, turnId, messageId, inputs, outbox, cancelAt, summarize)
    ensures log != [] && log[|log| - 1].body.TurnFinish?
    ensures cancelAt != Some(0) ==> ClosedLog(log, sessionId, turnId)
    ensures cancelAt == Some(0) ==> |log| == 1
  {
  }
}
