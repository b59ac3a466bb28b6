/** What an accumulated message shows, event by event, in which state it is, and what history shows of it later. */
module MessageParts {
  import opened Text
  import opened ChatEvents
  import opened ChatMessage
  import opened MessageRestarts

  /** The part tells the event, field by field. */
  predicate Shows(p: Part, e: Event) {
    match e.body
    case Progress(id, caption, state) => p == ProgressPart(id, caption, state)
    case Tool(_, _, _, _, caption) =>
      caption.Some? && p == ProgressPart("progress-" + e.turnId, caption.value, Running)
    case Approval(id, operation, state, summary) => p == ApprovalPart(id, operation, state, summary)
    case Artifact(id, _, revision) => revision.Some? && p == FilePart(id, revision.value)
    case TurnFinish(state, message, _) => p == TerminalPart("terminal-" + e.turnId, state, message)
    case _ => false
  }

  predicate IsActivity(e: Event) {
    e.body.Progress? || e.body.Approval? || (e.body.Tool? && e.body.progressLabel.Some?)
  }

  /** `after` is `before` with part `i` written, and nothing else touched. */
  predicate WrittenAt(before: seq<Part>, after: seq<Part>, i: nat) {
    && i < |after| && |after| == (if i == |before| then |before| + 1 else |before|)
    && forall j :: 0 <= j < |before| && j != i ==> after[j] == before[j]
  }

  predicate GivenHere(p: Part, id: string) {
    !p.TextPart? && p.id == id
  }

  /** An activity is shown in one place: that of the first part with its identifier, or else a new one at the end. */
  lemma {:induction false} ActivityWrites(a: Accumulated, e: Event)
    requires a.message.Some? && IsActivity(e)
    ensures var r := ApplyEvent(a, e);
            && r.Ok? && r.value.message.Some? && r.value.textParts == a.textParts
            && r.value.message.value.state == a.message.value.state
            && var before, after, id := a.message.value.parts, r.value.message.value.parts, GivesId(e).value;
               exists i: nat :: WrittenAt(before, after, i) && Shows(after[i], e)
                 && (i < |before| ==> GivenHere(before[i], id)) && forall j :: 0 <= j < i ==> !GivenHere(before[j], id)
  {
    var before, after, id := a.message.value.parts, ApplyEvent(a, e).value.message.value.parts, GivesId(e).value;
    var i := IndexOfId(before, id);
    assert WrittenAt(before, after, i) && Shows(after[i], e);
    assert forall j :: 0 <= j < i ==> GivenHere(before[j], id) == HasId(before[j], id);
  }

  /** A stored file is shown in a new place at the end. */
  lemma {:induction false} FileWrites(a: Accumulated, e: Event)
    requires a.message.Some? && e.body.Artifact? && e.body.revisionId.Some?
    ensures var r := ApplyEvent(a, e);
            && r.Ok? && r.value.textParts == a.textParts
            && exists p :: Shows(p, e)
                 && r.value.message == Some(a.message.value.(parts := a.message.value.parts + [p]))
  {
    assert Shows(FilePart(e.body.artifactId, e.body.revisionId.value), e);
  }

  /** What a finished turn makes of a part. */
  predicate Closes(before: Part, after: Part, state: TurnState) {
    if before.TextPart? then after == TextPart(before.text, false)
    else if before.ProgressPart? && before.workState == Running then
      after.ProgressPart? && after.id == before.id && after.workState == Finished
      && (state == NeedsInput ==> after.caption == "Waiting for your reply")
      && (state == Completed ==> after.caption == "Work complete")
      && (state == Cancelled ==> after.caption == "Work stopped")
      && (state == Failed ==> after.caption == "Work failed")
    else after == before
  }

  /** The end of a turn closes every part in place, shows itself last, and is the message's state. */
  lemma {:induction false} FinishWrites(a: Accumulated, e: Event)
    requires a.message.Some? && e.body.TurnFinish?
    ensures var r := ApplyEvent(a, e);
            && r.Ok? && r.value.message.Some? && r.value.textParts == a.textParts
            && r.value.message.value.state == Some(e.body.state)
            && var before, after := a.message.value.parts, r.value.message.value.parts;
               && |after| == |before| + 1 && Shows(after[|before|], e)
               && forall i :: 0 <= i < |before| ==> Closes(before[i], after[i], e.body.state)
  {
    var before, after := a.message.value.parts, ApplyEvent(a, e).value.message.value.parts;
    forall i | 0 <= i < |before| ensures Closes(before[i], after[i], e.body.state) {
      assert after[i] == ClosePart(before[i], e.body.state);
    }
  }

  /** Every other event but a text delta or a start leaves the message as it is. */
  lemma {:induction false} OthersWriteNothing(a: Accumulated, e: Event)
    requires a.message.Some? && !IsActivity(e)
    requires !e.body.TurnStart? && !e.body.TextDelta? && !e.body.Artifact? && !e.body.TurnFinish?
    ensures ApplyEvent(a, e) == Ok(a)
  {
  }

  ghost predicate NoStartAfter(log: seq<Event>, k: nat) {
    forall j :: k <= j < |log| ==> !log[j].body.TurnStart?
  }

  /** Event `k` is the last end since the last start. */
  ghost predicate EndedAt(log: seq<Event>, k: nat) {
    k < |log| && log[k].body.TurnFinish? && NoStartAfter(log, k) && forall j :: k < j < |log|
                                                                      ==> !log[j].body.TurnFinish?
  }

  /** No end follows the last start, or the last one that does has this state. */
  ghost predicate InState(log: seq<Event>, state: Option<TurnState>) {
    if state.None? then forall k: nat :: k < |log| ==> !EndedAt(log, k)
    else exists k: nat :: k < |log| && EndedAt(log, k) && log[k].body.state == state.value
  }

  lemma {:induction false} EndedAtSnoc(log: seq<Event>, k: nat)
    requires log != [] && k < |log|
    ensures var n := |log| - 1;
            EndedAt(log, k) <==> if log[n].body.TurnFinish? then k == n
                                 else k < n && !log[n].body.TurnStart? && EndedAt(log[..n], k)
  {
    var n := |log| - 1;
    assert forall j :: 0 <= j < n ==> log[..n][j] == log[j];
  }

  lemma {:induction false} InStateSnoc(log: seq<Event>, state: Option<TurnState>)
    requires log != []
    ensures var e := log[|log| - 1].body;
            InState(log, state) <==> if e.TurnFinish? then state == Some(e.state)
                                     else if e.TurnStart? then state.None? else InState(log[..|log| - 1], state)
  {
    var n := |log| - 1;
    forall k: nat | k < |log| {
      EndedAtSnoc(log, k);
    }
    hide EndedAt;
    assert forall k: nat :: k < n ==> log[..n][k] == log[k];
    if log[n].body.TurnFinish? {
      assert EndedAt(log, n);
    } else if !log[n].body.TurnStart? && state.Some? {
      if k: nat :| k < n && EndedAt(log[..n], k) && log[..n][k].body.state == state.value {
        assert EndedAt(log, k);
      }
      if k: nat :| k < |log| && EndedAt(log, k) && log[k].body.state == state.value {
        assert EndedAt(log[..n], k);
      }
    } else if !log[n].body.TurnStart? {
      if k: nat :| k < n && EndedAt(log[..n], k) {
        assert EndedAt(log, k);
      }
      if k: nat :| k < |log| && EndedAt(log, k) {
        assert EndedAt(log[..n], k);
      }
    }
  }

  /** For every log that is accumulated, however often it starts: the message is still streaming exactly while no end
      follows the last start, and else in the state of the last such end. */
  lemma {:induction false} StateIs(log: seq<Event>)
    requires ApplyAll(log).Ok? && ApplyAll(log).value.message.Some?
    ensures InState(log, ApplyAll(log).value.message.value.state)
  {
    if log != [] {
      var n := |log| - 1;
      var a := ApplyAll(log[..n]).value;
      InStateSnoc(log, ApplyAll(log).value.message.value.state);
      if log[n].body.TurnFinish? {
        FinishWrites(a, log[n]);
      } else if !log[n].body.TurnStart? {
        StateIs(log[..n]);
        StateKept(a, log[n]);
        hide ApplyEvent;
      }
      hide InState;
    }
  }

  lemma {:induction false} StateKept(a: Accumulated, e: Event)
    requires a.message.Some? && !e.body.TurnStart? && !e.body.TurnFinish? && ApplyEvent(a, e).Ok?
    ensures ApplyEvent(a, e).value.message.Some? && ApplyEvent(a, e).value.message.value.state == a.message.value.state
  {
    hide Upsert;
  }

  /** A log that ends with a turn's end: the message has its state and shows it last. */
  lemma {:induction false} FinishedMessage(log: seq<Event>)
    requires log != [] && log[|log| - 1].body.TurnFinish? && ApplyAll(log).Ok?
    ensures ApplyAll(log).value.message.Some?
    ensures var m, e := ApplyAll(log).value.message.value, log[|log| - 1];
            m.state == Some(e.body.state) && m.parts != [] && Shows(m.parts[|m.parts| - 1], e)
  {
    FinishWrites(ApplyAll(log[..|log| - 1]).value, log[|log| - 1]);
    hide ApplyEvent, Shows;
  }

  /** No activity after event `i` is shown under this identifier. */
  ghost predicate LeftAlone(log: seq<Event>, i: nat, id: string) {
    forall j :: i < j < |log| && IsActivity(log[j]) ==> GivesId(log[j]) != Some(id)
  }

  /** A stored file stays in the message as long as no activity takes its identifier, and so does an activity up to the
      end of the turn. */
  lemma {:induction false} PartIsShown(log: seq<Event>, i: nat)
    requires StartsOnce(log) && ApplyAll(log).Ok? && i < |log| && GivesId(log[i]).Some?
    requires if log[i].body.Artifact? then log[i].body.revisionId.Some?
             else IsActivity(log[i]) && forall j :: i < j < |log| ==> !log[j].body.TurnFinish?
    requires LeftAlone(log, i, GivesId(log[i]).value)
    ensures ApplyAll(log).value.message.Some?
    ensures exists p :: Shows(p, log[i]) && p in ApplyAll(log).value.message.value.parts
  {
    var n := |log| - 1;
    assert n > 0;
    var a := AccumulatedBefore(log);
    if i < n {
      assert forall j :: 0 <= j < n ==> log[..n][j] == log[j];
      hide ApplyAll, ApplyEvent, Shows, GivesId, TextIndexed, IsActivity;
      PartIsShown(log[..n], i);
      var p :| Shows(p, log[i]) && p in a.message.value.parts;
      PartStays(a, log[n], p, log[i]);
    } else {
      hide ApplyAll, ApplyEvent, Shows, TextIndexed;
      PartAppears(a, log[n]);
    }
  }

  lemma {:induction false} AccumulatedBefore(log: seq<Event>) returns (a: Accumulated)
    requires StartsOnce(log) && ApplyAll(log).Ok? && |log| > 1
    ensures StartsOnce(log[..|log| - 1]) && ApplyAll(log[..|log| - 1]) == Ok(a) && a.message.Some? && TextIndexed(a)
    ensures ApplyAll(log) == ApplyEvent(a, log[|log| - 1]) && !log[|log| - 1].body.TurnStart?
  {
    AccumulatesIff(log);
    AccumulatesIff(log[..|log| - 1]);
    a := ApplyAll(log[..|log| - 1]).value;
    hide ApplyEvent, TextIndexed;
  }

  lemma {:induction false} PartAppears(a: Accumulated, e: Event)
    requires a.message.Some? && (IsActivity(e) || (e.body.Artifact? && e.body.revisionId.Some?))
    ensures ApplyEvent(a, e).Ok? && ApplyEvent(a, e).value.message.Some?
    ensures exists p :: Shows(p, e) && p in ApplyEvent(a, e).value.message.value.parts
  {
    if e.body.Artifact? {
      FileWrites(a, e);
    } else {
      ActivityWrites(a, e);
    }
    hide ApplyEvent, Shows;
  }

  lemma {:induction false} PartStays(a: Accumulated, e: Event, p: Part, shown: Event)
    requires a.message.Some? && TextIndexed(a) && !e.body.TurnStart? && ApplyEvent(a, e).Ok?
    requires p in a.message.value.parts && Shows(p, shown) && GivesId(shown).Some?
    requires shown.body.Artifact? || (IsActivity(shown) && !e.body.TurnFinish?)
    requires IsActivity(e) ==> GivesId(e) != GivesId(shown)
    ensures ApplyEvent(a, e).value.message.Some? && p in ApplyEvent(a, e).value.message.value.parts
  {
    var before := a.message.value.parts;
    var k :| 0 <= k < |before| && before[k] == p;
    if IsActivity(e) {
      ActivityWrites(a, e);
      var after := ApplyEvent(a, e).value.message.value.parts;
      hide ApplyEvent;
      assert after[k] == p;
    } else if e.body.TextDelta? {
      var after := ApplyEvent(a, e).value.message.value.parts;
      assert after[k] == p;
    } else if e.body.Artifact? {
      FileWrites(a, e);
      hide ApplyEvent;
    } else if e.body.TurnFinish? {
      FinishWrites(a, e);
      var after := ApplyEvent(a, e).value.message.value.parts;
      hide ApplyEvent;
      assert after[k] == p;
    } else {
      OthersWriteNothing(a, e);
    }
  }

  // ----- History --------------------------------------------------------------------------------------------

  /** What an approval reads once its operation is known. */
  predicate Reads(text: string, o: Operation) {
    if o.safeSummary == "" then
      && (o.state == ApprovalRequired ==> text == "Waiting for signed approval")
      && (o.state == Approved ==> text == "Approval received")
      && (o.state == Executing ==> text == "Approved action is running")
      && (o.state == Succeeded ==> text == "Approved action completed")
      && (o.state == Denied ==> text == "Approval was denied; the action did not run")
      && (o.state == ApprovalFailed ==> text == "The governed action failed")
      && (o.state == Expired ==> text == "Approval expired; the action did not run")
    else
      && (o.state == ApprovalRequired ==> text == "Approval needed: " + o.safeSummary)
      && (o.state == Approved ==> text == "Approved: " + o.safeSummary)
      && (o.state == Executing ==> text == "Running: " + o.safeSummary)
      && (o.state == Succeeded ==> text == "Completed: " + o.safeSummary)
      && (o.state == Denied ==> text == "Denied: " + o.safeSummary)
      && (o.state == ApprovalFailed ==> text == "Failed: " + o.safeSummary)
      && (o.state == Expired ==> text == "Expired: " + o.safeSummary)
  }

  /** What history makes of a part of a message in some state: an approval whose operation is known shows that
      operation's state and text; of a finished message, running work is closed and a running tool has failed, each told
      in the words for the message's state; everything else is as it was stored. */
  predicate Reconciles(before: Part, after: Part, state: Option<TurnState>, operation: string -> Option<Operation>) {
    if before.ApprovalPart? && operation(before.operationId).Some? then
      var o := operation(before.operationId).value;
      && after.ApprovalPart? && after.id == before.id && after.operationId == before.operationId
      && after.approvalState == o.state && Reads(after.summary, o)
    else if state.Some? && before.ProgressPart? && before.workState == Running then
      && after.ProgressPart? && after.id == before.id && after.workState == Finished
      && (state == Some(Cancelled) ==> after.caption == "Work stopped")
      && (state == Some(Failed) ==> after.caption == "Work failed")
      && (state in {Some(Completed), Some(NeedsInput)} ==> after.caption == "Work complete")
    else if state.Some? && before.ToolPart? && before.toolState == ToolRunning then
      && after.ToolPart? && after.id == before.id && after.toolState == ToolFailed
      && (state == Some(Cancelled) <==> after.toolSummary == "Stopped before the tool returned")
      && (state != Some(Cancelled) ==> after.toolSummary == "The tool did not return a final result")
    else after == before
  }

  lemma {:induction false} HistoryShows(m: Message, operation: string -> Option<Operation>)
    ensures var r := Reconcile(m, operation);
            && r.state == m.state && |r.parts| == |m.parts|
            && forall i :: 0 <= i < |m.parts| ==> Reconciles(m.parts[i], r.parts[i], m.state, operation)
  {
    forall i | 0 <= i < |m.parts|
      ensures Reconciles(m.parts[i], Reconcile(m, operation).parts[i], m.state, operation)
    {
      PartReconciles(m.parts[i], m.state, operation);
    }
  }

  lemma {:induction false} PartReconciles(part: Part, state: Option<TurnState>, operation: string -> Option<Operation>)
    ensures Reconciles(part, ReconcilePart(part, state, operation), state, operation)
  {
    assert "Stopped before the tool returned"[0] != "The tool did not return a final result"[0];
    if part.ApprovalPart? && operation(part.operationId).Some? {
      ApprovalReads(operation(part.operationId).value);
      hide ApprovalText, Reads;
    }
  }

  lemma {:induction false} ApprovalReads(o: Operation)
    ensures Reads(ApprovalText(o.state, o.safeSummary), o)
  {
  }
}
