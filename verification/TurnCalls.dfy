/** Which calls one event of a turn causes, kind by kind, and in which order. */
module TurnCalls {
  import opened Text
  import opened ChatEvents
  import opened TurnExecutor
  import ChatMessage

  /** What Control passes on of an event: a file as the revision it stored, an approval in the state of its operation,
      and anything else as it came. */
  predicate Projects(cfg: Config, e: Event, p: Event) {
    && p.sequence == e.sequence && p.sessionId == e.sessionId && p.turnId == e.turnId
    && if e.body.Artifact? && cfg.store && cfg.durable then
         && p.body.Artifact? && p.body.artifactId == e.body.artifactId && p.body.filename == e.body.filename
         && p.body.revisionId == Some(cfg.revisionOf(e.body.artifactId))
       else if e.body.Approval? && cfg.projection then
         && p.body.Approval? && p.body.approvalId == e.body.approvalId && p.body.operationId == e.body.operationId
         && p.body.approvalSummary == e.body.approvalSummary
         && p.body.approvalState == cfg.operationState(e.body.operationId)
       else p.body == e.body
  }

  /** `m` is the message once the event is applied, and shows something. */
  predicate Becomes(cfg: Config, a: ChatMessage.Accumulated, e: Event, m: ChatMessage.Message) {
    var p := Projected(cfg, e);
    var r := ChatMessage.ApplyEvent(a, p);
    m.parts != [] && (if r.Ok? then r.value.message else a.message) == Some(m)
  }

  /** Whether an event causes a call, when everything before it went well. */
  ghost predicate Makes(cfg: Config, a: ChatMessage.Accumulated, e: Event, call: Call) {
    match call
    case IssueBinding => false
    case MarkRunning(turnId) => cfg.lifecycle && e.body.TurnStart? && turnId == e.turnId
    case BeginRun(turnId) => cfg.store && e.body.TurnStart? && turnId == e.turnId
    case PersistArtifact(id) => cfg.store && cfg.durable && e.body.Artifact? && id == e.body.artifactId
    case ProjectApproval(id) => cfg.projection && e.body.Approval? && id == e.body.approvalId
    case RecordActivity(p) => cfg.activity && Projects(cfg, e, p)
    case ApplyToMessage(p) => Projects(cfg, e, p)
    case TakeSnapshot => exists m :: Becomes(cfg, a, e, m)
    case SaveMessage(m) => cfg.store && Becomes(cfg, a, e, m)
    case BindArtifacts(m) => cfg.store && cfg.durable && Becomes(cfg, a, e, m)
    case SetVendorSession(session) => cfg.store && e.body.TurnFinish? && e.body.vendorSessionId == Some(session)
    case FinishRun(turnId, state) => cfg.store && e.body.TurnFinish? && turnId == e.turnId && state == e.body.state
    case EndProcess(reason) =>
      cfg.lifecycle && e.body.TurnFinish?
      && reason == if e.body.state == Failed then ProviderFailed else ProcessExited
    case NotifyTrigger(p) => cfg.trigger && Projects(cfg, e, p)
  }

  /** The order of the calls for one event. */
  function Rank(call: Call): nat {
    match call
    case IssueBinding => 0
    case MarkRunning(_) => 1
    case BeginRun(_) => 2
    case PersistArtifact(_) => 3
    case ProjectApproval(_) => 4
    case RecordActivity(_) => 5
    case ApplyToMessage(_) => 6
    case TakeSnapshot => 7
    case SaveMessage(_) => 8
    case BindArtifacts(_) => 9
    case SetVendorSession(_) => 10
    case FinishRun(_, _) => 11
    case EndProcess(_) => 12
    case NotifyTrigger(_) => 13
  }

  /** At most one call of each kind, in order. */
  predicate Ordered(calls: seq<Call>) {
    forall i, j :: 0 <= i < j < |calls| ==> Rank(calls[i]) < Rank(calls[j])
  }

  predicate Within(calls: seq<Call>, low: nat, high: nat) {
    forall c :: c in calls ==> low <= Rank(c) < high
  }

  lemma {:induction false} OrderedAppend(a: seq<Call>, b: seq<Call>, low: nat, mid: nat, high: nat)
    requires Ordered(a) && Ordered(b) && Within(a, low, mid) && Within(b, mid, high) && low <= mid <= high
    ensures Ordered(a + b) && Within(a + b, low, high)
  {
    hide Rank;
    assert forall i :: 0 <= i < |a| ==> a[i] in a;
    assert forall i :: 0 <= i < |b| ==> b[i] in b;
  }

  lemma {:induction false} OneOrdered(b: bool, call: Call)
    ensures Ordered(When(b, call)) && Within(When(b, call), Rank(call), Rank(call) + 1)
  {
  }

  lemma {:induction false} ProjectedIs(cfg: Config, e: Event, p: Event)
    ensures Projects(cfg, e, p) <==> p == Projected(cfg, e)
  {
  }

  lemma {:induction false} BecomesIs(cfg: Config, a: ChatMessage.Accumulated, e: Event, m: ChatMessage.Message)
    ensures var next := NextMessage(a, Projected(cfg, e));
            Becomes(cfg, a, e, m) <==> HasParts(next) && m == Snapshot(next)
  {
    hide Projected, ChatMessage.ApplyEvent;
  }

  /** The calls of one event are exactly those, each once and in that order. */
  lemma {:induction false} EventMakes(cfg: Config, a: ChatMessage.Accumulated, e: Event)
    ensures Ordered(EventCalls(cfg, a, e))
    ensures forall c :: c in EventCalls(cfg, a, e) <==> Makes(cfg, a, e, c)
  {
    EventOrdered(cfg, a, e);
    forall c ensures c in EventCalls(cfg, a, e) <==> Makes(cfg, a, e, c) {
      EventHolds(cfg, a, e, c);
    }
  }

  lemma {:induction false} EventHolds(cfg: Config, a: ChatMessage.Accumulated, e: Event, c: Call)
    ensures c in EventCalls(cfg, a, e) <==> Makes(cfg, a, e, c)
  {
    PreludeHolds(cfg, a, e, c);
    CheckpointHolds(cfg, a, e, c);
    FinishHolds(cfg, a, e, c);
    if c.NotifyTrigger? {
      ProjectedIs(cfg, e, c.event);
    }
    hide Projected, PreludeCalls, CheckpointCalls, FinishCalls, Becomes, Projects;
    assert c.NotifyTrigger? <==> Rank(c) == 13;
  }

  lemma {:induction false} PreludeHolds(cfg: Config, a: ChatMessage.Accumulated, e: Event, c: Call)
    ensures c in PreludeCalls(cfg, e) <==> 1 <= Rank(c) < 6 && Makes(cfg, a, e, c)
  {
    StartHolds(cfg, a, e, c);
    if c.RecordActivity? {
      ProjectedIs(cfg, e, c.event);
    }
    hide Projected, Becomes, Projects, StartCalls;
  }

  lemma {:induction false} StartHolds(cfg: Config, a: ChatMessage.Accumulated, e: Event, c: Call)
    ensures c in StartCalls(cfg, e) <==> 1 <= Rank(c) < 3 && Makes(cfg, a, e, c)
  {
    hide Projected, Becomes, Projects;
  }

  lemma {:induction false} CheckpointHolds(cfg: Config, a: ChatMessage.Accumulated, e: Event, c: Call)
    ensures c in CheckpointCalls(cfg, a, Projected(cfg, e)) <==> 6 <= Rank(c) < 10 && Makes(cfg, a, e, c)
  {
    var next := NextMessage(a, Projected(cfg, e));
    if c.ApplyToMessage? {
      ProjectedIs(cfg, e, c.event);
    } else if c.SaveMessage? || c.BindArtifacts? {
      BecomesIs(cfg, a, e, c.saved);
    } else if c.TakeSnapshot? {
      BecomesIs(cfg, a, e, Snapshot(next));
      if m :| Becomes(cfg, a, e, m) {
        BecomesIs(cfg, a, e, m);
      }
    }
    hide Projected, Becomes, Projects, NextMessage, HasParts, Snapshot;
  }

  lemma {:induction false} FinishHolds(cfg: Config, a: ChatMessage.Accumulated, e: Event, c: Call)
    ensures c in FinishCalls(cfg, e) <==> 10 <= Rank(c) < 13 && Makes(cfg, a, e, c)
  {
    hide Becomes, Projects;
  }

  lemma {:induction false} EventOrdered(cfg: Config, a: ChatMessage.Accumulated, e: Event)
    ensures Ordered(EventCalls(cfg, a, e))
  {
    var p := Projected(cfg, e);
    PreludeOrdered(cfg, e);
    CheckpointOrdered(cfg, a, p);
    FinishOrdered(cfg, e);
    OneOrdered(cfg.trigger, NotifyTrigger(p));
    hide PreludeCalls, CheckpointCalls, FinishCalls, When, Ordered, Within, Projected;
    OrderedAppend(PreludeCalls(cfg, e), CheckpointCalls(cfg, a, p), 1, 6, 10);
    OrderedAppend(FinishCalls(cfg, e), When(cfg.trigger, NotifyTrigger(p)), 10, 13, 14);
    OrderedAppend(PreludeCalls(cfg, e) + CheckpointCalls(cfg, a, p),
                  FinishCalls(cfg, e) + When(cfg.trigger, NotifyTrigger(p)),
                  1, 10, 14);
  }

  lemma {:induction false} PreludeOrdered(cfg: Config, e: Event)
    ensures Ordered(PreludeCalls(cfg, e)) && Within(PreludeCalls(cfg, e), 1, 6)
  {
    hide *;
    PreludeIs(cfg, e);
    StartOrdered(cfg, e);
    ProjectOrdered(cfg, e);
    var record := RecordActivity(Projected(cfg, e));
    OneOrdered(cfg.activity, record);
    OrderedAppend(StartCalls(cfg, e), ProjectCalls(cfg, e), 1, 3, 5);
    OrderedAppend(StartCalls(cfg, e) + ProjectCalls(cfg, e), When(cfg.activity, record), 1, 5, 6);
  }

  lemma {:induction false} PreludeIs(cfg: Config, e: Event)
    ensures PreludeCalls(cfg, e)
            == StartCalls(cfg, e) + ProjectCalls(cfg, e) + When(cfg.activity, RecordActivity(Projected(cfg, e)))
    ensures Rank(RecordActivity(Projected(cfg, e))) == 5
  {
    hide StartCalls, ProjectCalls, Projected, When;
  }

  lemma {:induction false} StartOrdered(cfg: Config, e: Event)
    ensures Ordered(StartCalls(cfg, e)) && Within(StartCalls(cfg, e), 1, 3)
  {
    var mark, begin := When(e.body.TurnStart? && cfg.lifecycle, MarkRunning(e.turnId)),
      When(e.body.TurnStart? && cfg.store, BeginRun(e.turnId));
    OneOrdered(e.body.TurnStart? && cfg.lifecycle, MarkRunning(e.turnId));
    OneOrdered(e.body.TurnStart? && cfg.store, BeginRun(e.turnId));
    OrderedAppend(mark, begin, 1, 2, 3);
    hide When, Ordered, Within;
  }

  lemma {:induction false} ProjectOrdered(cfg: Config, e: Event)
    ensures Ordered(ProjectCalls(cfg, e)) && Within(ProjectCalls(cfg, e), 3, 5)
  {
  }

  lemma {:induction false} CheckpointOrdered(cfg: Config, a: ChatMessage.Accumulated, e: Event)
    ensures Ordered(CheckpointCalls(cfg, a, e)) && Within(CheckpointCalls(cfg, a, e), 6, 10)
  {
    hide NextMessage, HasParts, Snapshot;
    var next := NextMessage(a, e);
    var saved, m := HasParts(next), Snapshot(next);
    OneOrdered(true, ApplyToMessage(e));
    OneOrdered(saved, TakeSnapshot);
    OneOrdered(saved && cfg.store, SaveMessage(m));
    OneOrdered(saved && cfg.store && cfg.durable, BindArtifacts(m));
    var apply, snapshot, save := [ApplyToMessage(e)], When(saved, TakeSnapshot),
      When(saved && cfg.store, SaveMessage(m));
    assert apply == When(true, ApplyToMessage(e));
    hide When, Ordered, Within;
    OrderedAppend(apply, snapshot, 6, 7, 8);
    OrderedAppend(apply + snapshot, save, 6, 8, 9);
    OrderedAppend(apply + snapshot + save, When(saved && cfg.store && cfg.durable, BindArtifacts(m)), 6, 9, 10);
  }

  lemma {:induction false} FinishOrdered(cfg: Config, e: Event)
    ensures Ordered(FinishCalls(cfg, e)) && Within(FinishCalls(cfg, e), 10, 13)
  {
    if e.body.TurnFinish? {
      var finish, end := FinishRun(e.turnId, e.body.state), EndProcess(EndReasonOf(e.body.state));
      OneOrdered(cfg.store, finish);
      OneOrdered(cfg.lifecycle, end);
      assert Ordered(SessionCalls(cfg, e)) && Within(SessionCalls(cfg, e), 10, 11);
      hide When, Ordered, Within, SessionCalls;
      OrderedAppend(SessionCalls(cfg, e), When(cfg.store, finish), 10, 11, 12);
      OrderedAppend(SessionCalls(cfg, e) + When(cfg.store, finish), When(cfg.lifecycle, end), 10, 12, 13);
    }
  }

  /** The script is the binding, if there is one, and what its events make. */
  lemma {:induction false} ScriptMakes(cfg: Config, stream: seq<Event>, c: Call)
    ensures c in Script(cfg, stream) <==> (cfg.binding && c == IssueBinding) || MadeBySome(cfg, stream, c)
  {
    if stream != [] {
      var n := |stream| - 1;
      ScriptMakes(cfg, stream[..n], c);
      EventHolds(cfg, MessageAfter(cfg, stream[..n]), stream[n], c);
      MadeBySnoc(cfg, stream, c);
      hide EventCalls, MessageAfter, Makes, MadeBySome;
    }
  }

  ghost predicate MadeAt(cfg: Config, stream: seq<Event>, k: nat, c: Call)
    requires k < |stream|
  {
    Makes(cfg, MessageAfter(cfg, stream[..k]), stream[k], c)
  }

  ghost predicate MadeBySome(cfg: Config, stream: seq<Event>, c: Call) {
    exists k: nat :: k < |stream| && MadeAt(cfg, stream, k, c)
  }

  lemma {:induction false} MadeBySnoc(cfg: Config, stream: seq<Event>, c: Call)
    requires stream != []
    ensures var n := |stream| - 1;
            MadeBySome(cfg, stream, c)
            <==> MadeBySome(cfg, stream[..n], c) || Makes(cfg, MessageAfter(cfg, stream[..n]), stream[n], c)
  {
    var n := |stream| - 1;
    hide Makes, MessageAfter;
    assert forall k: nat :: k < n ==> (MadeAt(cfg, stream[..n], k, c) <==> MadeAt(cfg, stream, k, c)) by {
      assert forall k: nat :: k < n ==> stream[..n][..k] == stream[..k];
    }
    assert MadeAt(cfg, stream, n, c) <==> Makes(cfg, MessageAfter(cfg, stream[..n]), stream[n], c);
    hide MadeAt;
  }

  /** Whether closing a turn that broke off after `last` causes a call, when everything before it went well. */
  ghost predicate Closes(cfg: Config, a: ChatMessage.Accumulated, started: bool, failed: Event, call: Call) {
    match call
    case ApplyToMessage(e) => e == failed
    case TakeSnapshot => exists m :: Becomes(cfg, a, failed, m)
    case SaveMessage(m) => cfg.store && Becomes(cfg, a, failed, m)
    case BindArtifacts(m) => cfg.store && cfg.durable && Becomes(cfg, a, failed, m)
    case FinishRun(turnId, state) => started && cfg.store && turnId == failed.turnId && state == Failed
    case NotifyTrigger(e) => cfg.trigger && e == failed
    case _ => false
  }

  /** A turn that broke off is closed as failed, right after its last event: the failure is applied, snapshotted, saved
      and bound, the run finished if it had started, and the trigger told, in that order. */
  lemma {:induction false} CloseMakes(cfg: Config, a: ChatMessage.Accumulated, started: bool, last: Event)
    ensures var failed := FailedEvent(last); var calls := CloseCalls(cfg, a, started, failed);
            && failed.sequence == last.sequence + 1 && failed.sessionId == last.sessionId
               && failed.turnId == last.turnId
            && failed.body == TurnFinish(Failed, Some("The agent stream ended before completion"), None)
            && Ordered(calls) && forall c :: c in calls <==> Closes(cfg, a, started, failed, c)
  {
    var failed := FailedEvent(last);
    CloseOrdered(cfg, a, started, failed);
    forall c ensures c in CloseCalls(cfg, a, started, failed) <==> Closes(cfg, a, started, failed, c) {
      CloseHolds(cfg, a, started, failed, c);
    }
    hide CloseCalls, Closes, Ordered;
  }

  lemma {:induction false} CloseHolds(cfg: Config, a: ChatMessage.Accumulated, started: bool, failed: Event, c: Call)
    requires failed.body.TurnFinish?
    ensures c in CloseCalls(cfg, a, started, failed) <==> Closes(cfg, a, started, failed, c)
  {
    assert Projected(cfg, failed) == failed;
    CheckpointHolds(cfg, a, failed, c);
    if c.ApplyToMessage? {
      ProjectedIs(cfg, failed, c.event);
    }
    hide Projected, CheckpointCalls, Becomes, Projects;
  }

  lemma {:induction false} CloseOrdered(cfg: Config, a: ChatMessage.Accumulated, started: bool, failed: Event)
    ensures Ordered(CloseCalls(cfg, a, started, failed))
  {
    var close, finish := CheckpointCalls(cfg, a, failed), When(started && cfg.store, FinishRun(failed.turnId, Failed));
    CheckpointOrdered(cfg, a, failed);
    OneOrdered(started && cfg.store, FinishRun(failed.turnId, Failed));
    OneOrdered(cfg.trigger, NotifyTrigger(failed));
    assert Within(close, 6, 11) && Within(When(cfg.trigger, NotifyTrigger(failed)), 12, 14);
    hide CheckpointCalls, When, Ordered, Within;
    OrderedAppend(close, finish, 6, 11, 12);
    OrderedAppend(close + finish, When(cfg.trigger, NotifyTrigger(failed)), 6, 12, 14);
  }
}
