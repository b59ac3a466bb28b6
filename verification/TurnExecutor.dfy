/** Control's turn executor: it drives the process lifecycle, the run record, the activity log and the persisted
    message from one event stream, and compensates when any call fails. */
module TurnExecutor {
  import opened Text
  import opened ChatEvents
  import ChatMessage

  datatype EndReason = ProcessExited | LaunchFailed | ProviderFailed

  datatype Call =
    | IssueBinding
    | MarkRunning(turnId: string)
    | BeginRun(turnId: string)
    | PersistArtifact(artifactId: string)
    | ProjectApproval(approvalId: string)
    | RecordActivity(event: Event)
    | ApplyToMessage(event: Event)
    | TakeSnapshot
    | SaveMessage(saved: ChatMessage.Message)
    | BindArtifacts(saved: ChatMessage.Message)
    | SetVendorSession(session: string)
    | FinishRun(turnId: string, status: TurnState)
    | EndProcess(reason: EndReason)
    | NotifyTrigger(event: Event)

  /** One attempted call and whether it succeeded. */
  datatype Entry = Entry(call: Call, ok: bool)

  /** Which collaborators are present; `store` stands for a conversation with a chat store. `revisionOf` and
      `operationState` are what the durable service and the approval projection answer. */
  datatype Config = Config(lifecycle: bool, store: bool, durable: bool, activity: bool, projection: bool, binding: bool,
                           trigger: bool,
                           revisionOf: string -> string, operationState: string -> ApprovalState)

  function Projected(cfg: Config, e: Event): Event {
    if e.body.Artifact? && cfg.store && cfg.durable then
      e.(body := e.body.(revisionId := Some(cfg.revisionOf(e.body.artifactId))))
    else if e.body.Approval? && cfg.projection then
      e.(body := e.body.(approvalState := cfg.operationState(e.body.operationId)))
    else e
  }

  function When(b: bool, call: Call): seq<Call> {
    if b then [call] else []
  }

  // ----- The script: the calls of an undisturbed run ---------------------------------------------------------

  function StartCalls(cfg: Config, e: Event): seq<Call> {
    When(e.body.TurnStart? && cfg.lifecycle, MarkRunning(e.turnId))
      + When(e.body.TurnStart? && cfg.store, BeginRun(e.turnId))
  }

  function ProjectCalls(cfg: Config, e: Event): seq<Call> {
    if e.body.Artifact? then When(cfg.store && cfg.durable, PersistArtifact(e.body.artifactId))
    else if e.body.Approval? then When(cfg.projection, ProjectApproval(e.body.approvalId))
    else []
  }

  function NextMessage(a: ChatMessage.Accumulated, e: Event): ChatMessage.Accumulated {
    var r := ChatMessage.ApplyEvent(a, e);
    if r.Ok? then r.value else a
  }

  predicate HasParts(a: ChatMessage.Accumulated) {
    a.message.Some? && a.message.value.parts != []
  }

  function Snapshot(a: ChatMessage.Accumulated): ChatMessage.Message {
    if a.message.Some? then a.message.value else ChatMessage.Message([], None)
  }

  function CheckpointCalls(cfg: Config, a: ChatMessage.Accumulated, e: Event): seq<Call> {
    var next := NextMessage(a, e);
    var saved, snapshot := HasParts(next), Snapshot(next);
    [ApplyToMessage(e)] + When(saved, TakeSnapshot) + When(saved && cfg.store, SaveMessage(snapshot))
      + When(saved && cfg.store && cfg.durable, BindArtifacts(snapshot))
  }

  function EndReasonOf(state: TurnState): EndReason {
    if state == Failed then ProviderFailed else ProcessExited
  }

  function PreludeCalls(cfg: Config, e: Event): seq<Call> {
    StartCalls(cfg, e) + ProjectCalls(cfg, e) + When(cfg.activity, RecordActivity(Projected(cfg, e)))
  }

  function FinishCalls(cfg: Config, e: Event): seq<Call> {
    if !e.body.TurnFinish? then []
    else
      SessionCalls(cfg, e) + When(cfg.store, FinishRun(e.turnId, e.body.state))
        + When(cfg.lifecycle, EndProcess(EndReasonOf(e.body.state)))
  }

  function EventCalls(cfg: Config, a: ChatMessage.Accumulated, e: Event): seq<Call> {
    var p := Projected(cfg, e);
    PreludeCalls(cfg, e) + CheckpointCalls(cfg, a, p) + (FinishCalls(cfg, e) + When(cfg.trigger, NotifyTrigger(p)))
  }

  function MessageAfter(cfg: Config, stream: seq<Event>): ChatMessage.Accumulated {
    if stream == [] then ChatMessage.EMPTY
    else NextMessage(MessageAfter(cfg, stream[..|stream| - 1]), Projected(cfg, stream[|stream| - 1]))
  }

  function Script(cfg: Config, stream: seq<Event>): seq<Call> {
    if stream == [] then When(cfg.binding, IssueBinding)
    else
      var n := |stream| - 1;
      Script(cfg, stream[..n]) + EventCalls(cfg, MessageAfter(cfg, stream[..n]), stream[n])
  }

  // ----- Executions -------------------------------------------------------------------------------------------

  /** The entries follow the calls in order and stop at the first failure. */
  ghost predicate Follows(entries: seq<Entry>, calls: seq<Call>, ok: bool) {
    && |entries| <= |calls|
    && (forall i :: 0 <= i < |entries| ==> entries[i].call == calls[i])
    && (forall i :: 0 <= i < |entries| - 1 ==> entries[i].ok)
    && (entries != [] && ok ==> entries[|entries| - 1].ok)
    && (ok ==> |entries| == |calls|)
    && (!ok ==> entries != [] && !entries[|entries| - 1].ok)
  }

  lemma {:induction false} FollowsFailed(a: seq<Entry>, x: seq<Call>, y: seq<Call>)
    requires Follows(a, x, false)
    ensures Follows(a, x + y, false)
  {
  }

  lemma {:induction false} OneFollows(call: Call, ok: bool)
    ensures Follows([Entry(call, ok)], [call], ok)
  {
  }

  /** The `turn-finish` that stands in for the one that never came. */
  function FailedEvent(last: Event): Event {
    Event(last.sequence + 1, last.sessionId, last.turnId,
          TurnFinish(Failed, Some("The agent stream ended before completion"), None))
  }

  function CloseCalls(cfg: Config, a: ChatMessage.Accumulated, started: bool, failed: Event): seq<Call> {
    CheckpointCalls(cfg, a, failed) + When(started && cfg.store, FinishRun(failed.turnId, Failed))
      + When(cfg.trigger, NotifyTrigger(failed))
  }

  /** The message built by the entries so far: every successful application, in order. */
  function MessageOf(entries: seq<Entry>): ChatMessage.Accumulated {
    if entries == [] then ChatMessage.EMPTY
    else
      var before, last := MessageOf(entries[..|entries| - 1]), entries[|entries| - 1];
      if last.call.ApplyToMessage? then NextMessage(before, last.call.event) else before
  }

  /** Applying an event to the message succeeds exactly when the accumulator accepts it. */
  predicate Truthful(entries: seq<Entry>) {
    if entries == [] then true
    else
      var before, last := entries[..|entries| - 1], entries[|entries| - 1];
      Truthful(before)
      && (last.call.ApplyToMessage? ==> last.ok == ChatMessage.ApplyEvent(MessageOf(before), last.call.event).Ok?)
  }

  /** What happened: `received` events arrived; `tried` are the calls of the try block, and `ended`, `recorded` and
      `closed` those of the three steps of its compensation. */
  datatype Run = Run(received: nat, tried: seq<Entry>, undisturbed: bool, started: bool,
                     ended: seq<Entry>, recorded: seq<Entry>, closed: seq<Entry>, closedOk: bool, returned: bool)

  function Trace(r: Run): seq<Entry> {
    r.tried + r.ended + r.recorded + r.closed
  }

  predicate Did(entries: seq<Entry>, call: Call) {
    Entry(call, true) in entries
  }

  ghost predicate EndDone(entries: seq<Entry>) {
    exists reason :: Did(entries, EndProcess(reason))
  }

  ghost predicate Marked(entries: seq<Entry>) {
    exists turnId :: Did(entries, MarkRunning(turnId))
  }

  predicate Quiet(calls: seq<Call>) {
    forall c :: c in calls ==> !c.MarkRunning? && !c.EndProcess?
  }

  lemma {:induction false} QuietEntries(entries: seq<Entry>, calls: seq<Call>, ok: bool)
    requires Follows(entries, calls, ok) && Quiet(calls)
    ensures !Marked(entries) && !EndDone(entries)
  {
    forall e | e in entries
      ensures e.call in calls
    {
    }
  }

  lemma {:induction false} MarksAppend(a: seq<Entry>, b: seq<Entry>)
    ensures Marked(a + b) <==> Marked(a) || Marked(b)
    ensures EndDone(a + b) <==> EndDone(a) || EndDone(b)
  {
    if turnId :| Did(a, MarkRunning(turnId)) {
      assert Did(a + b, MarkRunning(turnId));
    }
    if turnId :| Did(b, MarkRunning(turnId)) {
      assert Did(a + b, MarkRunning(turnId));
    }
    if reason :| Did(a, EndProcess(reason)) {
      assert Did(a + b, EndProcess(reason));
    }
    if reason :| Did(b, EndProcess(reason)) {
      assert Did(a + b, EndProcess(reason));
    }
  }

  /** Two parts in sequence, after what `past` had recorded. */
  lemma {:induction false} Chain(past: seq<Entry>, a: seq<Entry>, x: seq<Call>, b: seq<Entry>, y: seq<Call>, ok: bool)
    requires Follows(a, x, true) && Follows(b, y, ok)
    ensures Follows(a + b, x + y, ok)
    ensures past + a + b == past + (a + b)
    ensures Marked(a + b) <==> Marked(a) || Marked(b)
    ensures EndDone(a + b) <==> EndDone(a) || EndDone(b)
  {
    MarksAppend(a, b);
  }

  predicate SawFinish(stream: seq<Event>) {
    stream != [] && (stream[|stream| - 1].body.TurnFinish? || SawFinish(stream[..|stream| - 1]))
  }

  predicate SawStart(stream: seq<Event>) {
    stream != [] && (stream[|stream| - 1].body.TurnStart? || SawStart(stream[..|stream| - 1]))
  }

  /** The try block on a stream that yields `stream` and then ends or breaks off. */
  ghost predicate IsAttempt(cfg: Config, stream: seq<Event>, received: nat, tried: seq<Entry>, undisturbed: bool,
                            started: bool) {
    && received <= |stream|
    && Follows(tried, Script(cfg, stream[..received]), undisturbed)
    && (undisturbed ==> received == |stream|)
    && (!undisturbed && received > 0 ==> |tried| > |Script(cfg, stream[..received - 1])|)
    && started == if cfg.lifecycle then Marked(tried) else SawStart(stream[..received])
  }

  /** The whole observable behaviour of `execute`. */
  ghost predicate IsExecution(cfg: Config, stream: seq<Event>, aborted: bool, r: Run) {
    && IsAttempt(cfg, stream, r.received, r.tried, r.undisturbed, r.started)
    && Truthful(Trace(r))
    && (r.returned <==> r.undisturbed && !aborted && SawFinish(stream))
    && if r.returned then r.ended == [] && r.recorded == [] && r.closed == [] else Compensates(cfg, stream, r)
  }

  ghost predicate Compensates(cfg: Config, stream: seq<Event>, r: Run)
    requires r.received <= |stream|
  {
    CompensatesFor(cfg, stream, r.received, r.tried, r.started, r.ended, r.recorded, r.closed, r.closedOk)
  }

  /** The three steps of the compensation for a try block that made the calls `tried`. */
  ghost predicate CompensatesFor(cfg: Config, stream: seq<Event>, received: nat, tried: seq<Entry>, started: bool,
                                 ended: seq<Entry>, recorded: seq<Entry>, closed: seq<Entry>, closedOk: bool)
    requires received <= |stream|
  {
    && (if cfg.lifecycle && !EndDone(tried)
        then |ended| == 1 && ended[0].call == EndProcess(if started then ProviderFailed else LaunchFailed)
        else ended == [])
    && if received > 0 && !stream[received - 1].body.TurnFinish? then
         var failed := FailedEvent(stream[received - 1]);
         && (if cfg.activity then |recorded| == 1 && recorded[0].call == RecordActivity(failed) else recorded == [])
         && Follows(closed, CloseCalls(cfg, MessageOf(tried), started, failed), closedOk)
       else recorded == [] && closed == []
  }

  class TurnExecution {
    const cfg: Config
    const fails: nat -> bool
    var trace: seq<Entry>
    var accumulated: ChatMessage.Accumulated
    var processStarted: bool
    var processEnded: bool

    constructor (cfg: Config, fails: nat -> bool)
      ensures this.cfg == cfg && this.fails == fails && Valid()
      ensures trace == [] && !processStarted && !processEnded && accumulated == ChatMessage.EMPTY
    {
      this.cfg, this.fails := cfg, fails;
      trace, accumulated, processStarted, processEnded := [], ChatMessage.EMPTY, false, false;
    }

    ghost predicate Valid()
      reads this
    {
      accumulated == MessageOf(trace) && Truthful(trace)
    }

    /** Attempt a call; its number decides whether it fails. */
    method Do(call: Call) returns (ok: bool)
      requires Valid() && !call.ApplyToMessage?
      modifies this`trace
      ensures Valid() && trace == old(trace) + [Entry(call, ok)]
    {
      ok := !fails(|trace|);
      trace := trace + [Entry(call, ok)];
    }

    method DoWhen(wanted: bool, call: Call) returns (ok: bool, ghost done: seq<Entry>)
      requires Valid() && !call.ApplyToMessage?
      modifies this`trace
      ensures Valid() && trace == old(trace) + done && Follows(done, When(wanted, call), ok)
    {
      ok, done := true, [];
      if wanted {
        ok := Do(call);
        done := [Entry(call, ok)];
      }
    }

    method Apply(e: Event) returns (ok: bool)
      requires Valid()
      modifies this`trace, this`accumulated
      ensures Valid() && trace == old(trace) + [Entry(ApplyToMessage(e), ok)]
      ensures accumulated == NextMessage(old(accumulated), e)
    {
      var r := ChatMessage.ApplyEvent(accumulated, e);
      ok := r.Ok?;
      trace := trace + [Entry(ApplyToMessage(e), ok)];
      if ok {
        accumulated := r.value;
      }
    }

    method Checkpoint(e: Event) returns (ok: bool, ghost done: seq<Entry>)
      requires Valid()
      modifies this`trace, this`accumulated
      ensures Valid() && trace == old(trace) + done
      ensures Follows(done, CheckpointCalls(cfg, old(accumulated), e), ok)
      ensures accumulated == NextMessage(old(accumulated), e)
    {
      hide Follows, Marked, EndDone, MessageOf, Truthful, NextMessage, HasParts, Snapshot;
      ghost var more: seq<Entry>;
      ghost var willSave := HasParts(NextMessage(accumulated, e));
      ghost var message := Snapshot(NextMessage(accumulated, e));
      ghost var snapshot, save := When(willSave, TakeSnapshot), When(willSave && cfg.store, SaveMessage(message));
      ghost var bind := When(willSave && cfg.store && cfg.durable, BindArtifacts(message));
      ok := Apply(e);
      done := [Entry(ApplyToMessage(e), ok)];
      OneFollows(ApplyToMessage(e), ok);
      if !ok {
        FollowsFailed(done, [ApplyToMessage(e)], snapshot);
        FollowsFailed(done, [ApplyToMessage(e)] + snapshot, save);
        FollowsFailed(done, [ApplyToMessage(e)] + snapshot + save, bind);
        return;
      }
      var saved := HasParts(accumulated);
      ok, more := DoWhen(saved, TakeSnapshot);
      Chain(old(trace), done, [ApplyToMessage(e)], more, snapshot, ok);
      done := done + more;
      if !ok {
        FollowsFailed(done, [ApplyToMessage(e)] + snapshot, save);
        FollowsFailed(done, [ApplyToMessage(e)] + snapshot + save, bind);
        return;
      }
      ok, more := DoWhen(saved && cfg.store, SaveMessage(Snapshot(accumulated)));
      Chain(old(trace), done, [ApplyToMessage(e)] + snapshot, more, save, ok);
      done := done + more;
      if !ok {
        FollowsFailed(done, [ApplyToMessage(e)] + snapshot + save, bind);
        return;
      }
      ok, more := DoWhen(saved && cfg.store && cfg.durable, BindArtifacts(Snapshot(accumulated)));
      Chain(old(trace), done, [ApplyToMessage(e)] + snapshot + save, more, bind, ok);
      done := done + more;
    }

    /** Nothing but the process and the run record starts here. */
    method StartProcess(e: Event) returns (ok: bool, ghost done: seq<Entry>)
      requires Valid()
      modifies this`trace, this`processStarted
      ensures Valid() && trace == old(trace) + done && Follows(done, StartCalls(cfg, e), ok)
      ensures processStarted == (old(processStarted) || (e.body.TurnStart? && (cfg.lifecycle ==> Marked(done))))
      ensures !EndDone(done) && (Marked(done) ==> cfg.lifecycle && e.body.TurnStart?)
    {
      hide Follows, Marked, EndDone, MessageOf, Truthful;
      ok, done := true, [];
      StartsNothing(cfg, e);
      if e.body.TurnStart? {
        var mark, begin := MarkRunning(e.turnId), BeginRun(e.turnId);
        ghost var more: seq<Entry>;
        ok, done := DoWhen(cfg.lifecycle, mark);
        MarkEntries(done, cfg.lifecycle, mark, ok);
        if !ok {
          FollowsFailed(done, When(cfg.lifecycle, mark), When(cfg.store, begin));
          return;
        }
        processStarted := true;
        ok, more := DoWhen(cfg.store, begin);
        Chain(old(trace), done, When(cfg.lifecycle, mark), more, When(cfg.store, begin), ok);
        QuietEntries(more, When(cfg.store, begin), ok);
        done := done + more;
      }
    }

    method Project(e: Event) returns (ok: bool, ghost done: seq<Entry>)
      requires Valid()
      modifies this`trace
      ensures Valid() && trace == old(trace) + done && Follows(done, ProjectCalls(cfg, e), ok)
    {
      ok, done := true, [];
      if e.body.Artifact? {
        ok, done := DoWhen(cfg.store && cfg.durable, PersistArtifact(e.body.artifactId));
      } else if e.body.Approval? {
        ok, done := DoWhen(cfg.projection, ProjectApproval(e.body.approvalId));
      }
    }

    /** From the start of an event to its activity record. */
    method Prelude(e: Event) returns (ok: bool, ghost done: seq<Entry>)
      requires Valid()
      modifies this`trace, this`processStarted
      ensures Valid() && trace == old(trace) + done && Follows(done, PreludeCalls(cfg, e), ok)
      ensures processStarted == (old(processStarted) || (e.body.TurnStart? && (cfg.lifecycle ==> Marked(done))))
      ensures !EndDone(done) && (Marked(done) ==> cfg.lifecycle && e.body.TurnStart?)
    {
      hide Follows, Marked, EndDone, MessageOf, Truthful;
      ghost var more: seq<Entry>, start, project := [], StartCalls(cfg, e), ProjectCalls(cfg, e);
      ghost var record := When(cfg.activity, RecordActivity(Projected(cfg, e)));
      ok, done := StartProcess(e);
      if !ok {
        FollowsFailed(done, start, project);
        FollowsFailed(done, start + project, record);
        return;
      }
      ok, more := Project(e);
      Chain(old(trace), done, start, more, project, ok);
      QuietEntries(more, project, ok);
      done := done + more;
      if !ok {
        FollowsFailed(done, start + project, record);
        return;
      }
      ok, more := DoWhen(cfg.activity, RecordActivity(Projected(cfg, e)));
      Chain(old(trace), done, start + project, more, record, ok);
      QuietEntries(more, record, ok);
      done := done + more;
    }

    method FinishTurn(e: Event) returns (ok: bool, ghost done: seq<Entry>)
      requires Valid() && e.body.TurnFinish?
      modifies this`trace, this`processEnded
      ensures Valid() && trace == old(trace) + done && Follows(done, FinishCalls(cfg, e), ok)
      ensures cfg.lifecycle ==> processEnded == (old(processEnded) || EndDone(done))
      ensures !Marked(done) && (EndDone(done) ==> cfg.lifecycle)
    {
      hide Follows, MessageOf, Truthful;
      ghost var more: seq<Entry>;
      ghost var session := SessionCalls(cfg, e);
      var finish, end := FinishRun(e.turnId, e.body.state), EndProcess(EndReasonOf(e.body.state));
      ok, done := SaveSession(e);
      QuietEntries(done, session, ok);
      if !ok {
        FollowsFailed(done, session, When(cfg.store, finish));
        FollowsFailed(done, session + When(cfg.store, finish), When(cfg.lifecycle, end));
        return;
      }
      ok, more := DoWhen(cfg.store, finish);
      Chain(old(trace), done, session, more, When(cfg.store, finish), ok);
      QuietEntries(more, When(cfg.store, finish), ok);
      done := done + more;
      if !ok {
        FollowsFailed(done, session + When(cfg.store, finish), When(cfg.lifecycle, end));
        return;
      }
      ok, more := DoWhen(cfg.lifecycle, end);
      Chain(old(trace), done, session + When(cfg.store, finish), more, When(cfg.lifecycle, end), ok);
      EndEntries(more, cfg.lifecycle, end, ok);
      done := done + more;
      if ok {
        processEnded := true;
      }
    }

    method SaveSession(e: Event) returns (ok: bool, ghost done: seq<Entry>)
      requires Valid() && e.body.TurnFinish?
      modifies this`trace
      ensures Valid() && trace == old(trace) + done && Follows(done, SessionCalls(cfg, e), ok)
    {
      ok, done := true, [];
      if e.body.vendorSessionId.Some? {
        ok, done := DoWhen(cfg.store, SetVendorSession(e.body.vendorSessionId.value));
      }
    }

    /** The run record and the process are finished by a `turn-finish`; then the trigger is told. */
    method Postlude(e: Event) returns (ok: bool, ghost done: seq<Entry>)
      requires Valid()
      modifies this`trace, this`processEnded
      ensures Valid() && trace == old(trace) + done
      ensures Follows(done, FinishCalls(cfg, e) + When(cfg.trigger, NotifyTrigger(Projected(cfg, e))), ok)
      ensures cfg.lifecycle ==> processEnded == (old(processEnded) || EndDone(done))
      ensures !Marked(done) && (EndDone(done) ==> cfg.lifecycle)
    {
      hide Follows, Marked, EndDone, MessageOf, Truthful, FinishCalls, Projected;
      ok, done := true, [];
      FinishesNothing(cfg, e);
      if e.body.TurnFinish? {
        ok, done := FinishTurn(e);
      }
      ghost var notify := When(cfg.trigger, NotifyTrigger(Projected(cfg, e)));
      if !ok {
        FollowsFailed(done, FinishCalls(cfg, e), notify);
        return;
      }
      ghost var more: seq<Entry>;
      ok, more := DoWhen(cfg.trigger, NotifyTrigger(Projected(cfg, e)));
      Chain(old(trace), done, FinishCalls(cfg, e), more, notify, ok);
      QuietEntries(more, notify, ok);
      done := done + more;
    }

    /** One iteration of the event loop. */
    method OnEvent(e: Event) returns (ok: bool, ghost done: seq<Entry>)
      requires Valid()
      modifies this
      ensures Valid() && trace == old(trace) + done
      ensures Follows(done, EventCalls(cfg, old(accumulated), e), ok)
      ensures ok ==> accumulated == NextMessage(old(accumulated), Projected(cfg, e))
      ensures processStarted == (old(processStarted) || (e.body.TurnStart? && (cfg.lifecycle ==> Marked(done))))
      ensures cfg.lifecycle ==> processEnded == (old(processEnded) || EndDone(done))
      ensures Marked(done) ==> e.body.TurnStart?
    {
      hide Follows, Marked, EndDone, MessageOf, Truthful, FinishCalls, PreludeCalls, CheckpointCalls, NextMessage,
           Projected;
      ghost var more: seq<Entry>;
      ghost var p := Projected(cfg, e);
      ghost var prelude, checkpoint := PreludeCalls(cfg, e), CheckpointCalls(cfg, accumulated, p);
      ghost var postlude := FinishCalls(cfg, e) + When(cfg.trigger, NotifyTrigger(p));
      ok, done := Prelude(e);
      if !ok {
        FollowsFailed(done, prelude, checkpoint);
        FollowsFailed(done, prelude + checkpoint, postlude);
        return;
      }
      ok, more := Checkpoint(Projected(cfg, e));
      Chain(old(trace), done, prelude, more, checkpoint, ok);
      CheckpointIsQuiet(cfg, old(accumulated), p);
      QuietEntries(more, checkpoint, ok);
      done := done + more;
      if !ok {
        FollowsFailed(done, prelude + checkpoint, postlude);
        return;
      }
      ok, more := Postlude(e);
      Chain(old(trace), done, prelude + checkpoint, more, postlude, ok);
      done := done + more;
    }

    /** The try block: issue the binding, then handle every event the stream yields. */
    method Try(stream: seq<Event>) returns (ok: bool, received: nat, terminal: bool)
      requires Valid() && trace == [] && accumulated == ChatMessage.EMPTY && !processStarted && !processEnded
      modifies this
      ensures Valid() && IsAttempt(cfg, stream, received, trace, ok, processStarted)
      ensures cfg.lifecycle ==> processEnded == EndDone(trace)
      ensures ok ==> terminal == SawFinish(stream)
    {
      hide Follows, Marked, EndDone, MessageOf, Truthful, InProgress, IsAttempt, SawFinish;
      ghost var done: seq<Entry>;
      received, terminal := 0, false;
      ok, done := DoWhen(cfg.binding, IssueBinding);
      assert [] + done == done;
      AttemptBegins(cfg, stream, done, ok);
      if !ok {
        return;
      }
      while received < |stream|
        invariant received <= |stream| && ok && Valid()
        invariant InProgress(cfg, stream, received, trace, accumulated, processStarted)
        invariant cfg.lifecycle ==> processEnded == EndDone(trace)
        invariant terminal == SawFinish(stream[..received])
      {
        hide EventCalls, NextMessage, Projected;
        ghost var before := (trace, accumulated, processStarted);
        ok, done := OnEvent(stream[received]);
        MarksAppend(before.0, done);
        EventAttempted(cfg, stream, received, before.0, before.1, before.2, done, ok, accumulated, processStarted);
        SeenStep(stream, received);
        received := received + 1;
        if !ok {
          return;
        }
        if stream[received - 1].body.TurnFinish? {
          terminal := true;
        }
      }
      AttemptEnds(cfg, stream, trace, accumulated, processStarted);
    }

    /** The last two compensation steps' persistence half: message, run record and trigger. */
    method CloseRun(failed: Event) returns (ok: bool, ghost done: seq<Entry>)
      requires Valid()
      modifies this`trace, this`accumulated
      ensures Valid() && trace == old(trace) + done
      ensures Follows(done, CloseCalls(cfg, old(accumulated), processStarted, failed), ok)
    {
      hide Follows, Marked, EndDone, MessageOf, Truthful, CheckpointCalls, NextMessage;
      ghost var checkpoint := CheckpointCalls(cfg, accumulated, failed);
      var started := processStarted && cfg.store;
      ghost var finish := When(started, FinishRun(failed.turnId, Failed));
      ghost var more: seq<Entry>;
      ok, done := Checkpoint(failed);
      if !ok {
        FollowsFailed(done, checkpoint, finish);
        FollowsFailed(done, checkpoint + finish, When(cfg.trigger, NotifyTrigger(failed)));
        return;
      }
      ok, more := DoWhen(started, FinishRun(failed.turnId, Failed));
      Chain(old(trace), done, checkpoint, more, finish, ok);
      done := done + more;
      if !ok {
        FollowsFailed(done, checkpoint + finish, When(cfg.trigger, NotifyTrigger(failed)));
        return;
      }
      ok, more := DoWhen(cfg.trigger, NotifyTrigger(failed));
      Chain(old(trace), done, checkpoint + finish, more, When(cfg.trigger, NotifyTrigger(failed)), ok);
      done := done + more;
    }

    /** The first compensation step: end the process unless it has ended. */
    method EndAfterFailure() returns (ghost ended: seq<Entry>)
      requires Valid() && (cfg.lifecycle ==> processEnded == EndDone(trace))
      modifies this`trace
      ensures Valid() && trace == old(trace) + ended && accumulated == old(accumulated)
      ensures if cfg.lifecycle && !EndDone(old(trace))
              then |ended| == 1 && ended[0].call == EndProcess(if processStarted then ProviderFailed else LaunchFailed)
              else ended == []
    {
      ended := [];
      if !processEnded {
        var end := EndProcess(if processStarted then ProviderFailed else LaunchFailed);
        var attempt: bool;
        attempt, ended := DoWhen(cfg.lifecycle, end);
        OneEntry(ended, cfg.lifecycle, end, attempt);
      }
    }

    /** The other steps, for a turn that broke off after `last`: each is attempted even if the one before failed. */
    method RecordFailure(last: Event)
      returns (ghost recorded: seq<Entry>, ghost closed: seq<Entry>, ghost closedOk: bool)
      requires Valid()
      modifies this`trace, this`accumulated
      ensures Valid() && trace == old(trace) + recorded + closed
      ensures if cfg.activity then |recorded| == 1 && recorded[0].call == RecordActivity(FailedEvent(last))
              else recorded == []
      ensures Follows(closed, CloseCalls(cfg, old(accumulated), processStarted, FailedEvent(last)), closedOk)
    {
      var failed := FailedEvent(last);
      var attempt: bool;
      attempt, recorded := DoWhen(cfg.activity, RecordActivity(failed));
      OneEntry(recorded, cfg.activity, RecordActivity(failed), attempt);
      closedOk, closed := CloseRun(failed);
    }

    /** `execute`: the try block and its compensation, for every stream, every way it can end and every placement of
        failing calls. `aborted` says that the stream threw instead of ending. */
    method Execute(stream: seq<Event>, aborted: bool) returns (returned: bool, ghost run: Run)
      requires Valid() && trace == [] && accumulated == ChatMessage.EMPTY && !processStarted && !processEnded
      modifies this
      ensures IsExecution(cfg, stream, aborted, run)
      ensures trace == Trace(run) && returned == run.returned
    {
      var ok, received, terminal := Try(stream);
      ghost var tried := trace;
      hide IsAttempt, MessageOf, Truthful, EndDone, SawFinish, IsExecution, Trace, CompensatesFor;
      AttemptBound(cfg, stream, received, tried, ok, processStarted);
      if ok && !aborted && terminal {
        run := Run(received, tried, ok, processStarted, [], [], [], true, true);
        ReturnsNormally(cfg, stream, aborted, run);
        return true, run;
      }
      returned := false;
      ghost var before, started := trace, processStarted;
      ghost var ended, recorded, closed, closedOk := Compensate(stream, received, tried);
      run := Run(received, tried, ok, started, ended, recorded, closed, closedOk, false);
      Throws(cfg, stream, aborted, run, trace);
    }

    /** The `catch` block after `received` events. */
    method Compensate(stream: seq<Event>, received: nat, ghost tried: seq<Entry>)
      returns (ghost ended: seq<Entry>, ghost recorded: seq<Entry>, ghost closed: seq<Entry>, ghost closedOk: bool)
      requires Valid() && trace == tried && (cfg.lifecycle ==> processEnded == EndDone(tried)) && received <= |stream|
      modifies this`trace, this`accumulated
      ensures Valid() && trace == tried + ended + recorded + closed
      ensures CompensatesFor(cfg, stream, received, tried, processStarted, ended, recorded, closed, closedOk)
    {
      hide Follows, Truthful, EndDone, CloseCalls, FailedEvent;
      ended := EndAfterFailure();
      recorded, closed, closedOk := [], [], true;
      NothingMore(tried + ended);
      if received > 0 && !stream[received - 1].body.TurnFinish? {
        recorded, closed, closedOk := RecordFailure(stream[received - 1]);
      }
    }
  }

  lemma {:induction false} AttemptBound(cfg: Config, stream: seq<Event>, received: nat, tried: seq<Entry>, ok: bool,
                                        started: bool)
    requires IsAttempt(cfg, stream, received, tried, ok, started)
    ensures received <= |stream|
  {
  }

  lemma {:induction false} ReturnsNormally(cfg: Config, stream: seq<Event>, aborted: bool, r: Run)
    requires IsAttempt(cfg, stream, r.received, r.tried, r.undisturbed, r.started) && Truthful(r.tried)
    requires r.returned && r.undisturbed && !aborted && SawFinish(stream)
    requires r.ended == [] && r.recorded == [] && r.closed == []
    ensures IsExecution(cfg, stream, aborted, r) && Trace(r) == r.tried
  {
    hide IsAttempt, Truthful, SawFinish;
    NothingMore(r.tried);
  }

  lemma {:induction false} Throws(cfg: Config, stream: seq<Event>, aborted: bool, r: Run, trace: seq<Entry>)
    requires IsAttempt(cfg, stream, r.received, r.tried, r.undisturbed, r.started) && Truthful(trace)
    requires !r.returned && !(r.undisturbed && !aborted && SawFinish(stream))
    requires r.received <= |stream| && Compensates(cfg, stream, r)
    requires trace == r.tried + r.ended + r.recorded + r.closed
             || (r.recorded == [] && r.closed == [] && trace == r.tried + r.ended)
    ensures IsExecution(cfg, stream, aborted, r) && Trace(r) == trace
  {
    hide IsAttempt, Truthful, SawFinish, Compensates;
    NothingMore(r.tried + r.ended);
  }

  lemma {:induction false} NothingMore(entries: seq<Entry>)
    ensures entries + [] == entries
  {
  }

  function SessionCalls(cfg: Config, e: Event): seq<Call>
    requires e.body.TurnFinish?
  {
    if e.body.vendorSessionId.Some? then When(cfg.store, SetVendorSession(e.body.vendorSessionId.value)) else []
  }

  lemma {:induction false} StartsNothing(cfg: Config, e: Event)
    ensures !Marked([]) && !EndDone([]) && (!e.body.TurnStart? ==> Follows([], StartCalls(cfg, e), true))
  {
  }

  lemma {:induction false} FinishesNothing(cfg: Config, e: Event)
    ensures !Marked([]) && !EndDone([]) && (!e.body.TurnFinish? ==> Follows([], FinishCalls(cfg, e), true))
  {
  }

  lemma {:induction false} MarkEntries(entries: seq<Entry>, wanted: bool, mark: Call, ok: bool)
    requires Follows(entries, When(wanted, mark), ok) && mark.MarkRunning?
    ensures !EndDone(entries) && (Marked(entries) <==> wanted && ok)
  {
    if wanted && ok {
      assert entries == [Entry(mark, true)];
      assert Did(entries, MarkRunning(mark.turnId));
    } else if !ok {
      assert forall e :: e in entries ==> !e.ok;
    }
  }

  lemma {:induction false} EndEntries(entries: seq<Entry>, wanted: bool, end: Call, ok: bool)
    requires Follows(entries, When(wanted, end), ok) && end.EndProcess?
    ensures !Marked(entries) && (EndDone(entries) <==> wanted && ok)
  {
    if wanted && ok {
      assert entries == [Entry(end, true)];
      assert Did(entries, EndProcess(end.reason));
    }
  }

  lemma {:induction false} OneEntry(entries: seq<Entry>, wanted: bool, call: Call, ok: bool)
    requires Follows(entries, When(wanted, call), ok)
    ensures if wanted then |entries| == 1 && entries[0].call == call else entries == []
  {
  }

  lemma {:induction false} CheckpointIsQuiet(cfg: Config, a: ChatMessage.Accumulated, e: Event)
    ensures Quiet(CheckpointCalls(cfg, a, e))
  {
  }

  lemma {:induction false} ScriptStep(cfg: Config, stream: seq<Event>, i: nat)
    requires i < |stream|
    ensures Script(cfg, stream[..i + 1]) ==
            Script(cfg, stream[..i]) + EventCalls(cfg, MessageAfter(cfg, stream[..i]), stream[i])
    ensures MessageAfter(cfg, stream[..i + 1]) == NextMessage(MessageAfter(cfg, stream[..i]), Projected(cfg, stream[i]))
  {
    assert stream[..i + 1][..i] == stream[..i];
  }

  lemma {:induction false} SeenStep(stream: seq<Event>, i: nat)
    requires i < |stream|
    ensures SawStart(stream[..i + 1]) <==> SawStart(stream[..i]) || stream[i].body.TurnStart?
    ensures SawFinish(stream[..i + 1]) <==> SawFinish(stream[..i]) || stream[i].body.TurnFinish?
  {
    assert stream[..i + 1][..i] == stream[..i];
  }

  /** The try block between two events, with nothing failed so far. */
  ghost predicate InProgress(cfg: Config, stream: seq<Event>, received: nat, tried: seq<Entry>,
                             a: ChatMessage.Accumulated, started: bool) {
    && received <= |stream|
    && Follows(tried, Script(cfg, stream[..received]), true)
    && a == MessageAfter(cfg, stream[..received])
    && started == if cfg.lifecycle then Marked(tried) else SawStart(stream[..received])
  }

  lemma {:induction false} AttemptBegins(cfg: Config, stream: seq<Event>, done: seq<Entry>, ok: bool)
    requires Follows(done, When(cfg.binding, IssueBinding), ok)
    ensures if ok then InProgress(cfg, stream, 0, done, ChatMessage.EMPTY, false)
            else IsAttempt(cfg, stream, 0, done, false, false)
    ensures !EndDone(done) && !SawFinish(stream[..0])
  {
    assert stream[..0] == [];
    QuietEntries(done, When(cfg.binding, IssueBinding), ok);
    hide Marked, EndDone;
  }

  lemma {:induction false} AttemptEnds(cfg: Config, stream: seq<Event>, tried: seq<Entry>, a: ChatMessage.Accumulated,
                                       started: bool)
    requires InProgress(cfg, stream, |stream|, tried, a, started)
    ensures IsAttempt(cfg, stream, |stream|, tried, true, started) && stream[..|stream|] == stream
  {
    hide Follows, Marked, Script, SawStart;
  }

  lemma {:induction false} EventAttempted(cfg: Config, stream: seq<Event>, i: nat, tried: seq<Entry>,
                                          a: ChatMessage.Accumulated, started: bool,
                                    done: seq<Entry>, ok: bool, a': ChatMessage.Accumulated, started': bool)
    requires i < |stream| && InProgress(cfg, stream, i, tried, a, started)
    requires Follows(done, EventCalls(cfg, a, stream[i]), ok)
    requires ok ==> a' == NextMessage(a, Projected(cfg, stream[i]))
    requires started' == (started || (stream[i].body.TurnStart? && (cfg.lifecycle ==> Marked(done))))
    requires Marked(done) ==> stream[i].body.TurnStart?
    ensures ok ==> InProgress(cfg, stream, i + 1, tried + done, a', started')
    ensures !ok ==> IsAttempt(cfg, stream, i + 1, tried + done, false, started')
  {
    hide EventCalls, NextMessage, Projected, Script, MessageAfter, Marked, EndDone, SawStart;
    ScriptStep(cfg, stream, i);
    SeenStep(stream, i);
    Chain([], tried, Script(cfg, stream[..i]), done, EventCalls(cfg, a, stream[i]), ok);
  }
}
