/** What every execution of a turn guarantees, whichever calls fail. */
module TurnGuarantees {
  import opened Text
  import opened ChatEvents
  import opened TurnExecutor
  import opened TurnCalls
  import ChatMessage
  import EventStream
  import opened MessageParts

  function Count(calls: seq<Call>, kind: Call -> bool): nat {
    if calls == [] then 0 else Count(calls[..|calls| - 1], kind) + if kind(calls[|calls| - 1]) then 1 else 0
  }

  lemma {:induction false} CountAppend(a: seq<Call>, b: seq<Call>, kind: Call -> bool)
    ensures Count(a + b, kind) == Count(a, kind) + Count(b, kind)
  {
    if b == [] {
      assert a + b == a;
    } else {
      assert (a + b)[..|a + b| - 1] == a + b[..|b| - 1];
      CountAppend(a, b[..|b| - 1], kind);
    }
  }

  lemma {:induction false} CountWhen(b: bool, call: Call, kind: Call -> bool)
    ensures Count(When(b, call), kind) == if b && kind(call) then 1 else 0
  {
    assert [call][..0] == [];
  }

  predicate IsBegin(c: Call) {
    c.BeginRun?
  }

  predicate IsFinish(c: Call) {
    c.FinishRun?
  }

  predicate IsEnd(c: Call) {
    c.EndProcess?
  }

  /** How often each kind of call is made for one event. */
  lemma {:induction false} CountEvent(cfg: Config, a: ChatMessage.Accumulated, e: Event, kind: Call -> bool)
    requires forall c :: kind(c) ==> c.BeginRun? || c.FinishRun? || c.EndProcess?
    ensures Count(EventCalls(cfg, a, e), kind) ==
            Count(When(e.body.TurnStart? && cfg.store, BeginRun(e.turnId)), kind)
            + if e.body.TurnFinish? then
                Count(When(cfg.store, FinishRun(e.turnId, e.body.state)), kind)
                + Count(When(cfg.lifecycle, EndProcess(EndReasonOf(e.body.state))), kind)
              else 0
  {
    var p := Projected(cfg, e);
    CountPrelude(cfg, e, kind);
    CountCheckpoint(cfg, a, p, kind);
    CountFinish(cfg, e, kind);
    CountWhen(cfg.trigger, NotifyTrigger(p), kind);
    hide Count, When, PreludeCalls, CheckpointCalls, FinishCalls, Projected, EndReasonOf;
    CountAppend(PreludeCalls(cfg, e), CheckpointCalls(cfg, a, p), kind);
    CountAppend(PreludeCalls(cfg, e) + CheckpointCalls(cfg, a, p),
                FinishCalls(cfg, e) + When(cfg.trigger, NotifyTrigger(p)), kind);
    CountAppend(FinishCalls(cfg, e), When(cfg.trigger, NotifyTrigger(p)), kind);
  }

  lemma {:induction false} CountFinish(cfg: Config, e: Event, kind: Call -> bool)
    requires forall c :: kind(c) ==> c.BeginRun? || c.FinishRun? || c.EndProcess?
    ensures Count(FinishCalls(cfg, e), kind) ==
            if e.body.TurnFinish? then
              Count(When(cfg.store, FinishRun(e.turnId, e.body.state)), kind)
              + Count(When(cfg.lifecycle, EndProcess(EndReasonOf(e.body.state))), kind)
            else 0
  {
    if e.body.TurnFinish? {
      var finish, end := When(cfg.store, FinishRun(e.turnId, e.body.state)),
        When(cfg.lifecycle, EndProcess(EndReasonOf(e.body.state)));
      if e.body.vendorSessionId.Some? {
        CountWhen(cfg.store, SetVendorSession(e.body.vendorSessionId.value), kind);
      }
      assert Count(SessionCalls(cfg, e), kind) == 0;
      hide Count, When, SessionCalls;
      CountAppend(SessionCalls(cfg, e), finish, kind);
      CountAppend(SessionCalls(cfg, e) + finish, end, kind);
    }
  }

  lemma {:induction false} CountPrelude(cfg: Config, e: Event, kind: Call -> bool)
    requires forall c :: kind(c) ==> c.BeginRun? || c.FinishRun? || c.EndProcess?
    ensures Count(PreludeCalls(cfg, e), kind) == Count(When(e.body.TurnStart? && cfg.store, BeginRun(e.turnId)), kind)
  {
    var mark, begin := When(e.body.TurnStart? && cfg.lifecycle, MarkRunning(e.turnId)),
      When(e.body.TurnStart? && cfg.store, BeginRun(e.turnId));
    CountAppend(mark, begin, kind);
    CountWhen(e.body.TurnStart? && cfg.lifecycle, MarkRunning(e.turnId), kind);
    CountAppend(StartCalls(cfg, e), ProjectCalls(cfg, e), kind);
    CountAppend(StartCalls(cfg, e) + ProjectCalls(cfg, e), When(cfg.activity, RecordActivity(Projected(cfg, e))), kind);
    CountWhen(cfg.activity, RecordActivity(Projected(cfg, e)), kind);
    if e.body.Artifact? {
      CountWhen(cfg.store && cfg.durable, PersistArtifact(e.body.artifactId), kind);
    } else if e.body.Approval? {
      CountWhen(cfg.projection, ProjectApproval(e.body.approvalId), kind);
    }
  }

  lemma {:induction false} CountCheckpoint(cfg: Config, a: ChatMessage.Accumulated, e: Event, kind: Call -> bool)
    requires forall c :: kind(c) ==> c.BeginRun? || c.FinishRun? || c.EndProcess?
    ensures Count(CheckpointCalls(cfg, a, e), kind) == 0
  {
    CountNone(CheckpointCalls(cfg, a, e), kind);
  }

  lemma {:induction false} CountNone(calls: seq<Call>, kind: Call -> bool)
    requires forall i :: 0 <= i < |calls| ==> !kind(calls[i])
    ensures Count(calls, kind) == 0
  {
    if calls != [] {
      CountNone(calls[..|calls| - 1], kind);
    }
  }

  function Starts(stream: seq<Event>): nat {
    if stream == [] then 0 else Starts(stream[..|stream| - 1]) + if stream[|stream| - 1].body.TurnStart? then 1 else 0
  }

  function Finishes(stream: seq<Event>): nat {
    if stream == [] then 0 else Finishes(stream[..|stream| - 1]) + if stream[|stream| - 1].body.TurnFinish? then 1
      else 0
  }

  lemma {:induction false} ScriptBegins(cfg: Config, stream: seq<Event>)
    ensures Count(Script(cfg, stream), IsBegin) == if cfg.store then Starts(stream) else 0
  {
    if stream == [] {
      CountWhen(cfg.binding, IssueBinding, IsBegin);
    } else {
      hide Script, EventCalls, Count, When;
      ScriptBegins(cfg, stream[..|stream| - 1]);
      CountLast(cfg, stream, IsBegin);
    }
  }

  lemma {:induction false} ScriptFinishes(cfg: Config, stream: seq<Event>)
    ensures Count(Script(cfg, stream), IsFinish) == if cfg.store then Finishes(stream) else 0
  {
    if stream == [] {
      CountWhen(cfg.binding, IssueBinding, IsFinish);
    } else {
      hide Script, EventCalls, Count, When;
      ScriptFinishes(cfg, stream[..|stream| - 1]);
      CountLast(cfg, stream, IsFinish);
    }
  }

  lemma {:induction false} ScriptEnds(cfg: Config, stream: seq<Event>)
    ensures Count(Script(cfg, stream), IsEnd) == if cfg.lifecycle then Finishes(stream) else 0
  {
    if stream == [] {
      CountWhen(cfg.binding, IssueBinding, IsEnd);
    } else {
      hide Script, EventCalls, Count, When, EndReasonOf;
      ScriptEnds(cfg, stream[..|stream| - 1]);
      CountLast(cfg, stream, IsEnd);
    }
  }

  /** An undisturbed run begins a run record per `turn-start`, finishes one per `turn-finish`, and ends the process
      per `turn-finish`. */
  lemma {:induction false} ScriptCounts(cfg: Config, stream: seq<Event>)
    ensures Count(Script(cfg, stream), IsBegin) == if cfg.store then Starts(stream) else 0
    ensures Count(Script(cfg, stream), IsFinish) == if cfg.store then Finishes(stream) else 0
    ensures Count(Script(cfg, stream), IsEnd) == if cfg.lifecycle then Finishes(stream) else 0
  {
    hide Script, Count, Starts, Finishes;
    ScriptBegins(cfg, stream);
    ScriptFinishes(cfg, stream);
    ScriptEnds(cfg, stream);
  }

  lemma {:induction false} CountLast(cfg: Config, stream: seq<Event>, kind: Call -> bool)
    requires stream != [] && forall c :: kind(c) ==> c.BeginRun? || c.FinishRun? || c.EndProcess?
    ensures var e := stream[|stream| - 1];
            Count(Script(cfg, stream), kind) ==
            Count(Script(cfg, stream[..|stream| - 1]), kind)
            + (if e.body.TurnStart? && cfg.store && kind(BeginRun(e.turnId)) then 1 else 0)
            + (if e.body.TurnFinish? && cfg.store && kind(FinishRun(e.turnId, e.body.state)) then 1 else 0)
            + (if e.body.TurnFinish? && cfg.lifecycle && kind(EndProcess(EndReasonOf(e.body.state))) then 1 else 0)
  {
    var n := |stream| - 1;
    var e, a := stream[n], MessageAfter(cfg, stream[..n]);
    CountAppend(Script(cfg, stream[..n]), EventCalls(cfg, a, e), kind);
    CountEvent(cfg, a, e, kind);
    CountWhen(e.body.TurnStart? && cfg.store, BeginRun(e.turnId), kind);
    if e.body.TurnFinish? {
      CountWhen(cfg.store, FinishRun(e.turnId, e.body.state), kind);
      CountWhen(cfg.lifecycle, EndProcess(EndReasonOf(e.body.state)), kind);
    }
  }

  function CallsOf(entries: seq<Entry>): (r: seq<Call>)
    ensures |r| == |entries| && forall i :: 0 <= i < |r| ==> r[i] == entries[i].call
  {
    seq(|entries|, i requires 0 <= i < |entries| => entries[i].call)
  }

  lemma {:induction false} CountPositive(calls: seq<Call>, i: nat, kind: Call -> bool)
    requires i < |calls| && kind(calls[i])
    ensures Count(calls, kind) >= 1
  {
    if i < |calls| - 1 {
      CountPositive(calls[..|calls| - 1], i, kind);
    }
  }

  lemma {:induction false} CountFinds(calls: seq<Call>, kind: Call -> bool) returns (i: nat)
    requires Count(calls, kind) >= 1
    ensures i < |calls| && kind(calls[i])
  {
    i := |calls| - 1;
    if !kind(calls[i]) {
      i := CountFinds(calls[..|calls| - 1], kind);
    }
  }

  lemma {:induction false} SawFinishCounts(stream: seq<Event>)
    ensures SawFinish(stream) <==> Finishes(stream) >= 1
  {
    if stream != [] {
      SawFinishCounts(stream[..|stream| - 1]);
    }
  }

  lemma {:induction false} NoFinishes(stream: seq<Event>)
    requires forall i :: 0 <= i < |stream| ==> !stream[i].body.TurnFinish?
    ensures Finishes(stream) == 0
  {
    if stream != [] {
      NoFinishes(stream[..|stream| - 1]);
    }
  }

  lemma {:induction false} FollowsAll(entries: seq<Entry>, calls: seq<Call>)
    requires Follows(entries, calls, true)
    ensures |entries| == |calls| && forall i :: 0 <= i < |calls| ==> entries[i] == Entry(calls[i], true)
  {
  }

  /** Ending the process, successfully or not, is attempted in every execution before it exits. */
  lemma {:induction false} EndIsAttempted(cfg: Config, stream: seq<Event>, aborted: bool, r: Run)
    requires IsExecution(cfg, stream, aborted, r) && cfg.lifecycle
    ensures exists i :: 0 <= i < |Trace(r)| && Trace(r)[i].call.EndProcess?
  {
    var trace := Trace(r);
    hide Truthful, Script, SawFinish, Follows;
    if r.returned {
      assert stream[..r.received] == stream;
      SawFinishCounts(stream);
      ScriptCounts(cfg, stream);
      var i := CountFinds(Script(cfg, stream), IsEnd);
      FollowsAll(r.tried, Script(cfg, stream));
      TraceIndex(r, i);
    } else if EndDone(r.tried) {
      var reason :| Did(r.tried, EndProcess(reason));
      var i :| 0 <= i < |r.tried| && r.tried[i] == Entry(EndProcess(reason), true);
      TraceIndex(r, i);
    } else {
      TraceIndex(r, |r.tried|);
    }
  }

  ghost predicate EndsAt(trace: seq<Entry>, i: int) {
    0 <= i < |trace| && trace[i].ok && trace[i].call.EndProcess?
  }

  /** At most one call to end the process succeeds, on every stream the validator lets through. */
  lemma {:induction false} AtMostOneEndSucceeds(cfg: Config, stream: seq<Event>, aborted: bool, r: Run,
                                                sessionId: string, i: nat, j: nat)
    requires IsExecution(cfg, stream, aborted, r) && EventStream.WellFormedPrefix(sessionId, stream)
    requires EndsAt(Trace(r), i) && EndsAt(Trace(r), j)
    ensures i == j
  {
    var n := |r.tried|;
    FinishesPrefix(sessionId, stream, r.received);
    LaterEntries(cfg, stream, aborted, r, i);
    LaterEntries(cfg, stream, aborted, r, j);
    if i < n && j < n && i != j {
      EndsInTried(cfg, stream, r, i, j);
    }
  }

  lemma {:induction false} FinishesPrefix(sessionId: string, stream: seq<Event>, n: nat)
    requires EventStream.WellFormedPrefix(sessionId, stream) && n <= |stream|
    ensures Finishes(stream[..n]) <= 1
  {
    if n > 0 {
      NoFinishes(stream[..n][..n - 1]);
    }
  }

  lemma {:induction false} TraceIndex(r: Run, i: nat)
    requires i < |Trace(r)|
    ensures var n, m, k := |r.tried|, |r.tried| + |r.ended|, |r.tried| + |r.ended| + |r.recorded|;
            && |Trace(r)| == k + |r.closed|
            && Trace(r)[i] == if i < n then r.tried[i] else if i < m then r.ended[i - n] else if i < k
               then r.recorded[i - m] else r.closed[i - k]
  {
  }

  lemma {:induction false} CloseIsQuiet(cfg: Config, a: ChatMessage.Accumulated, started: bool, failed: Event)
    ensures Quiet(CloseCalls(cfg, a, started, failed))
  {
    CheckpointIsQuiet(cfg, a, failed);
  }

  /** What an execution adds after its try block. */
  lemma {:induction false} LaterParts(cfg: Config, stream: seq<Event>, aborted: bool, r: Run)
    requires IsExecution(cfg, stream, aborted, r)
    ensures r.received <= |stream|
    ensures |r.ended| <= 1 && (r.ended != [] ==> !EndDone(r.tried) && r.ended[0].call.EndProcess?)
    ensures r.recorded != [] ==> |r.recorded| == 1 && r.recorded[0].call.RecordActivity?
    ensures r.closed == []
            || (r.received > 0
                && Follows(r.closed, CloseCalls(cfg, MessageOf(r.tried), r.started,
                                                FailedEvent(stream[r.received - 1])), r.closedOk))
  {
    AttemptBound(cfg, stream, r.received, r.tried, r.undisturbed, r.started);
    hide IsAttempt, Truthful, SawFinish, CloseCalls, Follows, EndDone, MessageOf, FailedEvent;
  }

  /** Recording the failure neither starts nor ends the process. */
  lemma {:induction false} AftermathIsQuiet(cfg: Config, stream: seq<Event>, aborted: bool, r: Run, e: Entry)
    requires IsExecution(cfg, stream, aborted, r) && (e in r.recorded || e in r.closed)
    ensures !e.call.EndProcess? && !e.call.MarkRunning?
  {
    hide *;
    LaterParts(cfg, stream, aborted, r);
    if e in r.closed {
      var failed := FailedEvent(stream[r.received - 1]);
      CloseIsQuiet(cfg, MessageOf(r.tried), r.started, failed);
      QuietEntry(r.closed, CloseCalls(cfg, MessageOf(r.tried), r.started, failed), r.closedOk, e);
    }
  }

  lemma {:induction false} QuietEntry(entries: seq<Entry>, calls: seq<Call>, ok: bool, e: Entry)
    requires Follows(entries, calls, ok) && Quiet(calls) && e in entries
    ensures !e.call.EndProcess? && !e.call.MarkRunning?
  {
    var i :| 0 <= i < |entries| && entries[i] == e;
    assert calls[i] in calls;
  }

  /** After the try block, only `ended` can end the process, and only if the try block did not. */
  lemma {:induction false} LaterEntries(cfg: Config, stream: seq<Event>, aborted: bool, r: Run, i: nat)
    requires IsExecution(cfg, stream, aborted, r) && EndsAt(Trace(r), i)
    ensures i < |r.tried| ==> EndDone(r.tried)
    ensures i >= |r.tried| ==> i == |r.tried| && !EndDone(r.tried)
  {
    hide IsAttempt, Truthful, SawFinish, CloseCalls;
    TraceIndex(r, i);
    var entry := Trace(r)[i];
    if i < |r.tried| {
      assert Did(r.tried, EndProcess(entry.call.reason));
    } else if entry in r.recorded || entry in r.closed {
      AftermathIsQuiet(cfg, stream, aborted, r, entry);
    }
  }

  lemma {:induction false} EndsInTried(cfg: Config, stream: seq<Event>, r: Run, i: nat, j: nat)
    requires r.received <= |stream| && Follows(r.tried, Script(cfg, stream[..r.received]), r.undisturbed)
    requires i < |r.tried| && j < |r.tried| && i != j && r.tried[i].call.EndProcess? && r.tried[j].call.EndProcess?
    ensures Finishes(stream[..r.received]) >= 2
  {
    var script := Script(cfg, stream[..r.received]);
    ScriptCounts(cfg, stream[..r.received]);
    hide Script, Finishes, EventCalls, Count;
    CountTwo(script, if i < j then i else j, if i < j then j else i, IsEnd);
  }

  lemma {:induction false} CountTwo(calls: seq<Call>, i: nat, j: nat, kind: Call -> bool)
    requires i < j < |calls| && kind(calls[i]) && kind(calls[j])
    ensures Count(calls, kind) >= 2
  {
    if j < |calls| - 1 {
      CountTwo(calls[..|calls| - 1], i, j, kind);
    } else {
      CountPositive(calls[..|calls| - 1], i, kind);
    }
  }

  ghost predicate ClaimsLaunchFailed(trace: seq<Entry>) {
    exists ok :: Entry(EndProcess(LaunchFailed), ok) in trace
  }

  /** A process that was marked running is never reported as one that failed to launch. */
  lemma {:induction false} LaunchFailedMeansNeverRunning(cfg: Config, stream: seq<Event>, aborted: bool, r: Run)
    requires IsExecution(cfg, stream, aborted, r) && ClaimsLaunchFailed(Trace(r))
    ensures !Marked(Trace(r))
  {
    var ok :| Entry(EndProcess(LaunchFailed), ok) in Trace(r);
    var i :| 0 <= i < |Trace(r)| && Trace(r)[i] == Entry(EndProcess(LaunchFailed), ok);
    hide Truthful, SawFinish, CloseCalls, Follows, Script, Trace, Compensates, Marked;
    MarkedInTried(cfg, stream, aborted, r);
    TraceIndex(r, i);
    if i < |r.tried| {
      TriedCall(cfg, stream, r, i);
      ScriptNeverClaimsLaunchFailed(cfg, stream[..r.received]);
    } else if Trace(r)[i] in r.ended {
      EndedReason(cfg, stream, aborted, r, Trace(r)[i]);
    } else {
      AftermathIsQuiet(cfg, stream, aborted, r, Trace(r)[i]);
    }
  }

  /** A process that was not ended in an execution that does not return normally is ended first thing after it: as
      provider_failed exactly if it had been marked running, and else as launch_failed. */
  lemma {:induction false} BrokenRunEnds(cfg: Config, stream: seq<Event>, aborted: bool, r: Run)
    requires IsExecution(cfg, stream, aborted, r) && !r.returned && cfg.lifecycle && !EndDone(r.tried)
    ensures |Trace(r)| > |r.tried|
    ensures Trace(r)[|r.tried|].call == EndProcess(ProviderFailed) <==> Marked(Trace(r))
    ensures Trace(r)[|r.tried|].call == EndProcess(LaunchFailed) <==> !Marked(Trace(r))
  {
    MarkedInTried(cfg, stream, aborted, r);
    assert r.ended != [] && Trace(r)[|r.tried|] == r.ended[0];
    assert r.ended[0] in r.ended;
    EndedReason(cfg, stream, aborted, r, r.ended[0]);
    assert forall turnId :: Did(r.tried, MarkRunning(turnId)) ==> Did(Trace(r), MarkRunning(turnId));
    hide IsExecution;
  }

  /** An execution returns normally exactly if the stream ended by itself, with a turn-finish in it, and every call of
      its script went through. */
  lemma {:induction false} ReturnsIff(cfg: Config, stream: seq<Event>, aborted: bool, r: Run)
    requires IsExecution(cfg, stream, aborted, r)
    ensures r.returned
            <==> && !aborted && (exists i :: 0 <= i < |stream| && stream[i].body.TurnFinish?)
                 && CallsOf(r.tried) == Script(cfg, stream) && r.received == |stream|
                 && forall i :: 0 <= i < |r.tried| ==> r.tried[i].ok
  {
    SawFinishIff(stream);
    hide SawFinish, Truthful, Script, Compensates;
    if r.undisturbed {
      assert stream[..r.received] == stream;
      FollowsAll(r.tried, Script(cfg, stream));
    }
  }

  lemma {:induction false} SawFinishIff(stream: seq<Event>)
    ensures SawFinish(stream) <==> exists i :: 0 <= i < |stream| && stream[i].body.TurnFinish?
  {
    if stream != [] {
      var n := |stream| - 1;
      SawFinishIff(stream[..n]);
      if i :| 0 <= i < n && stream[..n][i].body.TurnFinish? {
        assert stream[i].body.TurnFinish?;
      }
      if i :| 0 <= i < n && stream[i].body.TurnFinish? {
        assert stream[..n][i].body.TurnFinish?;
      }
    }
  }

  lemma {:induction false} MarkedInTried(cfg: Config, stream: seq<Event>, aborted: bool, r: Run)
    requires IsExecution(cfg, stream, aborted, r)
    ensures Marked(Trace(r)) ==> Marked(r.tried)
  {
    hide IsExecution, Trace;
    if turnId :| Did(Trace(r), MarkRunning(turnId)) {
      var j :| 0 <= j < |Trace(r)| && Trace(r)[j] == Entry(MarkRunning(turnId), true);
      TraceIndex(r, j);
      LaterParts(cfg, stream, aborted, r);
      if j < |r.tried| {
        assert Did(r.tried, MarkRunning(turnId));
      } else if Trace(r)[j] in r.recorded || Trace(r)[j] in r.closed {
        AftermathIsQuiet(cfg, stream, aborted, r, Trace(r)[j]);
      }
    }
  }

  lemma {:induction false} TriedCall(cfg: Config, stream: seq<Event>, r: Run, i: nat)
    requires IsAttempt(cfg, stream, r.received, r.tried, r.undisturbed, r.started) && i < |r.tried|
    ensures r.tried[i].call in Script(cfg, stream[..r.received])
  {
  }

  /** The one entry of the first compensation step says whether the process had been marked running. */
  lemma {:induction false} EndedReason(cfg: Config, stream: seq<Event>, aborted: bool, r: Run, e: Entry)
    requires IsExecution(cfg, stream, aborted, r) && e in r.ended
    ensures e.call == EndProcess(if Marked(r.tried) then ProviderFailed else LaunchFailed)
  {
    hide Truthful, SawFinish, CloseCalls, Follows, Script;
  }

  lemma {:induction false} ScriptNeverClaimsLaunchFailed(cfg: Config, stream: seq<Event>)
    ensures EndProcess(LaunchFailed) !in Script(cfg, stream)
  {
    if stream != [] {
      var n := |stream| - 1;
      hide EventCalls, MessageAfter;
      ScriptNeverClaimsLaunchFailed(cfg, stream[..n]);
      EventNeverClaimsLaunchFailed(cfg, MessageAfter(cfg, stream[..n]), stream[n]);
    }
  }

  lemma {:induction false} EventNeverClaimsLaunchFailed(cfg: Config, a: ChatMessage.Accumulated, e: Event)
    ensures EndProcess(LaunchFailed) !in EventCalls(cfg, a, e)
  {
    assert EndProcess(LaunchFailed) !in PreludeCalls(cfg, e);
    assert EndProcess(LaunchFailed) !in CheckpointCalls(cfg, a, Projected(cfg, e));
    assert EndProcess(LaunchFailed) !in FinishCalls(cfg, e);
  }

  function ProjectedAll(cfg: Config, stream: seq<Event>): seq<Event> {
    if stream == [] then [] else ProjectedAll(cfg, stream[..|stream| - 1]) + [Projected(cfg, stream[|stream| - 1])]
  }

  /** The events put on the activity log, in order. */
  function RecordedIn(calls: seq<Call>): seq<Event> {
    if calls == [] then []
    else RecordedIn(calls[..|calls| - 1]) + if calls[|calls| - 1].RecordActivity? then [calls[|calls| - 1].event]
      else []
  }

  lemma {:induction false} RecordedAppend(a: seq<Call>, b: seq<Call>)
    ensures RecordedIn(a + b) == RecordedIn(a) + RecordedIn(b)
  {
    if b == [] {
      assert a + b == a;
    } else {
      assert (a + b)[..|a + b| - 1] == a + b[..|b| - 1];
      RecordedAppend(a, b[..|b| - 1]);
    }
  }

  lemma {:induction false} NothingRecorded(calls: seq<Call>)
    requires forall i :: 0 <= i < |calls| ==> !calls[i].RecordActivity?
    ensures RecordedIn(calls) == []
  {
    if calls != [] {
      NothingRecorded(calls[..|calls| - 1]);
    }
  }

  lemma {:induction false} EventIsRecorded(cfg: Config, a: ChatMessage.Accumulated, e: Event)
    requires cfg.activity
    ensures RecordedIn(EventCalls(cfg, a, e)) == [Projected(cfg, e)]
  {
    var p := Projected(cfg, e);
    var early, record := StartCalls(cfg, e) + ProjectCalls(cfg, e), When(cfg.activity, RecordActivity(p));
    var late := CheckpointCalls(cfg, a, p);
    var last := FinishCalls(cfg, e) + When(cfg.trigger, NotifyTrigger(p));
    PartsRecordNothing(cfg, a, e, p);
    assert RecordedIn(record) == [p] by {
      assert record[..0] == [];
    }
    hide StartCalls, ProjectCalls, CheckpointCalls, FinishCalls, When;
    OneRecorded(early, record, late, last, p);
  }

  lemma {:induction false} PartsRecordNothing(cfg: Config, a: ChatMessage.Accumulated, e: Event, p: Event)
    ensures RecordedIn(StartCalls(cfg, e) + ProjectCalls(cfg, e)) == []
    ensures RecordedIn(CheckpointCalls(cfg, a, p)) == []
    ensures RecordedIn(FinishCalls(cfg, e) + When(cfg.trigger, NotifyTrigger(p))) == []
  {
    CheckpointRecordsNothing(cfg, a, p);
    hide RecordedIn, CheckpointCalls;
    NothingRecorded(StartCalls(cfg, e) + ProjectCalls(cfg, e));
    NothingRecorded(FinishCalls(cfg, e) + When(cfg.trigger, NotifyTrigger(p)));
  }

  lemma {:induction false} CheckpointRecordsNothing(cfg: Config, a: ChatMessage.Accumulated, p: Event)
    ensures RecordedIn(CheckpointCalls(cfg, a, p)) == []
  {
    NothingRecorded(CheckpointCalls(cfg, a, p));
    hide RecordedIn;
  }

  lemma {:induction false} OneRecorded(early: seq<Call>, record: seq<Call>, late: seq<Call>, last: seq<Call>, p: Event)
    requires RecordedIn(early) == RecordedIn(late) == RecordedIn(last) == [] && RecordedIn(record) == [p]
    ensures RecordedIn(early + record + late + last) == [p]
  {
    hide RecordedIn;
    RecordedAppend(early, record);
    RecordedAppend(early + record, late);
    RecordedAppend(early + record + late, last);
  }

  lemma {:induction false} StreamIsRecorded(cfg: Config, stream: seq<Event>)
    requires cfg.activity
    ensures RecordedIn(Script(cfg, stream)) == ProjectedAll(cfg, stream)
  {
    if stream == [] {
      NothingRecorded(Script(cfg, stream));
    } else {
      var n := |stream| - 1;
      StreamIsRecorded(cfg, stream[..n]);
      EventIsRecorded(cfg, MessageAfter(cfg, stream[..n]), stream[n]);
      RecordedAppend(Script(cfg, stream[..n]), EventCalls(cfg, MessageAfter(cfg, stream[..n]), stream[n]));
    }
  }

  /** A normal return: every call succeeded, the calls are exactly the script, one run was begun per `turn-start` and
      finished per `turn-finish`, and every event is on the activity log in order. */
  lemma {:induction false} NormalReturn(cfg: Config, stream: seq<Event>, aborted: bool, r: Run)
    requires IsExecution(cfg, stream, aborted, r) && r.returned
    ensures CallsOf(Trace(r)) == Script(cfg, stream) && forall i :: 0 <= i < |Trace(r)| ==> Trace(r)[i].ok
    ensures cfg.store
            ==> Count(CallsOf(Trace(r)), IsBegin) == Starts(stream)
                && Count(CallsOf(Trace(r)), IsFinish) == Finishes(stream)
    ensures Finishes(stream) >= 1
    ensures cfg.activity ==> RecordedIn(CallsOf(Trace(r))) == ProjectedAll(cfg, stream)
  {
    assert stream[..r.received] == stream;
    hide Truthful, Script, SawFinish, Follows;
    FollowsAll(r.tried, Script(cfg, stream));
    NothingMore(r.tried);
    assert CallsOf(r.tried) == Script(cfg, stream);
    ScriptCounts(cfg, stream);
    SawFinishCounts(stream);
    if cfg.activity {
      StreamIsRecorded(cfg, stream);
    }
  }

  /** A turn that the validator accepts and that starts once begins one run and finishes it. */
  lemma {:induction false} AcceptedTurnRunsOnce(stream: seq<Event>, sessionId: string)
    requires EventStream.Accepted(sessionId, stream) && forall i :: 0 < i < |stream| ==> !stream[i].body.TurnStart?
    ensures Starts(stream) == 1 && Finishes(stream) == 1
  {
    EventStream.AcceptedIff(sessionId, stream);
    OneStart(stream);
    NoFinishes(stream[..|stream| - 1]);
  }

  lemma {:induction false} OneStart(stream: seq<Event>)
    requires stream != [] && stream[0].body.TurnStart? && forall i :: 0 < i < |stream| ==> !stream[i].body.TurnStart?
    ensures Starts(stream) == 1
  {
    if |stream| > 1 {
      OneStart(stream[..|stream| - 1]);
    } else {
      assert stream[..0] == [];
    }
  }

  /** Call `i` begins the run of a turn and a later call finishes it in a state. */
  ghost predicate RunsThrough(calls: seq<Call>, turnId: string, state: TurnState) {
    exists i, j :: 0 <= i < j < |calls| && calls[i] == BeginRun(turnId) && calls[j] == FinishRun(turnId, state)
  }

  lemma {:induction false} BeginsItsRun(cfg: Config, stream: seq<Event>, kind: Call -> bool)
    requires cfg.store && stream != [] && stream[0].body.TurnStart?
    requires forall c :: kind(c) <==> c == BeginRun(stream[0].turnId)
    ensures Count(Script(cfg, stream), kind) >= 1
  {
    hide Script, Count;
    CountLast(cfg, stream, kind);
    if |stream| > 1 {
      BeginsItsRun(cfg, stream[..|stream| - 1], kind);
    }
  }

  lemma {:induction false} FinishesItsRun(cfg: Config, a: ChatMessage.Accumulated, e: Event, kind: Call -> bool)
    requires cfg.store && e.body.TurnFinish? && forall c :: kind(c) <==> c == FinishRun(e.turnId, e.body.state)
    ensures Count(EventCalls(cfg, a, e), kind) >= 1
  {
    CountEvent(cfg, a, e, kind);
    CountWhen(cfg.store, FinishRun(e.turnId, e.body.state), kind);
    hide EventCalls, Count;
  }

  lemma {:induction false} ScriptRunsThrough(cfg: Config, stream: seq<Event>)
    requires cfg.store && |stream| > 1 && stream[0].body.TurnStart? && stream[|stream| - 1].body.TurnFinish?
    requires stream[|stream| - 1].turnId == stream[0].turnId
    ensures RunsThrough(Script(cfg, stream), stream[0].turnId, stream[|stream| - 1].body.state)
  {
    var n, turnId := |stream| - 1, stream[0].turnId;
    var a, e := MessageAfter(cfg, stream[..n]), stream[n];
    ScriptSplits(cfg, stream);
    hide Script, Count, EventCalls, MessageAfter;
    var begins: Call -> bool, finishes: Call -> bool := c => c == BeginRun(turnId),
      c => c == FinishRun(turnId, e.body.state);
    BeginsItsRun(cfg, stream[..n], begins);
    FinishesItsRun(cfg, a, e, finishes);
    Paired(Script(cfg, stream[..n]), EventCalls(cfg, a, e), turnId, e.body.state, begins, finishes);
  }

  lemma {:induction false} ScriptSplits(cfg: Config, stream: seq<Event>)
    requires stream != []
    ensures var n := |stream| - 1;
            Script(cfg, stream) == Script(cfg, stream[..n]) + EventCalls(cfg, MessageAfter(cfg, stream[..n]), stream[n])
  {
    hide EventCalls, MessageAfter;
  }

  lemma {:induction false} Paired(before: seq<Call>, after: seq<Call>, turnId: string, state: TurnState,
                                  begins: Call -> bool, finishes: Call -> bool)
    requires forall c :: begins(c) <==> c == BeginRun(turnId)
    requires forall c :: finishes(c) <==> c == FinishRun(turnId, state)
    requires Count(before, begins) >= 1 && Count(after, finishes) >= 1
    ensures RunsThrough(before + after, turnId, state)
  {
    hide Count;
    var i := CountFinds(before, begins);
    var j := CountFinds(after, finishes);
    assert (before + after)[i] == before[i] && (before + after)[|before| + j] == after[j];
  }

  /** A turn that the validator accepts, that starts once and that returns normally is one run: begun once for the turn,
      later finished once in the state that the stream ended with, the process ended once for that reason, and every
      event on the activity log in order. */
  lemma {:induction false} CompletedTurn(cfg: Config, stream: seq<Event>, aborted: bool, r: Run, sessionId: string)
    requires IsExecution(cfg, stream, aborted, r) && r.returned && EventStream.Accepted(sessionId, stream)
    requires forall i :: 0 < i < |stream| ==> !stream[i].body.TurnStart?
    ensures stream != [] && stream[|stream| - 1].body.TurnFinish?
    ensures var calls, turnId, state := CallsOf(Trace(r)), stream[0].turnId, stream[|stream| - 1].body.state;
            && (cfg.store ==> Count(calls, IsBegin) == Count(calls, IsFinish) == 1 && RunsThrough(calls, turnId, state))
            && (cfg.lifecycle ==> Count(calls, IsEnd) == 1
                                  && (EndProcess(ProviderFailed) in calls <==> state == Failed)
                                  && (EndProcess(ProcessExited) in calls <==> state != Failed))
            && (cfg.store ==> exists m :: SaveMessage(m) in calls && ShowsEnd(m, stream[|stream| - 1]))
            && (cfg.store ==> forall x :: SetVendorSession(x) in calls
                                <==> stream[|stream| - 1].body.vendorSessionId == Some(x))
            && (cfg.activity ==> RecordedIn(calls) == ProjectedAll(cfg, stream))
  {
    EventStream.AcceptedIff(sessionId, stream);
    hide IsExecution, Script, Count, EventStream.Accepted;
    NormalReturn(cfg, stream, aborted, r);
    AcceptedTurnRunsOnce(stream, sessionId);
    ScriptCounts(cfg, stream);
    if cfg.store {
      ScriptRunsThrough(cfg, stream);
    }
    EndsOfScript(cfg, stream);
    hide RunsThrough, EventStream.WellFormedPrefix, ProjectedAll, RecordedIn, ShowsEnd;
  }

  lemma {:induction false} EndsOfScript(cfg: Config, stream: seq<Event>)
    requires |stream| > 1 && stream[0].body.TurnStart? && stream[|stream| - 1].body.TurnFinish?
    requires forall i :: 0 <= i < |stream| - 1 ==> !stream[i].body.TurnFinish?
    ensures var calls, state := Script(cfg, stream), stream[|stream| - 1].body.state;
            && (cfg.lifecycle ==> (EndProcess(ProviderFailed) in calls <==> state == Failed)
                                  && (EndProcess(ProcessExited) in calls <==> state != Failed))
            && (cfg.store ==> exists m :: SaveMessage(m) in calls && ShowsEnd(m, stream[|stream| - 1]))
            && (cfg.store ==> forall x :: SetVendorSession(x) in calls
                                <==> stream[|stream| - 1].body.vendorSessionId == Some(x))
  {
    if cfg.lifecycle {
      EndReasonIs(cfg, stream, ProviderFailed);
      EndReasonIs(cfg, stream, ProcessExited);
    }
    forall x { SessionIs(cfg, stream, x); }
    hide Script, ShowsEnd;
    if cfg.store {
      LastIsSaved(cfg, stream);
    }
  }

  lemma {:induction false} EndReasonIs(cfg: Config, stream: seq<Event>, reason: EndReason)
    requires stream != [] && stream[|stream| - 1].body.TurnFinish? && cfg.lifecycle
    requires forall i :: 0 <= i < |stream| - 1 ==> !stream[i].body.TurnFinish?
    ensures EndProcess(reason) in Script(cfg, stream)
            <==> reason == if stream[|stream| - 1].body.state == Failed then ProviderFailed else ProcessExited
  {
    OnlyLastEnds(cfg, stream, EndProcess(reason));
    hide Script, MessageAfter;
  }

  lemma {:induction false} SessionIs(cfg: Config, stream: seq<Event>, x: string)
    requires stream != [] && stream[|stream| - 1].body.TurnFinish?
    requires forall i :: 0 <= i < |stream| - 1 ==> !stream[i].body.TurnFinish?
    ensures SetVendorSession(x) in Script(cfg, stream)
            <==> cfg.store && stream[|stream| - 1].body.vendorSessionId == Some(x)
  {
    OnlyLastEnds(cfg, stream, SetVendorSession(x));
    hide Script, MessageAfter;
  }

  /** The message is in the state that the turn ended with and shows that end last. */
  predicate ShowsEnd(m: ChatMessage.Message, finish: Event)
    requires finish.body.TurnFinish?
  {
    m.state == Some(finish.body.state) && m.parts != [] && Shows(m.parts[|m.parts| - 1], finish)
  }

  /** In a stream with one end, at its end, the calls that end a turn are those of its last event. */
  lemma {:induction false} OnlyLastEnds(cfg: Config, stream: seq<Event>, c: Call)
    requires stream != [] && forall i :: 0 <= i < |stream| - 1 ==> !stream[i].body.TurnFinish?
    requires c.EndProcess? || c.SetVendorSession?
    ensures c in Script(cfg, stream) <==> Makes(cfg, MessageAfter(cfg, stream[..|stream| - 1]), stream[|stream| - 1], c)
  {
    ScriptMakes(cfg, stream, c);
    var n := |stream| - 1;
    hide Script, MessageAfter;
    if k: nat :| k < |stream| && MadeAt(cfg, stream, k, c) {
      assert k == n;
    }
    assert Makes(cfg, MessageAfter(cfg, stream[..n]), stream[n], c) ==> MadeAt(cfg, stream, n, c);
  }

  lemma {:induction false} StartedMessage(cfg: Config, stream: seq<Event>)
    requires stream != [] && stream[0].body.TurnStart?
    ensures MessageAfter(cfg, stream).message.Some?
  {
    if |stream| > 1 {
      StartedMessage(cfg, stream[..|stream| - 1]);
    }
  }

  lemma {:induction false} LastIsSaved(cfg: Config, stream: seq<Event>)
    requires cfg.store && |stream| > 1 && stream[0].body.TurnStart? && stream[|stream| - 1].body.TurnFinish?
    ensures exists m :: SaveMessage(m) in Script(cfg, stream) && ShowsEnd(m, stream[|stream| - 1])
  {
    var n := |stream| - 1;
    var a := MessageAfter(cfg, stream[..n]);
    StartedMessage(cfg, stream[..n]);
    FinishWrites(a, stream[n]);
    var m := ChatMessage.ApplyEvent(a, stream[n]).value.message.value;
    assert Becomes(cfg, a, stream[n], m);
    assert MadeAt(cfg, stream, n, SaveMessage(m));
    ScriptMakes(cfg, stream, SaveMessage(m));
    hide Script, MessageAfter, ChatMessage.ApplyEvent;
  }

  /** A process is reported as exited only after a turn that ended otherwise than as failed. */
  lemma {:induction false} ExitedMeansFinished(cfg: Config, stream: seq<Event>, aborted: bool, r: Run, i: nat)
    requires IsExecution(cfg, stream, aborted, r) && i < |Trace(r)| && Trace(r)[i].call == EndProcess(ProcessExited)
    ensures r.received <= |stream|
    ensures exists k :: 0 <= k < r.received && stream[k].body.TurnFinish? && stream[k].body.state != Failed
  {
    hide Truthful, SawFinish, CloseCalls, Follows, Script, Trace, Compensates, Marked;
    LaterParts(cfg, stream, aborted, r);
    TraceIndex(r, i);
    if i < |r.tried| {
      TriedCall(cfg, stream, r, i);
      ScriptMakes(cfg, stream[..r.received], EndProcess(ProcessExited));
      var k: nat :| k < r.received && MadeAt(cfg, stream[..r.received], k, EndProcess(ProcessExited));
      assert stream[..r.received][k] == stream[k];
    } else if Trace(r)[i] in r.ended {
      EndedReason(cfg, stream, aborted, r, Trace(r)[i]);
    } else {
      AftermathIsQuiet(cfg, stream, aborted, r, Trace(r)[i]);
    }
  }

  lemma {:induction false} TruthfulAt(entries: seq<Entry>, i: nat)
    requires Truthful(entries) && i < |entries| && entries[i].call.ApplyToMessage?
    ensures entries[i].ok == ChatMessage.ApplyEvent(MessageOf(entries[..i]), entries[i].call.event).Ok?
  {
    if i < |entries| - 1 {
      TruthfulAt(entries[..|entries| - 1], i);
      assert entries[..|entries| - 1][..i] == entries[..i];
    }
  }

  lemma {:induction false} MessageUnmoved(a: seq<Entry>, b: seq<Entry>)
    requires forall i :: 0 <= i < |b| ==> !b[i].call.ApplyToMessage?
    ensures MessageOf(a + b) == MessageOf(a)
  {
    if b == [] {
      assert a + b == a;
    } else {
      assert (a + b)[..|a + b| - 1] == a + b[..|b| - 1];
      MessageUnmoved(a, b[..|b| - 1]);
    }
  }

  /** Nothing else goes wrong while a failure is recorded. */
  ghost predicate NoFurtherFaults(r: Run) {
    && (forall e :: e in r.recorded ==> e.ok)
    && (forall e :: e in r.closed && !e.call.ApplyToMessage? ==> e.ok)
  }

  /** A turn that breaks off in mid-stream, with no further faults: the failed terminal is numbered right after the
      last event, it is put on the activity log, and the run record is finished as failed exactly when a message had
      been started, that is when the first event got as far as its checkpoint. */
  lemma {:induction false} FailureIsPersisted(cfg: Config, stream: seq<Event>, aborted: bool, r: Run)
    requires IsExecution(cfg, stream, aborted, r) && !r.returned && NoFurtherFaults(r)
    requires r.received > 0 && !stream[r.received - 1].body.TurnFinish? && cfg.store && r.started
    ensures var last := stream[r.received - 1];
            var failed := FailedEvent(last);
            && failed.sequence == last.sequence + 1 && failed.turnId == last.turnId && failed.body.TurnFinish?
               && failed.body.state == Failed
            && (cfg.activity ==> Did(r.recorded, RecordActivity(failed)))
            && (Did(r.closed, FinishRun(last.turnId, Failed)) <==> MessageOf(r.tried).message.Some?)
            && ((exists m :: Did(r.closed, SaveMessage(m))) <==> MessageOf(r.tried).message.Some?)
            && forall m :: Did(r.closed, SaveMessage(m)) ==> ShowsFailure(m, failed)
  {
    var failed := FailedEvent(stream[r.received - 1]);
    FailureParts(cfg, stream, aborted, r);
    FirstClosed(r, CheckpointCalls(cfg, MessageOf(r.tried), failed)
                   + When(r.started && cfg.store, FinishRun(failed.turnId, Failed))
                     + When(cfg.trigger, NotifyTrigger(failed)), failed);
    hide IsExecution, MessageOf, CloseCalls, Follows, Truthful, Trace;
    CloseOutcome(cfg, MessageOf(r.tried), r.started, failed, r.closed, r.closedOk);
  }

  lemma {:induction false} FailureParts(cfg: Config, stream: seq<Event>, aborted: bool, r: Run)
    requires IsExecution(cfg, stream, aborted, r) && !r.returned && NoFurtherFaults(r)
    requires r.received > 0 && !stream[r.received - 1].body.TurnFinish?
    ensures Truthful(Trace(r)) && |r.ended| <= 1 && (r.ended != [] ==> r.ended[0].call.EndProcess?)
    ensures var failed := FailedEvent(stream[r.received - 1]);
            && (if cfg.activity then r.recorded == [Entry(RecordActivity(failed), true)] else r.recorded == [])
            && Follows(r.closed, CloseCalls(cfg, MessageOf(r.tried), r.started, failed), r.closedOk)
  {
    hide IsAttempt, Truthful, SawFinish, CloseCalls, Follows, EndDone, MessageOf, FailedEvent;
    if cfg.activity {
      assert r.recorded[0] in r.recorded;
    }
  }

  /** The first closing call applies the failed event to the message as the try block left it. */
  lemma {:induction false} FirstClosed(r: Run, calls: seq<Call>, failed: Event)
    requires Truthful(Trace(r)) && Follows(r.closed, calls, r.closedOk) && calls != []
             && calls[0] == ApplyToMessage(failed)
    requires |r.ended| <= 1 && (r.ended != [] ==> r.ended[0].call.EndProcess?)
    requires |r.recorded| <= 1 && (r.recorded != [] ==> r.recorded[0].call.RecordActivity?)
    ensures r.closed != [] && r.closed[0].ok == ChatMessage.ApplyEvent(MessageOf(r.tried), failed).Ok?
  {
    var earlier := r.tried + r.ended + r.recorded;
    assert Trace(r)[|earlier|] == r.closed[0] && Trace(r)[..|earlier|] == earlier;
    hide Follows, Truthful, MessageOf;
    TruthfulAt(Trace(r), |earlier|);
    MessageUnmoved(r.tried, r.ended);
    MessageUnmoved(r.tried + r.ended, r.recorded);
  }

  /** The message is in the failed state and shows the failure last. */
  predicate ShowsFailure(m: ChatMessage.Message, failed: Event) {
    m.state == Some(Failed) && m.parts != [] && Shows(m.parts[|m.parts| - 1], failed)
  }

  lemma {:induction false} CloseOutcome(cfg: Config, a: ChatMessage.Accumulated, started: bool, failed: Event,
                                        closed: seq<Entry>, ok: bool)
    requires Follows(closed, CloseCalls(cfg, a, started, failed), ok) && cfg.store && started && failed.body.TurnFinish?
    requires failed.body.state == Failed && closed != [] && closed[0].ok == ChatMessage.ApplyEvent(a, failed).Ok?
    requires forall e :: e in closed && !e.call.ApplyToMessage? ==> e.ok
    ensures Did(closed, FinishRun(failed.turnId, Failed)) <==> a.message.Some?
    ensures (exists m :: Did(closed, SaveMessage(m))) <==> a.message.Some?
    ensures forall m :: Did(closed, SaveMessage(m)) ==> ShowsFailure(m, failed)
  {
    if a.message.Some? {
      CloseGoesThrough(cfg, a, failed, closed, ok);
      FinishWrites(a, failed);
      hide CloseCalls, Follows;
    } else {
      assert |closed| == 1;
    }
  }

  /** With a message the closing calls all go through: they save what the failed event makes of it, once. */
  lemma {:induction false} CloseGoesThrough(cfg: Config, a: ChatMessage.Accumulated, failed: Event, closed: seq<Entry>,
                                            ok: bool)
    requires Follows(closed, CloseCalls(cfg, a, true, failed), ok) && cfg.store && failed.body.TurnFinish?
    requires failed.body.state == Failed && closed != [] && closed[0].ok && a.message.Some?
    requires forall e :: e in closed && !e.call.ApplyToMessage? ==> e.ok
    ensures Did(closed, FinishRun(failed.turnId, Failed))
    ensures Did(closed, SaveMessage(Snapshot(NextMessage(a, failed))))
    ensures forall m :: Did(closed, SaveMessage(m)) ==> m == Snapshot(NextMessage(a, failed))
  {
    var at := if cfg.durable then 4 else 3;
    CloseCallsAre(cfg, a, failed, at);
    hide CloseCalls, NextMessage, Snapshot;
    assert forall i :: 0 < i < |closed| ==> closed[i] in closed && !closed[i].call.ApplyToMessage?;
    assert ok;
    var m := Snapshot(NextMessage(a, failed));
    assert closed[2] == Entry(SaveMessage(m), true) && closed[at] == Entry(FinishRun(failed.turnId, Failed), true);
  }

  lemma {:induction false} CloseCallsAre(cfg: Config, a: ChatMessage.Accumulated, failed: Event, at: nat)
    requires cfg.store && failed.body.TurnFinish? && failed.body.state == Failed && a.message.Some?
    requires at == if cfg.durable then 4 else 3
    ensures var calls, m := CloseCalls(cfg, a, true, failed), Snapshot(NextMessage(a, failed));
            && |calls| > at && calls[2] == SaveMessage(m) && calls[at] == FinishRun(failed.turnId, Failed)
            && forall i :: 0 <= i < |calls| ==> (calls[i].SaveMessage? <==> i == 2)
                                                && (calls[i].ApplyToMessage? <==> i == 0)
  {
    assert HasParts(NextMessage(a, failed));
    hide ChatMessage.ApplyEvent, Snapshot;
  }
}
