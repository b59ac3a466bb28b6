/** The adapter's registry: which sessions have a turn in progress and which detached turn a cancellation reaches.
    Requests, streams, cancellations and late clean-ups interleave at every point where the event loop may switch. */
module TurnRegistry {

  type Session = string
  type Turn = nat

  /** Where one turn stands. `Reserved`: its session is taken. `Created`: registered, its coroutine not yet started.
      `Streaming`: the generator runs. `Released`: the generator gave its session back. `Closed`: its coroutine cleaned
      up. `Abandoned`: the request was cancelled before it registered, an over-approximation, since nothing suspends it
      in between. `Stillborn`: the coroutine was cancelled before it ever ran. */
  datatype Phase = Reserved | Created | Streaming | Released | Closed | Abandoned | Stillborn

  datatype TurnRecord = TurnRecord(session: Session, phase: Phase)

  datatype Registry = Registry(activeSessions: set<Session>, activeTurns: map<Session, Turn>,
                               turns: map<Turn, TurnRecord>)

  const EMPTY := Registry({}, map[], map[])

  datatype Step =
    | Start(turn: Turn, session: Session)
    | Register(turn: Turn)
    | Run(turn: Turn)
    | EndStream(turn: Turn)
    | CleanUp(turn: Turn)
    | Abandon(turn: Turn)
    | CancelUnstarted(turn: Turn)

  function SetPhase(r: Registry, t: Turn, phase: Phase): Registry
    requires t in r.turns
  {
    r.(turns := r.turns[t := TurnRecord(r.turns[t].session, phase)])
  }

  predicate InPhase(r: Registry, t: Turn, phase: Phase) {
    t in r.turns && r.turns[t].phase == phase
  }

  /** What a step does; a step that is not enabled leaves the registry alone. A cancellation of a running turn ends
      its stream, so it needs no step of its own. */
  function Next(r: Registry, step: Step): Registry {
    match step
    case Start(t, s) =>
      if t in r.turns || s in r.activeSessions then r
      else r.(activeSessions := r.activeSessions + {s}, turns := r.turns[t := TurnRecord(s, Reserved)])
    case Register(t) =>
      if !InPhase(r, t, Reserved) then r
      else SetPhase(r, t, Created).(activeTurns := r.activeTurns[r.turns[t].session := t])
    case Run(t) => if InPhase(r, t, Created) then SetPhase(r, t, Streaming) else r
    case EndStream(t) =>
      if !InPhase(r, t, Streaming) then r
      else SetPhase(r, t, Released).(activeSessions := r.activeSessions - {r.turns[t].session})
    case CleanUp(t) =>
      if !InPhase(r, t, Released) then r
      else
        var s := r.turns[t].session;
        SetPhase(r, t, Closed).(activeTurns := if s in r.activeTurns && r.activeTurns[s] == t then r.activeTurns - {s}
                                else r.activeTurns)
    case Abandon(t) => if InPhase(r, t, Reserved) then SetPhase(r, t, Abandoned) else r
    case CancelUnstarted(t) => if InPhase(r, t, Created) then SetPhase(r, t, Stillborn) else r
  }

  function RunAll(steps: seq<Step>): Registry {
    if steps == [] then EMPTY else Next(RunAll(steps[..|steps| - 1]), steps[|steps| - 1])
  }

  /** The turn still holds its session. */
  predicate Holds(record: TurnRecord) {
    record.phase in {Reserved, Created, Streaming} || Lost(record)
  }

  /** No code that would release the turn's session is left to run. */
  predicate Lost(record: TurnRecord) {
    record.phase in {Abandoned, Stillborn}
  }

  ghost predicate Held(turns: map<Turn, TurnRecord>, s: Session) {
    exists t :: t in turns && Holds(turns[t]) && turns[t].session == s
  }

  /** A session is active exactly while one turn holds it. */
  ghost predicate SessionsHeld(activeSessions: set<Session>, turns: map<Turn, TurnRecord>) {
    && (forall t :: t in turns && Holds(turns[t]) ==> turns[t].session in activeSessions)
    && (forall t, u :: t in turns && u in turns && t != u && Holds(turns[t]) && Holds(turns[u])
                       ==> turns[t].session != turns[u].session)
    && (forall s :: s in activeSessions ==> Held(turns, s))
  }

  predicate Running(record: TurnRecord) {
    record.phase in {Created, Streaming, Stillborn}
  }

  predicate Unfinished(record: TurnRecord) {
    Running(record) || record.phase == Released
  }

  /** A registered turn is one that is not cleaned up, and every running turn is registered. */
  ghost predicate TurnsRegistered(activeTurns: map<Session, Turn>, turns: map<Turn, TurnRecord>) {
    && (forall t :: t in turns && Running(turns[t]) ==>
                      turns[t].session in activeTurns && activeTurns[turns[t].session] == t)
    && (forall s :: s in activeTurns ==>
                      && activeTurns[s] in turns && turns[activeTurns[s]].session == s
                      && Unfinished(turns[activeTurns[s]]))
  }

  ghost predicate Valid(r: Registry) {
    SessionsHeld(r.activeSessions, r.turns) && TurnsRegistered(r.activeTurns, r.turns)
  }

  /** A session taken by a new turn. */
  lemma {:induction false} SessionTaken(active: set<Session>, turns: map<Turn, TurnRecord>, t: Turn, s: Session)
    requires SessionsHeld(active, turns) && t !in turns && s !in active
    ensures SessionsHeld(active + {s}, turns[t := TurnRecord(s, Reserved)])
  {
    var turns' := turns[t := TurnRecord(s, Reserved)];
    assert Held(turns', s) by {
      assert turns'[t].session == s;
    }
    forall q | q in active ensures Held(turns', q) {
      var u :| u in turns && Holds(turns[u]) && turns[u].session == q;
      assert turns'[u] == turns[u];
    }
  }

  /** A phase change that neither takes a session nor releases one. */
  lemma {:induction false} SessionKept(active: set<Session>, turns: map<Turn, TurnRecord>, t: Turn, record: TurnRecord)
    requires SessionsHeld(active, turns) && t in turns && record.session == turns[t].session
    requires Holds(record) == Holds(turns[t])
    ensures SessionsHeld(active, turns[t := record])
  {
    var turns' := turns[t := record];
    assert forall u :: u in turns <==> u in turns';
    assert forall u :: u in turns ==> turns'[u].session == turns[u].session && Holds(turns'[u]) == Holds(turns[u]);
    forall q | q in active ensures Held(turns', q) {
      var u :| u in turns && Holds(turns[u]) && turns[u].session == q;
      assert turns'[u].session == q;
    }
  }

  lemma {:induction false} SessionReleased(active: set<Session>, turns: map<Turn, TurnRecord>, t: Turn,
                                           record: TurnRecord)
    requires SessionsHeld(active, turns) && t in turns && record.session == turns[t].session
    requires Holds(turns[t]) && !Holds(record)
    ensures SessionsHeld(active - {record.session}, turns[t := record])
  {
    var turns' := turns[t := record];
    assert forall u :: u in turns <==> u in turns';
    assert forall u :: u in turns && u != t ==> turns'[u] == turns[u];
    forall q | q in active && q != record.session ensures Held(turns', q) {
      var u :| u in turns && Holds(turns[u]) && turns[u].session == q;
      assert turns'[u].session == q;
    }
  }

  lemma {:induction false} StepKeepsSessions(r: Registry, step: Step)
    requires SessionsHeld(r.activeSessions, r.turns)
    ensures SessionsHeld(Next(r, step).activeSessions, Next(r, step).turns)
  {
    hide SessionsHeld;
    var t := step.turn;
    if Next(r, step) == r {
    } else if step.Start? {
      SessionTaken(r.activeSessions, r.turns, t, step.session);
    } else if step.EndStream? {
      SessionReleased(r.activeSessions, r.turns, t, Next(r, step).turns[t]);
    } else {
      SessionKept(r.activeSessions, r.turns, t, Next(r, step).turns[t]);
    }
  }

  /** A turn that becomes registered, replacing whatever its session had registered. */
  lemma {:induction false} TurnAdded(r: Registry, t: Turn, record: TurnRecord)
    requires Valid(r) && InPhase(r, t, Reserved) && record == TurnRecord(r.turns[t].session, Created)
    ensures TurnsRegistered(r.activeTurns[record.session := t], r.turns[t := record])
  {
    hide Held;
    var turns := r.turns[t := record];
    assert forall u :: u in turns <==> u in r.turns;
    assert forall u :: u in r.turns && u != t ==> turns[u] == r.turns[u];
  }

  /** A phase change that leaves the registrations alone. */
  lemma {:induction false} TurnMoved(activeTurns: map<Session, Turn>, turns: map<Turn, TurnRecord>, t: Turn,
                                     record: TurnRecord)
    requires TurnsRegistered(activeTurns, turns)
    requires t in turns ==> record.session == turns[t].session && (Unfinished(turns[t]) ==> Unfinished(record))
    requires Running(record) ==> t in turns && Running(turns[t])
    ensures TurnsRegistered(activeTurns, turns[t := record])
  {
    var turns' := turns[t := record];
    assert forall u :: u in turns' && u != t ==> u in turns && turns'[u] == turns[u];
  }

  /** A turn that is cleaned up, with its registration unless a newer turn has taken it over. */
  lemma {:induction false} TurnRemoved(activeTurns: map<Session, Turn>, turns: map<Turn, TurnRecord>, t: Turn,
                                       record: TurnRecord)
    requires TurnsRegistered(activeTurns, turns) && t in turns && record.session == turns[t].session
    requires !Running(record) && !Running(turns[t])
    ensures var s := record.session;
            TurnsRegistered(if s in activeTurns && activeTurns[s] == t then activeTurns - {s}
                            else activeTurns, turns[t := record])
  {
    var turns' := turns[t := record];
    assert forall u :: u in turns' && u != t ==> u in turns && turns'[u] == turns[u];
  }

  lemma {:induction false} StepKeepsTurns(r: Registry, step: Step)
    requires Valid(r)
    ensures TurnsRegistered(Next(r, step).activeTurns, Next(r, step).turns)
  {
    var t := step.turn;
    hide SessionsHeld, TurnsRegistered;
    if Next(r, step) == r {
    } else if step.Register? {
      TurnAdded(r, t, Next(r, step).turns[t]);
    } else if step.CleanUp? {
      TurnRemoved(r.activeTurns, r.turns, t, Next(r, step).turns[t]);
    } else {
      TurnMoved(r.activeTurns, r.turns, t, Next(r, step).turns[t]);
    }
  }

  lemma {:induction false} StepKeepsValid(r: Registry, step: Step)
    requires Valid(r)
    ensures Valid(Next(r, step))
  {
    StepKeepsSessions(r, step);
    StepKeepsTurns(r, step);
  }

  lemma {:induction false} RunsAreValid(steps: seq<Step>)
    ensures Valid(RunAll(steps))
  {
    if steps != [] {
      RunsAreValid(steps[..|steps| - 1]);
      StepKeepsValid(RunAll(steps[..|steps| - 1]), steps[|steps| - 1]);
    }
  }

  /** Over every interleaving, a session has at most one unfinished stream, and a cancellation sent to that session
      finds that very turn: no earlier turn's late clean-up ever removed or hid its registration. */
  lemma {:induction false} OneReachableTurnPerSession(steps: seq<Step>, t: Turn)
    requires InPhase(RunAll(steps), t, Streaming)
    ensures var r := RunAll(steps);
            && r.turns[t].session in r.activeTurns && r.activeTurns[r.turns[t].session] == t
            && forall u :: u in r.turns && u != t && Holds(r.turns[u]) ==> r.turns[u].session != r.turns[t].session
  {
    RunsAreValid(steps);
  }

  /** A new turn is refused exactly while an earlier turn of the session holds it, so it may be registered while the
      earlier turn's clean-up is still outstanding; that clean-up then leaves the newer registration in place. */
  lemma {:induction false} LateCleanUpKeepsNewerTurn(steps: seq<Step>, old_: Turn, new_: Turn)
    requires InPhase(RunAll(steps), old_, Released) && InPhase(RunAll(steps), new_, Streaming)
    requires RunAll(steps).turns[old_].session == RunAll(steps).turns[new_].session
    ensures var r := RunAll(steps + [CleanUp(old_)]);
            InPhase(r, new_, Streaming) && r.activeTurns == RunAll(steps).activeTurns
  {
    RunsAreValid(steps);
    assert (steps + [CleanUp(old_)])[..|steps|] == steps;
  }

  /** The session of a turn is free again exactly when no turn of it is before its release. */
  lemma {:induction false} RefusedIff(steps: seq<Step>, s: Session)
    ensures s in RunAll(steps).activeSessions <==> Held(RunAll(steps).turns, s)
  {
    RunsAreValid(steps);
  }

  /** A request cancelled while it waits to register, or a coroutine cancelled before its first step, never releases its
      session: from then on every turn of that session is refused, whatever happens next. */
  lemma {:induction false} LostTurnKeepsItsSession(r: Registry, t: Turn, steps: seq<Step>)
    requires Valid(r) && t in r.turns && Lost(r.turns[t])
    ensures var after := RunFrom(r, steps);
            Valid(after) && t in after.turns && after.turns[t] == r.turns[t]
              && r.turns[t].session in after.activeSessions
  {
    hide Valid, Next;
    if steps != [] {
      var before := RunFrom(r, steps[..|steps| - 1]);
      LostTurnKeepsItsSession(r, t, steps[..|steps| - 1]);
      StepKeepsValid(before, steps[|steps| - 1]);
      LostStays(before, t, steps[|steps| - 1]);
    }
    SessionOfHolder(RunFrom(r, steps), t);
  }

  lemma {:induction false} LostStays(r: Registry, t: Turn, step: Step)
    requires t in r.turns && Lost(r.turns[t])
    ensures t in Next(r, step).turns && Next(r, step).turns[t] == r.turns[t]
  {
  }

  lemma {:induction false} SessionOfHolder(r: Registry, t: Turn)
    requires Valid(r) && t in r.turns && Holds(r.turns[t])
    ensures r.turns[t].session in r.activeSessions
  {
  }

  function RunFrom(r: Registry, steps: seq<Step>): Registry {
    if steps == [] then r else Next(RunFrom(r, steps[..|steps| - 1]), steps[|steps| - 1])
  }

  /** A started turn that ends and cleans up always frees its session, so the next turn is accepted. */
  lemma {:induction false} EndedStreamFreesSession(steps: seq<Step>, t: Turn, next: Turn)
    requires InPhase(RunAll(steps), t, Streaming) && next !in RunAll(steps).turns
    ensures var s := RunAll(steps).turns[t].session;
            InPhase(RunAll(steps + [EndStream(t)] + [Start(next, s)]), next, Reserved)
  {
    RunsAreValid(steps);
    var ended := steps + [EndStream(t)];
    assert ended[..|steps|] == steps;
    assert (ended + [Start(next, RunAll(steps).turns[t].session)])[..|ended|] == ended;
  }

  ghost predicate HeldByLost(turns: map<Turn, TurnRecord>, s: Session) {
    exists t :: t in turns && Lost(turns[t]) && turns[t].session == s
  }

  /** The steps by which a turn that is not lost releases its session. */
  function Finishing(record: TurnRecord, t: Turn): seq<Step> {
    match record.phase
    case Reserved => [Register(t), Run(t)] + [EndStream(t)]
    case Created => [Run(t)] + [EndStream(t)]
    case Streaming => [EndStream(t)]
    case _ => []
  }

  lemma {:induction false} FinishingReleases(r: Registry, t: Turn)
    requires t in r.turns && Holds(r.turns[t]) && !Lost(r.turns[t])
    ensures r.turns[t].session !in RunFrom(r, Finishing(r.turns[t], t)).activeSessions
  {
    RunFromOne(r, EndStream(t));
    RunFromOne(r, Run(t));
    RunFromOne(r, Register(t));
    RunFromNext(r, [Run(t)], EndStream(t));
    RunFromNext(r, [Register(t)], Run(t));
    assert [Register(t)] + [Run(t)] == [Register(t), Run(t)];
    RunFromNext(r, [Register(t), Run(t)], EndStream(t));
    hide RunFrom;
  }

  lemma {:induction false} RunFromNext(r: Registry, steps: seq<Step>, step: Step)
    ensures RunFrom(r, steps + [step]) == Next(RunFrom(r, steps), step)
  {
    assert (steps + [step])[..|steps|] == steps;
    hide Next;
  }

  lemma {:induction false} RunFromOne(r: Registry, step: Step)
    ensures RunFrom(r, [step]) == Next(r, step)
  {
    RunFromNext(r, [], step);
    assert [] + [step] == [step];
    hide Next;
  }

  /** A session is refused for good exactly when a turn that was cancelled too early to clean up holds it. */
  lemma {:induction false} RefusedForGoodIff(r: Registry, s: Session)
    requires Valid(r)
    ensures (forall steps :: s in RunFrom(r, steps).activeSessions) <==> HeldByLost(r.turns, s)
  {
    if HeldByLost(r.turns, s) {
      var t :| t in r.turns && Lost(r.turns[t]) && r.turns[t].session == s;
      forall steps ensures s in RunFrom(r, steps).activeSessions {
        LostTurnKeepsItsSession(r, t, steps);
      }
    } else if s !in r.activeSessions {
      assert s !in RunFrom(r, []).activeSessions;
    } else {
      var t :| t in r.turns && Holds(r.turns[t]) && r.turns[t].session == s;
      FinishingReleases(r, t);
    }
  }

  // ----- What each step does --------------------------------------------------------------------------------

  /** The step has something to do: its session is free, or its turn is where the step goes on from. */
  predicate Enabled(r: Registry, step: Step) {
    match step
    case Start(t, s) => t !in r.turns && s !in r.activeSessions
    case Register(t) => InPhase(r, t, Reserved)
    case Run(t) => InPhase(r, t, Created)
    case EndStream(t) => InPhase(r, t, Streaming)
    case CleanUp(t) => InPhase(r, t, Released)
    case Abandon(t) => InPhase(r, t, Reserved)
    case CancelUnstarted(t) => InPhase(r, t, Created)
  }

  /** A step without anything to do changes nothing. Any other moves its own turn alone; a start takes the session, the
      end of the stream frees it, a registration points the session at the turn, and a clean-up removes that, unless a
      newer turn has taken its place. */
  lemma {:induction false} StepIs(r: Registry, step: Step)
    ensures var t, r' := step.turn, Next(r, step);
            if !Enabled(r, step) then r' == r
            else && t in r'.turns && r'.turns.Keys == r.turns.Keys + {t}
                 && (forall u :: u in r.turns && u != t ==> r'.turns[u] == r.turns[u])
                 && (t in r.turns ==> r'.turns[t].session == r.turns[t].session)
                 && (step.Start? ==> r'.turns[t].session == step.session)
                 && var s := r'.turns[t].session;
                    && InPhase(r', t, match step case Start(_, _) => Reserved case Register(_) => Created
                                                 case Run(_) => Streaming case EndStream(_) => Released
                                                 case CleanUp(_) => Closed case Abandon(_) => Abandoned
                                                 case CancelUnstarted(_) => Stillborn)
                    && r'.activeSessions == (if step.Start? then r.activeSessions + {s}
                                             else if step.EndStream? then r.activeSessions - {s} else r.activeSessions)
                    && r'.activeTurns == (if step.Register? then r.activeTurns[s := t]
                                          else if step.CleanUp? && s in r.activeTurns && r.activeTurns[s] == t
                                            then r.activeTurns - {s}
                                          else r.activeTurns)
  {
  }

  /** The life of a turn on a free session: it streams, reachable by a cancellation, and when it is over the session is
      free and nothing is registered for it. */
  lemma {:induction false} LifeOfTurn(steps: seq<Step>, t: Turn, s: Session)
    requires t !in RunAll(steps).turns && s !in RunAll(steps).activeSessions
    ensures var running := RunAll(steps + [Start(t, s)] + [Register(t)] + [Run(t)]);
            InPhase(running, t, Streaming) && s in running.activeSessions && s in running.activeTurns
            && running.activeTurns[s] == t
    ensures var over := RunAll(steps + [Start(t, s)] + [Register(t)] + [Run(t)] + [EndStream(t)] + [CleanUp(t)]);
            InPhase(over, t, Closed) && s !in over.activeSessions && s !in over.activeTurns
  {
    RunAllNext(steps, Start(t, s));
    RunAllNext(steps + [Start(t, s)], Register(t));
    RunAllNext(steps + [Start(t, s)] + [Register(t)], Run(t));
    RunAllNext(steps + [Start(t, s)] + [Register(t)] + [Run(t)], EndStream(t));
    RunAllNext(steps + [Start(t, s)] + [Register(t)] + [Run(t)] + [EndStream(t)], CleanUp(t));
    hide RunAll;
  }

  lemma {:induction false} RunAllNext(steps: seq<Step>, step: Step)
    ensures RunAll(steps + [step]) == Next(RunAll(steps), step)
  {
    assert (steps + [step])[..|steps|] == steps;
    hide Next;
  }
}
