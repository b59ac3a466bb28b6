/** Saving an uploaded or generated file: stage the bytes, record the upload, record the final locator, move the bytes,
    commit; compensate on failure; sweep expired uploads. Every call may fail before or after taking effect, and
    sweepers in other processes run between any two calls. A crash is a run whose remaining calls all fail. */
module ArtifactIngestion {
  import opened Text

  /** An upload together with the artifact and revision identifiers drawn with it. */
  type Id = nat

  datatype Stage = Staged | Finalizing | Failed | Committed | Abandoned

  datatype Row = Row(stage: Stage, finalRecorded: bool, expiresAt: nat)

  /** What the stores hold for one upload: the staging object, the final object, the staging row and the revision. */
  datatype Upload = Upload(staged: bool, finalized: bool, row: Option<Row>, saved: bool)

  const Nothing := Upload(false, false, None, false)

  /** One upload's share of the stores, and the clock. */
  datatype View = View(x: Upload, now: nat)

  datatype Op =
    | Put | Create(ttl: nat) | Prepare | Head | Copy | Verify | DeleteStaging | Commit(active: bool)
    | Fail | DeleteFinal | Abandon

  predicate Retryable(stage: Stage) {
    stage in {Staged, Finalizing, Failed}
  }

  predicate Live(v: View, stage: Stage) {
    v.x.row.Some? && v.x.row.value.stage == stage && v.now <= v.x.row.value.expiresAt
  }

  /** Whether a call that reaches its store succeeds there. */
  predicate Allowed(v: View, op: Op) {
    match op
    case Create(_) => v.x.row.None?
    case Prepare => Live(v, Staged)
    case Head => v.x.staged
    case Copy => v.x.staged
    case Verify => v.x.finalized
    case Commit(active) => active && Live(v, Finalizing)
    case _ => true
  }

  function Marked(x: Upload, stage: Stage): Upload {
    if x.row.Some? then x.(row := Some(x.row.value.(stage := stage))) else x
  }

  function Effect(v: View, op: Op): Upload
    requires Allowed(v, op)
  {
    match op
    case Put => v.x.(staged := true)
    case Create(ttl) => v.x.(row := Some(Row(Staged, false, v.now + ttl)))
    case Prepare => v.x.(row := Some(v.x.row.value.(stage := Finalizing, finalRecorded := true)))
    case Head => v.x
    case Copy => v.x.(finalized := true)
    case Verify => v.x
    case DeleteStaging => v.x.(staged := false)
    case Commit(_) => Marked(v.x, Committed).(saved := true)
    case Fail => if v.x.row.Some? && v.x.row.value.stage in {Staged, Finalizing} then Marked(v.x, Failed) else v.x
    case DeleteFinal => v.x.(finalized := false)
    case Abandon => if v.x.row.Some? && Retryable(v.x.row.value.stage) then Marked(v.x, Abandoned) else v.x
  }

  /** A call succeeds, takes effect but looks failed, or never arrives. */
  datatype Fate = Ack | Lost | Unsent

  function Issue(v: View, op: Op, fate: Fate): View {
    if fate == Unsent || !Allowed(v, op) then v else v.(x := Effect(v, op))
  }

  predicate Acknowledged(v: View, op: Op, fate: Fate) {
    fate == Ack && Allowed(v, op)
  }

  /** What other processes do between two calls: time passes, or somebody calls a store for this upload. */
  datatype Move = Wait(d: nat) | Do(op: Op)

  /** A row that a sweeper has listed: expired while it could still be retried. */
  predicate Purgeable(v: View) {
    v.x.row.Some? && v.x.row.value.expiresAt < v.now && v.x.row.value.stage != Committed
  }

  /** The calls a sweeper makes for an upload. */
  predicate SweeperMay(v: View, op: Op) {
    Purgeable(v) && (op in {DeleteStaging, Abandon} || (op == DeleteFinal && v.x.row.value.finalRecorded))
  }

  function Move1(v: View, m: Move, sweepersOnly: bool): View {
    match m
    case Wait(d) => v.(now := v.now + d)
    case Do(op) => if Allowed(v, op) && (sweepersOnly ==> SweeperMay(v, op)) then v.(x := Effect(v, op)) else v
  }

  function Moves(v: View, moves: seq<Move>, sweepersOnly: bool): View
    decreases |moves|
  {
    if moves == [] then v else Moves(Move1(v, moves[0], sweepersOnly), moves[1..], sweepersOnly)
  }

  /** The faults and the interference one ingest meets, call by call: the eight calls of its `try` block in order,
      then marking the row failed (8) and deleting an object (9). */
  datatype Weather = Weather(fate: nat -> Fate, others: nat -> seq<Move>)

  function TryCall(k: nat, ttl: nat, active: bool): Op
    requires k < 8
  {
    match k
    case 0 => Put
    case 1 => Create(ttl)
    case 2 => Prepare
    case 3 => Head
    case 4 => Copy
    case 5 => Verify
    case 6 => DeleteStaging
    case _ => Commit(active)
  }

  function Before(v: View, w: Weather, k: nat): View {
    Moves(v, w.others(k), true)
  }

  /** The `try` block from call `k` on: the stores and the number of calls that succeeded. */
  function TryFrom(v: View, w: Weather, k: nat, ttl: nat, active: bool): (View, nat)
    requires k <= 8
    decreases 8 - k
  {
    if k == 8 then (v, 8)
    else
      var before := Before(v, w, k);
      var op := TryCall(k, ttl, active);
      var after := Issue(before, op, w.fate(k));
      if Acknowledged(before, op, w.fate(k)) then TryFrom(after, w, k + 1, ttl, active) else (after, k)
  }

  /** The `catch` block after `k` calls: the final locator is known once finalisation returned, the staging one once
      staging did. */
  function Compensated(v: View, w: Weather, k: nat): View {
    var failed := Issue(Before(v, w, 8), Fail, w.fate(8));
    var before := Before(failed, w, 9);
    if k >= 7 then Issue(before, DeleteFinal, w.fate(9))
    else if k >= 1 then Issue(before, DeleteStaging, w.fate(9))
    else failed
  }

  function Ingested(v: View, w: Weather, ttl: nat, active: bool): View {
    var (after, k) := TryFrom(v, w, 0, ttl, active);
    if k == 8 then after else Compensated(after, w, k)
  }

  /** One upload of a sweep, from the listing's snapshot of whether a final locator is recorded. */
  function Swept(v: View, w: Weather, finalRecorded: bool): View {
    var v0 := Moves(v, w.others(0), false);
    var v1 := if finalRecorded then Issue(v0, DeleteFinal, w.fate(0)) else v0;
    if finalRecorded && w.fate(0) != Ack then v1
    else
      var v2 := Moves(v1, w.others(1), false);
      var v3 := Issue(v2, DeleteStaging, w.fate(1));
      if w.fate(1) != Ack then v3 else Issue(Moves(v3, w.others(2), false), Abandon, w.fate(2))
  }

  /** A sweep reaches an upload at `now`, with the row as it was listed. */
  function SweptAt(x: Upload, now: nat, w: Weather): View {
    Swept(View(x, now), w, x.row.Some? && x.row.value.finalRecorded)
  }

  predicate Listed(v: View) {
    v.x.row.Some? && v.x.row.value.expiresAt < v.now && Retryable(v.x.row.value.stage)
  }

  class ArtifactVault {
    var uploads: map<Id, Upload>
    var now: nat

    constructor ()
      ensures uploads == map[] && now == 0
    {
      uploads, now := map[], 0;
    }

    function At(u: Id): View
      reads this
    {
      View(if u in uploads then uploads[u] else Nothing, now)
    }

    /** Let the other processes move, then make one call. */
    method Call(u: Id, op: Op, fate: Fate, others: seq<Move>, sweepersOnly: bool) returns (ok: bool)
      modifies this
      ensures At(u) == Issue(Moves(old(At(u)), others, sweepersOnly), op, fate)
      ensures ok == Acknowledged(Moves(old(At(u)), others, sweepersOnly), op, fate)
      ensures uploads == old(uploads)[u := At(u).x] && now >= old(now)
    {
      hide Moves;
      ClockAdvances(At(u), others, sweepersOnly);
      var before := Moves(At(u), others, sweepersOnly);
      ok := Acknowledged(before, op, fate);
      uploads, now := uploads[u := Issue(before, op, fate).x], before.now;
    }

    /** Call `k` of the `try` block. */
    method Try(u: Id, op: Op, w: Weather, k: nat, ttl: nat, active: bool) returns (ok: bool)
      requires k < 8 && op == TryCall(k, ttl, active)
      modifies this
      ensures TryFrom(old(At(u)), w, k, ttl, active) == if ok then TryFrom(At(u), w, k + 1, ttl, active) else (At(u), k)
      ensures uploads == old(uploads)[u := At(u).x]
    {
      hide Moves, Issue, Acknowledged, TryCall;
      ok := Call(u, op, w.fate(k), w.others(k), true);
    }

    /** The object store's `finalize`: check the staged object, copy it, check the copy, delete the original. */
    method Finalize(u: Id, w: Weather, ttl: nat, active: bool) returns (ok: bool)
      modifies this
      ensures if ok then TryFrom(old(At(u)), w, 3, ttl, active) == TryFrom(At(u), w, 7, ttl, active)
              else 3 <= TryFrom(old(At(u)), w, 3, ttl, active).1 < 7
                   && TryFrom(old(At(u)), w, 3, ttl, active).0 == At(u)
      ensures uploads == old(uploads)[u := At(u).x]
    {
      hide TryFrom;
      ok := Try(u, Head, w, 3, ttl, active);
      if !ok { return; }
      ok := Try(u, Copy, w, 4, ttl, active);
      if !ok { return; }
      ok := Try(u, Verify, w, 5, ttl, active);
      if !ok { return; }
      ok := Try(u, DeleteStaging, w, 6, ttl, active);
    }

    /** The `try` block. */
    method Attempt(u: Id, w: Weather, ttl: nat, active: bool)
      returns (ok: bool, stagingLocator: bool, finalLocator: bool)
      modifies this
      ensures var (after, n) := TryFrom(old(At(u)), w, 0, ttl, active);
              after == At(u) && ok == (n == 8) && stagingLocator == (n >= 1) && finalLocator == (n >= 7)
      ensures uploads == old(uploads)[u := At(u).x]
    {
      ok, stagingLocator, finalLocator := false, false, false;
      EndOfTry(w, ttl, active);
      hide TryFrom;
      ok := Try(u, Put, w, 0, ttl, active);
      if !ok { return; }
      stagingLocator := true;
      ok := Try(u, Create(ttl), w, 1, ttl, active);
      if !ok { return; }
      ok := Try(u, Prepare, w, 2, ttl, active);
      if !ok { return; }
      ok := Finalize(u, w, ttl, active);
      if !ok { return; }
      finalLocator := true;
      ok := Try(u, Commit(active), w, 7, ttl, active);
    }

    /** `ingestBytes` after its placement and digest checks. */
    method IngestBytes(u: Id, w: Weather, ttl: nat, active: bool) returns (ok: bool)
      modifies this
      ensures At(u) == Ingested(old(At(u)), w, ttl, active)
      ensures ok <==> TryFrom(old(At(u)), w, 0, ttl, active).1 == 8
      ensures uploads == old(uploads)[u := At(u).x]
    {
      hide Moves, Issue, Acknowledged, TryFrom;
      var stagingLocator, finalLocator;
      ok, stagingLocator, finalLocator := Attempt(u, w, ttl, active);
      if !ok {
        var marked := Call(u, Fail, w.fate(8), w.others(8), true);
        if finalLocator {
          var deleted := Call(u, DeleteFinal, w.fate(9), w.others(9), true);
        } else if stagingLocator {
          var deleted := Call(u, DeleteStaging, w.fate(9), w.others(9), true);
        }
      }
    }

    /** One upload of a sweep: its objects first, and only then its row. */
    method SweepOne(u: Id, finalRecorded: bool, w: Weather) returns (done: bool)
      modifies this
      ensures At(u) == Swept(old(At(u)), w, finalRecorded)
      ensures u in uploads && uploads == old(uploads)[u := uploads[u]] && now >= old(now)
    {
      if finalRecorded {
        done := Call(u, DeleteFinal, w.fate(0), w.others(0), false);
        if !done { return; }
        done := Call(u, DeleteStaging, w.fate(1), w.others(1), false);
      } else {
        done := Call(u, DeleteStaging, w.fate(1), w.others(0) + w.others(1), false);
        MovesCompose(old(At(u)), w.others(0), w.others(1));
      }
      if !done { return; }
      done := Call(u, Abandon, w.fate(2), w.others(2), false);
    }

    /** `cleanupExpiredStaging` over the rows its query listed; `clocks` are the times at which each was reached. */
    method CleanupExpiredStaging(listing: seq<Id>, weather: Id -> Weather) returns (ghost clocks: seq<nat>)
      requires forall i, j :: 0 <= i < j < |listing| ==> listing[i] != listing[j]
      requires forall u :: u in listing ==> Listed(At(u))
      modifies this
      ensures |clocks| == |listing| && forall i :: 0 <= i < |clocks| ==> clocks[i] >= old(now)
      ensures forall u :: u !in listing ==> At(u).x == old(At(u)).x
      ensures forall i :: 0 <= i < |listing| ==>
                At(listing[i]).x == SweptAt(old(At(listing[i])).x, clocks[i], weather(listing[i])).x
    {
      clocks := [];
      ghost var before := uploads;
      for i := 0 to |listing|
        invariant |clocks| == i && now >= old(now) && forall j :: 0 <= j < i ==> clocks[j] >= old(now)
        invariant forall u :: u !in listing[..i] ==> At(u).x == old(At(u)).x
        invariant forall j :: 0 <= j < i ==>
                    At(listing[j]).x == SweptAt(old(At(listing[j])).x, clocks[j], weather(listing[j])).x
      {
        hide Swept, Listed;
        var u := listing[i];
        assert u !in listing[..i];
        clocks := clocks + [now];
        var x := At(u).x;
        var done := SweepOne(u, x.row.Some? && x.row.value.finalRecorded, weather(u));
      }
    }
  }

  lemma {:induction false} EndOfTry(w: Weather, ttl: nat, active: bool)
    ensures forall v :: TryFrom(v, w, 8, ttl, active) == (v, 8)
  {
  }

  lemma {:induction false} ClockAdvances(v: View, moves: seq<Move>, sweepersOnly: bool)
    ensures Moves(v, moves, sweepersOnly).now >= v.now
    decreases |moves|
  {
    if moves != [] {
      ClockAdvances(Move1(v, moves[0], sweepersOnly), moves[1..], sweepersOnly);
    }
  }

  lemma {:induction false} MovesCompose(v: View, a: seq<Move>, b: seq<Move>)
    ensures Moves(v, a + b, false) == Moves(Moves(v, a, false), b, false)
    decreases |a|
  {
    if a == [] {
      assert a + b == b;
    } else {
      assert (a + b)[1..] == a[1..] + b;
      MovesCompose(Move1(v, a[0], false), a[1..], b);
    }
  }

  /** What the stores hold for an upload after the first `k` calls, when nothing has gone wrong. */
  function Ideal(k: nat, e: nat): Upload {
    Upload(1 <= k <= 6, k >= 5,
           if k < 2 then None
             else Some(Row(if k == 2 then Staged else if k < 8 then Finalizing else Committed, k >= 3, e)),
           k == 8)
  }

  /** The same upload after sweepers have passed. */
  predicate Faded(x: Upload, y: Upload) {
    && (x.staged ==> y.staged) && (x.finalized ==> y.finalized) && x.saved == y.saved
    && x.row.Some? == y.row.Some?
    && (x.row.Some? ==> x.row.value.(stage := y.row.value.stage) == y.row.value
                        && x.row.value.stage in {y.row.value.stage, Abandoned})
  }

  /** After `k` calls: exactly as it should be, unless the row has expired and sweepers have passed. */
  predicate OnTrack(v: View, k: nat) {
    if v.x.row.None? then k < 2 && v.x == Ideal(k, 0)
    else 2 <= k <= 8
         && (if k == 8 || v.now <= v.x.row.value.expiresAt then v.x == Ideal(k, v.x.row.value.expiresAt)
             else Faded(v.x, Ideal(k, v.x.row.value.expiresAt)))
  }

  lemma {:induction false} MovesKeepTrack(v: View, moves: seq<Move>, k: nat)
    requires OnTrack(v, k)
    ensures OnTrack(Moves(v, moves, true), k)
    decreases |moves|
  {
    if moves != [] {
      MovesKeepTrack(Move1(v, moves[0], true), moves[1..], k);
    }
  }

  /** One call of the `try` block moves the upload one step along or, when it fails, leaves it where it was. */
  lemma {:induction false} CallKeepsTrack(v: View, k: nat, ttl: nat, active: bool, fate: Fate)
    requires k < 8 && OnTrack(v, k)
    ensures var op := TryCall(k, ttl, active); var after := Issue(v, op, fate);
            if fate != Unsent && Allowed(v, op) then OnTrack(after, k + 1) else after == v
    ensures k < 2 ==> Allowed(v, TryCall(k, ttl, active))
  {
  }

  lemma {:induction false} TryOutcome(v: View, w: Weather, k: nat, ttl: nat, active: bool)
    requires k <= 8 && OnTrack(v, k)
    ensures var (after, n) := TryFrom(v, w, k, ttl, active);
            && k <= n <= 8
            && (forall i :: k <= i < n ==> w.fate(i) == Ack)
            && (OnTrack(after, n) || (n < 8 && w.fate(n) == Lost && OnTrack(after, n + 1)))
            && (n < 8 && w.fate(n) == Unsent ==> OnTrack(after, n))
            && (k <= n < 2 ==> w.fate(n) != Ack && (w.fate(n) == Lost ==> OnTrack(after, n + 1)))
    decreases 8 - k
  {
    if k < 8 {
      MovesKeepTrack(v, w.others(k), k);
      var before := Before(v, w, k);
      CallKeepsTrack(before, k, ttl, active, w.fate(k));
      hide OnTrack, Moves, Issue, TryCall;
      if Acknowledged(before, TryCall(k, ttl, active), w.fate(k)) {
        TryOutcome(Issue(before, TryCall(k, ttl, active), w.fate(k)), w, k + 1, ttl, active);
      }
    }
  }

  /** The same as being on track, once the row may also have been marked failed. */
  predicate Trailing(v: View, k: nat) {
    if v.x.row.None? then k < 2 && v.x == Ideal(k, 0)
    else 2 <= k <= 8
         && var row := v.x.row.value; var ideal := Ideal(k, row.expiresAt);
         if k == 8 then v.x == ideal
         else v.x.saved == ideal.saved && row.(stage := ideal.row.value.stage) == ideal.row.value
              && row.stage in {ideal.row.value.stage, Failed, Abandoned}
              && (v.x.staged ==> ideal.staged) && (v.x.finalized ==> ideal.finalized)
              && (v.now <= row.expiresAt ==> v.x == Marked(ideal, row.stage) && row.stage != Abandoned)
  }

  lemma {:induction false} MovesKeepTrailing(v: View, moves: seq<Move>, k: nat)
    requires Trailing(v, k)
    ensures Trailing(Moves(v, moves, true), k)
    decreases |moves|
  {
    if moves != [] {
      MovesKeepTrailing(Move1(v, moves[0], true), moves[1..], k);
    }
  }

  lemma {:induction false} FailingTrails(v: View, k: nat, fate: Fate)
    requires OnTrack(v, k)
    ensures Trailing(Issue(v, Fail, fate), k)
  {
  }

  /** What one ingest leaves behind: `n` acknowledged calls, the first `m` of them in effect, and then, unless all
      eight were, one deletion. `y` is what the stores held just before that deletion. */
  lemma {:induction false} IngestEnds(v: View, w: Weather, ttl: nat, active: bool) returns (n: nat, m: nat, y: View)
    requires v.x == Nothing
    ensures n == TryFrom(v, w, 0, ttl, active).1 <= 8 && (m == n || (m == n + 1 && n < 8 && w.fate(n) == Lost))
    ensures forall i :: 0 <= i < n ==> w.fate(i) == Ack
    ensures n < 2 ==> w.fate(n) != Ack && (m == n + 1 <==> w.fate(n) == Lost)
    ensures Trailing(y, m) && (n == 8 ==> Ingested(v, w, ttl, active) == y)
    ensures n < 8 ==> Ingested(v, w, ttl, active)
                      == if n == 0 then y else Issue(y, if n == 7 then DeleteFinal else DeleteStaging, w.fate(9))
  {
    TryOutcome(v, w, 0, ttl, active);
    var (after, calls) := TryFrom(v, w, 0, ttl, active);
    n := calls;
    m := if (n < 2 && w.fate(n) == Lost) || !OnTrack(after, n) then n + 1 else n;
    y := after;
    if n < 8 {
      MovesKeepTrack(after, w.others(8), m);
      FailingTrails(Before(after, w, 8), m, w.fate(8));
      y := Issue(Before(after, w, 8), Fail, w.fate(8));
      if n >= 1 {
        MovesKeepTrailing(y, w.others(9), m);
        y := Before(y, w, 9);
      }
    }
  }

  /** An upload that ended before its row expired. */
  predicate OnTime(v: View) {
    v.x.row.Some? ==> v.now <= v.x.row.value.expiresAt
  }

  /** Bytes without a revision that no sweep will ever find. */
  predicate Leaked(x: Upload) {
    (x.staged || x.finalized) && !x.saved && !Recoverable(x)
  }

  /** A row that a sweep will list once it expires, and that leads to every object there is. */
  predicate Recoverable(x: Upload) {
    x.row.Some? && Retryable(x.row.value.stage) && (x.finalized ==> x.row.value.finalRecorded)
  }

  /** A successful ingest has its bytes and its revision; a failed one loses the bytes of a committed revision exactly
      when the commit's acknowledgement was lost and the compensating deletion went through. */
  lemma {:induction false} CommittedBytesLostIff(v: View, w: Weather, ttl: nat, active: bool)
    requires v.x == Nothing
    ensures var s := Ingested(v, w, ttl, active); var ok := TryFrom(v, w, 0, ttl, active).1 == 8;
            && (ok ==> s.x.saved)
            && (s.x.saved ==> !s.x.staged && s.x.row.Some? && s.x.row.value.stage == Committed)
            && (s.x.saved ==> (!s.x.finalized <==> w.fate(7) == Lost && w.fate(9) != Unsent))
  {
    var n, m, y := IngestEnds(v, w, ttl, active);
  }

  /** An ingest that ends before its row expires leaves nothing that sweeping cannot reach, unless its bytes were staged
      without anybody learning of it: staging looked failed, or neither the row nor the deletion went through. */
  lemma {:induction false} LeakedIff(v: View, w: Weather, ttl: nat, active: bool)
    requires v.x == Nothing && OnTime(Ingested(v, w, ttl, active))
    ensures Leaked(Ingested(v, w, ttl, active).x)
            <==> w.fate(0) == Lost || (w.fate(0) == Ack && w.fate(1) == Unsent && w.fate(9) == Unsent)
  {
    var n, m, y := IngestEnds(v, w, ttl, active);
  }

  /** A row that a sweeper has retired. */
  predicate Retired(x: Upload) {
    x.row.Some? && x.row.value.stage == Abandoned
  }

  /** At any time, whatever the faults and however late: an ingest leaks for one of those reasons, or because a sweeper
      retired its expired row while an object was there or still to come, and for no other. */
  lemma {:induction false} LeakedAnytimeIff(v: View, w: Weather, ttl: nat, active: bool)
    requires v.x == Nothing
    ensures var x := Ingested(v, w, ttl, active).x;
            Leaked(x)
            <==> w.fate(0) == Lost || (w.fate(0) == Ack && w.fate(1) == Unsent && w.fate(9) == Unsent)
                 || (Retired(x) && (x.staged || x.finalized))
    ensures Retired(Ingested(v, w, ttl, active).x) ==> !OnTime(Ingested(v, w, ttl, active))
  {
    var n, m, y := IngestEnds(v, w, ttl, active);
  }

  ghost predicate Faultless(w: Weather) {
    forall k :: w.fate(k) == Ack
  }

  ghost predicate Undisturbed(w: Weather) {
    forall k :: w.others(k) == []
  }

  /** Sweeping a listed upload either removes every object and retires the row, or leaves the row listed. */
  lemma {:induction false} SweepIsSafe(v: View, w: Weather)
    requires Listed(v) && Recoverable(v.x) && Undisturbed(w)
    ensures var s := SweptAt(v.x, v.now, w);
            && s.now == v.now && s.x.saved == v.x.saved
            && ((Listed(s) && Recoverable(s.x)) || (!s.x.staged && !s.x.finalized && s.x.row.value.stage == Abandoned))
            && (Faultless(w) ==> !Listed(s))
  {
    assert w.others(0) == [] && w.others(1) == [] && w.others(2) == [];
  }

  /** Sweeps at or after `later`, each listing the upload if it is still to be swept. */
  function Sweeps(v: View, ws: seq<Weather>): View
    decreases |ws|
  {
    if ws == [] then v
    else Sweeps(if Listed(v) then SweptAt(v.x, v.now, ws[0]) else v, ws[1..])
  }

  lemma {:induction false} SweepsClear(v: View, ws: seq<Weather>)
    requires ws != [] && Faultless(ws[|ws| - 1]) && forall w :: w in ws ==> Undisturbed(w)
    requires (Listed(v) && Recoverable(v.x)) || (!v.x.staged && !v.x.finalized && !Listed(v))
    ensures var s := Sweeps(v, ws); !s.x.staged && !s.x.finalized && s.x.saved == v.x.saved
    decreases |ws|
  {
    assert ws[0] in ws;
    if Listed(v) {
      SweepIsSafe(v, ws[0]);
    }
    var next := if Listed(v) then SweptAt(v.x, v.now, ws[0]) else v;
    hide Swept;
    if |ws| == 1 {
      assert ws[1..] == [];
    } else {
      assert forall w :: w in ws[1..] ==> w in ws;
      SweepsClear(next, ws[1..]);
    }
  }

  /** The saga as a whole: after any ingest that ends before its row expires and whose row or deletion went through, any
      number of faulty sweeps and one faultless one leave no object of an uncommitted upload, and leave a committed one
      as the ingest left it. */
  lemma {:induction false} SagaSettles(v: View, w: Weather, ttl: nat, active: bool, later: nat, ws: seq<Weather>)
    requires v.x == Nothing && OnTime(Ingested(v, w, ttl, active)) && !Leaked(Ingested(v, w, ttl, active).x)
    requires ws != [] && Faultless(ws[|ws| - 1]) && forall w :: w in ws ==> Undisturbed(w)
    requires Ingested(v, w, ttl, active).x.row.Some? ==> later > Ingested(v, w, ttl, active).x.row.value.expiresAt
    ensures var ingested := Ingested(v, w, ttl, active); var s := Sweeps(ingested.(now := later), ws);
            if ingested.x.saved then s.x == ingested.x else !s.x.staged && !s.x.finalized && !s.x.saved
  {
    var ingested := Ingested(v, w, ttl, active);
    var n, m, y := IngestEnds(v, w, ttl, active);
    hide Ingested, TryFrom;
    if ingested.x.saved {
      SweepsSpare(ingested.(now := later), ws);
    } else {
      SweepsClear(ingested.(now := later), ws);
    }
  }

  lemma {:induction false} SweepsSpare(v: View, ws: seq<Weather>)
    requires !Listed(v)
    ensures Sweeps(v, ws) == v
    decreases |ws|
  {
    if ws != [] {
      SweepsSpare(v, ws[1..]);
    }
  }

  /** The upload's revision exists exactly when its row is committed, and an expired row is never committed: what a
      sweeper deletes from a stale listing never belongs to a revision, whatever anybody else does meanwhile. */
  predicate Uncommittable(v: View) {
    Purgeable(v) && !v.x.saved
  }

  lemma {:induction false} MovesNeverCommit(v: View, moves: seq<Move>)
    requires Uncommittable(v)
    ensures Uncommittable(Moves(v, moves, false))
    decreases |moves|
  {
    if moves != [] {
      MovesNeverCommit(Move1(v, moves[0], false), moves[1..]);
    }
  }

  lemma {:induction false} SweeperSparesCommitted(v: View, w: Weather, finalRecorded: bool, later: seq<Move>)
    requires Listed(v) && !v.x.saved
    ensures Uncommittable(Moves(v, w.others(0), false))
    ensures Uncommittable(Swept(v, w, finalRecorded)) && !Moves(Swept(v, w, finalRecorded), later, false).x.saved
  {
    MovesNeverCommit(v, w.others(0));
    var v0 := Moves(v, w.others(0), false);
    var v1 := if finalRecorded then Issue(v0, DeleteFinal, w.fate(0)) else v0;
    MovesNeverCommit(v1, w.others(1));
    var v3 := Issue(Moves(v1, w.others(1), false), DeleteStaging, w.fate(1));
    MovesNeverCommit(v3, w.others(2));
    MovesNeverCommit(Swept(v, w, finalRecorded), later);
  }

  /** An ingest that outlives its row can leak: a sweeper deletes the final object before it exists, the bytes are then
      moved there, the sweeper abandons the row, the commit is refused and the compensating deletion fails. */
  function LateWeather(): Weather {
    Weather(k => if k == 9 then Unsent else Ack,
            k => if k == 4 then [Wait(1), Do(DeleteFinal)] else if k == 5 then [Do(DeleteStaging), Do(Abandon)] else [])
  }

  lemma {:induction false} CallSucceeds(v: View, w: Weather, k: nat, ttl: nat, before: View, after: View)
    requires k < 8 && w.fate(k) == Ack && before == Moves(v, w.others(k), true)
    requires Allowed(before, TryCall(k, ttl, true)) && after == before.(x := Effect(before, TryCall(k, ttl, true)))
    ensures TryFrom(v, w, k, ttl, true) == TryFrom(after, w, k + 1, ttl, true)
  {
  }

  predicate Calm(w: Weather, k: nat) {
    w.others(k) == [] && w.fate(k) == Ack
  }

  lemma {:induction false} CalmCall(v: View, w: Weather, k: nat, ttl: nat, after: View)
    requires k < 8 && Calm(w, k)
    requires Allowed(v, TryCall(k, ttl, true)) && after == v.(x := Effect(v, TryCall(k, ttl, true)))
    ensures TryFrom(v, w, k, ttl, true) == TryFrom(after, w, k + 1, ttl, true)
  {
    CallSucceeds(v, w, k, ttl, v, after);
  }

  lemma {:induction false} LateStart(v0: View, w: Weather, ttl: nat, v3: View)
    requires v0 == View(Nothing, 0) && Calm(w, 0) && Calm(w, 1) && Calm(w, 2) && Calm(w, 3)
    requires v3 == View(Upload(true, false, Some(Row(Finalizing, true, ttl)), false), 0)
    ensures TryFrom(v0, w, 0, ttl, true) == TryFrom(v3, w, 4, ttl, true)
  {
    var v1 := View(Upload(true, false, None, false), 0);
    var v2 := View(Upload(true, false, Some(Row(Staged, false, ttl)), false), 0);
    hide TryFrom, Calm;
    CalmCall(v0, w, 0, ttl, v1);
    CalmCall(v1, w, 1, ttl, v2);
    CalmCall(v2, w, 2, ttl, v3);
    CalmCall(v3, w, 3, ttl, v3);
  }

  lemma {:induction false} LateEnd(v3: View, w: Weather, v6: View)
    requires v3 == View(Upload(true, false, Some(Row(Finalizing, true, 0)), false), 0) && w == LateWeather()
    requires v6 == View(Upload(false, true, Some(Row(Abandoned, true, 0)), false), 1)
    ensures TryFrom(v3, w, 4, 0, true) == TryFrom(v6, w, 7, 0, true)
  {
    var v4 := v3.(now := 1);
    var v5 := v4.(x := v4.x.(finalized := true));
    LateMoves(v3, v4);
    hide TryFrom, Moves;
    CallSucceeds(v3, w, 4, 0, v4, v5);
    CallSucceeds(v5, w, 5, 0, v6, v6);
    CalmCall(v6, w, 6, 0, v6);
  }

  lemma {:induction false} LateIngestLeaks(v0: View, w: Weather)
    requires v0 == View(Nothing, 0) && w == LateWeather()
    ensures var s := Ingested(v0, w, 0, true);
            s.x == Upload(false, true, Some(Row(Abandoned, true, 0)), false) && Leaked(s.x) && !OnTime(s)
  {
    var v3 := View(Upload(true, false, Some(Row(Finalizing, true, 0)), false), 0);
    var v6 := View(Upload(false, true, Some(Row(Abandoned, true, 0)), false), 1);
    LateStart(v0, w, 0, v3);
    LateEnd(v3, w, v6);
    LateCommit(v0, v6, w);
    hide Ingested;
  }

  lemma {:induction false} LateCommit(v0: View, v6: View, w: Weather)
    requires w == LateWeather() && TryFrom(v0, w, 0, 0, true) == TryFrom(v6, w, 7, 0, true)
    requires v6 == View(Upload(false, true, Some(Row(Abandoned, true, 0)), false), 1)
    ensures Ingested(v0, w, 0, true) == v6
  {
    assert TryFrom(v6, w, 7, 0, true) == (v6, 7);
  }

  lemma {:induction false} LateMoves(v3: View, v4: View)
    requires v3 == View(Upload(true, false, Some(Row(Finalizing, true, 0)), false), 0) && v4 == v3.(now := 1)
    ensures Moves(v3, [Wait(1), Do(DeleteFinal)], true) == v4
    ensures Moves(v4.(x := v4.x.(finalized := true)), [Do(DeleteStaging), Do(Abandon)], true)
         == View(Upload(false, true, Some(Row(Abandoned, true, 0)), false), 1)
  {
    assert [Wait(1), Do(DeleteFinal)][1..] == [Do(DeleteFinal)];
    assert Moves(v4, [Do(DeleteFinal)], true) == v4;
    var v5 := v4.(x := v4.x.(finalized := true));
    assert [Do(DeleteStaging), Do(Abandon)][1..] == [Do(Abandon)];
    assert Moves(v5.(x := v5.x.(staged := false)), [Do(Abandon)], true)
        == View(Upload(false, true, Some(Row(Abandoned, true, 0)), false), 1);
  }
}
