/** When an ingest succeeds, and what it leaves then. */
module ArtifactOutcome {
  import opened Text
  import opened ArtifactIngestion

  /** How long other processes keep an ingest waiting. */
  function Delay(moves: seq<Move>): nat {
    if moves == [] then 0 else (if moves[0].Wait? then moves[0].d else 0) + Delay(moves[1..])
  }

  /** The waits before the calls from `k` to the commit. */
  function Waited(w: Weather, k: nat): nat
    requires k <= 8
    decreases 8 - k
  {
    if k == 8 then 0 else Delay(w.others(k)) + Waited(w, k + 1)
  }

  /** Before a row exists or while it is good, sweepers leave the upload alone. */
  lemma {:induction false} MovesOnlyWait(v: View, moves: seq<Move>)
    ensures Moves(v, moves, true).now == v.now + Delay(moves)
    ensures v.x.row.None? || v.now + Delay(moves) <= v.x.row.value.expiresAt ==> Moves(v, moves, true).x == v.x
    decreases |moves|
  {
    if moves != [] {
      MovesOnlyWait(Move1(v, moves[0], true), moves[1..]);
    }
  }

  /** The expiry of a row never changes once it is written. */
  lemma {:induction false} MovesKeepExpiry(v: View, moves: seq<Move>)
    requires v.x.row.Some?
    ensures var x := Moves(v, moves, true).x; x.row.Some? && x.row.value.expiresAt == v.x.row.value.expiresAt
    decreases |moves|
  {
    if moves != [] {
      MovesKeepExpiry(Move1(v, moves[0], true), moves[1..]);
    }
  }

  ghost predicate Acked(w: Weather, k: nat) {
    forall i :: k <= i < 8 ==> w.fate(i) == Ack
  }

  lemma {:induction false} AckedNext(w: Weather, k: nat)
    requires k < 8
    ensures Acked(w, k) <==> w.fate(k) == Ack && Acked(w, k + 1)
  {
  }

  lemma {:induction false} TryStep(v: View, w: Weather, k: nat, ttl: nat, active: bool)
    requires k < 8
    ensures var before, op := Before(v, w, k), TryCall(k, ttl, active);
            TryFrom(v, w, k, ttl, active)
            == if w.fate(k) == Ack && Allowed(before, op)
               then TryFrom(before.(x := Effect(before, op)), w, k + 1, ttl, active)
               else (Issue(before, op, w.fate(k)), k)
    ensures Waited(w, k) == Delay(w.others(k)) + Waited(w, k + 1)
  {
    hide Moves, TryCall, Effect;
  }

  lemma {:induction false} TryOver(v: View, w: Weather, ttl: nat, active: bool)
    ensures TryFrom(v, w, 8, ttl, active) == (v, 8) && Waited(w, 8) == 0 && Acked(w, 8)
  {
  }

  /** From call `k` on, with the row written. */
  lemma {:induction false} SucceedsFrom(v: View, w: Weather, k: nat, ttl: nat, active: bool, e: nat)
    requires 2 <= k <= 8 && v.x.row.Some? && v.x.row.value.expiresAt == e
    requires v.now <= e ==> v.x == Ideal(k, e)
    requires k == 8 ==> v.now <= e
    ensures var (after, n) := TryFrom(v, w, k, ttl, active);
            && (n == 8 <==> (k < 8 ==> active) && Acked(w, k) && v.now + Waited(w, k) <= e)
            && (n == 8 ==> after.x == Ideal(8, e))
    decreases 8 - k
  {
    TryOver(v, w, ttl, active);
    if k < 8 {
      MovesOnlyWait(v, w.others(k));
      MovesKeepExpiry(v, w.others(k));
      TryStep(v, w, k, ttl, active);
      AckedNext(w, k);
      var before := Before(v, w, k);
      var op := TryCall(k, ttl, active);
      CallSucceedsIf(before, k, ttl, active, e);
      hide TryFrom, Moves, Allowed, Effect, TryCall, Ideal, Acked, Waited;
      if w.fate(k) == Ack && Allowed(before, op) {
        SucceedsFrom(before.(x := Effect(before, op)), w, k + 1, ttl, active, e);
      }
    }
  }

  /** One call, on time: it is allowed, but for the commit of an inactive conversation; late, the commit is refused. */
  lemma {:induction false} CallSucceedsIf(v: View, k: nat, ttl: nat, active: bool, e: nat)
    requires 2 <= k < 8 && v.x.row.Some? && v.x.row.value.expiresAt == e && (v.now <= e ==> v.x == Ideal(k, e))
    ensures var op := TryCall(k, ttl, active);
            && (v.now <= e ==> (Allowed(v, op) <==> (k == 7 ==> active)))
            && (v.now > e && k == 7 ==> !Allowed(v, op))
            && (Allowed(v, op) ==> Effect(v, op).row.Some? && Effect(v, op).row.value.expiresAt == e
                                   && (v.now <= e ==> Effect(v, op) == Ideal(k + 1, e)))
  {
  }

  /** An ingest succeeds exactly when the conversation is still active, every call is acknowledged and the commit comes
      no later than the row's time to live; then the bytes are at their final place alone, with a committed row and a
      revision. */
  lemma {:induction false} SucceedsIff(v: View, w: Weather, ttl: nat, active: bool)
    requires v.x == Nothing
    ensures TryFrom(v, w, 0, ttl, active).1 == 8
            <==> active && (forall k :: 0 <= k < 8 ==> w.fate(k) == Ack) && Waited(w, 2) <= ttl
    ensures TryFrom(v, w, 0, ttl, active).1 == 8
            ==> exists e :: Ingested(v, w, ttl, active).x == Upload(false, true, Some(Row(Committed, true, e)), true)
  {
    var v2 := Written(v, w, ttl, active);
    AckedNext(w, 0);
    AckedNext(w, 1);
    SucceedsFrom(v2, w, 2, ttl, active, v2.now + ttl);
    assert Acked(w, 0) <==> forall k :: 0 <= k < 8 ==> w.fate(k) == Ack;
    hide TryFrom, Waited, Acked;
  }

  /** The first two calls stage the bytes and write the row. */
  lemma {:induction false} Written(v: View, w: Weather, ttl: nat, active: bool) returns (v2: View)
    requires v.x == Nothing
    ensures v2.x == Upload(true, false, Some(Row(Staged, false, v2.now + ttl)), false)
    ensures if w.fate(0) == Ack && w.fate(1) == Ack
            then TryFrom(v, w, 0, ttl, active) == TryFrom(v2, w, 2, ttl, active)
            else TryFrom(v, w, 0, ttl, active).1 < 8
  {
    MovesOnlyWait(v, w.others(0));
    TryStep(v, w, 0, ttl, active);
    var v0 := Before(v, w, 0);
    var v1 := v0.(x := v0.x.(staged := true));
    MovesOnlyWait(v1, w.others(1));
    TryStep(v1, w, 1, ttl, active);
    hide TryFrom, Moves;
    var before := Before(v1, w, 1);
    v2 := View(Upload(true, false, Some(Row(Staged, false, before.now + ttl)), false), before.now);
  }

  // ----- Failing --------------------------------------------------------------------------------------------

  /** A failed ingest that ends before its row expires: if its revision was committed after all, the row stays
      committed; else the row is marked failed, provided the mark arrived, and stays as it was if not. */
  lemma {:induction false} FailureIsMarked(v: View, w: Weather, ttl: nat, active: bool)
    requires v.x == Nothing && TryFrom(v, w, 0, ttl, active).1 < 8 && OnTime(Ingested(v, w, ttl, active))
    ensures var x := Ingested(v, w, ttl, active).x;
            x.row.Some? ==> if x.saved then x.row.value.stage == Committed
                            else if w.fate(8) != Unsent then x.row.value.stage == Failed
                            else x.row.value.stage == if x.row.value.finalRecorded then Finalizing else Staged
  {
    TryOutcome(v, w, 0, ttl, active);
    var (after, n) := TryFrom(v, w, 0, ttl, active);
    var m := if (n < 2 && w.fate(n) == Lost) || !OnTrack(after, n) then n + 1 else n;
    assert Ingested(v, w, ttl, active) == Compensated(after, w, n);
    hide TryFrom, Ingested;
    CompensationMarks(after, w, n, m);
  }

  lemma {:induction false} CompensationMarks(v: View, w: Weather, n: nat, m: nat)
    requires OnTrack(v, m) && OnTime(Compensated(v, w, n))
    ensures var x := Compensated(v, w, n).x;
            x.row.Some? ==> if x.saved then x.row.value.stage == Committed
                            else if w.fate(8) != Unsent then x.row.value.stage == Failed
                            else x.row.value.stage == if x.row.value.finalRecorded then Finalizing else Staged
  {
    MovesKeepTrack(v, w.others(8), m);
    var before := Before(v, w, 8);
    var failed := Issue(before, Fail, w.fate(8));
    if before.x.row.Some? {
      MovesKeepExpiry(failed, w.others(9));
      MovesOnlyWait(failed, w.others(9));
    } else {
      MovesOnlyWait(failed, w.others(9));
    }
    hide Moves;
  }

  // ----- Ends that last -------------------------------------------------------------------------------------

  /** Whatever anybody does next, a committed row stays committed and a retired one retired, with its revision or
      without. */
  lemma {:induction false} EndsLast(v: View, moves: seq<Move>, sweepersOnly: bool)
    requires v.x.row.Some? && v.x.row.value.stage in {Committed, Abandoned}
    ensures var x := Moves(v, moves, sweepersOnly).x;
            x.row.Some? && x.row.value.stage == v.x.row.value.stage && x.saved == v.x.saved
    decreases |moves|
  {
    if moves != [] {
      EndsLast(Move1(v, moves[0], sweepersOnly), moves[1..], sweepersOnly);
    }
  }
}
