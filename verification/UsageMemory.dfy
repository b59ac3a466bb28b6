/** What the registry of usage states holds after each operation: which entries of a call, and which calls. */
module UsageMemory {
  import opened Text
  import opened UsageRegistry

  /** Call `i` goes before call `j`: its last entry is older, or as old and it came first. */
  predicate Older(calls: seq<Call>, i: int, j: int)
    requires 0 <= i < |calls| && 0 <= j < |calls|
  {
    LastRecorded(calls[i]) < LastRecorded(calls[j]) || (LastRecorded(calls[i]) == LastRecorded(calls[j]) && i < j)
  }

  lemma {:induction false} OldestIsFirst(calls: seq<Call>)
    requires calls != []
    ensures forall j :: 0 <= j < |calls| && j != Oldest(calls) ==> Older(calls, Oldest(calls), j)
  {
    if |calls| > 1 {
      var n := |calls| - 1;
      OldestIsFirst(calls[..n]);
      var k := Oldest(calls[..n]);
      forall j | 0 <= j < |calls| && j != Oldest(calls) ensures Older(calls, Oldest(calls), j) {
        assert j < n && j != k ==> Older(calls[..n], k, j);
      }
    }
  }

  /** `places` are the places in `calls` of those that stay, in order; every other call goes before each of them. */
  ghost predicate Stays(calls: seq<Call>, kept: seq<Call>, places: seq<int>) {
    && |places| == |kept|
    && (forall i :: 0 <= i < |places| ==> 0 <= places[i] < |calls| && kept[i] == calls[places[i]])
    && (forall i, j :: 0 <= i < j < |places| ==> places[i] < places[j])
    && forall i, j :: 0 <= i < |calls| && i !in places && 0 <= j < |places| ==> Older(calls, i, places[j])
  }

  lemma {:induction false} AllStay(calls: seq<Call>)
    ensures Stays(calls, calls, seq(|calls|, i => i))
  {
  }

  lemma {:induction false} StaysBehind(calls: seq<Call>, kept: seq<Call>, k: nat, places: seq<int>)
    requires k < |calls| && Stays(Drop(calls, k), kept, places)
    requires forall j :: 0 <= j < |calls| && j != k ==> Older(calls, k, j)
    ensures Stays(calls, kept, seq(|places|, i requires 0 <= i < |places| => if places[i] < k then places[i]
                                   else places[i] + 1))
  {
    var rest := Drop(calls, k);
    var shifted := seq(|places|, i requires 0 <= i < |places| => if places[i] < k then places[i] else places[i] + 1);
    assert forall i :: 0 <= i < |rest| ==> rest[i] == if i < k then calls[i] else calls[i + 1];
    forall i, j | 0 <= i < |calls| && i !in shifted && 0 <= j < |shifted| ensures Older(calls, i, shifted[j]) {
      if i != k {
        var at := if i < k then i else i - 1;
        if at in places {
          var n :| 0 <= n < |places| && places[n] == at;
          assert shifted[n] == i;
        }
        assert Older(rest, at, places[j]);
      }
    }
  }

  /** Eviction leaves at most 4,096 calls, in their order: those whose last entries are the newest. */
  lemma {:induction false} EvictedIs(calls: seq<Call>)
    ensures |Evicted(calls)| == if |calls| <= 4_096 then |calls| else 4_096
    ensures exists places :: Stays(calls, Evicted(calls), places)
    decreases |calls|
  {
    if |calls| <= MAX_CALLS {
      AllStay(calls);
    } else {
      var k := Oldest(calls);
      OldestIsFirst(calls);
      DropShrinks(calls, k);
      hide Drop, Oldest;
      EvictedIs(Drop(calls, k));
      var places :| Stays(Drop(calls, k), Evicted(calls), places);
      StaysBehind(calls, Evicted(calls), k, places);
    }
    hide Stays;
  }

  /** The entries of a call after one more: those of other admissions, the newest of them, and the new one. */
  ghost predicate Newest(entries: seq<Entry>, e: Entry, few: seq<Entry>) {
    exists older, newer ::
      && Keep(entries, Except(e.admission)) == older + newer && few == newer + [e]
      && |few| <= 8 && (older != [] ==> |few| == 8)
  }

  lemma {:induction false} AddedIsNewest(entries: seq<Entry>, e: Entry)
    ensures Newest(entries, e, Added(entries, e))
  {
    var others := Keep(entries, Except(e.admission));
    var k := if |others| <= 7 then 0 else |others| - 7;
    assert others == others[..k] + others[k..] && Added(entries, e) == others[k..] + [e];
  }

  /** The live calls after remembering an entry: its call keeps its place and gets its newest entries, or is a new one
      at the end, for which the oldest call gives way if there are too many. */
  ghost predicate Remembers(live: seq<Call>, id: string, e: Entry, after: seq<Call>) {
    || (exists k, few :: 0 <= k < |live| && live[k].id == id && Newest(live[k].entries, e, few)
                         && after == live[k := Call(id, few)])
    || ((forall k :: 0 <= k < |live| ==> live[k].id != id)
        && |after| == (if |live| < 4_096 then |live| + 1 else 4_096)
        && exists places :: Stays(live + [Call(id, [e])], after, places))
  }

  /** Remembering, from a registry within its bounds: an entry that is good for 900 seconds joins the live ones. */
  lemma {:induction false} RememberTells(calls: seq<Call>, log: Log, id: string, admission: string,
                                         deployment: Option<string>, now: int)
    requires Sound(calls, log) && |calls| <= 4_096
    ensures var e := Entry(admission, deployment, now, now + 900);
            Remembers(KeepCalls(calls, Unexpired(now)), id, e, After(calls, Remember(id, admission, deployment, now)))
  {
    hide *;
    var e := Entry(admission, deployment, now, now + 900);
    var live := StillLive(calls, now);
    var put := Put(live, id, Added(EntriesOf(live, id), e));
    RememberedIsEvicted(calls, id, admission, deployment, now, live);
    PutIsLive(live, id, e, now);
    AllCallsLive(put, now);
    PutRemembers(live, id, e);
  }

  lemma {:induction false} StillLive(calls: seq<Call>, now: int) returns (live: seq<Call>)
    requires |calls| <= 4_096
    ensures live == KeepCalls(calls, Unexpired(now)) == Pruned(calls, now) && |live| <= 4_096
    ensures forall c :: c in live ==> LiveCall(c, now)
  {
    live := KeepCalls(calls, Unexpired(now));
    SiftedCalls(calls, Unexpired(now));
    SiftedAreLive(calls, now);
    hide KeepCalls, Pruned, LiveCall;
  }

  lemma {:induction false} RememberedIsEvicted(calls: seq<Call>, id: string, admission: string,
                                               deployment: Option<string>, now: int, live: seq<Call>)
    requires live == Pruned(calls, now)
    ensures var put := Put(live, id, Added(EntriesOf(live, id), Entry(admission, deployment, now, now + 900)));
            After(calls, Remember(id, admission, deployment, now)) == Evicted(KeepCalls(put, Unexpired(now)))
  {
    RememberedIsPut(calls, id, Entry(admission, deployment, now, now + TTL), now);
    hide Put, Added, EntriesOf, KeepCalls, Evicted, Remembered;
  }

  lemma {:induction false} PutIsLive(live: seq<Call>, id: string, e: Entry, now: int)
    requires (forall c :: c in live ==> LiveCall(c, now)) && e.expiresAt > now
    ensures var put := Put(live, id, Added(EntriesOf(live, id), e)); forall i :: 0 <= i < |put|
                                                                       ==> LiveCall(put[i], now)
  {
    var k := Find(live, id);
    if k < |live| {
      assert live[k] in live && LiveCall(live[k], now);
    }
    AddedIsLive(EntriesOf(live, id), e, now);
    hide Added, Find;
    assert LiveCall(Call(id, Added(EntriesOf(live, id), e)), now);
    hide LiveCall;
    assert forall i :: 0 <= i < |live| ==> live[i] in live;
  }

  lemma {:induction false} PutRemembers(live: seq<Call>, id: string, e: Entry)
    requires |live| <= 4_096
    ensures Remembers(live, id, e, Evicted(Put(live, id, Added(EntriesOf(live, id), e))))
  {
    var k, few := Find(live, id), Added(EntriesOf(live, id), e);
    FindFinds(live, id);
    AddedIsNewest(EntriesOf(live, id), e);
    hide Find, Added, Evicted, Stays, Newest;
    if k < |live| {
      SmallIsKept(live[k := Call(id, few)]);
    } else {
      NewestOfNone(e, few);
      EvictedIs(live + [Call(id, [e])]);
      assert forall i :: 0 <= i < |live| ==> live[i] in live;
    }
  }

  lemma {:induction false} NewestOfNone(e: Entry, few: seq<Entry>)
    requires Newest([], e, few)
    ensures few == [e]
  {
  }

  /** Sifting goes call by call and leaves out those with nothing left. */
  lemma {:induction false} SiftAppend(a: seq<Call>, b: seq<Call>, sieve: Sieve)
    ensures KeepCalls(a + b, sieve) == KeepCalls(a, sieve) + KeepCalls(b, sieve)
  {
    if b == [] {
      assert a + b == a;
    } else {
      assert (a + b)[..|a + b| - 1] == a + b[..|b| - 1];
      SiftAppend(a, b[..|b| - 1], sieve);
      hide Keep;
    }
  }

  lemma {:induction false} SiftOne(c: Call, sieve: Sieve)
    ensures var left := Keep(c.entries, sieve);
            KeepCalls([c], sieve) == if left == [] then [] else [Call(c.id, left)]
  {
    assert [c][..0] == [];
  }
}
