/** The registry of admitted usage states: per call the last few admissions, oldest call evicted first, expired entries
    dropped at every use. It is an insertion-ordered dictionary that every operation updates in place. */
module UsageRegistry {
  import opened Text

  const MAX_CALLS := 4096
  const MAX_ENTRIES := 8
  const TTL := 15 * 60

  /** Times are readings of the monotonic clock. */
  datatype Entry = Entry(admission: string, deployment: Option<string>, recordedAt: int, expiresAt: int)

  datatype Call = Call(id: string, entries: seq<Entry>)

  datatype Sieve = Unexpired(now: int) | Except(admission: string) | Deployed(deployment: string)

  predicate Passes(e: Entry, sieve: Sieve) {
    match sieve
    case Unexpired(now) => e.expiresAt > now
    case Except(admission) => e.admission != admission
    case Deployed(deployment) => e.deployment == Some(deployment)
  }

  function Keep(entries: seq<Entry>, sieve: Sieve): seq<Entry> {
    if entries == [] then []
    else Keep(entries[..|entries| - 1], sieve) + if Passes(entries[|entries| - 1], sieve) then [entries[|entries| - 1]]
      else []
  }

  /** Sift every call's entries and drop the calls left with none. */
  function KeepCalls(calls: seq<Call>, sieve: Sieve): seq<Call> {
    if calls == [] then []
    else
      var n := |calls| - 1;
      var kept := Keep(calls[n].entries, sieve);
      KeepCalls(calls[..n], sieve) + if kept == [] then [] else [Call(calls[n].id, kept)]
  }

  function LastRecorded(c: Call): int {
    if c.entries == [] then 0 else c.entries[|c.entries| - 1].recordedAt
  }

  /** The first call whose last entry is the oldest. */
  function Oldest(calls: seq<Call>): (k: nat)
    requires calls != []
    ensures k < |calls|
  {
    if |calls| == 1 then 0
    else
      var n := |calls| - 1;
      var k := Oldest(calls[..n]);
      if LastRecorded(calls[n]) < LastRecorded(calls[k]) then n else k
  }

  function Drop(calls: seq<Call>, k: nat): seq<Call>
    requires k < |calls|
  {
    calls[..k] + calls[k + 1..]
  }

  function Evicted(calls: seq<Call>): seq<Call>
    decreases |calls|
  {
    if |calls| <= MAX_CALLS then calls else Evicted(Drop(calls, Oldest(calls)))
  }

  function Pruned(calls: seq<Call>, now: int): seq<Call> {
    Evicted(KeepCalls(calls, Unexpired(now)))
  }

  /** The position of a call, or the length if there is none. */
  function Find(calls: seq<Call>, id: string): (k: nat)
    ensures k <= |calls| && (k < |calls| ==> calls[k].id == id)
  {
    if calls == [] then 0
    else
      var n := |calls| - 1;
      var k := Find(calls[..n], id);
      if k < n then k else if calls[n].id == id then n else |calls|
  }

  function EntriesOf(calls: seq<Call>, id: string): seq<Entry> {
    var k := Find(calls, id);
    if k < |calls| then calls[k].entries else []
  }

  /** Assigning to a key: an existing call keeps its place, a new one goes last. */
  function Put(calls: seq<Call>, id: string, entries: seq<Entry>): seq<Call> {
    var k := Find(calls, id);
    if k < |calls| then calls[k := Call(id, entries)] else calls + [Call(id, entries)]
  }

  function LastFew(entries: seq<Entry>): seq<Entry> {
    if |entries| <= MAX_ENTRIES then entries else entries[|entries| - MAX_ENTRIES..]
  }

  function Remembered(calls: seq<Call>, id: string, e: Entry, now: int): seq<Call> {
    var pruned := Pruned(calls, now);
    Pruned(Put(pruned, id, LastFew(Keep(EntriesOf(pruned, id), Except(e.admission)) + [e])), now)
  }

  function LookedUp(pruned: seq<Call>, id: string, deployment: Option<string>): Option<Entry> {
    var entries := EntriesOf(pruned, id);
    var matches := if deployment.Some? then Keep(entries, Deployed(deployment.value)) else [];
    if matches != [] then Some(matches[|matches| - 1])
    else if entries != [] then Some(entries[|entries| - 1]) else None
  }

  class Registry {
    var calls: seq<Call>

    constructor ()
      ensures calls == []
    {
      calls := [];
    }

    /** The loop over a snapshot of the keys that sifts each call's entries in place. */
    method Sift(sieve: Sieve)
      modifies this
      ensures calls == KeepCalls(old(calls), sieve)
    {
      hide Keep, KeepCalls;
      var snapshot := calls;
      var k := 0;
      NoneSifted(snapshot, sieve);
      for i := 0 to |snapshot|
        invariant calls == KeepCalls(snapshot[..i], sieve) + snapshot[i..] && k == |KeepCalls(snapshot[..i], sieve)|
      {
        OneSifted(snapshot, i, sieve);
        MiddleOf(KeepCalls(snapshot[..i], sieve), snapshot[i], snapshot[i + 1..],
                 Call(calls[k].id, Keep(calls[k].entries, sieve)));
        var live := Keep(calls[k].entries, sieve);
        if live != [] {
          calls := calls[k := Call(calls[k].id, live)];
          k := k + 1;
        } else {
          calls := Drop(calls, k);
        }
      }
      assert snapshot[..|snapshot|] == snapshot;
      assert calls == KeepCalls(snapshot, sieve) + [];
    }

    method PruneUsageStates(now: int)
      modifies this
      ensures calls == Pruned(old(calls), now)
    {
      Sift(Unexpired(now));
      ghost var sifted := calls;
      while |calls| > MAX_CALLS
        invariant Evicted(calls) == Evicted(sifted)
        decreases |calls|
      {
        calls := Drop(calls, Oldest(calls));
      }
    }

    /** `now` was read before the lock was taken. */
    method RememberUsageState(id: string, admission: string, deployment: Option<string>, now: int)
      modifies this
      ensures calls == Remembered(old(calls), id, Entry(admission, deployment, now, now + TTL), now)
    {
      var entry := Entry(admission, deployment, now, now + TTL);
      PruneUsageStates(now);
      var current := Keep(EntriesOf(calls, id), Except(admission));
      calls := Put(calls, id, LastFew(current + [entry]));
      PruneUsageStates(now);
    }

    method RegisteredUsageState(id: string, deployment: Option<string>, now: int) returns (r: Option<Entry>)
      modifies this
      ensures calls == Pruned(old(calls), now) && r == LookedUp(calls, id, deployment)
    {
      PruneUsageStates(now);
      var entries := EntriesOf(calls, id);
      if deployment.Some? {
        var matches := Keep(entries, Deployed(deployment.value));
        if matches != [] {
          return Some(matches[|matches| - 1]);
        }
      }
      r := if entries != [] then Some(entries[|entries| - 1]) else None;
    }

    method ForgetUsageState(admission: string)
      modifies this
      ensures calls == KeepCalls(old(calls), Except(admission))
    {
      Sift(Except(admission));
    }
  }

  lemma {:induction false} NoneSifted(snapshot: seq<Call>, sieve: Sieve)
    ensures KeepCalls(snapshot[..0], sieve) == [] && [] + snapshot[0..] == snapshot
  {
  }

  lemma {:induction false} OneSifted(snapshot: seq<Call>, i: nat, sieve: Sieve)
    requires i < |snapshot|
    ensures var done, kept := KeepCalls(snapshot[..i], sieve), Keep(snapshot[i].entries, sieve);
            KeepCalls(snapshot[..i + 1], sieve) == done + if kept == [] then [] else [Call(snapshot[i].id, kept)]
    ensures snapshot[i..] == [snapshot[i]] + snapshot[i + 1..]
  {
    assert snapshot[..i + 1][..i] == snapshot[..i];
  }

  lemma {:induction false} MiddleOf<T>(done: seq<T>, x: T, rest: seq<T>, y: T)
    ensures (done + ([x] + rest))[|done|] == x
    ensures (done + ([x] + rest))[|done| := y] == done + [y] + rest
    ensures (done + ([x] + rest))[..|done|] + (done + ([x] + rest))[|done| + 1..] == done + [] + rest
  {
  }

  /** No admission appears twice. */
  predicate DistinctAdmissions(entries: seq<Entry>) {
    forall i, j :: 0 <= i < j < |entries| ==> entries[i].admission != entries[j].admission
  }

  predicate DistinctCalls(calls: seq<Call>) {
    forall i, j :: 0 <= i < j < |calls| ==> calls[i].id != calls[j].id
  }

  predicate GoodEntries(entries: seq<Entry>) {
    1 <= |entries| <= MAX_ENTRIES && DistinctAdmissions(entries)
  }

  /** The bounds every operation keeps. */
  predicate Bounded(calls: seq<Call>) {
    && |calls| <= MAX_CALLS && DistinctCalls(calls)
    && forall c :: c in calls ==> GoodEntries(c.entries)
  }

  /** `a` is `b` with some entries left out. */
  predicate Subsequence<T(==)>(a: seq<T>, b: seq<T>) {
    if a == [] then true
    else if b == [] then false
    else if a[|a| - 1] == b[|b| - 1] && Subsequence(a[..|a| - 1], b[..|b| - 1]) then true
    else Subsequence(a, b[..|b| - 1])
  }

  lemma {:induction false} SubsequenceExtends<T>(a: seq<T>, b: seq<T>, x: T)
    requires Subsequence(a, b)
    ensures Subsequence(a + [x], b + [x]) && Subsequence(a, b + [x])
  {
    assert (a + [x])[..|a|] == a && (b + [x])[..|b|] == b;
    if a != [] && a[|a| - 1] == x {
      if Subsequence(a[..|a| - 1], b) {
      }
    }
  }

  lemma {:induction false} SubsequenceLast<T>(a: seq<T>, b: seq<T>)
    requires Subsequence(a, b)
    ensures a != [] ==> Subsequence(a[..|a| - 1], b)
    decreases |b|
  {
    if a != [] {
      var b' := b[..|b| - 1];
      if a[|a| - 1] == b[|b| - 1] && Subsequence(a[..|a| - 1], b') {
        assert b == b' + [b[|b| - 1]];
        SubsequenceExtends(a[..|a| - 1], b', b[|b| - 1]);
      } else {
        SubsequenceLast(a, b');
        assert b == b' + [b[|b| - 1]];
        SubsequenceExtends(a[..|a| - 1], b', b[|b| - 1]);
      }
    }
  }

  lemma {:induction false} SubsequenceTransitive<T>(a: seq<T>, b: seq<T>, c: seq<T>)
    requires Subsequence(a, b) && Subsequence(b, c)
    ensures Subsequence(a, c)
    decreases |a| + |b| + |c|
  {
    if a != [] {
      var a', b', c' := a[..|a| - 1], b[..|b| - 1], c[..|c| - 1];
      if b[|b| - 1] == c[|c| - 1] && Subsequence(b', c') {
        if a[|a| - 1] == b[|b| - 1] && Subsequence(a', b') {
          SubsequenceTransitive(a', b', c');
        } else {
          SubsequenceTransitive(a, b', c');
        }
      } else {
        SubsequenceTransitive(a, b, c');
      }
    }
  }

  lemma {:induction false} KeepIsSubsequence(entries: seq<Entry>, sieve: Sieve)
    ensures Subsequence(Keep(entries, sieve), entries)
  {
    if entries != [] {
      var n := |entries| - 1;
      var before := Keep(entries[..n], sieve);
      KeepIsSubsequence(entries[..n], sieve);
      assert entries == entries[..n] + [entries[n]];
      SubsequenceExtends(before, entries[..n], entries[n]);
      assert Keep(entries, sieve) == if Passes(entries[n], sieve) then before + [entries[n]] else before;
      hide Subsequence, Keep;
    }
  }

  lemma {:induction false} KeepHolds(entries: seq<Entry>, sieve: Sieve)
    ensures |Keep(entries, sieve)| <= |entries|
    ensures forall e :: e in Keep(entries, sieve) <==> e in entries && Passes(e, sieve)
  {
    if entries != [] {
      KeepHolds(entries[..|entries| - 1], sieve);
      assert entries == entries[..|entries| - 1] + [entries[|entries| - 1]];
    }
  }

  lemma {:induction false} KeepDistinct(entries: seq<Entry>, sieve: Sieve)
    requires DistinctAdmissions(entries)
    ensures DistinctAdmissions(Keep(entries, sieve))
  {
    if entries != [] {
      var n := |entries| - 1;
      KeepDistinct(entries[..n], sieve);
      KeepHolds(entries[..n], sieve);
      assert forall e :: e in entries[..n] ==> e.admission != entries[n].admission;
    }
  }

  lemma {:induction false} LastFewIsSuffix(entries: seq<Entry>)
    ensures Subsequence(LastFew(entries), entries)
    ensures DistinctAdmissions(entries) ==> DistinctAdmissions(LastFew(entries))
    ensures |LastFew(entries)| <= MAX_ENTRIES
            && (entries != []
                ==> LastFew(entries) != [] && LastFew(entries)[|LastFew(entries)| - 1] == entries[|entries| - 1])
  {
    SuffixIsSubsequence(entries, if |entries| <= MAX_ENTRIES then 0 else |entries| - MAX_ENTRIES);
    hide Subsequence;
    assert |entries| <= MAX_ENTRIES ==> entries[0..] == entries;
  }

  lemma {:induction false} SuffixIsSubsequence(entries: seq<Entry>, k: nat)
    requires k <= |entries|
    ensures Subsequence(entries[k..], entries)
    decreases |entries|
  {
    if k < |entries| {
      var n := |entries| - 1;
      SuffixIsSubsequence(entries[..n], k);
      assert entries[k..] == entries[..n][k..] + [entries[n]] && entries == entries[..n] + [entries[n]];
      SubsequenceExtends(entries[..n][k..], entries[..n], entries[n]);
    }
  }

  /** Everything ever remembered, in order. */
  type Log = seq<(string, Entry)>

  function LogOf(log: Log, id: string): seq<Entry> {
    if log == [] then []
    else LogOf(log[..|log| - 1], id) + if log[|log| - 1].0 == id then [log[|log| - 1].1] else []
  }

  /** Each call's entries are what was remembered for it, in that order, with some left out. */
  ghost predicate Refines(calls: seq<Call>, log: Log) {
    forall c :: c in calls ==> Subsequence(c.entries, LogOf(log, c.id))
  }

  /** The state of a registry that follows its log within its bounds. */
  ghost predicate Sound(calls: seq<Call>, log: Log) {
    DistinctCalls(calls) && (forall c :: c in calls ==> GoodEntries(c.entries)) && Refines(calls, log)
  }

  /** A call is what sifting left of one of `calls`. */
  ghost predicate SiftedFrom(c': Call, calls: seq<Call>, sieve: Sieve) {
    c'.entries != [] && exists c :: c in calls && c.id == c'.id && c'.entries == Keep(c.entries, sieve)
  }

  lemma {:induction false} SiftedCalls(calls: seq<Call>, sieve: Sieve)
    ensures |KeepCalls(calls, sieve)| <= |calls|
    ensures forall c' :: c' in KeepCalls(calls, sieve) ==> SiftedFrom(c', calls, sieve)
  {
    if calls != [] {
      var n := |calls| - 1;
      SiftedCalls(calls[..n], sieve);
      assert calls == calls[..n] + [calls[n]];
      forall c' | SiftedFrom(c', calls[..n], sieve) ensures SiftedFrom(c', calls, sieve) {
        var c :| c in calls[..n] && c.id == c'.id && c'.entries == Keep(c.entries, sieve);
        assert c in calls;
      }
      hide Keep;
      var last := Call(calls[n].id, Keep(calls[n].entries, sieve));
      assert last.entries != [] ==> SiftedFrom(last, calls, sieve);
      hide SiftedFrom;
    }
  }

  lemma {:induction false} SiftedDistinct(calls: seq<Call>, sieve: Sieve)
    requires DistinctCalls(calls)
    ensures DistinctCalls(KeepCalls(calls, sieve))
  {
    if calls != [] {
      var n := |calls| - 1;
      SiftedDistinct(calls[..n], sieve);
      SiftedCalls(calls[..n], sieve);
      hide Keep;
      assert forall c' :: c' in KeepCalls(calls[..n], sieve) ==> c'.id != calls[n].id;
    }
  }

  lemma {:induction false} SiftKeeps(calls: seq<Call>, log: Log, sieve: Sieve)
    requires Sound(calls, log)
    ensures Sound(KeepCalls(calls, sieve), log)
  {
    SiftedCalls(calls, sieve);
    SiftedDistinct(calls, sieve);
    hide KeepCalls, Subsequence;
    forall c' | c' in KeepCalls(calls, sieve)
      ensures GoodEntries(c'.entries) && Subsequence(c'.entries, LogOf(log, c'.id)) {
      var c :| c in calls && c.id == c'.id && c'.entries == Keep(c.entries, sieve);
      KeepDistinct(c.entries, sieve);
      KeepHolds(c.entries, sieve);
      KeepIsSubsequence(c.entries, sieve);
      SubsequenceTransitive(c'.entries, c.entries, LogOf(log, c.id));
    }
  }

  lemma {:induction false} DropKeeps(calls: seq<Call>, log: Log, k: nat)
    requires Sound(calls, log) && k < |calls|
    ensures Sound(Drop(calls, k), log)
  {
    hide Subsequence, LogOf;
    assert forall c :: c in Drop(calls, k) ==> c in calls;
  }

  lemma {:induction false} EvictionKeeps(calls: seq<Call>, log: Log)
    requires Sound(calls, log)
    ensures Sound(Evicted(calls), log) && |Evicted(calls)| <= MAX_CALLS
    decreases |calls|
  {
    hide Sound, Drop;
    if |calls| > MAX_CALLS {
      DropKeeps(calls, log, Oldest(calls));
      DropShrinks(calls, Oldest(calls));
      EvictionKeeps(Drop(calls, Oldest(calls)), log);
    }
  }

  lemma {:induction false} DropShrinks(calls: seq<Call>, k: nat)
    requires k < |calls|
    ensures |Drop(calls, k)| == |calls| - 1
  {
  }

  lemma {:induction false} PruneKeeps(calls: seq<Call>, log: Log, now: int)
    requires Sound(calls, log)
    ensures Sound(Pruned(calls, now), log) && |Pruned(calls, now)| <= MAX_CALLS
  {
    hide Sound, Evicted;
    SiftKeeps(calls, log, Unexpired(now));
    EvictionKeeps(KeepCalls(calls, Unexpired(now)), log);
  }

  lemma {:induction false} FindFinds(calls: seq<Call>, id: string)
    ensures Find(calls, id) == |calls| <==> forall c :: c in calls ==> c.id != id
  {
    if calls != [] {
      FindFinds(calls[..|calls| - 1], id);
      assert calls == calls[..|calls| - 1] + [calls[|calls| - 1]];
    }
  }

  /** Appending to the log leaves every call following it. */
  lemma {:induction false} LogGrows(calls: seq<Call>, log: Log, id: string, e: Entry)
    requires Sound(calls, log)
    ensures Sound(calls, log + [(id, e)])
  {
    forall c | c in calls ensures Subsequence(c.entries, LogOf(log + [(id, e)], c.id)) {
      LogSnoc(log, id, e, c.id);
      SubsequenceExtends(c.entries, LogOf(log, c.id), e);
    }
  }

  lemma {:induction false} LogSnoc(log: Log, id: string, e: Entry, c: string)
    ensures LogOf(log + [(id, e)], c) == if id == c then LogOf(log, c) + [e] else LogOf(log, c)
  {
    assert (log + [(id, e)])[..|log|] == log;
  }

  /** The entries a call gets when one more is remembered for it. */
  function Added(entries: seq<Entry>, e: Entry): seq<Entry> {
    LastFew(Keep(entries, Except(e.admission)) + [e])
  }

  lemma {:induction false} AddedKeeps(entries: seq<Entry>, log: Log, id: string, e: Entry)
    requires DistinctAdmissions(entries) && Subsequence(entries, LogOf(log, id))
    ensures GoodEntries(Added(entries, e)) && Subsequence(Added(entries, e), LogOf(log + [(id, e)], id))
    ensures Added(entries, e)[|Added(entries, e)| - 1] == e
  {
    var others := Keep(entries, Except(e.admission));
    OthersKept(entries, LogOf(log, id), e);
    LogSnoc(log, id, e, id);
    LastFewIsSuffix(others + [e]);
    hide Keep, LogOf, Subsequence, LastFew;
    SubsequenceTransitive(LastFew(others + [e]), others + [e], LogOf(log + [(id, e)], id));
  }

  lemma {:induction false} OthersKept(entries: seq<Entry>, log: seq<Entry>, e: Entry)
    requires DistinctAdmissions(entries) && Subsequence(entries, log)
    ensures var added := Keep(entries, Except(e.admission)) + [e];
            DistinctAdmissions(added) && Subsequence(added, log + [e])
  {
    var others := Keep(entries, Except(e.admission));
    KeepIsSubsequence(entries, Except(e.admission));
    KeepDistinct(entries, Except(e.admission));
    KeepHolds(entries, Except(e.admission));
    hide Keep, Subsequence;
    SubsequenceTransitive(others, entries, log);
    SubsequenceExtends(others, log, e);
    assert forall i :: 0 <= i < |others| ==> others[i] in others;
  }

  lemma {:induction false} PutKeeps(calls: seq<Call>, log: Log, id: string, e: Entry)
    requires Sound(calls, log)
    ensures Sound(Put(calls, id, Added(EntriesOf(calls, id), e)), log + [(id, e)])
  {
    var k := Find(calls, id);
    FindFinds(calls, id);
    LogGrows(calls, log, id, e);
    if k < |calls| {
      assert calls[k] in calls;
    } else {
      EmptySubsequence(LogOf(log, id));
    }
    AddedKeeps(EntriesOf(calls, id), log, id, e);
    hide Sound, Find, Added, Subsequence, LogOf, GoodEntries;
    PutFits(calls, log + [(id, e)], id, Added(EntriesOf(calls, id), e));
  }

  lemma {:induction false} PutFits(calls: seq<Call>, log: Log, id: string, entries: seq<Entry>)
    requires Sound(calls, log) && GoodEntries(entries) && Subsequence(entries, LogOf(log, id))
    ensures Sound(Put(calls, id, entries), log)
  {
    FindFinds(calls, id);
    hide Find, Subsequence, LogOf, GoodEntries;
    assert forall c :: c in Put(calls, id, entries) ==> c in calls || c == Call(id, entries);
  }

  lemma {:induction false} EmptySubsequence(entries: seq<Entry>)
    ensures Subsequence([], entries)
  {
  }

  datatype Op = Remember(id: string, admission: string, deployment: Option<string>,
                         now: int) | Look(now: int) | Forget(admission: string)

  function After(calls: seq<Call>, op: Op): seq<Call> {
    match op
    case Remember(id, admission, deployment, now) => Remembered(calls, id, Entry(admission, deployment, now, now + TTL),
                                                                now)
    case Look(now) => Pruned(calls, now)
    case Forget(admission) => KeepCalls(calls, Except(admission))
  }

  function Logged(log: Log, op: Op): Log {
    if op.Remember? then log + [(op.id, Entry(op.admission, op.deployment, op.now, op.now + TTL))] else log
  }

  lemma {:induction false} RememberedIsPut(calls: seq<Call>, id: string, e: Entry, now: int)
    ensures var p := Pruned(calls, now);
            Remembered(calls, id, e, now) == Pruned(Put(p, id, Added(EntriesOf(p, id), e)), now)
  {
  }

  /** Every operation keeps the bounds and the order of the log, whatever the clock readings are. */
  lemma {:induction false} OperationsKeep(calls: seq<Call>, log: Log, op: Op)
    requires Sound(calls, log) && |calls| <= MAX_CALLS
    ensures Sound(After(calls, op), Logged(log, op)) && |After(calls, op)| <= MAX_CALLS
  {
    hide Sound, Pruned, Put, Added, EntriesOf, KeepCalls;
    match op {
      case Remember(id, admission, deployment, now) =>
        var e := Entry(admission, deployment, now, now + TTL);
        RememberedIsPut(calls, id, e, now);
        hide Remembered;
        PruneKeeps(calls, log, now);
        PutKeeps(Pruned(calls, now), log, id, e);
        PruneKeeps(Put(Pruned(calls, now), id, Added(EntriesOf(Pruned(calls, now), id), e)), log + [(id, e)], now);
      case Look(now) =>
        PruneKeeps(calls, log, now);
      case Forget(_) =>
        SiftKeeps(calls, log, Except(op.admission));
        SiftedCalls(calls, Except(op.admission));
    }
  }

  function Run(ops: seq<Op>): (seq<Call>, Log) {
    if ops == [] then ([], [])
    else var (calls, log) := Run(ops[..|ops| - 1]); (After(calls, ops[|ops| - 1]), Logged(log, ops[|ops| - 1]))
  }

  predicate LiveCall(c: Call, now: int) {
    c.entries != [] && forall e :: e in c.entries ==> e.expiresAt > now
  }

  predicate Live(calls: seq<Call>, now: int) {
    forall c :: c in calls ==> LiveCall(c, now)
  }

  lemma {:induction false} EvictedOnly(calls: seq<Call>)
    ensures forall c :: c in Evicted(calls) ==> c in calls
    decreases |calls|
  {
    if |calls| > MAX_CALLS {
      EvictedOnly(Drop(calls, Oldest(calls)));
      assert forall c :: c in Drop(calls, Oldest(calls)) ==> c in calls;
    }
  }

  /** What a sieve leaves is live if it was before, or if the sieve lets only live entries pass. */
  lemma {:induction false} SiftedLive(calls: seq<Call>, sieve: Sieve, now: int)
    requires Live(calls, now) || sieve == Unexpired(now)
    ensures Live(KeepCalls(calls, sieve), now)
  {
    SiftedCalls(calls, sieve);
    hide KeepCalls;
    forall c' | c' in KeepCalls(calls, sieve) ensures LiveCall(c', now) {
      var c :| c in calls && c'.id == c.id && c'.entries == Keep(c.entries, sieve);
      assert SiftedFrom(c', calls, sieve);
      KeepHolds(c.entries, sieve);
    }
  }

  lemma {:induction false} PruneIsLive(calls: seq<Call>, now: int)
    ensures Live(Pruned(calls, now), now)
  {
    SiftedLive(calls, Unexpired(now), now);
    EvictedOnly(KeepCalls(calls, Unexpired(now)));
    hide KeepCalls, Evicted, LiveCall;
  }

  lemma {:induction false} OperationIsLive(calls: seq<Call>, op: Op, now: int)
    requires if op.Forget? then Live(calls, now) else op.now == now
    ensures Live(After(calls, op), now)
  {
    hide Pruned, KeepCalls, Live;
    match op {
      case Remember(id, admission, deployment, _) =>
        var e := Entry(admission, deployment, now, now + TTL);
        RememberedIsPut(calls, id, e, now);
        hide Remembered, Put;
        PruneIsLive(Put(Pruned(calls, now), id, Added(EntriesOf(Pruned(calls, now), id), e)), now);
      case Look(_) => PruneIsLive(calls, now);
      case Forget(admission) => SiftedLive(calls, Except(admission), now);
    }
  }

  /** The clock reading of the last remember or lookup. */
  function LastReading(ops: seq<Op>): Option<int> {
    if ops == [] then None
    else if ops[|ops| - 1].Forget? then LastReading(ops[..|ops| - 1])
    else Some(ops[|ops| - 1].now)
  }

  /** Over every run: at most 4,096 calls, each with 1 to 8 entries under distinct admissions, in the order they were
      remembered, and every one of them live at the last reading of the clock. */
  lemma {:induction false} RunsAreBounded(ops: seq<Op>)
    ensures Sound(Run(ops).0, Run(ops).1) && Bounded(Run(ops).0)
    ensures match LastReading(ops) case None => Run(ops).0 == [] case Some(now) => Live(Run(ops).0, now)
  {
    if ops != [] {
      var before, op := Run(ops[..|ops| - 1]).0, ops[|ops| - 1];
      RunsAreBounded(ops[..|ops| - 1]);
      OperationsKeep(before, Run(ops[..|ops| - 1]).1, op);
      if LastReading(ops).Some? {
        OperationIsLive(before, op, LastReading(ops).value);
      }
    }
    hide Refines, Logged, Live;
  }

  lemma {:induction false} AllLive(entries: seq<Entry>, now: int)
    requires forall e :: e in entries ==> e.expiresAt > now
    ensures Keep(entries, Unexpired(now)) == entries
  {
    if entries != [] {
      AllLive(entries[..|entries| - 1], now);
    }
  }

  lemma {:induction false} AllCallsLive(calls: seq<Call>, now: int)
    requires forall i :: 0 <= i < |calls| ==> LiveCall(calls[i], now)
    ensures KeepCalls(calls, Unexpired(now)) == calls
  {
    hide KeepCalls, LiveCall;
    FirstCallsLive(calls, |calls|, now);
    assert calls[..|calls|] == calls;
  }

  lemma {:induction false} FirstCallsLive(calls: seq<Call>, n: nat, now: int)
    requires n <= |calls| && forall i :: 0 <= i < n ==> LiveCall(calls[i], now)
    ensures KeepCalls(calls[..n], Unexpired(now)) == calls[..n]
  {
    if n > 0 {
      var c := calls[n - 1];
      assert LiveCall(c, now) && c.entries != [];
      AllLive(c.entries, now);
      OneSifted(calls, n - 1, Unexpired(now));
      hide Keep, LiveCall, KeepCalls;
      FirstCallsLive(calls, n - 1, now);
      assert calls[..n] == calls[..n - 1] + [c] && c == Call(c.id, c.entries);
    }
  }

  lemma {:induction false} OldestIsLeast(calls: seq<Call>)
    requires calls != []
    ensures forall c :: c in calls ==> LastRecorded(calls[Oldest(calls)]) <= LastRecorded(c)
    ensures Oldest(calls) == |calls| - 1
            <==> forall c :: c in calls[..|calls| - 1] ==> LastRecorded(calls[|calls| - 1]) < LastRecorded(c)
  {
    if |calls| > 1 {
      var n := |calls| - 1;
      OldestIsLeast(calls[..n]);
      assert calls == calls[..n] + [calls[n]];
      assert calls[..n][Oldest(calls[..n])] in calls[..n];
    } else {
      assert calls[..0] == [];
    }
  }

  ghost predicate Holds(calls: seq<Call>, id: string, e: Entry) {
    exists c :: c in calls && c.id == id && e in c.entries
  }

  lemma {:induction false} PassesIff(e: Entry, sieve: Sieve)
    ensures Passes(e, sieve)
            <==> match sieve case Unexpired(now) => now < e.expiresAt
                             case Except(admission) => e.admission != admission
                             case Deployed(deployment) => e.deployment == Some(deployment)
  {
  }

  /** Sifting keeps exactly the entries that pass: forgetting removes an admission everywhere and nothing else. */
  lemma {:induction false} SiftIsExact(calls: seq<Call>, sieve: Sieve, id: string, e: Entry)
    ensures Holds(KeepCalls(calls, sieve), id, e)
            <==> Holds(calls, id, e) && match sieve case Unexpired(now) => now < e.expiresAt
                                                    case Except(admission) => e.admission != admission
                                                    case Deployed(deployment) => e.deployment == Some(deployment)
  {
    if calls != [] {
      var n := |calls| - 1;
      SiftIsExact(calls[..n], sieve, id, e);
      PassesIff(e, sieve);
      KeepHolds(calls[n].entries, sieve);
      assert calls == calls[..n] + [calls[n]];
      var before, kept := KeepCalls(calls[..n], sieve), Keep(calls[n].entries, sieve);
      HoldsSnoc(calls[..n], calls[n], id, e);
      HoldsSnoc(before, Call(calls[n].id, kept), id, e);
      assert KeepCalls(calls, sieve) == if kept == [] then before else before + [Call(calls[n].id, kept)];
      hide KeepCalls, Holds, Passes, Keep;
    }
  }

  lemma {:induction false} HoldsSnoc(calls: seq<Call>, last: Call, id: string, e: Entry)
    ensures Holds(calls + [last], id, e) <==> Holds(calls, id, e) || (last.id == id && e in last.entries)
  {
    if Holds(calls, id, e) {
      var c :| c in calls && c.id == id && e in c.entries;
      assert c in calls + [last];
    }
    assert last in calls + [last];
  }

  /** A lookup answers with the newest entry of the call for that deployment, else the newest of the call. */
  lemma {:induction false} LookupIsNewest(calls: seq<Call>, id: string, deployment: Option<string>)
    ensures var entries := EntriesOf(calls, id); var r := LookedUp(calls, id, deployment);
            && (r.None? <==> entries == [])
            && (r.Some? ==> NewestWhere(entries, r.value, deployment))
  {
    var entries := EntriesOf(calls, id);
    if deployment.Some? {
      LastKept(entries, Deployed(deployment.value));
      KeepHolds(entries, Deployed(deployment.value));
    }
  }

  /** `e` is the last entry for the deployment or, if the deployment has none, the last of all. */
  ghost predicate NewestWhere(entries: seq<Entry>, e: Entry, deployment: Option<string>) {
    var some := deployment.Some? && exists x :: x in entries && x.deployment == deployment;
    exists k :: 0 <= k < |entries| && entries[k] == e && (some ==> e.deployment == deployment)
      && forall j :: k < j < |entries| ==> some && entries[j].deployment != deployment
  }

  lemma {:induction false} LastKept(entries: seq<Entry>, sieve: Sieve)
    ensures var kept := Keep(entries, sieve);
            kept != [] ==> exists k :: 0 <= k < |entries| && entries[k] == kept[|kept| - 1] && Passes(entries[k], sieve)
                             && forall j :: k < j < |entries| ==> !Passes(entries[j], sieve)
  {
    if entries != [] {
      var n := |entries| - 1;
      LastKept(entries[..n], sieve);
      if Keep(entries, sieve) != [] && !Passes(entries[n], sieve) {
        var kept := Keep(entries[..n], sieve);
        assert Keep(entries, sieve) == kept;
        var k :| 0 <= k < n && entries[..n][k] == kept[|kept| - 1] && Passes(entries[..n][k], sieve)
                 && forall j :: k < j < n ==> !Passes(entries[..n][j], sieve);
        assert entries[k] == entries[..n][k];
        assert forall j :: k < j < n ==> entries[j] == entries[..n][j];
      }
    }
  }

  /** The registry is full of other calls, each last used after the clock reading `now`. */
  ghost predicate Crowded(pruned: seq<Call>, id: string, now: int) {
    |pruned| == MAX_CALLS && forall c :: c in pruned ==> c.id != id && LastRecorded(c) > now
  }

  /** The entry just remembered is evicted in exactly one case: its call is new, the registry is full, and every other
      call was recorded under a later reading of the clock than the one taken before waiting for the lock. */
  lemma {:induction false} RememberedUnlessCrowded(calls: seq<Call>, log: Log, id: string, e: Entry, now: int)
    requires Sound(calls, log) && |calls| <= MAX_CALLS && e.recordedAt == now && e.expiresAt == now + TTL
    ensures Holds(Remembered(calls, id, e, now), id, e) <==> !Crowded(Pruned(calls, now), id, now)
  {
    var pruned := Pruned(calls, now);
    SiftedCalls(calls, Unexpired(now));
    PruneKeeps(calls, log, now);
    SiftedAreLive(calls, now);
    FindFinds(pruned, id);
    var added := Added(EntriesOf(pruned, id), e);
    var k := Find(pruned, id);
    if k < |pruned| {
      assert pruned[k] in pruned && LiveCall(pruned[k], now);
    }
    AddedIsLive(EntriesOf(pruned, id), e, now);
    var put := Put(pruned, id, added);
    hide Keep, KeepCalls, Find, LastFew, Added, Evicted, Subsequence, GoodEntries;
    assert LiveCall(Call(id, added), now);
    AllCallsLive(put, now);
    assert Remembered(calls, id, e, now) == Evicted(put);
    if k < |pruned| {
      assert put[k] == Call(id, added) && put[k] in put;
      SmallIsKept(put);
    } else {
      NewcomerStays(pruned, Call(id, added), e);
    }
  }

  lemma {:induction false} SmallIsKept(calls: seq<Call>)
    requires |calls| <= MAX_CALLS
    ensures Evicted(calls) == calls
  {
  }

  lemma {:induction false} SiftedAreLive(calls: seq<Call>, now: int)
    requires |calls| <= MAX_CALLS
    ensures Pruned(calls, now) == KeepCalls(calls, Unexpired(now))
    ensures forall c :: c in Pruned(calls, now) ==> LiveCall(c, now)
  {
    SiftedCalls(calls, Unexpired(now));
    SmallIsKept(KeepCalls(calls, Unexpired(now)));
    forall c' | c' in KeepCalls(calls, Unexpired(now)) ensures LiveCall(c', now) {
      var c :| c in calls && c.id == c'.id && c'.entries == Keep(c.entries, Unexpired(now));
      KeepHolds(c.entries, Unexpired(now));
    }
  }

  lemma {:induction false} AddedIsLive(entries: seq<Entry>, e: Entry, now: int)
    requires (forall x :: x in entries ==> x.expiresAt > now) && e.expiresAt > now
    ensures var added := Added(entries, e);
            added != [] && added[|added| - 1] == e && forall x :: x in added ==> x.expiresAt > now
  {
    KeepHolds(entries, Except(e.admission));
    var all := Keep(entries, Except(e.admission)) + [e];
    LastFewIsSuffix(all);
    assert forall x :: x in LastFew(all) ==> x in all;
  }

  lemma {:induction false} NewcomerStays(others: seq<Call>, newcomer: Call, e: Entry)
    requires |others| <= MAX_CALLS && newcomer.entries != [] && newcomer.entries[|newcomer.entries| - 1] == e
    requires forall c :: c in others ==> c.id != newcomer.id
    ensures Holds(Evicted(others + [newcomer]), newcomer.id, e) <==> !Crowded(others, newcomer.id, e.recordedAt)
  {
    var all := others + [newcomer];
    OldestIsLeast(all);
    assert all[..|others|] == others;
    HoldsSnoc(others, newcomer, newcomer.id, e);
    if |others| < MAX_CALLS {
      SmallIsKept(all);
    } else {
      var k := Oldest(all);
      SmallIsKept(Drop(all, k));
      hide Oldest;
      assert Evicted(all) == Drop(all, k);
      if k == |others| {
        assert Drop(all, k) == others;
      } else {
        assert Drop(all, k)[|others| - 1] == newcomer;
      }
    }
  }

  function CrowdEntry(i: nat): Entry {
    Entry(Decimal(i), None, 2, 2 + TTL)
  }

  /** Calls recorded at time 2, each with one entry. */
  ghost predicate IsCrowd(calls: seq<Call>) {
    forall i :: 0 <= i < |calls| ==> calls[i] == Call(Decimal(i), [CrowdEntry(i)])
  }

  /** Remembering that many calls at time 2. */
  ghost predicate Gathers(ops: seq<Op>) {
    forall i :: 0 <= i < |ops| ==> ops[i] == Remember(Decimal(i), Decimal(i), None, 2)
  }

  lemma {:induction false} CrowdStays(calls: seq<Call>, now: int)
    requires IsCrowd(calls) && |calls| <= MAX_CALLS && now <= 2
    ensures Pruned(calls, now) == calls
  {
    hide Decimal, KeepCalls, Evicted;
    AllCallsLive(calls, now);
    SmallIsKept(calls);
  }

  lemma {:induction false} CrowdIdsDiffer(calls: seq<Call>, id: string)
    requires IsCrowd(calls) && (id == "late" || id == Decimal(|calls|))
    ensures forall c :: c in calls ==> c.id != id
  {
    hide Decimal;
    forall i | 0 <= i < |calls| ensures calls[i].id != id {
      DecimalRoundTrip(i);
      assert "late"[0] == 'l';
      if calls[i].id == Decimal(|calls|) {
        DecimalInjective(i, |calls|);
      }
    }
  }

  lemma {:induction false} OneMoreInCrowd(calls: seq<Call>)
    requires IsCrowd(calls) && |calls| < MAX_CALLS
    ensures var n := |calls|; IsCrowd(After(calls, Remember(Decimal(n), Decimal(n), None, 2)))
    ensures var n := |calls|; |After(calls, Remember(Decimal(n), Decimal(n), None, 2))| == n + 1
  {
    var n, id := |calls|, Decimal(|calls|);
    var e := CrowdEntry(n);
    var next := calls + [Call(id, [e])];
    CrowdStays(calls, 2);
    CrowdIdsDiffer(calls, id);
    PutLast(calls, id, e);
    assert IsCrowd(next) by {
      hide Decimal;
    }
    CrowdStays(next, 2);
    RememberedIsPut(calls, id, e, 2);
    hide Decimal, Remembered, Pruned, Put, Added, EntriesOf, IsCrowd;
    assert After(calls, Remember(id, id, None, 2)) == next;
  }

  lemma {:induction false} PutLast(calls: seq<Call>, id: string, e: Entry)
    requires forall c :: c in calls ==> c.id != id
    ensures Put(calls, id, Added(EntriesOf(calls, id), e)) == calls + [Call(id, [e])]
  {
    FindFinds(calls, id);
    assert Keep([], Except(e.admission)) + [e] == [e];
    hide Find;
  }

  lemma {:induction false} CrowdGathers(ops: seq<Op>)
    requires Gathers(ops) && |ops| <= MAX_CALLS
    ensures IsCrowd(Run(ops).0) && |Run(ops).0| == |ops|
  {
    if ops != [] {
      CrowdGathers(ops[..|ops| - 1]);
      OneMoreInCrowd(Run(ops[..|ops| - 1]).0);
      hide After, IsCrowd, Decimal;
    }
  }

  /** Such a registry is reached: after 4,096 calls were remembered at time 2, a caller that read the clock at time
      1 and then waited for the lock remembers a new call in vain. */
  lemma {:induction false} CrowdLosesNewcomer(admission: string, deployment: Option<string>) returns (ops: seq<Op>)
    ensures var late := Run(ops + [Remember("late", admission, deployment, 1)]);
            !Holds(late.0, "late", Entry(admission, deployment, 1, 1 + TTL))
    ensures Gathers(ops) && |ops| == |Run(ops).0| == MAX_CALLS
  {
    hide Decimal, Remembered, Holds, Pruned, Run, Sound;
    ops := seq(MAX_CALLS, i requires 0 <= i < MAX_CALLS => Remember(Decimal(i), Decimal(i), None, 2));
    CrowdGathers(ops);
    RunsAreBounded(ops);
    var calls := Run(ops).0;
    CrowdStays(calls, 1);
    CrowdIdsDiffer(calls, "late");
    assert Crowded(calls, "late", 1) by {
      assert forall i :: 0 <= i < |calls| ==> LastRecorded(calls[i]) == 2;
    }
    RememberedUnlessCrowded(calls, Run(ops).1, "late", Entry(admission, deployment, 1, 1 + TTL), 1);
    RunNext(ops, Remember("late", admission, deployment, 1));
  }

  lemma {:induction false} RunNext(ops: seq<Op>, op: Op)
    ensures Run(ops + [op]).0 == After(Run(ops).0, op)
  {
    assert (ops + [op])[..|ops|] == ops;
    hide After;
  }
}
