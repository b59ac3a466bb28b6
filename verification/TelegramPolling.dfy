/** Polling one Telegram connection: fetch, wait for companions, group, reserve, run at most one turn per update, and
    move the stored offset. Any call may fail before or after taking effect, and a crash is a poll that stops there. */
module TelegramPolling {
  import opened Text
  import opened TelegramGrouping

  datatype Fate = Ack | Lost | Unsent

  function Ids(updates: seq<Update>): set<nat> {
    set i | 0 <= i < |updates| :: updates[i].id
  }

  predicate Sorted(updates: seq<Update>) {
    forall i, j :: 0 <= i < j < |updates| ==> updates[i].id <= updates[j].id
  }

  /** A stable sort by identifier. */
  function SortById(updates: seq<Update>): seq<Update> {
    if updates == [] then [] else Insert(SortById(updates[..|updates| - 1]), updates[|updates| - 1])
  }

  function Insert(sorted: seq<Update>, u: Update): seq<Update> {
    if sorted == [] || sorted[|sorted| - 1].id <= u.id then sorted + [u]
    else Insert(sorted[..|sorted| - 1], u) + [sorted[|sorted| - 1]]
  }

  lemma {:induction false} InsertSorts(sorted: seq<Update>, u: Update)
    requires Sorted(sorted)
    ensures Sorted(Insert(sorted, u)) && multiset(Insert(sorted, u)) == multiset(sorted) + multiset{u}
  {
    if !(sorted == [] || sorted[|sorted| - 1].id <= u.id) {
      var init, last := sorted[..|sorted| - 1], sorted[|sorted| - 1];
      InsertSorts(init, u);
      assert sorted == init + [last];
      BelowLast(Insert(init, u), init, u, last);
    }
  }

  lemma {:induction false} BelowLast(inserted: seq<Update>, init: seq<Update>, u: Update, last: Update)
    requires Sorted(inserted) && multiset(inserted) == multiset(init) + multiset{u}
    requires u.id <= last.id && forall i :: 0 <= i < |init| ==> init[i].id <= last.id
    ensures Sorted(inserted + [last])
  {
    forall i | 0 <= i < |inserted| ensures inserted[i].id <= last.id {
      assert inserted[i] in multiset(inserted);
    }
  }

  lemma {:induction false} SortSorts(updates: seq<Update>)
    ensures Sorted(SortById(updates)) && multiset(SortById(updates)) == multiset(updates)
  {
    if updates != [] {
      var n := |updates| - 1;
      SortSorts(updates[..n]);
      InsertSorts(SortById(updates[..n]), updates[n]);
      assert updates == updates[..n] + [updates[n]];
    }
  }

  lemma {:induction false} SortKeepsIds(updates: seq<Update>)
    ensures Ids(SortById(updates)) == Ids(updates)
  {
    SortSorts(updates);
    var sorted := SortById(updates);
    forall id | id in Ids(sorted) ensures id in Ids(updates) {
      var i :| 0 <= i < |sorted| && sorted[i].id == id;
      assert sorted[i] in multiset(updates);
    }
    forall id | id in Ids(updates) ensures id in Ids(sorted) {
      var i :| 0 <= i < |updates| && updates[i].id == id;
      assert updates[i] in multiset(sorted);
    }
  }

  /** The entries of a map keyed by identifier, in the order their keys were first set; a later value replaces an
      earlier one in place. */
  function ById(updates: seq<Update>): seq<Update> {
    if updates == [] then [] else SetEntry(ById(updates[..|updates| - 1]), updates[|updates| - 1])
  }

  function SetEntry(entries: seq<Update>, u: Update): seq<Update> {
    if entries == [] then [u]
    else
      var last := |entries| - 1;
      if entries[last].id == u.id then entries[..last] + [u] else SetEntry(entries[..last], u) + [entries[last]]
  }

  lemma {:induction false} SetEntryIds(entries: seq<Update>, u: Update)
    ensures Ids(SetEntry(entries, u)) == Ids(entries) + {u.id}
  {
    if entries == [] {
      assert [u][0] == u;
    } else {
      var last := |entries| - 1;
      assert entries == entries[..last] + [entries[last]];
      IdsSnoc(entries[..last], entries[last]);
      IdsSnoc(entries[..last], u);
      SetEntryIds(entries[..last], u);
      IdsSnoc(SetEntry(entries[..last], u), entries[last]);
    }
  }

  lemma {:induction false} ByIdKeepsIds(updates: seq<Update>)
    ensures Ids(ById(updates)) == Ids(updates)
  {
    if updates != [] {
      var n := |updates| - 1;
      ByIdKeepsIds(updates[..n]);
      assert updates == updates[..n] + [updates[n]];
      IdsSnoc(updates[..n], updates[n]);
      SetEntryIds(ById(updates[..n]), updates[n]);
    }
  }

  lemma {:induction false} IdsSnoc(updates: seq<Update>, u: Update)
    ensures Ids(updates + [u]) == Ids(updates) + {u.id}
  {
    var r := updates + [u];
    assert r[|updates|] == u && forall i :: 0 <= i < |updates| ==> r[i] == updates[i];
  }

  lemma {:induction false} IdsAppend(a: seq<Update>, b: seq<Update>)
    ensures Ids(a + b) == Ids(a) + Ids(b)
  {
    var r := a + b;
    assert forall i :: 0 <= i < |a| ==> r[i] == a[i];
    assert forall i :: 0 <= i < |b| ==> r[|a| + i] == b[i];
  }

  /** The candidates nobody has reserved yet, each once. */
  function Unseen(candidates: seq<Update>, reserved: set<nat>): seq<Update> {
    if candidates == [] then []
    else
      var n := |candidates| - 1;
      Unseen(candidates[..n], reserved) + if candidates[n].id in reserved + Ids(candidates[..n]) then []
        else [candidates[n]]
  }

  predicate Distinct(ids: seq<nat>) {
    forall i, j :: 0 <= i < j < |ids| ==> ids[i] != ids[j]
  }

  function IdsOf(updates: seq<Update>): seq<nat> {
    seq(|updates|, i requires 0 <= i < |updates| => updates[i].id)
  }

  lemma {:induction false} NextUnseen(candidates: seq<Update>, i: nat, reserved: set<nat>)
    requires i < |candidates|
    ensures var u := candidates[i]; var before := reserved + Ids(candidates[..i]);
            && Ids(candidates[..i + 1]) == Ids(candidates[..i]) + {u.id} && Ids(candidates[..i + 1]) <= Ids(candidates)
            && Ids(candidates[..i]) <= Ids(candidates)
            && Unseen(candidates[..i + 1], reserved) == Unseen(candidates[..i], reserved) + if u.id in before then []
               else [u]
  {
    assert candidates[..i + 1] == candidates[..i] + [candidates[i]];
    assert candidates[..i + 1][..i] == candidates[..i];
    IdsSnoc(candidates[..i], candidates[i]);
    IdsSplit(candidates, i);
    IdsSplit(candidates, i + 1);
  }

  lemma {:induction false} UnseenIds(candidates: seq<Update>, reserved: set<nat>)
    ensures Distinct(IdsOf(Unseen(candidates, reserved)))
    ensures forall id :: id in IdsOf(Unseen(candidates, reserved)) <==> id in Ids(candidates) && id !in reserved
  {
    if candidates != [] {
      var n := |candidates| - 1;
      var before, u := Unseen(candidates[..n], reserved), candidates[n];
      UnseenIds(candidates[..n], reserved);
      assert candidates == candidates[..n] + [u];
      IdsSnoc(candidates[..n], u);
      if u.id !in reserved + Ids(candidates[..n]) {
        assert IdsOf(before + [u]) == IdsOf(before) + [u.id];
      } else {
        assert before + [] == before;
      }
    }
  }

  /** What a call to `processUpdates` meets: the fate of each reservation, whether the gates before the turn let the
      message through, and whether anything throws before or after the turn. */
  datatype Visit = Visit(reserve: nat -> Fate, admits: seq<Update> -> bool, throwsBefore: bool, throwsAfter: bool)

  /** What one poll meets: whether anything throws before grouping, what the two fetches return, whether the connection
      is still the same, each group's visit and the fate of each offset write. */
  datatype Poll = Poll(fetched: seq<Update>, followUps: seq<Update>, composes: bool, throwsEarly: bool,
                       sameConnection: bool,
                       visits: nat -> Visit, advance: nat -> Fate)

  /** The turn of a group's updates that nobody had reserved before, if there are any and the gates let them through. */
  function TurnOf(group: seq<Update>, reserved: set<nat>, visit: Visit): seq<seq<nat>> {
    var unseen := Unseen(group, reserved);
    if unseen != [] && visit.admits(unseen) then [IdsOf(unseen)] else []
  }

  /** The turns of a poll whose calls all succeed: each group's updates that nobody had reserved before, if the gates
      let them through. */
  function TurnsOf(groups: seq<seq<Update>>, reserved: set<nat>, visits: nat -> Visit): seq<seq<nat>> {
    if groups == [] then []
    else
      var n := |groups| - 1;
      TurnsOf(groups[..n], reserved, visits) + TurnOf(groups[n], reserved + Ids(Flatten(groups[..n])), visits(n))
  }

  class TelegramPoller {
    var offset: nat
    var reserved: set<nat>
    var turns: seq<seq<nat>>

    /** Each agent turn is recorded with the updates it answers: no update is in two turns, or twice in one. */
    ghost predicate Valid()
      reads this
    {
      Distinct(Flatten(turns)) && forall id :: id in Flatten(turns) ==> id in reserved
    }

    constructor (offset: nat)
      ensures Valid() && this.offset == offset && reserved == {} && turns == []
    {
      this.offset, reserved, turns := offset, {}, [];
    }

    method ReserveChannelUpdate(id: nat, fate: Fate) returns (ok: bool, inserted: bool)
      modifies this`reserved
      ensures reserved == if fate == Unsent then old(reserved) else old(reserved) + {id}
      ensures ok == (fate == Ack) && inserted == (id !in old(reserved))
    {
      inserted := id !in reserved;
      if fate != Unsent {
        reserved := reserved + {id};
      }
      ok := fate == Ack;
    }

    method AdvanceTelegramUpdateOffset(value: nat, fate: Fate) returns (ok: bool)
      modifies this`offset
      ensures offset == if fate == Unsent || value < old(offset) then old(offset) else value
      ensures ok == (fate == Ack)
    {
      if fate != Unsent && offset < value {
        offset := value;
      }
      ok := fate == Ack;
    }

    /** Reserve the candidates one by one; `unseen` are those this call inserted. */
    method ReserveAll(candidates: seq<Update>, fate: nat -> Fate) returns (ok: bool, unseen: seq<Update>)
      modifies this`reserved
      ensures old(reserved) <= reserved <= old(reserved) + Ids(candidates)
      ensures ok ==> unseen == Unseen(candidates, old(reserved)) && reserved == old(reserved) + Ids(candidates)
    {
      unseen := [];
      ghost var before := reserved;
      for i := 0 to |candidates|
        invariant unseen == Unseen(candidates[..i], before) && reserved == before + Ids(candidates[..i])
      {
        var done, inserted := ReserveChannelUpdate(candidates[i].id, fate(i));
        NextUnseen(candidates, i, before);
        if !done {
          return false, unseen;
        }
        if inserted {
          unseen := unseen + [candidates[i]];
        }
      }
      assert candidates[..|candidates|] == candidates;
      ok := true;
    }

    /** A normal return has reserved every candidate; the turn answers exactly those nobody had reserved before. */
    method ProcessUpdates(candidates: seq<Update>, visit: Visit) returns (ok: bool)
      requires Valid()
      modifies this`reserved, this`turns
      ensures Valid() && old(reserved) <= reserved <= old(reserved) + Ids(candidates)
      ensures ok ==> Ids(candidates) <= reserved
      ensures var unseen := Unseen(candidates, old(reserved));
              && (turns == old(turns)
                  || (turns == old(turns) + [IdsOf(unseen)] && unseen != [] && visit.admits(unseen)))
              && (ok && unseen != [] && visit.admits(unseen) ==> turns == old(turns) + [IdsOf(unseen)])
    {
      hide Flatten, Distinct, Unseen, Ids, IdsOf;
      var updates;
      ok, updates := ReserveAll(candidates, visit.reserve);
      if !ok || updates == [] {
        return;
      }
      if visit.throwsBefore {
        return false;
      }
      if visit.admits(updates) {
        TurnIsNew(turns, candidates, old(reserved));
        turns := turns + [IdsOf(updates)];
      }
      ok := !visit.throwsAfter;
    }

    /** The offset only grows, and it only passes updates of this poll that have been reserved. The turns are those of
        the updates' one grouping, each of updates nobody had reserved before, all of them if the poll succeeds. */
    method PollConnection(poll: Poll) returns (ok: bool, ghost groups: seq<seq<Update>>)
      requires Valid()
      modifies this
      ensures Valid() && old(offset) <= offset && old(reserved) <= reserved <= old(reserved) + Ids(Considered(poll))
      ensures old(turns) <= turns
      ensures poll.throwsEarly || !poll.sameConnection
              ==> offset == old(offset) && reserved == old(reserved) && turns == old(turns)
      ensures offset == old(offset) || offset - 1 in Ids(Considered(poll))
      ensures offset > old(offset) ==> forall id :: id in Ids(Considered(poll)) && id < offset ==> id in reserved
      ensures ok && poll.sameConnection
              ==> Ids(Considered(poll)) <= reserved && forall id :: id in Ids(Considered(poll)) ==> id < offset
      ensures !poll.throwsEarly && poll.sameConnection
              ==> IsGrouping(groups, Considered(poll))
                  && turns <= old(turns) + TurnsOf(groups, old(reserved), poll.visits)
                  && (ok ==> turns == old(turns) + TurnsOf(groups, old(reserved), poll.visits))
    {
      groups := [];
      ConsideredIds(poll);
      hide Ids, Sorted, SortById, ById, Composed, IsGrouping, OneMessage, Flatten, Valid;
      if poll.throwsEarly {
        return false, groups;
      }
      var updates := SortById(poll.fetched);
      if poll.composes && Composed(updates) {
        updates := SortById(ById(updates + poll.followUps));
      }
      assert updates == Considered(poll);
      hide Considered;
      if !poll.sameConnection {
        return true, groups;
      }
      var grouped := GroupTelegramUpdates(updates);
      groups := grouped;
      GroupsAreMessages(grouped, updates);
      ok := ProcessGroups(grouped, updates, poll);
    }

    /** One group, the updates from `n` on: process it, then move the offset past it. */
    method ProcessGroup(group: seq<Update>, visit: Visit, fate: Fate, ghost updates: seq<Update>, ghost n: nat,
                        ghost start: nat,
                        ghost reserved0: set<nat>)
      returns (ok: bool)
      requires Valid() && Sorted(updates) && Progress(updates, n, start, offset, reserved0, reserved)
      requires group != [] && n + |group| <= |updates| && updates[n..n + |group|] == group
      requires group[|group| - 1] == updates[n + |group| - 1]
      modifies this
      ensures Valid() && old(turns) <= turns
      ensures var turn := TurnOf(group, old(reserved), visit);
              (turns == old(turns) || turns == old(turns) + turn) && (ok ==> turns == old(turns) + turn)
      ensures ok ==> reserved == old(reserved) + Ids(group)
      ensures ok ==> Progress(updates, n + |group|, start, offset, reserved0, reserved)
      ensures Stopped(updates, start, offset, reserved0, reserved)
    {
      hide Progress, Ids, Unseen, Sorted, IdsOf;
      ghost var reserved1, m := reserved, n + |group|;
      ok := ProcessUpdates(group, visit);
      GroupTried(updates, n, start, offset, reserved0, reserved1, m, reserved);
      StoppedAt(updates, n, start, offset, reserved0, reserved);
      hide Valid, Stopped;
      if ok {
        ghost var offset1 := offset;
        ok := AdvanceTelegramUpdateOffset(group[|group| - 1].id + 1, fate);
        GroupDone(updates, n, start, offset1, reserved0, reserved1, m, offset, reserved);
        StoppedAt(updates, if offset == offset1 then n else m, start, offset, reserved0, reserved);
      }
    }

    method ProcessGroups(groups: seq<seq<Update>>, updates: seq<Update>, poll: Poll) returns (ok: bool)
      requires Valid() && Flatten(groups) == updates && Sorted(updates) && forall g :: g in groups ==> g != []
      modifies this
      ensures Valid() && old(turns) <= turns && Stopped(updates, old(offset), offset, old(reserved), reserved)
      ensures turns <= old(turns) + TurnsOf(groups, old(reserved), poll.visits)
      ensures ok ==> turns == old(turns) + TurnsOf(groups, old(reserved), poll.visits)
      ensures ok ==> Ids(updates) <= reserved && forall id :: id in Ids(updates) ==> id < offset
    {
      hide Valid, Progress, Stopped, Ids, Sorted, Flatten, TurnsOf, TurnOf;
      ghost var n: nat := 0;
      ghost var start, reserved0 := offset, reserved;
      NothingDone(groups, updates, offset, reserved);
      for i := 0 to |groups|
        invariant Valid() && old(turns) <= turns && n <= |updates| && updates[..n] == Flatten(groups[..i])
        invariant Progress(updates, n, start, offset, reserved0, reserved)
        invariant turns == old(turns) + TurnsOf(groups[..i], reserved0, poll.visits)
        invariant reserved == reserved0 + Ids(updates[..n])
      {
        assert groups[i] in groups;
        GroupIsSlice(groups, updates, i);
        TurnsNext(groups, i, updates[..n], reserved0, poll.visits, old(turns));
        var done := ProcessGroup(groups[i], poll.visits(i), poll.advance(i), updates, n, start, reserved0);
        if !done {
          return false;
        }
        n := n + |groups[i]|;
        assert updates[..n] == Flatten(groups[..i]) + groups[i];
        IdsAppend(Flatten(groups[..i]), groups[i]);
      }
      assert groups[..|groups|] == groups;
      AllDone(groups, updates, n, start, offset, reserved0, reserved);
      ok := true;
    }
  }

  lemma {:induction false} NothingDone(groups: seq<seq<Update>>, updates: seq<Update>, offset: nat, reserved: set<nat>)
    ensures Progress(updates, 0, offset, offset, reserved, reserved) && updates[..0] == Flatten(groups[..0])
    ensures Ids(updates[..0]) == {} && forall visits :: TurnsOf(groups[..0], reserved, visits) == []
  {
  }

  lemma {:induction false} TurnsNext(groups: seq<seq<Update>>, i: nat, before: seq<Update>, reserved: set<nat>,
                                     visits: nat -> Visit, turns: seq<seq<nat>>)
    requires i < |groups| && before == Flatten(groups[..i])
    ensures TurnsOf(groups[..i + 1], reserved, visits)
            == TurnsOf(groups[..i], reserved, visits) + TurnOf(groups[i], reserved + Ids(before), visits(i))
    ensures turns + TurnsOf(groups[..i + 1], reserved, visits)
            == turns + TurnsOf(groups[..i], reserved, visits) + TurnOf(groups[i], reserved + Ids(before), visits(i))
    ensures TurnsOf(groups[..i], reserved, visits) <= TurnsOf(groups[..i + 1], reserved, visits)
            <= TurnsOf(groups, reserved, visits)
    ensures turns + TurnsOf(groups[..i + 1], reserved, visits) <= turns + TurnsOf(groups, reserved, visits)
  {
    hide *;
    TurnsSnoc(groups, i, reserved, visits);
    TurnsGrow(groups, i + 1, reserved, visits);
    var sofar, turn := TurnsOf(groups[..i], reserved, visits), TurnOf(groups[i], reserved + Ids(before), visits(i));
    Together(turns, sofar, turn, TurnsOf(groups, reserved, visits));
  }

  lemma {:induction false} TurnsSnoc(groups: seq<seq<Update>>, i: nat, reserved: set<nat>, visits: nat -> Visit)
    requires i < |groups|
    ensures TurnsOf(groups[..i + 1], reserved, visits)
            == TurnsOf(groups[..i], reserved, visits)
               + TurnOf(groups[i], reserved + Ids(Flatten(groups[..i])), visits(i))
  {
    assert groups[..i + 1][..i] == groups[..i];
    hide TurnOf, Ids, Flatten;
  }

  lemma {:induction false} Together(turns: seq<seq<nat>>, a: seq<seq<nat>>, b: seq<seq<nat>>, all: seq<seq<nat>>)
    requires a + b <= all
    ensures turns + (a + b) == turns + a + b && a <= a + b && turns + (a + b) <= turns + all
  {
  }

  lemma {:induction false} TurnsGrow(groups: seq<seq<Update>>, i: nat, reserved: set<nat>, visits: nat -> Visit)
    requires i <= |groups|
    ensures TurnsOf(groups[..i], reserved, visits) <= TurnsOf(groups, reserved, visits)
  {
    if i < |groups| {
      var n := |groups| - 1;
      TurnsGrow(groups[..n], i, reserved, visits);
      assert groups[..n][..i] == groups[..i];
    } else {
      assert groups[..i] == groups;
    }
  }

  lemma {:induction false} AllDone(groups: seq<seq<Update>>, updates: seq<Update>, n: nat, start: nat, offset: nat,
                                   reserved0: set<nat>, reserved: set<nat>)
    requires Flatten(groups) == updates && n <= |updates| && updates[..n] == Flatten(groups[..|groups|])
    requires Sorted(updates) && Progress(updates, n, start, offset, reserved0, reserved)
    ensures Stopped(updates, start, offset, reserved0, reserved)
    ensures Ids(updates) <= reserved && forall id :: id in Ids(updates) ==> id < offset
  {
    assert groups[..|groups|] == groups && updates[..n] == updates;
    StoppedAt(updates, n, start, offset, reserved0, reserved);
    hide Ids, Progress, Stopped, Flatten;
  }

  predicate Composed(updates: seq<Update>) {
    exists u :: u in updates && !Immediate(u)
  }

  /** The updates a poll groups. */
  function Considered(poll: Poll): seq<Update> {
    var updates := SortById(poll.fetched);
    if poll.composes && Composed(updates) then SortById(ById(updates + poll.followUps)) else updates
  }

  lemma {:induction false} ConsideredIds(poll: Poll)
    ensures Ids(Considered(poll)) <= Ids(poll.fetched) + Ids(poll.followUps)
    ensures Sorted(Considered(poll))
  {
    var updates := SortById(poll.fetched);
    SortSorts(poll.fetched);
    SortKeepsIds(poll.fetched);
    hide Ids, Sorted, SortById, ById, Composed;
    if poll.composes && Composed(updates) {
      var all := updates + poll.followUps;
      SortSorts(ById(all));
      SortKeepsIds(ById(all));
      ByIdKeepsIds(all);
      IdsAppend(updates, poll.followUps);
    }
  }

  lemma {:induction false} IdsSplit(updates: seq<Update>, n: nat)
    requires n <= |updates|
    ensures Ids(updates[..n]) <= Ids(updates)
  {
    assert forall i :: 0 <= i < n ==> updates[..n][i] == updates[i];
  }

  lemma {:induction false} TurnIsNew(turns: seq<seq<nat>>, candidates: seq<Update>, reserved: set<nat>)
    requires Distinct(Flatten(turns)) && forall id :: id in Flatten(turns) ==> id in reserved
    ensures Distinct(Flatten(turns + [IdsOf(Unseen(candidates, reserved))]))
    ensures forall id :: id in Flatten(turns + [IdsOf(Unseen(candidates, reserved))])
              ==> id in reserved + Ids(candidates)
  {
    UnseenIds(candidates, reserved);
    var ids := IdsOf(Unseen(candidates, reserved));
    FlattenSnoc(turns, ids);
    hide Unseen, IdsOf, Ids, Flatten;
    DistinctAppend(Flatten(turns), ids);
  }

  lemma {:induction false} DistinctAppend(a: seq<nat>, b: seq<nat>)
    requires Distinct(a) && Distinct(b) && forall x :: x in b ==> x !in a
    ensures Distinct(a + b)
  {
    forall i, j | 0 <= i < j < |a + b| ensures (a + b)[i] != (a + b)[j] {
      if i < |a| <= j {
        assert (a + b)[j] in b && (a + b)[i] in a;
      }
    }
  }

  lemma {:induction false} GroupIsSlice(groups: seq<seq<Update>>, updates: seq<Update>, i: nat)
    requires i < |groups| && Flatten(groups) == updates && groups[i] != []
    ensures var n := |Flatten(groups[..i])|; var m := n + |groups[i]|;
            m <= |updates| && updates[..n] == Flatten(groups[..i]) && updates[..m] == Flatten(groups[..i + 1])
            && updates[n..m] == groups[i] && groups[i][|groups[i]| - 1] == updates[m - 1]
  {
    assert groups == groups[..i + 1] + groups[i + 1..];
    FlattenAppend(groups[..i + 1], groups[i + 1..]);
    assert groups[..i + 1][..i] == groups[..i];
  }

  /** Where the offset stands after the first `n` updates. */
  predicate Reached(updates: seq<Update>, n: nat, start: nat, offset: nat) {
    && n <= |updates| && start <= offset
    && (n == 0 ==> offset == start)
    && (n > 0 ==> updates[n - 1].id < offset && (offset == start || offset == updates[n - 1].id + 1))
  }

  ghost predicate Progress(updates: seq<Update>, n: nat, start: nat, offset: nat, reserved0: set<nat>,
                           reserved: set<nat>) {
    && Reached(updates, n, start, offset)
    && reserved0 <= reserved <= reserved0 + Ids(updates) && Ids(updates[..n]) <= reserved
  }

  lemma {:induction false} GroupTried(updates: seq<Update>, n: nat, start: nat, offset: nat, reserved0: set<nat>,
                                      reserved: set<nat>, m: nat, reserved': set<nat>)
    requires n < m <= |updates| && Progress(updates, n, start, offset, reserved0, reserved)
    ensures reserved <= reserved' <= reserved + Ids(updates[n..m])
            ==> Progress(updates, n, start, offset, reserved0, reserved')
  {
    assert updates[n..m] == updates[..m][n..];
    assert forall i :: 0 <= i < m - n ==> updates[n..m][i] == updates[n + i];
  }

  lemma {:induction false} GroupDone(updates: seq<Update>, n: nat, start: nat, offset: nat, reserved0: set<nat>,
                                     reserved: set<nat>, m: nat, offset': nat, reserved': set<nat>)
    requires n < m <= |updates| && Sorted(updates) && Progress(updates, n, start, offset, reserved0, reserved)
    requires reserved <= reserved' <= reserved + Ids(updates[n..m]) && Ids(updates[n..m]) <= reserved'
    ensures offset' == (if updates[m - 1].id + 1 < offset then offset else updates[m - 1].id + 1)
            ==> Progress(updates, m, start, offset', reserved0, reserved')
  {
    GroupTried(updates, n, start, offset, reserved0, reserved, m, reserved');
    IdsAppend(updates[..n], updates[n..m]);
    assert updates[..n] + updates[n..m] == updates[..m];
    hide Ids;
  }

  /** Wherever a poll stops, its offset has passed only updates of its own, all of them reserved. */
  ghost predicate Stopped(updates: seq<Update>, start: nat, offset: nat, reserved0: set<nat>, reserved: set<nat>) {
    && start <= offset && (offset == start || offset - 1 in Ids(updates))
    && reserved0 <= reserved <= reserved0 + Ids(updates)
    && (offset > start ==> forall id :: id in Ids(updates) && id < offset ==> id in reserved)
  }

  lemma {:induction false} StoppedAt(updates: seq<Update>, n: nat, start: nat, offset: nat, reserved0: set<nat>,
                                     reserved: set<nat>)
    requires Sorted(updates) && Progress(updates, n, start, offset, reserved0, reserved)
    ensures Stopped(updates, start, offset, reserved0, reserved)
    ensures n == |updates| ==> Ids(updates) <= reserved && forall id :: id in Ids(updates) ==> id < offset
  {
    if n == |updates| {
      assert updates[..n] == updates;
    }
    forall id | id in Ids(updates) && offset > start && id < offset ensures id in reserved {
      var i :| 0 <= i < |updates| && updates[i].id == id;
      if i < n {
        assert updates[..n][i].id in Ids(updates[..n]);
      } else {
        assert updates[n - 1].id == id;
        assert updates[..n][n - 1].id in Ids(updates[..n]);
      }
    }
  }

  /** Over any run of polls, crashes and restarts, no update is ever answered by two turns, and the stored offset never
      goes back. */
  method RunPolls(poller: TelegramPoller, polls: seq<Poll>)
    requires poller.Valid()
    modifies poller
    ensures poller.Valid() && poller.offset >= old(poller.offset) && old(poller.turns) <= poller.turns
    ensures AnsweredOnce(poller.turns)
  {
    for k := 0 to |polls|
      invariant poller.Valid() && poller.offset >= old(poller.offset) && old(poller.turns) <= poller.turns
    {
      var ok, groups := poller.PollConnection(polls[k]);
    }
    OnePlaceEach(poller.turns);
  }

  /** Every identifier has one place among the turns. */
  predicate AnsweredOnce(turns: seq<seq<nat>>) {
    forall t, i, t', j | 0 <= t < |turns| && 0 <= t' < |turns| && 0 <= i < |turns[t]| && 0 <= j < |turns[t']| ::
      turns[t][i] == turns[t'][j] ==> t == t' && i == j
  }

  lemma {:induction false} OnePlaceEach(turns: seq<seq<nat>>)
    requires Distinct(Flatten(turns))
    ensures AnsweredOnce(turns)
    decreases |turns|
  {
    if turns != [] {
      var n := |turns| - 1;
      var init, last := Flatten(turns[..n]), turns[n];
      assert Flatten(turns) == init + last;
      assert forall k :: 0 <= k < |init| ==> Flatten(turns)[k] == init[k];
      assert forall k :: 0 <= k < |last| ==> Flatten(turns)[|init| + k] == last[k];
      assert Distinct(init);
      OnePlaceEach(turns[..n]);
      FlattenHolds(turns[..n]);
      assert forall t :: 0 <= t < n ==> turns[..n][t] == turns[t];
      assert forall t, i :: 0 <= t < n && 0 <= i < |turns[t]| ==> turns[t][i] in init;
    }
  }

  lemma {:induction false} FlattenHolds(parts: seq<seq<nat>>)
    ensures forall t, i :: 0 <= t < |parts| && 0 <= i < |parts[t]| ==> parts[t][i] in Flatten(parts)
    decreases |parts|
  {
    if parts != [] {
      var n := |parts| - 1;
      FlattenHolds(parts[..n]);
      forall t, i | 0 <= t < |parts| && 0 <= i < |parts[t]| ensures parts[t][i] in Flatten(parts) {
        if t < n {
          assert parts[..n][t][i] in Flatten(parts[..n]);
        }
      }
    }
  }
}
