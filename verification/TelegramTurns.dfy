/** Which updates a poll looks at, in which order, and which of them each of its turns answers. */
module TelegramTurns {
  import opened Text
  import opened TelegramGrouping
  import opened TelegramPolling

  // ----- The updates of a poll ------------------------------------------------------------------------------

  function Numbered(updates: seq<Update>, id: nat): seq<Update> {
    if updates == [] then []
    else
      var n := |updates| - 1;
      Numbered(updates[..n], id) + if updates[n].id == id then [updates[n]] else []
  }

  lemma {:induction false} NumberedSnoc(updates: seq<Update>, u: Update, id: nat)
    ensures Numbered(updates + [u], id) == Numbered(updates, id) + if u.id == id then [u] else []
  {
    assert (updates + [u])[..|updates|] == updates;
  }

  lemma {:induction false} InsertIsStable(sorted: seq<Update>, u: Update, id: nat)
    ensures Numbered(Insert(sorted, u), id) == Numbered(sorted + [u], id)
  {
    NumberedSnoc(sorted, u, id);
    if !(sorted == [] || sorted[|sorted| - 1].id <= u.id) {
      var init, last := sorted[..|sorted| - 1], sorted[|sorted| - 1];
      InsertIsStable(init, u, id);
      NumberedSnoc(init, u, id);
      NumberedSnoc(init, last, id);
      NumberedSnoc(Insert(init, u), last, id);
      assert sorted == init + [last];
      hide Numbered;
    }
  }

  /** Sorting keeps the order of updates with the same number. */
  lemma {:induction false} SortIsStable(updates: seq<Update>, id: nat)
    ensures Numbered(SortById(updates), id) == Numbered(updates, id)
  {
    if updates != [] {
      var n := |updates| - 1;
      SortIsStable(updates[..n], id);
      InsertIsStable(SortById(updates[..n]), updates[n], id);
      NumberedSnoc(SortById(updates[..n]), updates[n], id);
      hide Insert;
    }
  }

  /** The last update with its number. */
  ghost predicate IsLast(updates: seq<Update>, u: Update) {
    exists i :: 0 <= i < |updates| && updates[i] == u && forall j :: i < j < |updates| ==> updates[j].id != u.id
  }

  lemma {:induction false} LastIff(updates: seq<Update>, u: Update)
    ensures IsLast(updates, u)
            <==> var same := Numbered(updates, u.id); same != [] && same[|same| - 1] == u
    ensures Numbered(updates, u.id) == [] <==> forall i :: 0 <= i < |updates| ==> updates[i].id != u.id
  {
    if updates != [] {
      var n := |updates| - 1;
      LastIff(updates[..n], u);
      if updates[n].id != u.id {
        assert Numbered(updates, u.id) == Numbered(updates[..n], u.id);
        LastKept(updates, u);
      } else if updates[n] == u {
        assert IsLast(updates, u);
      }
    }
  }

  lemma {:induction false} LastKept(updates: seq<Update>, u: Update)
    requires updates != [] && updates[|updates| - 1].id != u.id
    ensures IsLast(updates, u) <==> IsLast(updates[..|updates| - 1], u)
  {
    var before := updates[..|updates| - 1];
    if i :| 0 <= i < |before| && before[i] == u && forall j :: i < j < |before| ==> before[j].id != u.id {
      assert updates[i] == u && forall j :: i < j < |before| ==> updates[j] == before[j];
    }
    if i :| 0 <= i < |updates| && updates[i] == u && forall j :: i < j < |updates| ==> updates[j].id != u.id {
      assert before[i] == u;
    }
  }

  predicate EachOnce(updates: seq<Update>) {
    forall i, j :: 0 <= i < j < |updates| ==> updates[i].id != updates[j].id
  }

  lemma {:induction false} SetEntryHolds(entries: seq<Update>, u: Update)
    requires EachOnce(entries)
    ensures EachOnce(SetEntry(entries, u))
    ensures forall v :: v in SetEntry(entries, u) <==> v == u || (v in entries && v.id != u.id)
  {
    if entries != [] {
      var init, last := entries[..|entries| - 1], entries[|entries| - 1];
      assert entries == init + [last];
      assert forall v :: v in init ==> v.id != last.id;
      if last.id != u.id {
        SetEntryHolds(init, u);
        var set' := SetEntry(init, u);
        assert forall i :: 0 <= i < |set'| ==> set'[i] in set';
      }
    }
  }

  lemma {:induction false} LastSnoc(updates: seq<Update>, u: Update)
    requires updates != []
    ensures var last := updates[|updates| - 1];
            IsLast(updates, u) <==> u == last || (u.id != last.id && IsLast(updates[..|updates| - 1], u))
  {
    if u.id != updates[|updates| - 1].id {
      LastKept(updates, u);
    }
  }

  /** A map by number holds, for each number once, the last update with it. */
  lemma {:induction false} ByIdHolds(updates: seq<Update>)
    ensures EachOnce(ById(updates))
    ensures forall u :: u in ById(updates) <==> IsLast(updates, u)
  {
    if updates != [] {
      var n := |updates| - 1;
      ByIdHolds(updates[..n]);
      SetEntryHolds(ById(updates[..n]), updates[n]);
      forall u ensures u in ById(updates) <==> IsLast(updates, u) {
        LastSnoc(updates, u);
      }
      hide IsLast, SetEntry;
    }
  }

  predicate Ascending(updates: seq<Update>) {
    forall i, j :: 0 <= i < j < |updates| ==> updates[i].id < updates[j].id
  }

  lemma {:induction false} SortOfEachOnce(updates: seq<Update>)
    requires EachOnce(updates)
    ensures Ascending(SortById(updates)) && forall u :: u in SortById(updates) <==> u in updates
  {
    var sorted := SortById(updates);
    SortSorts(updates);
    assert forall u :: u in sorted <==> u in multiset(sorted);
    forall i, j | 0 <= i < j < |sorted| ensures sorted[i].id < sorted[j].id {
      if sorted[i].id == sorted[j].id {
        TwoNumbered(sorted, i, j);
        SortIsStable(updates, sorted[i].id);
        OneNumbered(updates, sorted[i].id);
      }
    }
  }

  lemma {:induction false} TwoNumbered(updates: seq<Update>, i: nat, j: nat)
    requires i < j < |updates| && updates[i].id == updates[j].id
    ensures |Numbered(updates, updates[i].id)| >= 2
  {
    var n := |updates| - 1;
    if j < n {
      TwoNumbered(updates[..n], i, j);
    } else {
      SomeNumbered(updates[..n], i);
    }
  }

  lemma {:induction false} SomeNumbered(updates: seq<Update>, i: nat)
    requires i < |updates|
    ensures Numbered(updates, updates[i].id) != []
  {
    LastIff(updates, updates[i]);
  }

  lemma {:induction false} OneNumbered(updates: seq<Update>, id: nat)
    requires EachOnce(updates)
    ensures |Numbered(updates, id)| <= 1
  {
    if updates != [] {
      var n := |updates| - 1;
      OneNumbered(updates[..n], id);
      if updates[n].id == id {
        LastIff(updates[..n], updates[n]);
      }
    }
  }

  /** The updates that a poll groups: those fetched, by number, equal numbers as they came; if it waits for companions,
      which it does when one of those fetched is no command, each number once, with its update from the second fetch if
      that has it, and else the last of the first. */
  lemma {:induction false} ConsideredTells(poll: Poll)
    ensures var again, updates := poll.composes && (exists u :: u in poll.fetched && !Immediate(u)), Considered(poll);
            if again
            then Ascending(updates)
                 && forall u :: u in updates <==> IsLast(poll.followUps, u)
                                                  || (u.id !in Ids(poll.followUps) && IsLast(poll.fetched, u))
            else Sorted(updates) && forall id :: Numbered(updates, id) == Numbered(poll.fetched, id)
  {
    hide *;
    var sorted := SortById(poll.fetched);
    SortSorts(poll.fetched);
    ConsideredIs(poll, sorted);
    if !(poll.composes && exists u :: u in poll.fetched && !Immediate(u)) {
      forall id { SortIsStable(poll.fetched, id); }
    } else {
      var all := sorted + poll.followUps;
      ByIdHolds(all);
      SortOfEachOnce(ById(all));
      forall u
        ensures IsLast(all, u)
                <==> IsLast(poll.followUps, u) || (u.id !in Ids(poll.followUps) && IsLast(poll.fetched, u))
      {
        LastOfBoth(sorted, poll.followUps, u);
        SortIsStable(poll.fetched, u.id);
        LastIff(sorted, u);
        LastIff(poll.fetched, u);
      }
    }
  }

  lemma {:induction false} ConsideredIs(poll: Poll, sorted: seq<Update>)
    requires sorted == SortById(poll.fetched) && multiset(sorted) == multiset(poll.fetched)
    ensures Considered(poll) == if poll.composes && exists u :: u in poll.fetched && !Immediate(u)
                                then SortById(ById(sorted + poll.followUps)) else sorted
  {
    assert forall u :: u in sorted <==> u in multiset(sorted);
    assert forall u :: u in poll.fetched <==> u in multiset(poll.fetched);
    hide Immediate, SortById, ById;
  }

  lemma {:induction false} LastOfBoth(a: seq<Update>, b: seq<Update>, u: Update)
    ensures IsLast(a + b, u) <==> IsLast(b, u) || (u.id !in Ids(b) && IsLast(a, u))
  {
    if b == [] {
      assert a + b == a;
    } else {
      var n := |b| - 1;
      assert (a + b)[..|a + b| - 1] == a + b[..n] && b == b[..n] + [b[n]];
      LastOfBoth(a, b[..n], u);
      LastSnoc(a + b, u);
      LastSnoc(b, u);
      IdsSnoc(b[..n], b[n]);
      hide IsLast, Ids;
    }
  }

  // ----- Its turns ------------------------------------------------------------------------------------------

  predicate Climbing(ids: seq<nat>) {
    forall i, j :: 0 <= i < j < |ids| ==> ids[i] < ids[j]
  }

  lemma {:induction false} UnseenClimb(updates: seq<Update>, reserved: set<nat>)
    requires Sorted(updates)
    ensures Climbing(IdsOf(Unseen(updates, reserved)))
  {
    if updates != [] {
      var n := |updates| - 1;
      var before := Unseen(updates[..n], reserved);
      UnseenClimb(updates[..n], reserved);
      UnseenIds(updates[..n], reserved);
      if updates[n].id !in reserved + Ids(updates[..n]) {
        ClimbsOn(updates, IdsOf(before));
        assert IdsOf(before + [updates[n]]) == IdsOf(before) + [updates[n].id];
      } else {
        assert before + [] == before;
      }
      hide Climbing, IdsOf, Ids;
    }
  }

  lemma {:induction false} ClimbsOn(updates: seq<Update>, ids: seq<nat>)
    requires Sorted(updates) && updates != [] && Climbing(ids)
    requires updates[|updates| - 1].id !in Ids(updates[..|updates| - 1])
    requires forall id :: id in ids ==> id in Ids(updates[..|updates| - 1])
    ensures Climbing(ids + [updates[|updates| - 1].id])
  {
    var n := |updates| - 1;
    forall i | 0 <= i < |ids| ensures ids[i] < updates[n].id {
      assert ids[i] in ids;
      var k :| 0 <= k < n && updates[..n][k].id == ids[i];
      assert updates[k].id <= updates[n].id;
    }
  }

  /** The gates let every message through. */
  ghost predicate Open(visits: nat -> Visit) {
    forall k, updates :: visits(k).admits(updates)
  }

  /** With open gates a group has a turn exactly when it has updates that nobody had reserved before it; the turn
      answers exactly those, each once and in order of their numbers. */
  lemma {:induction false} TurnTells(groups: seq<seq<Update>>, i: nat, reserved: set<nat>, visits: nat -> Visit)
    requires i < |groups| && Sorted(groups[i]) && Open(visits)
    ensures var before := reserved + Ids(Flatten(groups[..i]));
            var turn := TurnOf(groups[i], before, visits(i));
            && (turn == [] <==> Ids(groups[i]) <= before)
            && (turn != [] ==> |turn| == 1 && Climbing(turn[0])
                               && forall id :: id in turn[0] <==> id in Ids(groups[i]) && id !in before)
  {
    var before := reserved + Ids(Flatten(groups[..i]));
    var unseen := Unseen(groups[i], before);
    UnseenIds(groups[i], before);
    UnseenClimb(groups[i], before);
    hide Ids, Unseen, Flatten;
    if unseen != [] {
      assert IdsOf(unseen)[0] in IdsOf(unseen);
    }
  }

  /** A poll whose calls all succeed, with open gates, answers every update that nobody had reserved before. */
  lemma {:induction false} EveryUpdateIsAnswered(groups: seq<seq<Update>>, reserved: set<nat>, visits: nat -> Visit)
    requires Open(visits)
    ensures forall id :: id in Flatten(TurnsOf(groups, reserved, visits))
              <==> id in Ids(Flatten(groups)) && id !in reserved
  {
    if groups != [] {
      var n := |groups| - 1;
      var before := reserved + Ids(Flatten(groups[..n]));
      EveryUpdateIsAnswered(groups[..n], reserved, visits);
      UnseenIds(groups[n], before);
      IdsAppend(Flatten(groups[..n]), groups[n]);
      FlattenAppend(TurnsOf(groups[..n], reserved, visits), TurnOf(groups[n], before, visits(n)));
      FlattenTurn(groups[n], before, visits(n));
      hide Ids, Unseen, IdsOf;
    }
  }

  lemma {:induction false} FlattenTurn(group: seq<Update>, reserved: set<nat>, visit: Visit)
    requires forall updates :: visit.admits(updates)
    ensures Flatten(TurnOf(group, reserved, visit)) == IdsOf(Unseen(group, reserved))
  {
    var unseen := Unseen(group, reserved);
    FlattenSnoc([], IdsOf(unseen));
    assert [] + [IdsOf(unseen)] == [IdsOf(unseen)] && [] + IdsOf(unseen) == IdsOf(unseen);
    assert Flatten<nat>([]) == [];
    assert unseen == [] ==> IdsOf(unseen) == [];
  }

  predicate Considers(poll: Poll) {
    !poll.throwsEarly && poll.sameConnection
  }

  function AnsweredBy(turns: seq<seq<nat>>): set<nat> {
    set id | id in Flatten(turns)
  }

  /** One poll: if it succeeds, with open gates, the updates it considered are behind the offset, and it reserved and
      answered those of them that nobody had reserved before. */
  method RunOpenPoll(poller: TelegramPoller, poll: Poll) returns (ok: bool)
    requires poller.Valid() && Open(poll.visits) && Considers(poll)
    modifies poller
    ensures poller.Valid() && old(poller.turns) <= poller.turns && old(poller.offset) <= poller.offset
    ensures ok ==> poller.reserved == old(poller.reserved) + Ids(Considered(poll))
    ensures ok ==> AnsweredBy(poller.turns)
                   == AnsweredBy(old(poller.turns)) + (Ids(Considered(poll)) - old(poller.reserved))
    ensures ok ==> forall id :: id in Ids(Considered(poll)) ==> id < poller.offset
  {
    hide Ids, Considered, Flatten, TurnsOf, IsGrouping;
    ghost var turns, reserved := poller.turns, poller.reserved;
    ghost var groups;
    ok, groups := poller.PollConnection(poll);
    if ok {
      GroupsHoldAll(groups, Considered(poll));
      EveryUpdateIsAnswered(groups, reserved, poll.visits);
      FlattenAppend(turns, TurnsOf(groups, reserved, poll.visits));
    }
  }

  function ConsideredIn(polls: seq<Poll>): set<nat> {
    if polls == [] then {} else ConsideredIn(polls[..|polls| - 1]) + Ids(Considered(polls[|polls| - 1]))
  }

  /** Over any run of polls that all succeed, with open gates: the updates that they considered are behind the offset,
      and the turns answer exactly those of them that had not been reserved before the run. */
  method RunOpenPolls(poller: TelegramPoller, polls: seq<Poll>) returns (ok: bool)
    requires poller.Valid() && forall k :: 0 <= k < |polls| ==> Open(polls[k].visits) && Considers(polls[k])
    modifies poller
    ensures poller.Valid() && old(poller.turns) <= poller.turns
    ensures ok ==> forall id :: id in ConsideredIn(polls) ==> id < poller.offset
    ensures ok ==> AnsweredBy(poller.turns)
                   == AnsweredBy(old(poller.turns)) + (ConsideredIn(polls) - old(poller.reserved))
  {
    ok := true;
    hide Ids, Considered, AnsweredBy;
    assert polls[..0] == [];
    for i := 0 to |polls|
      invariant poller.Valid() && old(poller.turns) <= poller.turns
      invariant ok ==> forall id :: id in ConsideredIn(polls[..i]) ==> id < poller.offset
      invariant ok ==> poller.reserved == old(poller.reserved) + ConsideredIn(polls[..i])
      invariant ok ==> AnsweredBy(poller.turns)
                       == AnsweredBy(old(poller.turns)) + (ConsideredIn(polls[..i]) - old(poller.reserved))
    {
      assert polls[..i + 1][..i] == polls[..i];
      var done := RunOpenPoll(poller, polls[i]);
      ok := ok && done;
    }
    assert polls[..|polls|] == polls;
  }

  lemma {:induction false} GroupsHoldAll(groups: seq<seq<Update>>, updates: seq<Update>)
    requires IsGrouping(groups, updates)
    ensures Flatten(groups) == updates
  {
    hide AllGrown, Greedy;
  }
}
