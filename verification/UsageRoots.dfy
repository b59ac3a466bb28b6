/** When the admissions of one LiteLLM call have more than one root. */
module UsageRoots {
  import opened Text
  import opened UsageLineage

  ghost predicate TwoRoots(ledger: seq<Admission>) {
    exists i, j :: 0 <= i < j < |ledger| && ledger[i].parent.None? && ledger[j].parent.None?
  }

  function WorldAt(hooks: seq<Hook>, k: nat): World
    requires k <= |hooks|
  {
    Run(hooks[..k]).0
  }

  predicate Succeeds(hooks: seq<Hook>, k: nat)
    requires k < |hooks|
  {
    Step(WorldAt(hooks, k), hooks[k]).1
  }

  /** A hook after which, if it fails, no chain is left: it came without one, or got past every check of its own. */
  predicate Strips(hook: Hook) {
    hook.gate == Open || hook.carried == Neither
  }

  predicate FailsFrom(hooks: seq<Hook>, j: nat, n: nat)
    requires j <= n <= |hooks|
  {
    forall i :: j <= i < n ==> !Succeeds(hooks, i)
  }

  /** None of the first `n` hooks has succeeded, or none has since one that strips the chain. */
  ghost predicate Bare(hooks: seq<Hook>, n: nat)
    requires n <= |hooks|
  {
    FailsFrom(hooks, 0, n) || exists j :: 0 <= j < n && Strips(hooks[j]) && FailsFrom(hooks, j, n)
  }

  /** Hook `k` makes the authority admit a new attempt, whether or not its reply arrives. */
  predicate Founds(hooks: seq<Hook>, k: nat)
    requires k < |hooks|
  {
    Reaches(WorldAt(hooks, k), hooks[k]) && hooks[k].verdict != Refused && NewTo(WorldAt(hooks, k).ledger, hooks[k])
  }

  ghost predicate FoundsRoot(hooks: seq<Hook>, k: nat)
    requires k < |hooks|
  {
    Founds(hooks, k) && (hooks[k].carried == Neither || Bare(hooks, k))
  }

  lemma {:induction false} WorldAtNext(hooks: seq<Hook>, k: nat)
    requires k < |hooks|
    ensures WorldAt(hooks, k + 1) == Step(WorldAt(hooks, k), hooks[k]).0
    ensures Succeeds(hooks, k) == Step(WorldAt(hooks, k), hooks[k]).1
  {
    assert hooks[..k + 1][..k] == hooks[..k];
    hide Step;
  }

  lemma {:induction false} ChainAfterStep(w: World, hook: Hook)
    ensures Step(w, hook).0.chain.None? <==> !Step(w, hook).1 && (w.chain.None? || Strips(hook))
  {
    hide Admitted, ParentFor;
  }

  lemma {:induction false} BareNext(hooks: seq<Hook>, n: nat)
    requires n < |hooks|
    ensures Bare(hooks, n + 1) <==> !Succeeds(hooks, n) && (Bare(hooks, n) || Strips(hooks[n]))
  {
    hide Succeeds, Strips;
    assert forall j :: 0 <= j <= n ==> (FailsFrom(hooks, j, n + 1) <==> FailsFrom(hooks, j, n) && !Succeeds(hooks, n));
    assert FailsFrom(hooks, n, n);
  }

  lemma {:induction false} BareAtFirst(hooks: seq<Hook>)
    ensures WorldAt(hooks, 0).chain.None? && Bare(hooks, 0)
  {
    assert hooks[..0] == [];
    hide Step;
  }

  /** The outcomes of the hooks tell whether a chain is left. */
  lemma {:induction false} ChainIsLostIff(hooks: seq<Hook>, k: nat)
    requires k <= |hooks|
    ensures WorldAt(hooks, k).chain.None? <==> Bare(hooks, k)
  {
    hide *;
    if k == 0 {
      BareAtFirst(hooks);
    } else {
      ChainIsLostIff(hooks, k - 1);
      WorldAtNext(hooks, k - 1);
      ChainAfterStep(WorldAt(hooks, k - 1), hooks[k - 1]);
      BareNext(hooks, k - 1);
    }
  }

  /** One step admits an attempt that is new, as a root exactly when no chain arrives with it. */
  lemma {:induction false} LedgerAfterStep(w: World, hook: Hook)
    requires Lineage(w)
    ensures var after := Step(w, hook).0.ledger;
            if Reaches(w, hook) && hook.verdict != Refused && NewTo(w.ledger, hook)
            then |after| == |w.ledger| + 1 && after[..|w.ledger|] == w.ledger
              && after[|w.ledger|].source == hook.attempt
                 && (after[|w.ledger|].parent.None? <==> w.chain.None? || hook.carried == Neither)
            else after == w.ledger
  {
    FindFinds(w.ledger, hook.attempt);
    hide Find;
  }

  /** A new admission makes a second root exactly when it is a root and not the first admission. */
  lemma {:induction false} RootsAfterStep(before: seq<Admission>, after: seq<Admission>)
    requires Acyclic(after) && |after| == |before| + 1 && after[..|before|] == before
    ensures TwoRoots(after) <==> TwoRoots(before) || (before != [] && after[|before|].parent.None?)
  {
    assert forall i :: 0 <= i < |before| ==> after[i] == before[i];
    assert before != [] ==> after[0].parent.None?;
  }

  lemma {:induction false} RootsNext(hooks: seq<Hook>, n: nat)
    requires n < |hooks|
    ensures var before, after := WorldAt(hooks, n).ledger, WorldAt(hooks, n + 1).ledger;
            && (after != [] <==> before != [] || Founds(hooks, n))
            && (TwoRoots(after) <==> TwoRoots(before) || (before != [] && FoundsRoot(hooks, n)))
  {
    var w := WorldAt(hooks, n);
    WorldAtNext(hooks, n);
    LineageIsAcyclic(hooks[..n]);
    LineageIsAcyclic(hooks[..n + 1]);
    LedgerAfterStep(w, hooks[n]);
    ChainIsLostIff(hooks, n);
    if Founds(hooks, n) {
      RootsAfterStep(w.ledger, WorldAt(hooks, n + 1).ledger);
    }
    hide Bare, Step, Run, Reaches, TwoRoots, NewTo;
  }

  lemma {:induction false} RootsUpTo(hooks: seq<Hook>, n: nat)
    requires n <= |hooks|
    ensures WorldAt(hooks, n).ledger != [] <==> exists i :: 0 <= i < n && Founds(hooks, i)
    ensures TwoRoots(WorldAt(hooks, n).ledger)
            <==> exists i, k :: 0 <= i < k < n && Founds(hooks, i) && FoundsRoot(hooks, k)
  {
    if n > 0 {
      RootsUpTo(hooks, n - 1);
      RootsNext(hooks, n - 1);
    }
    hide WorldAt, TwoRoots, Founds, FoundsRoot;
  }

  /** Over every run of hooks a call has a second root exactly when some attempt is admitted, and later another one is
      that brings no chain: LiteLLM did not carry it, or no hook has succeeded since one that stripped it. */
  lemma {:induction false} TwoRootsIff(hooks: seq<Hook>)
    ensures TwoRoots(Run(hooks).0.ledger)
            <==> exists i, k :: 0 <= i < k < |hooks| && Founds(hooks, i) && FoundsRoot(hooks, k)
  {
    assert hooks[..|hooks|] == hooks;
    RootsUpTo(hooks, |hooks|);
    hide *;
  }

  /** Short of a second root, every admission goes back to the first. */
  lemma {:induction false} OneRootIff(hooks: seq<Hook>)
    ensures var ledger := Run(hooks).0.ledger;
            Acyclic(ledger) && (!TwoRoots(ledger) <==> forall i :: 0 <= i < |ledger| ==> RootOf(ledger, i) == 0)
  {
    LineageIsAcyclic(hooks);
    hide Run;
    RootsAgree(Run(hooks).0.ledger);
  }

  lemma {:induction false} RootsAgree(ledger: seq<Admission>)
    requires Acyclic(ledger)
    ensures !TwoRoots(ledger) <==> forall i :: 0 <= i < |ledger| ==> RootOf(ledger, i) == 0
  {
    assert ledger != [] ==> ledger[0].parent.None?;
    if TwoRoots(ledger) {
      var i, j :| 0 <= i < j < |ledger| && ledger[i].parent.None? && ledger[j].parent.None?;
      assert exists k :: 0 <= k < |ledger| && RootOf(ledger, k) != 0 by {
        assert RootOf(ledger, j) == j;
      }
    } else {
      forall i | 0 <= i < |ledger| ensures RootOf(ledger, i) == 0 {
        assert ledger[RootOf(ledger, i)].parent.None?;
      }
    }
  }

  predicate Accepts(hook: Hook) {
    hook.gate == Open && hook.verdict != Refused
  }

  lemma {:induction false} NewToAfterStep(w: World, hook: Hook, other: Hook)
    requires Lineage(w) && !hook.conversion
    ensures NewTo(Step(w, hook).0.ledger, other)
            <==> NewTo(w.ledger, other) && (Accepts(hook) ==> hook.attempt != other.attempt)
  {
    LedgerAfterStep(w, hook);
    var after := Step(w, hook).0.ledger;
    assert forall i :: 0 <= i < |w.ledger| && |after| > |w.ledger| && after[..|w.ledger|] == w.ledger
             ==> after[i] == w.ledger[i];
    hide Step;
  }

  lemma {:induction false} NewToIff(hooks: seq<Hook>, k: nat, other: Hook)
    requires k <= |hooks| && forall i :: 0 <= i < k ==> !hooks[i].conversion
    ensures NewTo(WorldAt(hooks, k).ledger, other)
            <==> forall i :: 0 <= i < k && Accepts(hooks[i]) ==> hooks[i].attempt != other.attempt
  {
    if k > 0 {
      NewToIff(hooks, k - 1, other);
      WorldAtNext(hooks, k - 1);
      LineageIsAcyclic(hooks[..k - 1]);
      NewToAfterStep(WorldAt(hooks, k - 1), hooks[k - 1], other);
      hide Step, Run, NewTo, Accepts, Lineage;
    }
  }

  /** Without conversions the hooks alone tell which of them founds an admission: the first of its attempt to be let
      through and accepted. */
  lemma {:induction false} FoundsIff(hooks: seq<Hook>, k: nat)
    requires k < |hooks| && forall i :: 0 <= i <= k ==> !hooks[i].conversion
    ensures Founds(hooks, k)
            <==> Accepts(hooks[k])
                 && forall i :: 0 <= i < k && Accepts(hooks[i]) ==> hooks[i].attempt != hooks[k].attempt
  {
    NewToIff(hooks, k, hooks[k]);
    LineageIsAcyclic(hooks[..k]);
    hide Step, Run;
  }

  lemma {:induction false} SteadyThenNew(hooks: seq<Hook>, hook: Hook)
    requires hooks != [] && Ordinary(hooks) && Steady(hooks)
    ensures var w := Run(hooks).0;
            && Run(hooks).1 && Lineage(w) && w.ledger != []
            && w.chain.Some? && w.chain.value.admission == |w.ledger| - 1
               && w.chain.value.source == hooks[|hooks| - 1].attempt
            && (NewTo(w.ledger, hook) <==> forall j :: 0 <= j < |hooks| ==> hooks[j].attempt != hook.attempt)
  {
    SteadyRunsAreOnePath(hooks);
    FirstsHold(hooks);
    NewOnLedger(Run(hooks).0.ledger, hooks, hook);
    hide Run, Firsts, Steady, NewTo, Lineage;
  }

  /** After a run without a failure, an attempt that comes back, or that the authority does not acknowledge, fails and
      strips the chain; whatever new attempt is accepted next is a second root. */
  lemma {:induction false} FailureSplitsTheLineage(hooks: seq<Hook>, failing: Hook, next: Hook)
    requires hooks != [] && Ordinary(hooks) && Steady(hooks) && Ordinary([failing, next])
    requires failing.gate == Open && failing.attempt != hooks[|hooks| - 1].attempt
    requires failing.verdict != Allowed || exists k :: 0 <= k < |hooks| && hooks[k].attempt == failing.attempt
    requires Accepts(next) && next.attempt != failing.attempt
    requires forall k :: 0 <= k < |hooks| ==> hooks[k].attempt != next.attempt
    ensures !Run(hooks + [failing]).1 && TwoRoots(Run(hooks + [failing] + [next]).0.ledger)
  {
    assert [failing, next][0] == failing && [failing, next][1] == next;
    SteadyThenNew(hooks, failing);
    SteadyThenNew(hooks, next);
    var w := Run(hooks).0;
    hide Run, Steady, Ordinary, NewTo;
    EntryIsDecided(w, failing);
    NewToAfterStep(w, failing, next);
    RunNext(hooks, failing);
    RunNext(hooks + [failing], next);
    StepKeepsLineage(w, failing);
    SecondRoot(w, failing, next);
    hide Step, Lineage, Accepts, TwoRoots;
  }

  lemma {:induction false} RunNext(hooks: seq<Hook>, hook: Hook)
    ensures Run(hooks + [hook]) == (Step(Run(hooks).0, hook).0, Run(hooks).1 && Step(Run(hooks).0, hook).1)
  {
    assert (hooks + [hook])[..|hooks|] == hooks;
    hide Step;
  }

  lemma {:induction false} SecondRoot(w: World, failing: Hook, next: Hook)
    requires Lineage(w) && w.ledger != [] && failing.gate == Open && !Step(w, failing).1 && !next.conversion
             && Accepts(next)
    requires NewTo(Step(w, failing).0.ledger, next) && w.ledger <= Step(w, failing).0.ledger
    ensures TwoRoots(Step(Step(w, failing).0, next).0.ledger)
  {
    var w' := Step(w, failing).0;
    ChainAfterStep(w, failing);
    StepKeepsLineage(w, failing);
    hide Step;
    LedgerAfterStep(w', next);
    var ledger := Step(w', next).0.ledger;
    assert ledger[..|w'.ledger|][0] == w'.ledger[0];
    assert ledger[0].parent.None? && ledger[|w'.ledger|].parent.None?;
  }

  function Visit(deployment: string, verdict: Verdict): Hook {
    Hook(Attempt(0, 0, Deployment(deployment, "provider")), "facts", false, Both, Open, verdict)
  }

  /** At one depth and ordinal: two deployments, back to the first, then a third. */
  lemma {:induction false} ReturningSplitsTheLineage(a: Hook, b: Hook, c: Hook)
    requires a == Visit("a", Allowed) && b == Visit("b", Allowed) && c == Visit("c", Allowed)
    ensures Ordinary([a, b, a, c]) && !Run([a, b, a]).1 && TwoRoots(Run([a, b, a, c]).0.ledger)
  {
    assert [a, b] + [a] == [a, b, a] && [a, b, a] + [c] == [a, b, a, c];
    assert [a, b][0] == a;
    assert SteadyAt([a, b], 0) && SteadyAt([a, b], 1);
    hide Firsts, Run;
    FailureSplitsTheLineage([a, b], a, c);
  }

  /** A refused attempt, and the fallback after it. */
  lemma {:induction false} RefusalSplitsTheLineage(a: Hook, b: Hook, c: Hook)
    requires a == Visit("a", Allowed) && b == Visit("b", Refused) && c == Visit("c", Allowed)
    ensures Ordinary([a, b, c]) && !Run([a, b]).1 && TwoRoots(Run([a, b, c]).0.ledger)
  {
    assert [a] + [b] == [a, b] && [a, b] + [c] == [a, b, c];
    assert SteadyAt([a], 0);
    hide Firsts, Run;
    FailureSplitsTheLineage([a], b, c);
  }
}
