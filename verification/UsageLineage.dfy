/** The lineage of usage admissions within one LiteLLM call: each concrete attempt is admitted once and descends
    from the attempt before it, through a chain that only the callback can sign. */
module UsageLineage {
  import opened Text

  /** A deployment identifier and the provider it runs on. */
  datatype Deployment = Deployment(id: string, provider: string)

  /** A concrete attempt; its source identifier is an injective digest of these and of the call. */
  datatype Attempt = Attempt(fallbackDepth: nat, retryOrdinal: nat, deployment: Deployment)

  /** The content of a verified chain. */
  datatype Chain = Chain(admission: nat, source: Attempt, parent: Option<nat>)

  /** The part of a usage state that re-entry inspects. */
  datatype UsageState = UsageState(admission: nat, provider: string)

  /** What the request's context remembers of its last admission. */
  datatype Context = Context(state: UsageState, chain: Chain, deployment: Deployment)

  /** The authority's ledger; an admission's identifier is its position. `facts` are the other facts of an admission
      that its fingerprint covers: task binding, kind, alias, routing and economic bounds. */
  datatype Admission = Admission(source: Attempt, parent: Option<nat>, facts: string)

  /** What the next hook can see: the metadata the callback left behind, the request's context and the ledger. */
  datatype World = World(chain: Option<Chain>, state: Option<UsageState>, context: Option<Context>,
                         ledger: seq<Admission>)

  const Start := World(None, None, None, [])

  /** What LiteLLM carries over to a hook's metadata; a tampered chain does not verify and reads as absent. */
  datatype Carried = Both | ChainOnly | Neither

  /** Where the hook fails by itself: not at all, before it looks for a re-entry, or after that but before it reads the
      lineage. */
  datatype Gate = Open | Broken | Misrouted

  /** The authority's answer to an attempt it has not seen; a lost reply is lost for any attempt. */
  datatype Verdict = Allowed | Refused | LostReply

  /** One entry into the deployment hook; `conversion` marks the internal Responses conversion. */
  datatype Hook = Hook(attempt: Attempt, facts: string, conversion: bool, carried: Carried, gate: Gate,
                       verdict: Verdict)

  function Arriving(w: World, hook: Hook): World {
    match hook.carried
    case Both => w
    case ChainOnly => w.(state := None)
    case Neither => w.(chain := None, state := None)
  }

  predicate ReentersByMetadata(w: World, hook: Hook) {
    && w.chain.Some? && w.state.Some?
    && (w.chain.value.source == hook.attempt || hook.conversion)
    && w.chain.value.admission == w.state.value.admission
    && w.state.value.provider == hook.attempt.deployment.provider
  }

  predicate ReentersByContext(w: World, hook: Hook) {
    && hook.conversion && w.context.Some?
    && w.context.value.chain.admission == w.context.value.state.admission
    && w.context.value.deployment == hook.attempt.deployment
  }

  /** The same attempt keeps the parent it was first admitted with; another one descends from the last admission. */
  function ParentFor(chain: Option<Chain>, attempt: Attempt): Option<nat> {
    if chain.None? then None
    else if chain.value.source == attempt then chain.value.parent
    else Some(chain.value.admission)
  }

  function Find(ledger: seq<Admission>, source: Attempt): (k: nat)
    ensures k <= |ledger| && (k < |ledger| ==> ledger[k].source == source)
  {
    if ledger == [] then 0
    else
      var n := |ledger| - 1;
      var k := Find(ledger[..n], source);
      if k < n then k else if ledger[n].source == source then n else |ledger|
  }

  /** The authority: an attempt already admitted with the same facts is a duplicate, with other facts a conflict. */
  function Admitted(ledger: seq<Admission>, source: Attempt, parent: Option<nat>, facts: string, verdict: Verdict):
    (seq<Admission>, Option<nat>)
  {
    var k := Find(ledger, source);
    if k < |ledger|
      then (ledger, if ledger[k] == Admission(source, parent, facts) && verdict != LostReply then Some(k) else None)
    else if verdict == Refused then (ledger, None)
    else (ledger + [Admission(source, parent, facts)], if verdict == Allowed then Some(|ledger|) else None)
  }

  /** A hook that gets as far as the authority. */
  predicate Reaches(w: World, hook: Hook) {
    hook.gate == Open && !ReentersByMetadata(Arriving(w, hook), hook) && !ReentersByContext(Arriving(w, hook), hook)
  }

  /** One entry into the hook: the world after it, and whether the request may go on. */
  function Step(before: World, hook: Hook): (World, bool) {
    var w := Arriving(before, hook);
    if hook.gate == Broken then (w, false)
    else if ReentersByMetadata(w, hook) then (w, true)
    else if ReentersByContext(w, hook)
      then (w.(chain := Some(w.context.value.chain), state := Some(w.context.value.state)), true)
    else if hook.gate == Misrouted then (w, false)
    else Asked(w, hook)
  }

  /** The authority is asked after the lineage has been read and stripped. */
  function Asked(w: World, hook: Hook): (World, bool) {
    var parent := ParentFor(w.chain, hook.attempt);
    var (ledger, id) := Admitted(w.ledger, hook.attempt, parent, hook.facts, hook.verdict);
    if id.None? then (World(None, None, w.context, ledger), false)
    else (Holding(w, Chain(id.value, hook.attempt, parent), ledger), true)
  }

  /** The world once an admission is signed into the metadata and the request context. */
  function Holding(w: World, chain: Chain, ledger: seq<Admission>): World {
    var state := UsageState(chain.admission, chain.source.deployment.provider);
    World(Some(chain), Some(state), Some(Context(state, chain, chain.source.deployment)), ledger)
  }

  class UsageLedger {
    var admissions: seq<Admission>

    constructor ()
      ensures admissions == []
    {
      admissions := [];
    }

    method Admit(source: Attempt, parent: Option<nat>, facts: string, verdict: Verdict) returns (id: Option<nat>)
      modifies this
      ensures (admissions, id) == Admitted(old(admissions), source, parent, facts, verdict)
    {
      var admission := Admission(source, parent, facts);
      var k := Find(admissions, source);
      if k < |admissions| {
        return if admissions[k] == admission && verdict != LostReply then Some(k) else None;
      }
      if verdict == Refused {
        return None;
      }
      admissions := admissions + [admission];
      id := if verdict == Allowed then Some(|admissions| - 1) else None;
    }
  }

  /** The callback's side of a call: the metadata it owns and the request's context. */
  class UsageCallback {
    var chain: Option<Chain>
    var state: Option<UsageState>
    var context: Option<Context>
    const ledger: UsageLedger

    function View(): World
      reads this, ledger
    {
      World(chain, state, context, ledger.admissions)
    }

    constructor (ledger: UsageLedger)
      ensures this.ledger == ledger && View() == World(None, None, None, ledger.admissions)
    {
      chain, state, context, this.ledger := None, None, None, ledger;
    }

    method VerifiedUsageReentry(hook: Hook) returns (reentered: bool)
      modifies this
      ensures reentered <==> ReentersByMetadata(old(View()), hook) || ReentersByContext(old(View()), hook)
      ensures View() == if ReentersByMetadata(old(View()), hook) || !reentered then old(View())
                        else old(View()).(chain := Some(old(context).value.chain),
                                          state := Some(old(context).value.state))
    {
      if chain.Some? && state.Some? && (chain.value.source == hook.attempt || hook.conversion)
         && chain.value.admission == state.value.admission && state.value.provider == hook.attempt.deployment.provider
      {
        return true;
      }
      if hook.conversion && context.Some? && context.value.chain.admission == context.value.state.admission
         && context.value.deployment == hook.attempt.deployment
      {
        chain, state := Some(context.value.chain), Some(context.value.state);
        return true;
      }
      reentered := false;
    }

    /** Read the lineage out of the metadata and remove everything the callback owns from it. */
    method RequestUsageContextAndStripReserved(attempt: Attempt) returns (parent: Option<nat>)
      modifies this
      ensures parent == ParentFor(old(chain), attempt) && View() == old(View()).(chain := None, state := None)
    {
      parent := None;
      if chain.Some? {
        parent := if chain.value.source == attempt then chain.value.parent else Some(chain.value.admission);
      }
      chain, state := None, None;
    }

    method PreCallDeploymentHook(hook: Hook) returns (ok: bool)
      modifies this, ledger
      ensures (View(), ok) == Step(old(View()), hook)
    {
      if hook.carried != Both { state := None; }
      if hook.carried == Neither { chain := None; }
      if hook.gate == Broken {
        return false;
      }
      var reentered := VerifiedUsageReentry(hook);
      if reentered {
        return true;
      }
      if hook.gate == Misrouted {
        return false;
      }
      var parent := RequestUsageContextAndStripReserved(hook.attempt);
      var id := ledger.Admit(hook.attempt, parent, hook.facts, hook.verdict);
      if id.None? {
        return false;
      }
      state := Some(UsageState(id.value, hook.attempt.deployment.provider));
      chain := Some(Chain(id.value, hook.attempt, parent));
      context := Some(Context(state.value, chain.value, hook.attempt.deployment));
      ok := true;
    }
  }

  /** The world after a run of hooks, and whether all of them succeeded. */
  function Run(hooks: seq<Hook>): (World, bool) {
    if hooks == [] then (Start, true)
    else
      var (w, ok) := Run(hooks[..|hooks| - 1]);
      var (w', ok') := Step(w, hooks[|hooks| - 1]);
      (w', ok && ok')
  }

  ghost predicate Recorded(ledger: seq<Admission>, chain: Chain) {
    chain.admission < |ledger| && ledger[chain.admission].source == chain.source
      && ledger[chain.admission].parent == chain.parent
  }

  /** Following parents goes to ever earlier admissions. */
  predicate Acyclic(ledger: seq<Admission>) {
    forall i :: 0 <= i < |ledger| && ledger[i].parent.Some? ==> ledger[i].parent.value < i
  }

  /** Every admission descends from an earlier one, no attempt is admitted twice, and every chain in circulation quotes
      the ledger. */
  ghost predicate Lineage(w: World) {
    && Acyclic(w.ledger)
    && (forall i, j :: 0 <= i < j < |w.ledger| ==> w.ledger[i].source != w.ledger[j].source)
    && (w.chain.Some? ==> Recorded(w.ledger, w.chain.value))
    && (w.context.Some? ==> Recorded(w.ledger, w.context.value.chain) && Consistent(w.context.value))
  }

  /** A remembered context is of one admission, on one deployment. */
  predicate Consistent(c: Context) {
    && c.state.admission == c.chain.admission && c.deployment == c.chain.source.deployment
    && c.state.provider == c.deployment.provider
  }

  lemma {:induction false} FindFinds(ledger: seq<Admission>, source: Attempt)
    ensures Find(ledger, source) == |ledger| <==> forall i :: 0 <= i < |ledger| ==> ledger[i].source != source
  {
    if ledger != [] {
      FindFinds(ledger[..|ledger| - 1], source);
    }
  }

  lemma {:induction false} AdmittedIsRecorded(ledger: seq<Admission>, source: Attempt, parent: Option<nat>,
                                              facts: string, verdict: Verdict)
    ensures var (after, id) := Admitted(ledger, source, parent, facts, verdict);
            && (after == ledger || (after == ledger + [Admission(source, parent, facts)]
                                    && forall i :: 0 <= i < |ledger| ==> ledger[i].source != source))
            && (id.Some? ==> Recorded(after, Chain(id.value, source, parent)))
  {
    FindFinds(ledger, source);
  }

  lemma {:induction false} ParentIsEarlier(w: World, attempt: Attempt)
    requires Lineage(w)
    ensures ParentFor(w.chain, attempt).Some? ==> ParentFor(w.chain, attempt).value < |w.ledger|
  {
  }

  lemma {:induction false} AdmissionKeepsLineage(w: World, hook: Hook)
    requires Lineage(w)
    ensures w.ledger <= Asked(w, hook).0.ledger && Lineage(Asked(w, hook).0)
  {
    var parent := ParentFor(w.chain, hook.attempt);
    AdmittedIsRecorded(w.ledger, hook.attempt, parent, hook.facts, hook.verdict);
    ParentIsEarlier(w, hook.attempt);
    hide Admitted, ParentFor;
    var (ledger, id) := Admitted(w.ledger, hook.attempt, parent, hook.facts, hook.verdict);
    LedgerGrows(w, ledger);
    if id.Some? {
      HoldingKeepsLineage(w, Chain(id.value, hook.attempt, parent), ledger);
    }
    hide Lineage, Recorded;
  }

  /** The ledger gains an admission of a new attempt with an earlier parent. */
  lemma {:induction false} LedgerGrows(w: World, ledger: seq<Admission>)
    requires Lineage(w)
    requires ledger == w.ledger || (|ledger| == |w.ledger| + 1 && ledger[..|w.ledger|] == w.ledger
                                    && (forall i :: 0 <= i < |w.ledger|
                                          ==> w.ledger[i].source != ledger[|w.ledger|].source)
                                    && (ledger[|w.ledger|].parent.Some?
                                        ==> ledger[|w.ledger|].parent.value < |w.ledger|))
    ensures Lineage(World(None, None, w.context, ledger)) && w.ledger <= ledger
  {
    assert forall i :: 0 <= i < |w.ledger| ==> ledger[i] == w.ledger[i];
  }

  lemma {:induction false} HoldingKeepsLineage(w: World, chain: Chain, ledger: seq<Admission>)
    requires Lineage(World(None, None, w.context, ledger)) && Recorded(ledger, chain)
    ensures Lineage(Holding(w, chain, ledger))
  {
  }

  lemma {:induction false} StepKeepsLineage(w: World, hook: Hook)
    requires Lineage(w)
    ensures Lineage(Step(w, hook).0) && w.ledger <= Step(w, hook).0.ledger
  {
    var arriving := Arriving(w, hook);
    ArrivingKeepsLineage(w, hook);
    hide Asked, Arriving, Lineage;
    AdmissionKeepsLineage(arriving, hook);
    ContextKeepsLineage(arriving);
  }

  lemma {:induction false} ArrivingKeepsLineage(w: World, hook: Hook)
    requires Lineage(w)
    ensures Lineage(Arriving(w, hook)) && Arriving(w, hook).ledger == w.ledger
  {
  }

  lemma {:induction false} ContextKeepsLineage(w: World)
    requires Lineage(w)
    ensures w.context.Some? ==> Lineage(w.(chain := Some(w.context.value.chain), state := Some(w.context.value.state)))
  {
  }

  /** Over every run, whatever is carried, converted or refused, the parent relation is acyclic: following parents goes
      to ever earlier admissions. */
  lemma {:induction false} LineageIsAcyclic(hooks: seq<Hook>)
    ensures Lineage(Run(hooks).0)
  {
    if hooks != [] {
      LineageIsAcyclic(hooks[..|hooks| - 1]);
      StepKeepsLineage(Run(hooks[..|hooks| - 1]).0, hooks[|hooks| - 1]);
    }
  }

  /** The root of an admission: the end of its parents. */
  function RootOf(ledger: seq<Admission>, i: nat): (r: nat)
    requires i < |ledger| && Acyclic(ledger)
    ensures r < |ledger| && ledger[r].parent == None
  {
    if ledger[i].parent.None? then i else RootOf(ledger, ledger[i].parent.value)
  }

  /** A hook that gets past its own checks, and whose authority answers if it is asked. */
  predicate Answered(hook: Hook) {
    hook.gate == Open && hook.verdict == Allowed
  }

  /** Re-entering the attempt that holds the chain makes no second admission and keeps its original parent, whether or
      not its state was carried along. */
  lemma {:induction false} SameAttemptReenters(w: World, hook: Hook)
    requires Lineage(w) && w.chain.Some? && w.chain.value.source == hook.attempt
    requires hook.carried != Neither && !hook.conversion && Answered(hook)
    requires hook.facts == w.ledger[w.chain.value.admission].facts
    ensures var (after, ok) := Step(w, hook); ok && after.ledger == w.ledger && after.chain == w.chain
  {
    FindFinds(w.ledger, hook.attempt);
  }

  /** A converted request on the deployment of the request's last admission reuses an admission already made. */
  lemma {:induction false} ConversionReenters(w: World, hook: Hook)
    requires Lineage(w) && hook.conversion && w.context.Some? && w.context.value.deployment == hook.attempt.deployment
    requires hook.gate != Broken
    ensures var (after, ok) := Step(w, hook);
            ok && after.ledger == w.ledger && after.chain in {w.chain, Some(w.context.value.chain)}
  {
  }

  /** A new attempt that carries the chain descends from the last distinct one; without a chain it starts a new root. */
  lemma {:induction false} NewAttemptDescends(w: World, hook: Hook)
    requires Lineage(w) && !hook.conversion && Answered(hook)
    requires forall i :: 0 <= i < |w.ledger| ==> w.ledger[i].source != hook.attempt
    ensures var (after, ok) := Step(w, hook); var chain := Arriving(w, hook).chain;
            && ok && after == Holding(w, Chain(|w.ledger|, hook.attempt, after.ledger[|w.ledger|].parent), after.ledger)
            && after.ledger
               == w.ledger + [Admission(hook.attempt, if chain.None? then None
                                        else Some(chain.value.admission), hook.facts)]
  {
    FindFinds(w.ledger, hook.attempt);
  }

  /** A run of ordinary hooks that carry the chain along. */
  predicate Ordinary(hooks: seq<Hook>) {
    forall k :: 0 <= k < |hooks| ==> !hooks[k].conversion && hooks[k].carried != Neither
  }

  /** The hooks that first met each attempt, as long as no attempt comes back after another one took over. */
  function Firsts(hooks: seq<Hook>): seq<Hook> {
    if hooks == [] then []
    else
      var n := |hooks| - 1;
      Firsts(hooks[..n]) + if n > 0 && hooks[n - 1].attempt == hooks[n].attempt then [] else [hooks[n]]
  }

  /** Hook `k` either enters a new attempt, answered, or re-enters the attempt of the hook before it: with its state
      carried it only has to get past the first checks, without it it is asked again with the same facts. */
  predicate SteadyAt(hooks: seq<Hook>, k: nat)
    requires k < |hooks|
  {
    if k > 0 && hooks[k - 1].attempt == hooks[k].attempt then Resumes(Firsts(hooks[..k]), hooks[k])
    else Answered(hooks[k]) && forall j :: 0 <= j < k ==> hooks[j].attempt != hooks[k].attempt
  }

  predicate Resumes(firsts: seq<Hook>, hook: Hook) {
    if hook.carried == Both then hook.gate != Broken
    else hook.gate == Open && hook.verdict != LostReply && firsts != [] && hook.facts == firsts[|firsts| - 1].facts
  }

  predicate Steady(hooks: seq<Hook>) {
    forall k :: 0 <= k < |hooks| ==> SteadyAt(hooks, k)
  }

  /** One root, and each admission the child of the one before it. */
  function Path(firsts: seq<Hook>): seq<Admission> {
    seq(|firsts|, i requires 0 <= i < |firsts| => Admission(firsts[i].attempt, if i == 0 then None
                                                            else Some(i - 1), firsts[i].facts))
  }

  lemma {:induction false} FirstsHold(hooks: seq<Hook>)
    ensures forall h :: h in Firsts(hooks) ==> h in hooks
    ensures forall k :: 0 <= k < |hooks|
              ==> exists i :: 0 <= i < |Firsts(hooks)| && Firsts(hooks)[i].attempt == hooks[k].attempt
    ensures hooks != []
            ==> Firsts(hooks) != [] && Firsts(hooks)[|Firsts(hooks)| - 1].attempt == hooks[|hooks| - 1].attempt
  {
    if hooks != [] {
      var n := |hooks| - 1;
      var before := hooks[..n];
      FirstsHold(before);
      assert hooks == before + [hooks[n]];
      forall k | 0 <= k < |hooks|
        ensures exists i :: 0 <= i < |Firsts(hooks)| && Firsts(hooks)[i].attempt == hooks[k].attempt {
        if k < n {
          var i :| 0 <= i < |Firsts(before)| && Firsts(before)[i].attempt == before[k].attempt;
          assert Firsts(hooks)[i] == Firsts(before)[i];
        } else {
          assert Firsts(hooks)[|Firsts(hooks)| - 1].attempt == hooks[n].attempt;
        }
      }
    }
  }

  lemma {:induction false} SteadySnoc(hooks: seq<Hook>)
    requires hooks != []
    ensures Steady(hooks) <==> Steady(hooks[..|hooks| - 1]) && SteadyAt(hooks, |hooks| - 1)
  {
    var n := |hooks| - 1;
    forall k | 0 <= k < n ensures SteadyAt(hooks, k) <==> SteadyAt(hooks[..n], k) {
      assert hooks[..n][..k] == hooks[..k];
    }
  }

  /** What a run that has succeeded so far leaves: a path, held by its last attempt. */
  ghost predicate OnPath(w: World, hooks: seq<Hook>) {
    var firsts := Firsts(hooks);
    && Lineage(w) && w.ledger == Path(firsts)
    && if hooks == [] then w.chain.None?
       else && firsts != [] && firsts[|firsts| - 1].attempt == hooks[|hooks| - 1].attempt
            && w.chain == Some(Chain(|firsts| - 1, firsts[|firsts| - 1].attempt, w.ledger[|firsts| - 1].parent))
            && (w.state.Some?
                ==> w.state.value == UsageState(|firsts| - 1, firsts[|firsts| - 1].attempt.deployment.provider))
            && w.state.Some?
  }

  /** A run of ordinary hooks succeeds throughout exactly when it is steady, and then its lineage is one path, each
      distinct attempt the child of the attempt before it. */
  lemma {:induction false} SteadyRunsAreOnePath(hooks: seq<Hook>)
    requires Ordinary(hooks)
    ensures Run(hooks).1 <==> Steady(hooks)
    ensures Run(hooks).1 ==> OnPath(Run(hooks).0, hooks)
  {
    if hooks != [] {
      var n := |hooks| - 1;
      var before := hooks[..n];
      SteadyRunsAreOnePath(before);
      SteadySnoc(hooks);
      if Run(before).1 {
        NextOnPath(Run(before).0, hooks);
      }
      hide OnPath, SteadyAt, Step;
    }
  }

  lemma {:induction false} NextOnPath(w: World, hooks: seq<Hook>)
    requires hooks != [] && Ordinary(hooks) && OnPath(w, hooks[..|hooks| - 1])
    ensures var (after, ok) := Step(w, hooks[|hooks| - 1]);
            && (ok <==> SteadyAt(hooks, |hooks| - 1))
            && (ok ==> OnPath(after, hooks))
  {
    var n := |hooks| - 1;
    assert OnPath(w, hooks[..n]) ==> Lineage(w);
    StepKeepsLineage(w, hooks[n]);
    FirstsNext(hooks);
    hide Lineage, Path, Step, Firsts;
    FirstsHold(hooks[..n]);
    if n > 0 && hooks[n - 1].attempt == hooks[n].attempt {
      Resumed(w, hooks[..n], hooks[n]);
    } else {
      Entered(w, hooks[..n], hooks[n]);
      assert forall j :: 0 <= j < n ==> hooks[..n][j] == hooks[j];
    }
  }

  lemma {:induction false} FirstsNext(hooks: seq<Hook>)
    requires hooks != []
    ensures var n := |hooks| - 1;
            Firsts(hooks) == if n > 0 && hooks[n - 1].attempt == hooks[n].attempt then Firsts(hooks[..n])
                             else Firsts(hooks[..n]) + [hooks[n]]
  {
  }

  /** The attempt that holds the chain. */
  lemma {:induction false} Resumed(w: World, before: seq<Hook>, hook: Hook)
    requires before != [] && OnPath(w, before) && before[|before| - 1].attempt == hook.attempt
    requires !hook.conversion && hook.carried != Neither
    ensures var (after, ok) := Step(w, hook);
            && (ok <==> Resumes(Firsts(before), hook))
            && (ok ==> after.ledger == w.ledger && after.chain == w.chain && after.state == w.state)
  {
    FindFinds(w.ledger, hook.attempt);
    hide Firsts;
  }

  /** Any other attempt: admitted exactly when it is new and answered. */
  lemma {:induction false} Entered(w: World, before: seq<Hook>, hook: Hook)
    requires OnPath(w, before) && (before != [] ==> before[|before| - 1].attempt != hook.attempt)
    requires !hook.conversion && hook.carried != Neither
    requires forall k :: 0 <= k < |before|
               ==> exists i :: 0 <= i < |Firsts(before)| && Firsts(before)[i].attempt == before[k].attempt
    requires forall h :: h in Firsts(before) ==> h in before
    ensures var (after, ok) := Step(w, hook); var firsts := Firsts(before);
            && (ok <==> Answered(hook) && forall j :: 0 <= j < |before| ==> before[j].attempt != hook.attempt)
            && (ok ==> after.ledger == Path(firsts + [hook])
                       && after.chain == Some(Chain(|firsts|, hook.attempt, after.ledger[|firsts|].parent))
                       && after.state == Some(UsageState(|firsts|, hook.attempt.deployment.provider)))
  {
    var firsts := Firsts(before);
    assert |w.ledger| == |firsts|
           && (w.chain.Some? ==> w.chain.value.admission == |firsts| - 1 && w.chain.value.source != hook.attempt) by {
      hide Step, Firsts;
    }
    NewOnLedger(w.ledger, before, hook);
    EntryIsDecided(w, hook);
    if Answered(hook) && NewTo(w.ledger, hook) {
      NewAttemptDescends(w, hook);
      PathGrows(firsts, hook);
      hide Step, Firsts, Lineage, Path;
    }
    hide Step, Firsts, Lineage, Path, NewTo;
  }

  predicate NewTo(ledger: seq<Admission>, hook: Hook) {
    forall i :: 0 <= i < |ledger| ==> ledger[i].source != hook.attempt
  }

  lemma {:induction false} PathGrows(firsts: seq<Hook>, hook: Hook)
    ensures Path(firsts + [hook])
            == Path(firsts) + [Admission(hook.attempt, if firsts == [] then None else Some(|firsts| - 1), hook.facts)]
  {
  }

  lemma {:induction false} NewOnLedger(ledger: seq<Admission>, before: seq<Hook>, hook: Hook)
    requires ledger == Path(Firsts(before))
    requires forall k :: 0 <= k < |before|
               ==> exists i :: 0 <= i < |Firsts(before)| && Firsts(before)[i].attempt == before[k].attempt
    requires forall h :: h in Firsts(before) ==> h in before
    ensures NewTo(ledger, hook) <==> forall j :: 0 <= j < |before| ==> before[j].attempt != hook.attempt
  {
    var firsts := Firsts(before);
    hide Firsts;
    assert forall i :: 0 <= i < |firsts| ==> firsts[i] in before && ledger[i].source == firsts[i].attempt;
  }

  /** An attempt other than the holder of the chain, when the chain is the latest admission. */
  lemma {:induction false} EntryIsDecided(w: World, hook: Hook)
    requires Lineage(w) && (w.chain.None? <==> w.ledger == []) && !hook.conversion && hook.carried != Neither
    requires w.chain.Some? ==> w.chain.value.admission == |w.ledger| - 1 && w.chain.value.source != hook.attempt
    ensures Step(w, hook).1 <==> Answered(hook) && NewTo(w.ledger, hook)
  {
    FindFinds(w.ledger, hook.attempt);
    hide Find, Recorded;
  }

  /** Fallback depth first, then retry ordinal. */
  predicate Before(a: Attempt, b: Attempt) {
    a.fallbackDepth < b.fallbackDepth || (a.fallbackDepth == b.fallbackDepth && a.retryOrdinal < b.retryOrdinal)
  }

  /** Every change of attempt moves to a later retry or a deeper fallback. */
  predicate Advancing(hooks: seq<Hook>) {
    forall k :: 0 < k < |hooks|
      ==> hooks[k - 1].attempt == hooks[k].attempt || Before(hooks[k - 1].attempt, hooks[k].attempt)
  }

  lemma {:induction false} AdvancingIsOrdered(hooks: seq<Hook>, j: nat, k: nat)
    requires Advancing(hooks) && j <= k < |hooks|
    ensures hooks[j].attempt == hooks[k].attempt || Before(hooks[j].attempt, hooks[k].attempt)
    decreases k
  {
    if j < k {
      AdvancingIsOrdered(hooks, j, k - 1);
    }
  }

  /** Retries and fallbacks that only move forward, all allowed, are one path. */
  lemma {:induction false} AdvancingRunsAreOnePath(hooks: seq<Hook>)
    requires Ordinary(hooks) && Advancing(hooks)
    requires forall k :: 0 <= k < |hooks| ==> Answered(hooks[k]) && hooks[k].facts == hooks[0].facts
    ensures Run(hooks).1 && Run(hooks).0.ledger == Path(Firsts(hooks))
  {
    forall k | 0 <= k < |hooks| ensures SteadyAt(hooks, k) {
      AdvancingIsSteady(hooks, k);
    }
    hide SteadyAt, Run, Firsts;
    SteadyRunsAreOnePath(hooks);
  }

  lemma {:induction false} AdvancingIsSteady(hooks: seq<Hook>, k: nat)
    requires k < |hooks| && Ordinary(hooks) && Advancing(hooks)
    requires forall j :: 0 <= j < |hooks| ==> Answered(hooks[j]) && hooks[j].facts == hooks[0].facts
    ensures SteadyAt(hooks, k)
  {
    var before := hooks[..k];
    if k > 0 && hooks[k - 1].attempt == hooks[k].attempt {
      FirstsHold(before);
      var firsts := Firsts(before);
      hide Firsts, Advancing;
      assert firsts[|firsts| - 1] in before;
      assert forall h :: h in before ==> h.facts == hooks[0].facts;
    } else if k > 0 {
      forall j | 0 <= j < k ensures hooks[j].attempt != hooks[k].attempt {
        AdvancingIsOrdered(hooks, j, k - 1);
      }
      hide Firsts;
    }
  }
}
