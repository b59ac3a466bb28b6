/** What one entry into the deployment hook does: when the request may go on, and what it then holds. */
module UsageSteps {
  import opened Text
  import opened UsageLineage

  /** The metadata arrived whole, names one admission on the attempt's provider, and is the attempt's own, or the
      request was converted. */
  predicate HoldsItsState(w: World, hook: Hook) {
    && hook.carried == Both && w.chain.Some? && w.state.Some? && w.state.value.admission == w.chain.value.admission
    && w.state.value.provider == hook.attempt.deployment.provider
    && (hook.conversion || w.chain.value.source == hook.attempt)
  }

  /** The request was converted, on the deployment that it was last admitted on. */
  predicate ConvertedInPlace(w: World, hook: Hook) {
    hook.conversion && w.context.Some? && w.context.value.deployment == hook.attempt.deployment
  }

  /** The admission that the authority is asked for: below the last one if another attempt made it, or where the same
      attempt was admitted before, or at the root without a chain. */
  function Asks(w: World, hook: Hook): Admission {
    Admission(hook.attempt,
              if hook.carried == Neither || w.chain == None then None
              else if w.chain.value.source != hook.attempt then Some(w.chain.value.admission)
              else w.chain.value.parent,
              hook.facts)
  }

  /** The authority answers with an admission: the attempt is new and allowed, or the same was admitted before. */
  ghost predicate Grants(ledger: seq<Admission>, asked: Admission, verdict: Verdict) {
    if forall i :: 0 <= i < |ledger| ==> ledger[i].source != asked.source then verdict == Allowed
    else asked in ledger && verdict != LostReply
  }

  /** The request goes on exactly if it holds its state, is converted in place, or is granted an admission. */
  lemma {:induction false} GoesOnIff(w: World, hook: Hook)
    requires Lineage(w)
    ensures Step(w, hook).1
            <==> hook.gate != Broken
                 && (|| HoldsItsState(w, hook) || ConvertedInPlace(w, hook)
                     || (hook.gate == Open && Grants(w.ledger, Asks(w, hook), hook.verdict)))
  {
    FindFinds(w.ledger, hook.attempt);
    AskedIsFound(w.ledger, Asks(w, hook));
    hide Find, Recorded, Acyclic;
  }

  lemma {:induction false} AskedIsFound(ledger: seq<Admission>, asked: Admission)
    requires forall i, j :: 0 <= i < j < |ledger| ==> ledger[i].source != ledger[j].source
    ensures var k := Find(ledger, asked.source); asked in ledger <==> k < |ledger| && ledger[k] == asked
  {
    FindFinds(ledger, asked.source);
    hide Find;
  }

  /** A request that goes on holds an admission of the ledger, with a state for it on the attempt's provider; without a
      conversion it is the attempt's own. */
  lemma {:induction false} GoesOnHolding(w: World, hook: Hook)
    requires Lineage(w) && Step(w, hook).1
    ensures var after := Step(w, hook).0;
            && after.chain.Some? && after.state.Some? && Recorded(after.ledger, after.chain.value)
            && after.state.value == UsageState(after.chain.value.admission, hook.attempt.deployment.provider)
            && (!hook.conversion ==> after.chain.value.source == hook.attempt)
  {
    FindFinds(w.ledger, hook.attempt);
    hide Find, Acyclic;
  }

  /** A request that is held up keeps what it brought if a check stopped it, and nothing of it once the lineage has been
      read; what the context remembers only changes with an admission. */
  lemma {:induction false} HeldUpHolding(w: World, hook: Hook)
    requires Lineage(w) && !Step(w, hook).1
    ensures var after := Step(w, hook).0;
            && after.context == w.context
            && (hook.gate != Open
                ==> && after.ledger == w.ledger && after.chain == (if hook.carried == Neither then None else w.chain)
                    && after.state == if hook.carried == Both then w.state else None)
            && (hook.gate == Open ==> after.chain == None && after.state == None)
  {
    hide Find, Acyclic, Recorded;
  }

  /** The ledger gains at most the admission asked for: exactly if the attempt is new to it, the request came past the
      checks, and the authority did not refuse. */
  lemma {:induction false} LedgerGains(w: World, hook: Hook)
    requires Lineage(w)
    ensures var gains := && hook.gate == Open && !HoldsItsState(w, hook) && !ConvertedInPlace(w, hook)
                         && hook.verdict != Refused
                         && forall i :: 0 <= i < |w.ledger| ==> w.ledger[i].source != hook.attempt;
            Step(w, hook).0.ledger == if gains then w.ledger + [Asks(w, hook)] else w.ledger
  {
    FindFinds(w.ledger, hook.attempt);
    hide Find, Acyclic, Recorded;
  }
}
