/** Connector tools run only as an administrator last reviewed them: a review quotes the hash of the tool set it decided
    and the policy version it saw, while providers change definitions and other administrators save. */
module ConnectorReview {
  import opened Text

  datatype Decision = Allow | ApprovalRequired | Deny

  /** The tools a provider publishes: names with the hashes of their definitions. The document hash of a tool set is
      injective, so a set of tools stands for its own document hash. */
  type ToolSet = map<string, string>

  /** The connector record: decisions, the definition hashes they were made on, and the policy version. */
  datatype Record = Record(policies: map<string, Decision>, hashes: ToolSet, version: nat)

  predicate HasCurrentToolReview(r: Record, name: string, definition: string) {
    name in r.policies && name in r.hashes && r.hashes[name] == definition
  }

  function ReviewedToolDecision(r: Record, name: string, definition: string): Decision {
    if HasCurrentToolReview(r, name, definition) then r.policies[name] else Deny
  }

  /** The decision for a hosted call; `None` refuses it. */
  function HostedToolPolicy(r: Record, live: ToolSet, enabled: bool, connected: bool, name: string): Option<Decision> {
    if !enabled || name !in r.policies || r.policies[name] == Deny || !connected || name !in live then None
    else
      var decision := ReviewedToolDecision(r, name, live[name]);
      if decision == Deny then None else Some(decision)
  }

  /** The tools offered to agents. */
  function ReviewedToolsForProjection(r: Record, live: ToolSet): map<string, Decision> {
    map name | name in live
      && ReviewedToolDecision(r, name, live[name]) != Deny :: ReviewedToolDecision(r, name, live[name])
  }

  /** One administrator's save: what they decided, and the tool set and version they had in front of them. */
  datatype Review = Review(decisions: map<string, Decision>, document: ToolSet, version: nat)

  datatype SaveError = DiscoveryRequired | ToolSetChanged | InvalidToolPolicy | VersionConflict

  /** What a save carries from its checks to the registry. */
  datatype Prepared = Prepared(review: Review, hashes: ToolSet)

  /** The decided names and definitions are exactly those discovered, and those the administrator reviewed. */
  predicate Checked(p: Prepared) {
    p.hashes == p.review.document && p.review.decisions.Keys == p.hashes.Keys
  }

  /** One tool's definition is the one that the administrator had in front of them, or it is in neither set. */
  predicate AsReviewed(review: Review, live: ToolSet, name: string) {
    (name in live <==> name in review.document)
      && (name in live && name in review.document ==> live[name] == review.document[name])
  }

  /** One tool is decided exactly if it exists. */
  predicate IsDecided(review: Review, live: ToolSet, name: string) {
    name in review.decisions <==> name in live
  }

  lemma {:induction false} ReviewedIff(review: Review, live: ToolSet)
    ensures live == review.document <==> forall name :: AsReviewed(review, live, name)
    ensures review.decisions.Keys == live.Keys <==> forall name :: IsDecided(review, live, name)
  {
    if forall name :: AsReviewed(review, live, name) {
      forall name ensures name in live <==> name in review.document {
        assert AsReviewed(review, live, name);
      }
      forall name | name in live ensures live[name] == review.document[name] {
        assert AsReviewed(review, live, name);
      }
    }
    if forall name :: IsDecided(review, live, name) {
      forall name ensures name in live.Keys <==> name in review.decisions.Keys {
        assert IsDecided(review, live, name);
      }
    }
  }

  /** The reviews accepted so far, each on top of the version its author had seen. */
  ghost predicate History(accepted: seq<Review>, r: Record) {
    && (forall i :: 0 <= i < |accepted|
          ==> accepted[i].decisions.Keys == accepted[i].document.Keys && accepted[i].version < r.version)
    && (forall i, j :: 0 <= i < j < |accepted| ==> accepted[i].version < accepted[j].version)
    && if accepted == [] then r.policies == map[] && r.hashes == map[]
       else r.policies == accepted[|accepted| - 1].decisions && r.hashes == accepted[|accepted| - 1].document
  }

  class Connector {
    var live: ToolSet
    var record: Record
    /** Accepted reviews, oldest first. */
    ghost var accepted: seq<Review>

    ghost predicate Valid()
      reads this
    {
      History(accepted, record)
    }

    constructor (live: ToolSet)
      ensures Valid() && this.live == live && accepted == [] && record == Record(map[], map[], 0)
    {
      this.live, record, accepted := live, Record(map[], map[], 0), [];
    }

    /** The checks of a save, against a fresh discovery. */
    method PrepareSave(review: Review, available: bool) returns (error: Option<SaveError>, prepared: Option<Prepared>)
      ensures error.Some? <==> prepared.None?
      ensures prepared.Some? ==> prepared.value == Prepared(review, live) && Checked(prepared.value)
      ensures prepared.Some?
              <==> available && forall name :: AsReviewed(review, live, name) && IsDecided(review, live, name)
      ensures error == Some(DiscoveryRequired) <==> !available
      ensures error == Some(ToolSetChanged) <==> available && exists name :: !AsReviewed(review, live, name)
      ensures error != Some(VersionConflict)
    {
      ReviewedIff(review, live);
      if !available {
        return Some(DiscoveryRequired), None;
      }
      var current := live;
      if current != review.document {
        return Some(ToolSetChanged), None;
      }
      if review.decisions.Keys != current.Keys {
        return Some(InvalidToolPolicy), None;
      }
      return None, Some(Prepared(review, current));
    }

    /** Compare and set: applied only on the version the review was made on. */
    method ApplyToolPolicyChange(p: Prepared) returns (error: Option<SaveError>)
      requires Valid() && Checked(p)
      modifies this
      ensures Valid() && live == old(live)
      ensures error.None? <==> old(record).version == p.review.version
      ensures if error.None?
              then record == Record(p.review.decisions, p.hashes, p.review.version + 1)
                && accepted == old(accepted) + [p.review]
              else error == Some(VersionConflict) && record == old(record) && accepted == old(accepted)
    {
      if record.version != p.review.version {
        return Some(VersionConflict);
      }
      record := Record(p.review.decisions, p.hashes, record.version + 1);
      accepted := accepted + [p.review];
      error := None;
    }

    /** Enabling, disabling and delegating bump the version and leave the tools alone. */
    method ChangeAccess()
      requires Valid()
      modifies this`record
      ensures Valid() && record == old(record).(version := old(record).version + 1)
    {
      record := record.(version := record.version + 1);
    }

    method ChangeDefinitions(tools: ToolSet)
      requires Valid()
      modifies this`live
      ensures Valid() && live == tools && accepted == old(accepted)
    {
      live := tools;
    }
  }

  type Admin = nat

  /** Everything that can happen, in any order; a save is two steps, and anything may come between them. */
  datatype Step =
    | Publish(tools: ToolSet)
    | Access
    | Begin(admin: Admin, review: Review, available: bool)
    | Finish(admin: Admin)

  /** Everything that a run moves: the provider's tools, the record with its history, and the saves between their steps.
      */
  datatype World = World(live: ToolSet, record: Record, accepted: seq<Review>, pending: map<Admin, Prepared>)

  /** What one step does: a save begins on the tools that it reviewed, if it decides every one of them, and is accepted
      on the version that it reviewed. */
  predicate StepsTo(w: World, step: Step, w': World) {
    match step
    case Publish(tools) => w' == w.(live := tools)
    case Access => w' == w.(record := w.record.(version := w.record.version + 1))
    case Begin(admin, review, available) =>
      if available && w.live == review.document && review.decisions.Keys == w.live.Keys
      then w' == w.(pending := w.pending[admin := Prepared(review, w.live)])
      else w' == w
    case Finish(admin) =>
      if admin !in w.pending then w' == w
      else
        var p := w.pending[admin];
        && w'.live == w.live && w'.pending == w.pending - {admin}
        && if p.review.version == w.record.version
           then && w'.record == Record(p.review.decisions, p.hashes, w.record.version + 1)
                && w'.accepted == w.accepted + [p.review]
           else w'.record == w.record && w'.accepted == w.accepted
  }

  ghost predicate IsRun(trace: seq<World>, steps: seq<Step>) {
    |trace| == |steps| + 1 && forall i :: 0 <= i < |steps| ==> StepsTo(trace[i], steps[i], trace[i + 1])
  }

  /** Over every run, the record holds the last accepted review: its decisions, on exactly the tools it reviewed, and no
      accepted review was made on a version older than the one it replaced. Every step does what it says. */
  method RunSteps(c: Connector, steps: seq<Step>) returns (ghost trace: seq<World>)
    requires c.Valid()
    modifies c
    ensures c.Valid() && old(c.accepted) <= c.accepted && c.record.version >= old(c.record.version)
    ensures IsRun(trace, steps) && trace[0] == World(old(c.live), old(c.record), old(c.accepted), map[])
    ensures c.live == trace[|steps|].live && c.record == trace[|steps|].record && c.accepted == trace[|steps|].accepted
  {
    var pending: map<Admin, Prepared> := map[];
    trace := [World(c.live, c.record, c.accepted, pending)];
    for i := 0 to |steps|
      invariant c.Valid() && old(c.accepted) <= c.accepted && c.record.version >= old(c.record.version)
      invariant forall a :: a in pending ==> Checked(pending[a])
      invariant IsRun(trace, steps[..i]) && trace[0] == World(old(c.live), old(c.record), old(c.accepted), map[])
      invariant trace[i] == World(c.live, c.record, c.accepted, pending)
    {
      match steps[i] {
        case Publish(tools) =>
          c.ChangeDefinitions(tools);
        case Access =>
          c.ChangeAccess();
        case Begin(admin, review, available) =>
          ReviewedIff(review, c.live);
          var error, prepared := c.PrepareSave(review, available);
          if prepared.Some? {
            pending := pending[admin := prepared.value];
          }
        case Finish(admin) =>
          if admin in pending {
            var error := c.ApplyToolPolicyChange(pending[admin]);
            pending := pending - {admin};
          }
      }
      trace := trace + [World(c.live, c.record, c.accepted, pending)];
      assert StepsTo(trace[i], steps[i], trace[i + 1]);
    }
    assert steps[..|steps|] == steps;
  }

  /** A hosted decision is the last review's own decision, made on the very definition that is live; without a review,
      or after the definition changed, there is none. */
  lemma {:induction false} HostedIffReviewed(r: Record, accepted: seq<Review>, live: ToolSet, enabled: bool,
                                             connected: bool, name: string, d: Decision)
    requires History(accepted, r)
    ensures HostedToolPolicy(r, live, enabled, connected, name) == Some(d)
            <==> enabled && connected && d != Deny && name in live && accepted != []
                 && (var last := accepted[|accepted| - 1];
                     name in last.document && last.document[name] == live[name] && last.decisions[name] == d)
  {
    if accepted != [] {
      var last := accepted[|accepted| - 1];
      assert last.decisions.Keys == last.document.Keys;
      assert name in last.decisions <==> name in last.document.Keys;
    }
  }

  /** The projection offers exactly the live tools the last review allows as they are. */
  lemma {:induction false} ProjectionIsReviewed(r: Record, accepted: seq<Review>, live: ToolSet, name: string)
    requires History(accepted, r)
    ensures name in ReviewedToolsForProjection(r, live)
            <==> HostedToolPolicy(r, live, true, true, name).Some?
    ensures name in ReviewedToolsForProjection(r, live)
            ==> Some(ReviewedToolsForProjection(r, live)[name]) == HostedToolPolicy(r, live, true, true, name)
  {
  }

  /** Two administrators who reviewed the same version cannot both be accepted. */
  lemma {:induction false} OneAcceptedPerVersion(accepted: seq<Review>, r: Record, i: nat, j: nat)
    requires History(accepted, r) && i < |accepted| && j < |accepted| && accepted[i].version == accepted[j].version
    ensures i == j
  {
  }

  /** A definition that changes blocks its tool until somebody reviews it again; changing it back restores the
      review. */
  lemma {:induction false} ChangedDefinitionBlocks(r: Record, accepted: seq<Review>, live: ToolSet, name: string,
                                                   definition: string)
    requires History(accepted, r) && name in live && HostedToolPolicy(r, live, true, true, name).Some?
    ensures HostedToolPolicy(r, live[name := definition], true, true, name).Some? <==> definition == live[name]
  {
  }
}
