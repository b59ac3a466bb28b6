/** What a turn tells, input by input and at its end, read off the log itself instead of the adapter's variables. */
module TurnTelling {
  import opened Text
  import opened ChatEvents
  import opened TurnText
  import opened TurnAdapter

  /** The latest plan among some bodies. */
  function LastPlan(told: seq<Body>): (plan: Option<Body>)
    ensures plan.Some? ==> plan.value.Plan?
  {
    if told == [] then None
    else if told[|told| - 1].Plan? then Some(told[|told| - 1])
    else LastPlan(told[..|told| - 1])
  }

  lemma {:induction false} LastPlanAppend(a: seq<Body>, b: seq<Body>)
    ensures LastPlan(a + b) == if LastPlan(b).Some? then LastPlan(b) else LastPlan(a)
  {
    if b == [] {
      assert a + b == a;
    } else {
      assert (a + b)[..|a + b| - 1] == a + b[..|b| - 1];
      LastPlanAppend(a, b[..|b| - 1]);
    }
  }

  lemma {:induction false} LastPlanSnoc(told: seq<Body>, b: Body)
    ensures LastPlan(told + [b]) == if b.Plan? then Some(b) else LastPlan(told)
  {
    assert (told + [b])[..|told|] == told;
  }

  lemma {:induction false} SlicesHoldNoPlan(turnId: string, text: string)
    ensures LastPlan(Slices(turnId, text)).None?
  {
    if text != "" {
      var start := (|text| - 1) / SLICE * SLICE;
      SlicesHoldNoPlan(turnId, text[..start]);
      LastPlanSnoc(Slices(turnId, text[..start]), TextDelta(TextIdOf(turnId), text[start..]));
    }
  }

  predicate Same(told: Option<string>, given: Option<string>) {
    told == given || (told.None? && given == Some(""))
  }

  /** The body tells the vendor's event, field by field; an empty optional field is left out. */
  predicate Tells(b: Body, v: VendorEvent) {
    match v
    case VendorTool(id, name, state, summary, caption) =>
      b.Tool? && b.toolCallId == id && b.toolName == name && b.toolState == state && Same(b.toolSummary, summary)
      && b.toolSummary != Some("") && b.progressLabel == Some(caption)
    case VendorPlan(title, summary) =>
      b.Plan? && b.planState == Running && Same(b.planSummary, summary) && b.planSummary != Some("")
      && (if title.Some? && title.value != "" then b.title == title.value else b.title == "Approach")
    case VendorSummary(summary, provider) =>
      b.ProviderSummary? && b.summary == summary && Same(b.provider, provider) && b.provider != Some("")
    case VendorWebAction(action, caption, url) =>
      b.WebAction? && b.action == action && b.webLabel == caption
      && (b.webUrl == url || (b.webUrl.None? && url.Some? && url.value.text == ""))
      && (b.webUrl.Some? ==> b.webUrl.value.text != "")
    case VendorSource(title, url) => b.Source? && b.sourceTitle == title && b.url == url
    case VendorApproval(id, operation, state, summary) =>
      b.Approval? && b.approvalId == id && b.operationId == operation && b.approvalState == state
      && b.approvalSummary == summary
    case _ => false
  }

  function Head(text: string): string {
    if |text| > 2_000 then text[..2_000] else text
  }

  predicate Works(input: Input) {
    input == Heartbeat || (input.Vendor? && input.event.VendorTool?)
  }

  /** The adapter's plan is the latest one told, and its approach the beginning of the text. */
  ghost predicate Meant(n: Notes, text: string) {
    && n.planned == LastPlan(n.told).Some? && n.planned == n.plan.Some?
    && (n.planned ==> n.plan.value == (LastPlan(n.told).value.title, LastPlan(n.told).value.planSummary))
    && (!n.planned ==> n.approach == Head(text))
  }

  ghost predicate Worked(inputs: seq<Input>) {
    exists k :: 0 <= k < |inputs| && Works(inputs[k])
  }

  /** What the adapter's variables mean; there is work as soon as a tool or a heartbeat was told. */
  lemma {:induction false} NotesMean(inputs: seq<Input>, turnId: string, summarize: string -> string)
    ensures Meant(NotedAll(inputs, turnId, summarize), FeedAll(Deltas(inputs)).emitted)
    ensures NotedAll(inputs, turnId, summarize).working <==> Worked(inputs)
  {
    if inputs == [] {
      NoInputs(inputs, turnId, summarize);
      assert inputs[..0] == inputs;
    } else {
      var k := |inputs| - 1;
      NotesMean(inputs[..k], turnId, summarize);
      InputNoted(inputs, k, turnId, summarize);
      InputStep(inputs, k);
      assert inputs[..k + 1] == inputs;
      WorkedBefore(inputs);
      hide NotedAll, FeedAll, Deltas, Meant, Worked, Noted, FeedInput;
      NoteMeans(NotedAll(inputs[..k], turnId, summarize), FeedAll(Deltas(inputs[..k])), inputs[k], turnId, summarize);
    }
  }

  lemma {:induction false} WorkedBefore(inputs: seq<Input>)
    requires inputs != []
    ensures Worked(inputs) <==> Worked(inputs[..|inputs| - 1]) || Works(inputs[|inputs| - 1])
  {
    var n := |inputs| - 1;
    if k :| 0 <= k < |inputs| && Works(inputs[k]) {
      assert k < n ==> inputs[..n][k] == inputs[k];
    }
    if k :| 0 <= k < n && Works(inputs[..n][k]) {
      assert inputs[k] == inputs[..n][k];
    }
  }

  lemma {:induction false} NoteMeans(n: Notes, p: Parser, input: Input, turnId: string, summarize: string -> string)
    requires Meant(n, p.emitted)
    ensures Meant(Noted(n, p, input, turnId, summarize), FeedInput(p, input).emitted)
    ensures Noted(n, p, input, turnId, summarize).working == (n.working || Works(input))
  {
    match input {
      case Heartbeat => LastPlanSnoc(n.told, ProgressBody(turnId, "Still working\U{2026}", Running));
      case Fault =>
      case Vendor(v) =>
        if v.VendorText? {
          TextMeans(n, p, v.delta, turnId);
        } else {
          ActivityMeans(n, p.emitted, v, summarize);
        }
    }
    hide Meant, LastPlan;
  }

  lemma {:induction false} ActivityMeans(n: Notes, text: string, v: VendorEvent, summarize: string -> string)
    requires Meant(n, text) && !v.VendorText?
    ensures Meant(ActivityNoted(n, v, summarize), text)
  {
    var summary := summarize(n.approach);
    LastPlanSnoc(n.told, Plan("Approach", Some(summary), Running));
    if !v.VendorFinish? {
      LastPlanSnoc(Announced(n, v, summarize).told, ActivityBody(v));
    }
    hide LastPlan, Head;
  }

  lemma {:induction false} TextMeans(n: Notes, p: Parser, delta: string, turnId: string)
    requires Meant(n, p.emitted)
    ensures Meant(TextNoted(n, Released(p, delta), turnId), Feed(p, delta).emitted)
  {
    var text := Released(p, delta);
    SlicesHoldNoPlan(turnId, text);
    LastPlanAppend(n.told, Slices(turnId, text));
    assert Feed(p, delta).emitted == p.emitted + text by { FeedReleases(p, delta); }
    hide Feed, Released, Slices, LastPlan;
    HeadGrows(p.emitted, text);
  }

  lemma {:induction false} FeedReleases(p: Parser, delta: string)
    ensures Feed(p, delta).emitted == p.emitted + Released(p, delta)
  {
  }

  lemma {:induction false} HeadGrows(text: string, more: string)
    ensures Head(text + more) == if more == "" || |text| >= 2_000 then Head(text) else Head(Head(text) + more)
  {
    assert text + "" == text;
  }

  /** What one input adds to what was told. A heartbeat tells that work goes on; text tells what it releases, in slices;
      any other vendor event but the finish tells itself, after the plan that the first 2,000 characters of the text
      announce if it is a tool or a web action and no plan was told before; nothing else is told. */
  ghost predicate TellsNext(before: seq<Body>, after: seq<Body>, p: Parser, p': Parser, input: Input, turnId: string,
                            summarize: string -> string)
  {
    match input
    case Heartbeat => after == before + [Progress("progress-" + turnId, "Still working\U{2026}", Running)]
    case Fault => after == before
    case Vendor(v) =>
      if v.VendorText? then exists text :: p'.emitted == p.emitted + text && after == before + Slices(turnId, text)
      else if v.VendorFinish? then after == before
      else
        var approach := summarize(Head(p.emitted));
        var announced := if (v.VendorTool? || v.VendorWebAction?) && LastPlan(before).None? && approach != ""
                         then [Plan("Approach", Some(approach), Running)] else [];
        exists b :: Tells(b, v) && after == before + announced + [b]
  }

  lemma {:induction false} InputTells(inputs: seq<Input>, k: nat, turnId: string, summarize: string -> string)
    requires k < |inputs|
    ensures TellsNext(NotedAll(inputs[..k], turnId, summarize).told, NotedAll(inputs[..k + 1], turnId, summarize).told,
                      FeedAll(Deltas(inputs[..k])), FeedAll(Deltas(inputs[..k + 1])), inputs[k], turnId, summarize)
  {
    hide *;
    NotesMean(inputs[..k], turnId, summarize);
    InputNoted(inputs, k, turnId, summarize);
    InputStep(inputs, k);
    NoteTells(NotedAll(inputs[..k], turnId, summarize), FeedAll(Deltas(inputs[..k])), inputs[k], turnId, summarize);
  }

  lemma {:induction false} NoteTells(n: Notes, p: Parser, input: Input, turnId: string, summarize: string -> string)
    requires Meant(n, p.emitted)
    ensures TellsNext(n.told, Noted(n, p, input, turnId, summarize).told, p, FeedInput(p, input), input, turnId,
                      summarize)
  {
    hide Head, LastPlan, Slices;
    if input.Vendor? {
      var v := input.event;
      if v.VendorText? {
        FeedReleases(p, v.delta);
        hide Feed, Released;
      } else if !v.VendorFinish? {
        ActivityTells(n, p.emitted, v, summarize);
        hide ActivityNoted, Tells;
      }
    }
  }

  lemma {:induction false} ActivityTells(n: Notes, text: string, v: VendorEvent, summarize: string -> string)
    requires Meant(n, text) && !v.VendorText? && !v.VendorFinish?
    ensures var announced := if (v.VendorTool? || v.VendorWebAction?) && LastPlan(n.told).None?
            && summarize(Head(text)) != ""
                             then [Plan("Approach", Some(summarize(Head(text))), Running)] else [];
            exists b :: Tells(b, v) && ActivityNoted(n, v, summarize).told == n.told + announced + [b]
  {
    hide LastPlan, Head;
    assert Tells(ActivityBody(v), v);
    hide Tells, ActivityBody;
    assert n.told + [] == n.told;
  }

  /** What follows the vendor's inputs: text still held back; the latest plan as done if any was told; the files in
      order and the notice of a completed turn; the work as done if there was any. */
  lemma {:induction false} ClosingTells(inputs: seq<Input>, state: TurnState, outbox: Outbox, turnId: string,
                                        summarize: string -> string)
    ensures var told, text := NotedAll(inputs, turnId, summarize).told, FeedAll(Deltas(inputs)).pending;
            var plan := LastPlan(told);
            var plans := if plan.Some? then [Plan(plan.value.title, plan.value.planSummary, Finished)] else [];
            var files := if state == Completed && outbox.Collected? then outbox.files else [];
            var notices := if state == Completed && outbox.Collected? && outbox.notice.Some?
              then [Notice(outbox.notice.value)]
                           else [];
            var caption := if state == NeedsInput then "Waiting for your reply" else "Work complete";
            var work := if Worked(inputs) then [Progress("progress-" + turnId, caption, Finished)] else [];
            exists artifacts :: IsFiles(artifacts, files)
              && TurnBodies(inputs, state, outbox, turnId, summarize)
                 == told + Slices(turnId, text) + (plans + (artifacts + notices) + work)
  {
    NotesMean(inputs, turnId, summarize);
    hide NotedAll, FeedAll, Deltas, Slices, LastPlan, Worked;
    if state == Completed && outbox.Collected? {
      FilesTold(outbox.files);
      hide ArtifactBodies;
    } else {
      var none: seq<Body> := [];
      assert IsFiles(none, []) && none + none == none;
    }
    hide IsFiles;
  }

  predicate IsFiles(bodies: seq<Body>, files: seq<File>) {
    |bodies| == |files|
    && forall i :: 0 <= i < |files| ==> bodies[i] == Artifact(files[i].artifactId, files[i].filename, None)
  }

  lemma {:induction false} FilesTold(files: seq<File>)
    ensures IsFiles(ArtifactBodies(files), files)
  {
    if files != [] {
      FilesTold(files[..|files| - 1]);
    }
  }

  /** Slice `i` holds the characters from 16,000 times `i` on, and only the last may be shorter than 16,000. */
  lemma {:induction false} SlicesAre(turnId: string, text: string)
    ensures |Slices(turnId, text)| == (|text| + 15_999) / 16_000
    ensures forall i :: 0 <= i < |Slices(turnId, text)|
              ==> Slices(turnId, text)[i]
                  == TextDelta("text-" + turnId, text[16_000 * i..if 16_000 * (i + 1) < |text| then 16_000 * (i + 1)
                                                      else |text|])
  {
    if text != "" {
      var k := (|text| - 1) / SLICE;
      var before := text[..k * SLICE];
      SlicesAre(turnId, before);
      assert |Slices(turnId, before)| == k;
      forall i | 0 <= i < k
        ensures Slices(turnId, text)[i] == TextDelta("text-" + turnId, text[16_000 * i..16_000 * (i + 1)])
      {
        assert before[16_000 * i..16_000 * (i + 1)] == text[16_000 * i..16_000 * (i + 1)];
      }
    }
  }
}
