/** The workspace adapter: it turns arbitrary vendor events into one numbered canonical log per turn, which is
    produced by a detached coroutine and read by any number of subscribers. */
module TurnAdapter {
  import opened Text
  import opened ChatEvents
  import opened TurnText

  const MAX_TEXT := 128_000
  const SLICE := 16_000

  /** `progressLabel` is what `tool_progress_label` makes of the tool, which is never empty. */
  datatype VendorEvent =
    | VendorText(delta: string)
    | VendorTool(id: string, name: string, toolState: ToolState, toolSummary: Option<string>, progressLabel: string)
    | VendorPlan(title: Option<string>, planSummary: Option<string>)
    | VendorSummary(summary: string, provider: Option<string>)
    | VendorWebAction(action: string, webLabel: string, webUrl: Option<Link>)
    | VendorSource(sourceTitle: string, url: Link)
    | VendorApproval(approvalId: string, operationId: string, approvalState: ApprovalState, approvalSummary: string)
    | VendorFinish(state: TurnState, vendorSessionId: Option<string>)

  /** An optional field is left out when it is empty. */
  function Given(field: Option<string>): Option<string> {
    if field == Some("") then None else field
  }

  function PlanTitle(title: Option<string>): string {
    if title.Some? && title.value != "" then title.value else "Approach"
  }

  /** The canonical event for a vendor event other than text and finish. */
  function ActivityBody(v: VendorEvent): Body
    requires !v.VendorText? && !v.VendorFinish?
  {
    match v
    case VendorTool(id, name, state, summary, caption) => Tool(id, name, state, Given(summary), Some(caption))
    case VendorPlan(title, summary) => Plan(PlanTitle(title), Given(summary), Running)
    case VendorSummary(summary, provider) => ProviderSummary(summary, Given(provider))
    case VendorWebAction(action, caption, url) =>
      WebAction(action, caption, if url.Some? && url.value.text == "" then None else url)
    case VendorSource(title, url) => Source(title, url)
    case VendorApproval(id, operation, state, summary) => Approval(id, operation, state, summary)
  }

  /** What the adapter's wait can deliver: a heartbeat timeout, the next vendor event, or an exception. */
  datatype Input = Heartbeat | Vendor(event: VendorEvent) | Fault

  /** Collecting generated files either works or raises. */
  datatype Outbox = Collected(files: seq<File>, notice: Option<string>) | OutboxFault

  datatype File = File(artifactId: string, filename: string)

  datatype Outcome = Continue | Interrupted | Raised

  /** The vendor's text deltas, in order. */
  function Deltas(inputs: seq<Input>): seq<string> {
    if inputs == [] then []
    else
      var last := inputs[|inputs| - 1];
      Deltas(inputs[..|inputs| - 1]) + if last.Vendor? && last.event.VendorText? then [last.event.delta] else []
  }

  /** The state and the session of the last vendor finish event. */
  function VendorEnd(inputs: seq<Input>): (Option<TurnState>, Option<string>) {
    if inputs == [] then (None, None)
    else NoteFinish(VendorEnd(inputs[..|inputs| - 1]), inputs[|inputs| - 1])
  }

  function VendorState(inputs: seq<Input>): Option<TurnState> {
    VendorEnd(inputs).0
  }

  function VendorMessage(inputs: seq<Input>): Parser {
    Flush(FeedAll(Deltas(inputs)))
  }

  /** The last finish event of the vendor. */
  ghost predicate EndedBy(inputs: seq<Input>, state: TurnState, session: Option<string>) {
    exists k :: 0 <= k < |inputs| && inputs[k] == Vendor(VendorFinish(state, session)) && NoFinishAfter(inputs, k + 1)
  }

  ghost predicate NoFinishAfter(inputs: seq<Input>, k: nat) {
    forall j :: k <= j < |inputs| ==> !(inputs[j].Vendor? && inputs[j].event.VendorFinish?)
  }

  /** The vendor's text leads with the needs-input marker. */
  predicate Asks(inputs: seq<Input>) {
    HasMarker(Flatten(Deltas(inputs)))
  }

  predicate Undisturbed(inputs: seq<Input>) {
    Fault !in inputs && |VendorMessage(inputs).emitted| <= MAX_TEXT
  }

  /** Why a turn fails by itself: an exception, too much text, a vendor that never finishes, or a completed turn whose
      files cannot be collected. */
  ghost predicate Breaks(inputs: seq<Input>, outbox: Outbox) {
    || !Undisturbed(inputs) || NoFinishAfter(inputs, 0)
    || (outbox.OutboxFault? && !Asks(inputs) && exists session :: EndedBy(inputs, Completed, session))
  }

  /** How an uncancelled turn ends. */
  ghost predicate EndsAs(finish: Body, inputs: seq<Input>, outbox: Outbox) {
    && finish.TurnFinish?
    && if Breaks(inputs, outbox) then finish == TurnFinish(Failed, Some("The agent could not complete the turn"), None)
       else exists session ::
              && finish.vendorSessionId == Given(session)
              && finish.message == (if finish.state == Cancelled then Some("The turn was cancelled") else None)
              && match finish.state
                 case NeedsInput => EndedBy(inputs, NeedsInput, session)
                   || (EndedBy(inputs, Completed, session) && Asks(inputs))
                 case Completed => EndedBy(inputs, Completed, session) && !Asks(inputs)
                 case other => EndedBy(inputs, other, session)
  }

  lemma {:induction false} VendorEndIs(inputs: seq<Input>)
    ensures var (state, session) := VendorEnd(inputs);
            if state.None? then NoFinishAfter(inputs, 0) && session.None? else EndedBy(inputs, state.value, session)
  {
    if inputs != [] {
      var n := |inputs| - 1;
      VendorEndIs(inputs[..n]);
      assert inputs == inputs[..n] + [inputs[n]];
      if inputs[n].Vendor? && inputs[n].event.VendorFinish? {
        assert NoFinishAfter(inputs, n + 1)
               && inputs[n].event == VendorFinish(inputs[n].event.state, inputs[n].event.vendorSessionId);
      } else if VendorEnd(inputs).0.Some? {
        var (state, session) := VendorEnd(inputs[..n]);
        var k :| 0 <= k < n && inputs[..n][k] == Vendor(VendorFinish(state.value, session))
          && NoFinishAfter(inputs[..n], k + 1);
        assert inputs[k] == inputs[..n][k];
        assert forall j :: k < j < n ==> inputs[j] == inputs[..n][j];
        assert NoFinishAfter(inputs, k + 1);
      } else {
        assert forall j :: 0 <= j < n ==> inputs[j] == inputs[..n][j];
      }
    }
  }

  /** There is only one way in which a turn can end. */
  lemma {:induction false} EndIsUnique(inputs: seq<Input>, outbox: Outbox, a: Body, b: Body)
    requires EndsAs(a, inputs, outbox) && EndsAs(b, inputs, outbox)
    ensures a == b
  {
    hide Breaks, Asks, Given;
    if !Breaks(inputs, outbox) {
      forall s, s', x, x' | EndedBy(inputs, s, x) && EndedBy(inputs, s', x') ensures s == s' && x == x' {
        LastFinishIsOne(inputs, s, x, s', x');
      }
      hide EndedBy;
    }
  }

  lemma {:induction false} LastFinishIsOne(inputs: seq<Input>, s: TurnState, x: Option<string>, s': TurnState,
                                           x': Option<string>)
    requires EndedBy(inputs, s, x) && EndedBy(inputs, s', x')
    ensures s == s' && x == x'
  {
    var k :| 0 <= k < |inputs| && inputs[k] == Vendor(VendorFinish(s, x)) && NoFinishAfter(inputs, k + 1);
    var k' :| 0 <= k' < |inputs| && inputs[k'] == Vendor(VendorFinish(s', x')) && NoFinishAfter(inputs, k' + 1);
    assert k == k';
  }

  /** Each final state, in terms of the inputs alone. */
  lemma {:induction false} FinalStateIff(inputs: seq<Input>, outbox: Outbox, finish: Body)
    requires EndsAs(finish, inputs, outbox)
    ensures finish.state == NeedsInput
            <==> Undisturbed(inputs)
                 && ((exists x :: EndedBy(inputs, NeedsInput, x))
                     || (Asks(inputs) && exists x :: EndedBy(inputs, Completed, x)))
    ensures finish.state == Completed
            <==> Undisturbed(inputs) && !Asks(inputs) && outbox.Collected? && exists x :: EndedBy(inputs, Completed, x)
    ensures finish.state == Cancelled <==> Undisturbed(inputs) && exists x :: EndedBy(inputs, Cancelled, x)
    ensures finish.state == Failed
            <==> !Undisturbed(inputs) || NoFinishAfter(inputs, 0) || (exists x :: EndedBy(inputs, Failed, x))
                 || (outbox.OutboxFault? && !Asks(inputs) && exists x :: EndedBy(inputs, Completed, x))
  {
    hide Asks, Given, Undisturbed, NoFinishAfter;
    forall s, s', x, x' | EndedBy(inputs, s, x) && EndedBy(inputs, s', x') ensures s == s' {
      LastFinishIsOne(inputs, s, x, s', x');
    }
    assert NoFinishAfter(inputs, 0) ==> forall s, x :: !EndedBy(inputs, s, x) by {
      NoFinishNoEnd(inputs);
    }
    hide EndedBy;
  }

  lemma {:induction false} NoFinishNoEnd(inputs: seq<Input>)
    ensures NoFinishAfter(inputs, 0) ==> forall s, x :: !EndedBy(inputs, s, x)
  {
  }

  /** The state that the vendor's finish stands for. */
  function EndState(inputs: seq<Input>): TurnState {
    var state := VendorState(inputs);
    if state == Some(Completed) && VendorMessage(inputs).needsInput then NeedsInput
    else if state.Some? then state.value else Failed
  }

  lemma {:induction false} EndStateEnds(inputs: seq<Input>, outbox: Outbox)
    requires !Breaks(inputs, outbox)
    ensures var state := EndState(inputs); var message := if state == Cancelled then Some("The turn was cancelled")
            else None;
            EndsAs(TurnFinish(state, message, Given(VendorEnd(inputs).1)), inputs, outbox)
  {
    VendorEndIs(inputs);
    TextFidelity(Deltas(inputs));
    hide EndedBy, Flush, FeedAll, HasMarker, Undisturbed, Given, NoFinishAfter;
  }

  lemma {:induction false} UnfinishedBreaks(inputs: seq<Input>, outbox: Outbox)
    requires VendorState(inputs).None? || !Undisturbed(inputs) || (EndState(inputs) == Completed && outbox.OutboxFault?)
    ensures Breaks(inputs, outbox)
  {
    VendorEndIs(inputs);
    TextFidelity(Deltas(inputs));
    hide EndedBy, Flush, FeedAll, HasMarker, Undisturbed, NoFinishAfter;
  }

  lemma {:induction false} CollectedDoesNotBreak(inputs: seq<Input>, outbox: Outbox)
    requires VendorState(inputs).Some? && Undisturbed(inputs) && !(EndState(inputs) == Completed && outbox.OutboxFault?)
    ensures !Breaks(inputs, outbox)
  {
    VendorEndIs(inputs);
    TextFidelity(Deltas(inputs));
    hide Flush, FeedAll, HasMarker, Undisturbed;
    var (state, session) := VendorEnd(inputs);
    forall s, x | EndedBy(inputs, s, x) ensures s == state.value {
      LastFinishIsOne(inputs, s, x, state.value, session);
    }
    hide EndedBy;
  }

  function FeedInput(p: Parser, input: Input): Parser {
    if input.Vendor? && input.event.VendorText? then Feed(p, input.event.delta) else p
  }

  function NoteFinish(end: (Option<TurnState>, Option<string>), input: Input): (Option<TurnState>, Option<string>) {
    if input.Vendor? && input.event.VendorFinish? then (Some(input.event.state), input.event.vendorSessionId) else end
  }

  lemma {:induction false} InputStep(inputs: seq<Input>, i: nat)
    requires i < |inputs|
    ensures FeedAll(Deltas(inputs[..i + 1])) == FeedInput(FeedAll(Deltas(inputs[..i])), inputs[i])
    ensures VendorEnd(inputs[..i + 1]) == NoteFinish(VendorEnd(inputs[..i]), inputs[i])
    ensures Fault in inputs[..i + 1] <==> Fault in inputs[..i] || inputs[i] == Fault
    ensures Explains(FeedAll(Deltas(inputs[..i])), Flatten(Deltas(inputs[..i])))
  {
    assert inputs[..i + 1][..i] == inputs[..i];
    assert inputs[..i + 1] == inputs[..i] + [inputs[i]];
    FeedAllExplains(Deltas(inputs[..i]));
    if inputs[i].Vendor? && inputs[i].event.VendorText? {
      var before, d := Deltas(inputs[..i]), inputs[i].event.delta;
      assert (before + [d])[..|before|] == before;
    } else {
      assert Deltas(inputs[..i]) + [] == Deltas(inputs[..i]);
    }
  }

  lemma {:induction false} NoInputs(inputs: seq<Input>, turnId: string, approachSummary: string -> string)
    ensures var none := inputs[..0];
            && FeedAll(Deltas(none)) == START && VendorEnd(none) == (None, None) && Fault !in none
            && NotedAll(none, turnId, approachSummary) == SILENT
  {
    assert inputs[..0] == [];
  }

  lemma {:induction false} InputNoted(inputs: seq<Input>, i: nat, turnId: string, approachSummary: string -> string)
    requires i < |inputs|
    ensures NotedAll(inputs[..i + 1], turnId, approachSummary)
            == Noted(NotedAll(inputs[..i], turnId, approachSummary), FeedAll(Deltas(inputs[..i])), inputs[i], turnId,
                     approachSummary)
  {
    assert inputs[..i + 1][..i] == inputs[..i];
    hide Noted, Deltas, FeedAll;
  }

  lemma {:induction false} ToldGrows(inputs: seq<Input>, i: nat, turnId: string, approachSummary: string -> string)
    requires i <= |inputs|
    ensures NotedAll(inputs[..i], turnId, approachSummary).told <= NotedAll(inputs, turnId, approachSummary).told
    decreases |inputs| - i
  {
    if i == |inputs| {
      assert inputs[..i] == inputs;
    } else {
      InputNoted(inputs, i, turnId, approachSummary);
      NotedGrows(NotedAll(inputs[..i], turnId, approachSummary), FeedAll(Deltas(inputs[..i])), inputs[i], turnId,
                 approachSummary);
      hide NotedAll, Noted, FeedAll, Deltas;
      ToldGrows(inputs, i + 1, turnId, approachSummary);
    }
  }

  lemma {:induction false} TextNotedIs(n: Notes, text: string, turnId: string)
    ensures var noted := TextNoted(n, text, turnId);
            noted == n.(told := n.told + Slices(turnId, text), approach := noted.approach)
            && (text == "" ==> noted.approach == n.approach)
  {
  }

  lemma {:induction false} NotedGrows(n: Notes, p: Parser, input: Input, turnId: string, summarize: string -> string)
    ensures n.told <= Noted(n, p, input, turnId, summarize).told
  {
    hide Slices, Released;
  }

  lemma {:induction false} SliceExtends(before: string, text: string, from: nat, to: nat)
    requires from <= to <= |text|
    ensures before + text[..from] + text[from..to] == before + text[..to]
  {
    assert text[..to] == text[..from] + text[from..to];
  }

  lemma {:induction false} PartOfText(before: string, text: string, to: nat)
    requires to <= |text|
    ensures before + text[..to] <= before + text
  {
    assert text == text[..to] + text[to..];
  }

  /** Released text only ever grows as more input arrives. */
  lemma {:induction false} EmittedGrows(inputs: seq<Input>, i: nat)
    requires i <= |inputs|
    ensures FeedAll(Deltas(inputs[..i])).emitted <= VendorMessage(inputs).emitted
    decreases |inputs| - i
  {
    if i < |inputs| {
      InputStep(inputs, i);
      EmittedGrows(inputs, i + 1);
    } else {
      assert inputs[..i] == inputs;
    }
  }

  // ----- What the log tells -----------------------------------------------------------------------------------

  /** The body, unless it only frames the turn. */
  function Unframed(b: Body): seq<Body> {
    if b.TurnStart? || b.TurnFinish? then [] else [b]
  }

  /** Everything a log tells between its `turn-start` and its `turn-finish`. */
  function Bodies(log: seq<Event>): seq<Body> {
    if log == [] then [] else Bodies(log[..|log| - 1]) + Unframed(log[|log| - 1].body)
  }

  /** A text in slices of 16,000 characters, the last of them shorter. */
  function Slices(turnId: string, text: string): seq<Body> {
    if text == "" then []
    else
      var start := (|text| - 1) / SLICE * SLICE;
      Slices(turnId, text[..start]) + [TextDelta(TextIdOf(turnId), text[start..])]
  }

  lemma {:induction false} NoSlices(turnId: string, text: string)
    ensures Slices(turnId, text[..0]) == []
  {
  }

  lemma {:induction false} PartOfSlices(before: seq<Body>, turnId: string, text: string, to: nat)
    requires to <= |text| && to % SLICE == 0
    ensures before + Slices(turnId, text[..to]) <= before + Slices(turnId, text)
    decreases |text| - to
  {
    if to == |text| {
      assert text[..to] == text;
    } else {
      var next := if to + SLICE < |text| then to + SLICE else |text|;
      SlicesNext(turnId, text, to, next);
      if next < |text| {
        PartOfSlices(before, turnId, text, next);
      } else {
        assert text[..next] == text;
      }
    }
  }

  lemma {:induction false} SlicesNext(turnId: string, text: string, from: nat, to: nat)
    requires from < to <= |text| && from % SLICE == 0 && to - from <= SLICE
    ensures Slices(turnId, text[..to]) == Slices(turnId, text[..from]) + [TextDelta(TextIdOf(turnId), text[from..to])]
  {
    assert (to - 1) / SLICE * SLICE == from;
    assert text[..to][..from] == text[..from] && text[..to][from..] == text[from..to];
  }

  lemma {:induction false} BodiesSnoc(log: seq<Event>, e: Event)
    ensures Bodies(log + [e]) == Bodies(log) + Unframed(e.body)
  {
    assert (log + [e])[..|log|] == log;
  }

  /** What the adapter remembers of the activities, and those it has told so far. */
  datatype Notes = Notes(approach: string, plan: Option<(string, Option<string>)>, planned: bool, working: bool,
                         told: seq<Body>)

  const SILENT := Notes("", None, false, false, [])
  const APPROACH := 2_000

  /** The text that a delta releases. */
  function Released(p: Parser, delta: string): string {
    var emitted := Feed(p, delta).emitted;
    if |emitted| < |p.emitted| then "" else emitted[|p.emitted|..]
  }

  function TextNoted(n: Notes, text: string, turnId: string): Notes {
    var told := n.told + Slices(turnId, text);
    if text == "" || n.planned || |n.approach| >= APPROACH then n.(told := told)
    else n.(told := told,
            approach := if |n.approach + text| > APPROACH then (n.approach + text)[..APPROACH] else n.approach + text)
  }

  /** Before the first tool or web action, text that reads like an approach is told as a plan. */
  function Announced(n: Notes, v: VendorEvent, summarize: string -> string): Notes {
    var summary := summarize(n.approach);
    if !(v.VendorTool? || v.VendorWebAction?) || n.planned || summary == "" then n
    else n.(plan := Some(("Approach", Some(summary))), planned := true,
            told := n.told + [Plan("Approach", Some(summary), Running)])
  }

  function ActivityNoted(n: Notes, v: VendorEvent, summarize: string -> string): Notes
    requires !v.VendorText?
  {
    var a := Announced(n, v, summarize);
    if v.VendorFinish? then a
    else
      var told := a.told + [ActivityBody(v)];
      if v.VendorTool? then a.(working := true, told := told)
      else if v.VendorPlan?
        then a.(plan := Some((PlanTitle(v.title), Given(v.planSummary))), planned := true, told := told)
      else a.(told := told)
  }

  function ProgressBody(turnId: string, caption: string, state: WorkState): Body {
    Progress("progress-" + turnId, caption, state)
  }

  function Noted(n: Notes, p: Parser, input: Input, turnId: string, summarize: string -> string): Notes {
    match input
    case Heartbeat => n.(working := true, told := n.told + [ProgressBody(turnId, "Still working\U{2026}", Running)])
    case Fault => n
    case Vendor(v) => if v.VendorText? then TextNoted(n, Released(p, v.delta), turnId)
      else ActivityNoted(n, v, summarize)
  }

  /** Everything told for a run of inputs, in order: released text in slices, each vendor activity once, the plan that
      text announced and the heartbeats. */
  function NotedAll(inputs: seq<Input>, turnId: string, summarize: string -> string): Notes {
    if inputs == [] then SILENT
    else
      var before := inputs[..|inputs| - 1];
      Noted(NotedAll(before, turnId, summarize), FeedAll(Deltas(before)), inputs[|inputs| - 1], turnId, summarize)
  }

  function ArtifactBodies(files: seq<File>): seq<Body> {
    if files == [] then []
    else
      var file := files[|files| - 1];
      ArtifactBodies(files[..|files| - 1]) + [Artifact(file.artifactId, file.filename, None)]
  }

  function PlanDone(n: Notes): seq<Body> {
    if n.planned && n.plan.Some? then [Plan(n.plan.value.0, n.plan.value.1, Finished)] else []
  }

  function OutboxBodies(state: TurnState, outbox: Outbox): seq<Body> {
    if state != Completed || outbox.OutboxFault? then []
    else ArtifactBodies(outbox.files) + if outbox.notice.Some? then [Notice(outbox.notice.value)] else []
  }

  function WorkDone(n: Notes, state: TurnState, turnId: string): seq<Body> {
    if n.working then [ProgressBody(turnId, if state == NeedsInput then "Waiting for your reply"
                                    else "Work complete", Finished)] else []
  }

  /** What is told after the vendor has finished: the plan as done, the files, the notice and the work as done. */
  function Closing(n: Notes, state: TurnState, outbox: Outbox, turnId: string): seq<Body> {
    PlanDone(n) + OutboxBodies(state, outbox) + WorkDone(n, state, turnId)
  }

  /** Everything told by a turn that ends in `state`. */
  function TurnBodies(inputs: seq<Input>, state: TurnState, outbox: Outbox, turnId: string,
                      summarize: string -> string): seq<Body> {
    var n := NotedAll(inputs, turnId, summarize);
    n.told + Slices(turnId, FeedAll(Deltas(inputs)).pending) + Closing(n, state, outbox, turnId)
  }

  /** A log that tells a beginning of what an undisturbed turn tells, as text and as a whole. */
  ghost predicate TellsPart(log: seq<Event>, inputs: seq<Input>, outbox: Outbox, turnId: string,
                            summarize: string -> string) {
    && LogText(log) <= VendorMessage(inputs).emitted
    && Bodies(log) <= TurnBodies(inputs, EndState(inputs), outbox, turnId, summarize)
  }

  /** A log that tells all of it. */
  ghost predicate TellsAll(log: seq<Event>, inputs: seq<Input>, outbox: Outbox, turnId: string,
                           summarize: string -> string) {
    && LogText(log) == VendorMessage(inputs).emitted
    && Bodies(log) == TurnBodies(inputs, EndState(inputs), outbox, turnId, summarize)
  }

  /** What an uncancelled turn leaves. */
  ghost predicate EndsByItself(log: seq<Event>, sessionId: string, turnId: string, inputs: seq<Input>, outbox: Outbox,
                                summarize: string -> string) {
    && ClosedLog(log, sessionId, turnId) && |LogText(log)| <= MAX_TEXT
    && EndsAs(log[|log| - 1].body, inputs, outbox)
    && (FinalState(log) != Failed ==> TellsAll(log, inputs, outbox, turnId, summarize))
  }

  function TextIdOf(turnId: string): string {
    "text-" + turnId
  }

  /** A log that is still open: numbered from zero, one session and turn, `turn-start` first and only first, no
      `turn-finish`, and text in slices of 1 to 16,000 characters. */
  ghost predicate OpenLog(log: seq<Event>, sessionId: string, turnId: string) {
    forall i :: 0 <= i < |log| ==>
                  && log[i].sequence == i && log[i].sessionId == sessionId && log[i].turnId == turnId
                  && log[i].body.TurnStart? == (i == 0)
                  && !log[i].body.TurnFinish?
                  && (log[i].body.TextDelta?
                      ==> 1 <= |log[i].body.delta| <= SLICE && log[i].body.textId == TextIdOf(turnId))
  }

  /** A closed log: an open one followed by its `turn-finish`. */
  ghost predicate ClosedLog(log: seq<Event>, sessionId: string, turnId: string) {
    && |log| >= 2
    && OpenLog(log[..|log| - 1], sessionId, turnId)
    && log[|log| - 1].body.TurnFinish?
    && log[|log| - 1].sequence == |log| - 1
    && log[|log| - 1].sessionId == sessionId && log[|log| - 1].turnId == turnId
  }

  function FinalState(log: seq<Event>): TurnState
    requires log != [] && log[|log| - 1].body.TurnFinish?
  {
    log[|log| - 1].body.state
  }

  lemma {:induction false} NothingTold(inputs: seq<Input>, outbox: Outbox, turnId: string, summarize: string -> string)
    ensures LogText([]) == "" && Bodies([]) == [] && "" + "" == "" && [] + Unframed(TurnStart("")) == []
    ensures TellsPart([], inputs, outbox, turnId, summarize)
  {
  }

  lemma {:induction false} SameTelling(log: seq<Event>, log': seq<Event>, inputs: seq<Input>, outbox: Outbox,
                                       turnId: string, summarize: string -> string)
    requires LogText(log') == LogText(log) && Bodies(log') == Bodies(log)
    ensures TellsPart(log', inputs, outbox, turnId, summarize) == TellsPart(log, inputs, outbox, turnId, summarize)
  {
  }

  lemma {:induction false} NoArtifacts(before: seq<Body>)
    ensures before + ArtifactBodies([]) == before
  {
  }

  lemma {:induction false} OneMoreArtifact(before: seq<Body>, files: seq<File>, i: nat)
    requires i < |files|
    ensures before + ArtifactBodies(files[..i + 1])
            == before + ArtifactBodies(files[..i]) + [Artifact(files[i].artifactId, files[i].filename, None)]
  {
    assert files[..i + 1][..i] == files[..i];
  }

  lemma {:induction false} PartOfArtifacts(before: seq<Body>, files: seq<File>, i: nat)
    requires i <= |files|
    ensures before + ArtifactBodies(files[..i]) <= before + ArtifactBodies(files)
    decreases |files| - i
  {
    if i == |files| {
      assert files[..i] == files;
    } else {
      OneMoreArtifact(before, files, i);
      PartOfArtifacts(before, files, i + 1);
    }
  }

  lemma {:induction false} OutboxTold(before: seq<Body>, files: seq<File>, notice: Option<string>)
    ensures before + OutboxBodies(Completed, Collected(files, notice))
            == if notice.Some? then before + ArtifactBodies(files) + [Notice(notice.value)]
              else before + ArtifactBodies(files)
  {
  }

  lemma {:induction false} NoOutbox(before: seq<Body>, state: TurnState, outbox: Outbox)
    ensures state != Completed ==> before + OutboxBodies(state, outbox) == before
    ensures outbox.Collected? ==> outbox == Collected(outbox.files, outbox.notice)
  {
  }

  lemma {:induction false} ClosingIs(before: seq<Body>, n: Notes, state: TurnState, outbox: Outbox, turnId: string)
    ensures before + PlanDone(n) + OutboxBodies(state, outbox) + WorkDone(n, state, turnId)
            == before + Closing(n, state, outbox, turnId)
    ensures !n.working
            ==> before + Closing(n, state, outbox, turnId) == before + PlanDone(n) + OutboxBodies(state, outbox)
  {
  }

  lemma {:induction false} NothingReleased(before: seq<Body>, turnId: string)
    ensures Slices(turnId, "") == [] && before + Slices(turnId, "") == before
  {
  }

  lemma {:induction false} ReleasedNothing(p: Parser)
    ensures Released(p, "") == ""
  {
  }

  lemma {:induction false} ReleasedIs(p: Parser, delta: string, text: string)
    requires Feed(p, delta).emitted == p.emitted + text
    ensures Released(p, delta) == text
  {
  }

  lemma {:induction false} TurnBodiesAre(inputs: seq<Input>, state: TurnState, outbox: Outbox, turnId: string,
                                         summarize: string -> string)
    ensures var n := NotedAll(inputs, turnId, summarize);
            var told := n.told + Slices(turnId, FeedAll(Deltas(inputs)).pending);
            TurnBodies(inputs, state, outbox, turnId, summarize)
              == told + Closing(n.(told := told), state, outbox, turnId)
  {
    hide NotedAll, Slices, Deltas, FeedAll;
  }

  lemma {:induction false} ClosedEnds(log: seq<Event>, sessionId: string, turnId: string)
    requires ClosedLog(log, sessionId, turnId)
    ensures log != [] && log[|log| - 1].body.TurnFinish?
  {
  }

  lemma {:induction false} OpenGoesOn(log: seq<Event>, e: Event, sessionId: string, turnId: string)
    requires OpenLog(log, sessionId, turnId) && !e.body.TurnFinish? && e.body.TurnStart? == (log == [])
    requires e.sequence == |log| && e.sessionId == sessionId && e.turnId == turnId
    requires e.body.TextDelta? ==> 1 <= |e.body.delta| <= SLICE && e.body.textId == TextIdOf(turnId)
    ensures OpenLog(log + [e], sessionId, turnId)
  {
    assert forall i :: 0 <= i < |log| ==> (log + [e])[i] == log[i];
  }

  lemma {:induction false} FinishCloses(log: seq<Event>, e: Event, sessionId: string, turnId: string)
    requires OpenLog(log, sessionId, turnId) && e.body.TurnFinish?
    requires e.sequence == |log| && e.sessionId == sessionId && e.turnId == turnId
    ensures ClosedLog(log + [e], sessionId, turnId) <==> log != []
    ensures LogText(log + [e]) == LogText(log)
    ensures FinalState(log + [e]) == e.body.state
  {
    assert (log + [e])[..|log|] == log;
    assert LogText(log) + "" == LogText(log);
  }

  class DetachedTurn {
    const sessionId: string
    const turnId: string
    var events: seq<Event>
    var done: bool
    var terminal: bool

    constructor (sessionId: string, turnId: string)
      ensures this.sessionId == sessionId && this.turnId == turnId
      ensures events == [] && !done && !terminal
    {
      this.sessionId, this.turnId := sessionId, turnId;
      events, done, terminal := [], false, false;
    }

    method Publish(e: Event)
      modifies this
      ensures events == old(events) + [e]
      ensures terminal == (old(terminal) || e.body.TurnFinish?)
      ensures done == old(done)
    {
      events := events + [e];
      if e.body.TurnFinish? {
        terminal := true;
      }
    }

    method Close()
      modifies this`done
      ensures done
    {
      done := true;
    }

    /** One wake-up of a subscriber: everything past its cursor, and whether it is finished. */
    method NextBatch(cursor: nat) returns (batch: seq<Event>, next: nat, finished: bool)
      requires cursor <= |events|
      ensures events[..cursor] + batch == events
      ensures next == |events|
      ensures finished == done
    {
      batch := events[cursor..];
      next := |events|;
      finished := done;
    }
  }

  /** What happens around one wake-up of a subscriber: events published before it, perhaps the close, and events
      published while the batch is handed on. */
  datatype WakeUp = WakeUp(before: seq<Event>, closes: bool, during: seq<Event>)

  method PublishAll(turn: DetachedTurn, events: seq<Event>)
    modifies turn
    ensures turn.events == old(turn.events) + events && turn.done == old(turn.done)
  {
    for i := 0 to |events|
      invariant turn.events == old(turn.events) + events[..i] && turn.done == old(turn.done)
    {
      turn.Publish(events[i]);
    }
  }

  /** At this wake-up the turn is closed, and nothing is published while the batch is handed on. */
  predicate EndsAt(wakeUps: seq<WakeUp>, k: nat, done: bool)
    requires k < |wakeUps|
  {
    wakeUps[k].during == [] && (done || exists j :: 0 <= j <= k && wakeUps[j].closes)
  }

  /** Any number of subscribers read like this: at every moment one has seen a prefix of the log, all but what arrived
      since its last wake-up, and it returns exactly when it wakes up to a closed log with nothing more to come, which
      it has then seen whole. */
  method Subscribe(turn: DetachedTurn, wakeUps: seq<WakeUp>) returns (seen: seq<Event>, returned: bool)
    modifies turn
    ensures old(turn.events) <= turn.events && seen <= turn.events
    ensures returned ==> turn.done && seen == turn.events
    ensures returned <==> exists k :: 0 <= k < |wakeUps| && EndsAt(wakeUps, k, old(turn.done))
    ensures !returned && wakeUps != [] ==> turn.events == seen + wakeUps[|wakeUps| - 1].during
  {
    seen := [];
    var cursor: nat := 0;
    for k := 0 to |wakeUps|
      invariant old(turn.events) <= turn.events && cursor <= |turn.events| && seen == turn.events[..cursor]
      invariant turn.done <==> old(turn.done) || exists j :: 0 <= j < k && wakeUps[j].closes
      invariant forall j :: 0 <= j < k ==> !EndsAt(wakeUps, j, old(turn.done))
      invariant k > 0 ==> turn.events == seen + wakeUps[k - 1].during
    {
      PublishAll(turn, wakeUps[k].before);
      if wakeUps[k].closes {
        turn.Close();
      }
      var batch, next, finished := turn.NextBatch(cursor);
      seen := seen + batch;
      cursor := next;
      PublishAll(turn, wakeUps[k].during);
      if finished && cursor == |turn.events| {
        assert wakeUps[k].during == [] && EndsAt(wakeUps, k, old(turn.done));
        return seen, true;
      }
    }
    returned := false;
  }

  /** The generator behind one turn; its fields are the generator's local variables. A cancellation, if any,
      strikes before publication number `cancelAt`. */
  class TurnStream {
    const turn: DetachedTurn
    const cancelAt: Option<nat>
    const approachSummary: string -> string
    var sequence: nat
    var totalText: nat
    var pendingInitialText: string
    var textStateKnown: bool
    var needsInput: bool
    var approachBuffer: string
    var planDetails: Option<(string, Option<string>)>
    var planEmitted: bool
    var progressStarted: bool
    var terminalState: Option<TurnState>
    var vendorSessionId: Option<string>

    constructor (turn: DetachedTurn, cancelAt: Option<nat>, approachSummary: string -> string)
      requires turn.events == [] && !turn.done && !turn.terminal
      ensures this.turn == turn && this.cancelAt == cancelAt && this.approachSummary == approachSummary
      ensures Live() && Parsed() == START && totalText == 0 && Ended() == (None, None) && turn.events == []
              && Told() == SILENT
      ensures fresh(this)
    {
      this.turn, this.cancelAt, this.approachSummary := turn, cancelAt, approachSummary;
      sequence, totalText, pendingInitialText, textStateKnown, needsInput := 0, 0, "", false, false;
      approachBuffer, planDetails, planEmitted, progressStarted := "", None, false, false;
      terminalState, vendorSessionId := None, None;
    }

    /** The published log is open and within the text limit. */
    ghost predicate LogOpen()
      reads this, turn
    {
      && OpenLog(turn.events, turn.sessionId, turn.turnId)
      && !turn.done && !turn.terminal
      && |LogText(turn.events)| <= MAX_TEXT
      && (cancelAt.Some? ==> |turn.events| <= cancelAt.value)
    }

    /** Also, the next number to give out is the next one expected. */
    ghost predicate Live()
      reads this, turn
    {
      LogOpen() && sequence == |turn.events|
    }

    ghost function Parsed(): Parser
      reads this, turn
    {
      Parser(pendingInitialText, textStateKnown, needsInput, LogText(turn.events))
    }

    function Ended(): (Option<TurnState>, Option<string>)
      reads this
    {
      (terminalState, vendorSessionId)
    }

    /** What the generator has told so far. */
    ghost function Told(): Notes
      reads this, turn
    {
      Notes(approachBuffer, planDetails, planEmitted, progressStarted, Bodies(turn.events))
    }

    /** A raised exception finds the numbering intact, and an
        interruption strikes at `cancelAt`. */
    twostate predicate Advances(o: Outcome)
      reads this, turn
    {
      && old(turn.events) <= turn.events
      && LogOpen()
      && (o != Interrupted ==> Live())
      && (o == Interrupted ==> cancelAt == Some(|turn.events|))
    }

    /** Text state untouched. */
    twostate predicate KeepsText()
      reads this, turn
    {
      Parsed() == old(Parsed()) && totalText == old(totalText)
    }

    /** Number an event and publish it, unless the cancellation strikes in between. */
    method Emit(body: Body) returns (o: Outcome)
      requires Live() && !body.TurnFinish? && body.TurnStart? == (turn.events == [])
      requires body.TextDelta?
               ==> 1 <= |body.delta| <= SLICE && body.textId == TextIdOf(turn.turnId)
                   && |LogText(turn.events)| + |body.delta| <= MAX_TEXT
      modifies this`sequence, turn
      ensures o != Raised && Advances(o)
      ensures o == Interrupted ==> turn.events == old(turn.events)
      ensures o == Continue ==>
                && turn.events == old(turn.events) + [Event(old(sequence), turn.sessionId, turn.turnId, body)]
                && LogText(turn.events) == old(LogText(turn.events)) + (if body.TextDelta? then body.delta else "")
                && Bodies(turn.events) == old(Bodies(turn.events)) + Unframed(body)
    {
      hide OpenLog, LogText, Bodies, Unframed;
      var event := Event(sequence, turn.sessionId, turn.turnId, body);
      sequence := sequence + 1;
      if cancelAt == Some(|turn.events|) {
        return Interrupted;
      }
      LogTextSnoc(turn.events, event);
      BodiesSnoc(turn.events, event);
      OpenGoesOn(turn.events, event, turn.sessionId, turn.turnId);
      turn.Publish(event);
      o := Continue;
    }

    /** Publish text in slices of at most 16,000 characters. */
    method EmitSlices(text: string) returns (o: Outcome)
      requires Live() && turn.events != [] && |LogText(turn.events)| + |text| <= MAX_TEXT
      modifies this`sequence, turn
      ensures o != Raised && Advances(o) && LogText(turn.events) <= old(LogText(turn.events)) + text
      ensures Bodies(turn.events) <= old(Bodies(turn.events)) + Slices(turn.turnId, text)
      ensures o == Continue
              ==> LogText(turn.events) == old(LogText(turn.events)) + text
                  && Bodies(turn.events) == old(Bodies(turn.events)) + Slices(turn.turnId, text)
    {
      hide LogText, Bodies, OpenLog, Slices;
      var offset := 0;
      NoSlices(turn.turnId, text);
      while offset < |text|
        invariant 0 <= offset <= |text| && (offset % SLICE == 0 || offset == |text|)
        invariant Bodies(turn.events) == old(Bodies(turn.events)) + Slices(turn.turnId, text[..offset])
        invariant old(turn.events) <= turn.events && Live()
        invariant LogText(turn.events) == old(LogText(turn.events)) + text[..offset]
      {
        var next := if offset + SLICE < |text| then offset + SLICE else |text|;
        SliceExtends(old(LogText(turn.events)), text, offset, next);
        SlicesNext(turn.turnId, text, offset, next);
        o := Emit(TextDelta(TextIdOf(turn.turnId), text[offset..next]));
        if o != Continue {
          PartOfText(old(LogText(turn.events)), text, offset);
          PartOfSlices(old(Bodies(turn.events)), turn.turnId, text, offset);
          return;
        }
        offset := next;
      }
      assert text[..offset] == text;
      o := Continue;
    }

    /** Count released text against the limit, then publish it. */
    method Release(text: string) returns (o: Outcome)
      requires Live() && turn.events != [] && totalText == |LogText(turn.events)|
      modifies this`sequence, this`totalText, turn
      ensures Advances(o) && LogText(turn.events) <= old(LogText(turn.events)) + text
      ensures Bodies(turn.events) <= old(Bodies(turn.events)) + Slices(turn.turnId, text)
      ensures o == Continue ==> totalText == |LogText(turn.events)|
      ensures o == Continue
              ==> LogText(turn.events) == old(LogText(turn.events)) + text
                  && Bodies(turn.events) == old(Bodies(turn.events)) + Slices(turn.turnId, text)
      ensures o == Raised <==> old(|LogText(turn.events)|) + |text| > MAX_TEXT
    {
      totalText := totalText + |text|;
      if totalText > MAX_TEXT {
        return Raised;
      }
      o := EmitSlices(text);
    }

    /** Feed one delta to the marker buffer and say which text it releases. */
    method Decide(delta: string) returns (text: string)
      requires delta != "" && (textStateKnown ==> pendingInitialText == "")
      modifies this`pendingInitialText, this`textStateKnown, this`needsInput
      ensures Feed(old(Parsed()), delta) == Parsed().(emitted := LogText(turn.events) + text)
      ensures textStateKnown ==> pendingInitialText == ""
    {
      text := delta;
      if !textStateKnown {
        pendingInitialText := pendingInitialText + delta;
        var stripped := StripLeft(pendingInitialText);
        if NEEDS_INPUT_MARKER <= stripped {
          needsInput := true;
          text := StripLeft(stripped[|NEEDS_INPUT_MARKER|..]);
        } else if stripped <= NEEDS_INPUT_MARKER {
          assert LogText(turn.events) + "" == LogText(turn.events);
          return "";
        } else {
          text := pendingInitialText;
        }
        pendingInitialText := "";
        textStateKnown := true;
      }
    }

    method OnText(delta: string) returns (o: Outcome)
      requires Live() && turn.events != [] && totalText == |LogText(turn.events)|
      requires textStateKnown ==> pendingInitialText == ""
      modifies this, turn
      ensures Advances(o) && LogText(turn.events) <= Feed(old(Parsed()), delta).emitted
      ensures o == Continue ==> Parsed() == Feed(old(Parsed()), delta) && totalText == |LogText(turn.events)|
      ensures o == Raised ==> |Feed(old(Parsed()), delta).emitted| > MAX_TEXT
      ensures Bodies(turn.events) <= TextNoted(old(Told()), Released(old(Parsed()), delta), turn.turnId).told
      ensures o == Continue ==> Told() == TextNoted(old(Told()), Released(old(Parsed()), delta), turn.turnId)
      ensures Ended() == old(Ended())
    {
      FeedNothing(Parsed());
      ReleasedNothing(Parsed());
      hide Feed, LogText, OpenLog, Bodies, Released;
      NothingReleased(Bodies(turn.events), turn.turnId);
      hide Slices;
      if delta == "" {
        return Continue;
      }
      var text := Decide(delta);
      ReleasedIs(old(Parsed()), delta, text);
      TextNotedIs(Told(), text, turn.turnId);
      hide TextNoted;
      if text == "" {
        assert LogText(turn.events) + text == LogText(turn.events);
        return Continue;
      }
      NoteApproach(text);
      o := Release(text);
    }

    /** The beginning of the text, in which an approach may be found. */
    method NoteApproach(text: string)
      requires text != ""
      modifies this`approachBuffer
      ensures approachBuffer == TextNoted(old(Told()), text, turn.turnId).approach
    {
      hide Slices;
      if !planEmitted && |approachBuffer| < APPROACH {
        var joined := approachBuffer + text;
        approachBuffer := if |joined| > APPROACH then joined[..APPROACH] else joined;
      }
    }

    /** The undecided text left at the end of the vendor stream is ordinary text. */
    method FlushPending() returns (o: Outcome)
      requires Live() && turn.events != [] && totalText == |LogText(turn.events)|
      modifies this, turn
      ensures Advances(o) && LogText(turn.events) <= Flush(old(Parsed())).emitted
      ensures Bodies(turn.events) <= old(Told()).told + Slices(turn.turnId, old(pendingInitialText))
      ensures o == Continue ==> Parsed() == Flush(old(Parsed()))
      ensures o == Raised ==> |Flush(old(Parsed())).emitted| > MAX_TEXT
      ensures o == Continue
              ==> Told() == old(Told()).(told := old(Told()).told + Slices(turn.turnId, old(pendingInitialText)))
      ensures Ended() == old(Ended())
    {
      NothingReleased(Bodies(turn.events), turn.turnId);
      hide Slices, Bodies, OpenLog, LogText;
      if pendingInitialText == "" {
        return Continue;
      }
      var text := pendingInitialText;
      pendingInitialText := "";
      textStateKnown := true;
      o := Release(text);
    }

    /** Before the first tool or web action, text that reads like an approach is published as a plan. */
    method AnnouncePlan(v: VendorEvent) returns (o: Outcome)
      requires Live() && turn.events != []
      modifies this, turn
      ensures o != Raised && Advances(o) && LogText(turn.events) == old(LogText(turn.events))
      ensures Bodies(turn.events) <= Announced(old(Told()), v, approachSummary).told
      ensures o == Continue ==> KeepsText() && Told() == Announced(old(Told()), v, approachSummary)
      ensures Ended() == old(Ended())
    {
      hide Bodies;
      o := Continue;
      if (v.VendorTool? || v.VendorWebAction?) && !planEmitted {
        var summary := approachSummary(approachBuffer);
        if summary != "" {
          planDetails := Some(("Approach", Some(summary)));
          planEmitted := true;
          o := EmitQuiet(Plan("Approach", Some(summary), Running));
        }
      }
    }

    /** Publish an event that carries no text. */
    method EmitQuiet(body: Body) returns (o: Outcome)
      requires Live() && turn.events != [] && !body.TurnFinish? && !body.TurnStart? && !body.TextDelta?
      modifies this`sequence, turn
      ensures o != Raised && Advances(o) && LogText(turn.events) == old(LogText(turn.events))
      ensures Bodies(turn.events) == if o == Continue then old(Bodies(turn.events)) + [body]
              else old(Bodies(turn.events))
      ensures o == Continue ==> KeepsText()
    {
      o := Emit(body);
      assert o == Continue ==> LogText(turn.events) == old(LogText(turn.events)) + "" == old(LogText(turn.events));
    }

    method OnActivity(v: VendorEvent) returns (o: Outcome)
      requires Live() && turn.events != [] && !v.VendorText?
      modifies this, turn
      ensures o != Raised && Advances(o) && LogText(turn.events) == old(LogText(turn.events))
      ensures Bodies(turn.events) <= ActivityNoted(old(Told()), v, approachSummary).told
      ensures o == Continue ==> KeepsText() && Told() == ActivityNoted(old(Told()), v, approachSummary)
      ensures o == Continue ==> Ended() == NoteFinish(old(Ended()), Vendor(v))
    {
      hide OpenLog, LogText, Bodies, Announced;
      o := AnnouncePlan(v);
      if o != Continue {
        return;
      }
      if v.VendorFinish? {
        vendorSessionId := v.vendorSessionId;
        terminalState := Some(v.state);
        return;
      }
      if v.VendorTool? {
        progressStarted := true;
      } else if v.VendorPlan? {
        planDetails := Some((PlanTitle(v.title), Given(v.planSummary)));
        planEmitted := true;
      }
      o := EmitQuiet(ActivityBody(v));
    }

    method OnVendor(v: VendorEvent) returns (o: Outcome)
      requires Live() && turn.events != [] && totalText == |LogText(turn.events)|
      requires textStateKnown ==> pendingInitialText == ""
      modifies this, turn
      ensures Advances(o) && LogText(turn.events) <= FeedInput(old(Parsed()), Vendor(v)).emitted
      ensures o == Continue ==> totalText == |LogText(turn.events)|
      ensures o == Continue ==> Parsed() == if v.VendorText? then Feed(old(Parsed()), v.delta) else old(Parsed())
      ensures o == Continue ==> Ended() == NoteFinish(old(Ended()), Vendor(v))
      ensures o == Raised ==> v.VendorText? && |Feed(old(Parsed()), v.delta).emitted| > MAX_TEXT
      ensures Bodies(turn.events) <= Noted(old(Told()), old(Parsed()), Vendor(v), turn.turnId, approachSummary).told
      ensures o == Continue ==> Told() == Noted(old(Told()), old(Parsed()), Vendor(v), turn.turnId, approachSummary)
    {
      if v.VendorText? {
        o := OnText(v.delta);
      } else {
        o := OnActivity(v);
      }
    }

    /** The files and the notice of a completed turn. */
    method TellOutbox(files: seq<File>, notice: Option<string>) returns (o: Outcome)
      requires Live() && turn.events != []
      modifies this`sequence, turn
      ensures o != Raised && Advances(o) && LogText(turn.events) == old(LogText(turn.events))
      ensures Bodies(turn.events) <= old(Bodies(turn.events)) + OutboxBodies(Completed, Collected(files, notice))
      ensures o == Continue ==> KeepsText()
      ensures o == Continue
              ==> Bodies(turn.events)
                  == old(Bodies(turn.events)) + OutboxBodies(Completed, Collected(files, notice))
    {
      hide Bodies, ArtifactBodies, OutboxBodies;
      o := Continue;
      ghost var before := Bodies(turn.events);
      NoArtifacts(before);
      OutboxTold(before, files, notice);
      for i := 0 to |files|
        invariant old(turn.events) <= turn.events && Live() && turn.events != [] && KeepsText() && o == Continue
        invariant Bodies(turn.events) == before + ArtifactBodies(files[..i])
      {
        OneMoreArtifact(before, files, i);
        PartOfArtifacts(before, files, i);
        o := EmitQuiet(Artifact(files[i].artifactId, files[i].filename, None));
        if o != Continue { return; }
      }
      assert files[..|files|] == files;
      if notice.Some? {
        o := EmitQuiet(Notice(notice.value));
      }
    }

    /** The closing events that come before `turn-finish`. */
    method Epilogue(state: TurnState, outbox: Outbox) returns (o: Outcome)
      requires Live() && turn.events != []
      modifies this`sequence, turn
      ensures Advances(o) && LogText(turn.events) == old(LogText(turn.events))
      ensures Bodies(turn.events) <= old(Told()).told + Closing(old(Told()), state, outbox, turn.turnId)
      ensures o == Continue ==> KeepsText()
      ensures o == Raised ==> state == Completed && outbox.OutboxFault?
      ensures o == Continue ==> !(state == Completed && outbox.OutboxFault?)
      ensures o == Continue
              ==> Bodies(turn.events) == old(Told()).told + Closing(old(Told()), state, outbox, turn.turnId)
    {
      hide Bodies, OutboxBodies, LogText, OpenLog;
      ghost var before, n := Bodies(turn.events), Told();
      ClosingIs(before, n, state, outbox, turn.turnId);
      o := Continue;
      if planEmitted && planDetails.Some? {
        o := EmitQuiet(Plan(planDetails.value.0, planDetails.value.1, Finished));
        if o != Continue { return; }
      }
      assert Bodies(turn.events) == before + PlanDone(n);
      ghost var done := Bodies(turn.events);
      if state == Completed {
        if outbox.OutboxFault? {
          return Raised;
        }
        o := TellOutbox(outbox.files, outbox.notice);
        if o != Continue { return; }
      }
      NoOutbox(done, state, outbox);
      assert Bodies(turn.events) == done + OutboxBodies(state, outbox);
      if progressStarted {
        var caption := if state == NeedsInput then "Waiting for your reply" else "Work complete";
        o := EmitQuiet(Progress("progress-" + turn.turnId, caption, Finished));
      }
    }

    /** Number and publish the turn's own `turn-finish`. */
    method EmitFinish(state: TurnState, message: Option<string>, session: Option<string>) returns (o: Outcome)
      requires Live()
      modifies this`sequence, turn
      ensures o != Raised
      ensures o == Interrupted ==> LogOpen() && cancelAt == Some(|turn.events|) && turn.events == old(turn.events)
      ensures o == Continue ==>
                && turn.terminal && turn.events != [] && turn.events[|turn.events| - 1].body.TurnFinish?
                && (ClosedLog(turn.events, turn.sessionId, turn.turnId) <==> old(turn.events) != [])
                && turn.events[|turn.events| - 1].body == TurnFinish(state, message, session)
                && old(turn.events) <= turn.events
                && LogText(turn.events) == old(LogText(turn.events))
                && Bodies(turn.events) == old(Bodies(turn.events))
                && |turn.events| == old(|turn.events|) + 1
                && (cancelAt.Some? ==> |turn.events| <= cancelAt.value)
      ensures turn.done == old(turn.done)
    {
      hide LogText, Bodies, OpenLog, ClosedLog;
      var event := Event(sequence, turn.sessionId, turn.turnId, TurnFinish(state, message, session));
      sequence := sequence + 1;
      if cancelAt == Some(|turn.events|) {
        return Interrupted;
      }
      FinishCloses(turn.events, event, turn.sessionId, turn.turnId);
      BodiesSnoc(turn.events, event);
      turn.Publish(event);
      o := Continue;
    }

    method OnInput(input: Input) returns (o: Outcome)
      requires Live() && turn.events != [] && totalText == |LogText(turn.events)|
      requires textStateKnown ==> pendingInitialText == ""
      modifies this, turn
      ensures Advances(o) && LogText(turn.events) <= FeedInput(old(Parsed()), input).emitted
      ensures o == Continue ==>
                && totalText == |LogText(turn.events)| && input != Fault
                && Parsed() == FeedInput(old(Parsed()), input)
                && Ended() == NoteFinish(old(Ended()), input)
      ensures o == Raised ==> input == Fault || |FeedInput(old(Parsed()), input).emitted| > MAX_TEXT
      ensures Bodies(turn.events) <= Noted(old(Told()), old(Parsed()), input, turn.turnId, approachSummary).told
      ensures o == Continue ==> Told() == Noted(old(Told()), old(Parsed()), input, turn.turnId, approachSummary)
    {
      hide Bodies, LogText, OpenLog, Feed, ActivityNoted, TextNoted;
      match input {
        case Heartbeat =>
          progressStarted := true;
          o := EmitQuiet(Progress("progress-" + turn.turnId, "Still working\U{2026}", Running));
        case Fault =>
          o := Raised;
        case Vendor(v) =>
          o := OnVendor(v);
      }
    }

    /** The vendor loop: heartbeats, vendor events and exceptions, in the order they arrive. */
    method Consume(inputs: seq<Input>) returns (o: Outcome)
      requires Live() && turn.events != [] && Parsed() == START && totalText == 0 && Ended() == (None, None)
               && Told() == SILENT
      modifies this, turn
      ensures Advances(o) && LogText(turn.events) <= VendorMessage(inputs).emitted
      ensures Bodies(turn.events) <= NotedAll(inputs, turn.turnId, approachSummary).told
      ensures o == Continue ==>
                && Parsed() == FeedAll(Deltas(inputs)) && totalText == |LogText(turn.events)|
                && Ended() == VendorEnd(inputs) && Fault !in inputs
                && Told() == NotedAll(inputs, turn.turnId, approachSummary)
      ensures o == Raised ==> !Undisturbed(inputs)
    {
      hide Feed, FeedAll, Deltas, VendorEnd, NotedAll, Noted, NoteFinish, FeedInput, LogText, Bodies, OpenLog,
           Flush;
      o := Continue;
      var i := 0;
      NoInputs(inputs, turn.turnId, approachSummary);
      while i < |inputs|
        invariant 0 <= i <= |inputs|
        invariant o == Continue
        invariant old(turn.events) <= turn.events && Live()
        invariant Parsed() == FeedAll(Deltas(inputs[..i])) && totalText == |LogText(turn.events)|
        invariant Ended() == VendorEnd(inputs[..i]) && Fault !in inputs[..i]
        invariant Told() == NotedAll(inputs[..i], turn.turnId, approachSummary)
      {
        InputStep(inputs, i);
        InputNoted(inputs, i, turn.turnId, approachSummary);
        o := OnInput(inputs[i]);
        if o != Continue {
          EmittedGrows(inputs, i + 1);
          ToldGrows(inputs, i + 1, turn.turnId, approachSummary);
          return;
        }
        i := i + 1;
      }
      EmittedGrows(inputs, i);
      assert inputs[..i] == inputs;
    }

    /** The generator's `try` block after `turn-start`. */
    method Body(inputs: seq<Input>, outbox: Outbox) returns (o: Outcome)
      requires Live() && turn.events != [] && Parsed() == START && totalText == 0 && Ended() == (None, None)
               && Told() == SILENT
      modifies this, turn
      ensures old(turn.events) <= turn.events && (o != Continue ==> Advances(o))
      ensures TellsPart(turn.events, inputs, outbox, turn.turnId, approachSummary)
      ensures o == Raised ==> Breaks(inputs, outbox)
      ensures o == Continue ==>
                && turn.terminal && !turn.done && cancelAt != Some(0)
                && EndsByItself(turn.events, turn.sessionId, turn.turnId, inputs, outbox, approachSummary)
    {
      hide OpenLog, LogText, Deltas, VendorEnd, FeedAll, Bodies, NotedAll, Closing, Flush, Breaks, EndsByItself;
      TurnBodiesAre(inputs, EndState(inputs), outbox, turn.turnId, approachSummary);
      o := Consume(inputs);
      if o == Raised || (o == Continue && terminalState.None?) {
        UnfinishedBreaks(inputs, outbox);
        return Raised;
      }
      if o == Interrupted {
        return;
      }
      FeedAllExplains(Deltas(inputs));
      o := FlushPending();
      if o != Continue {
        if o == Raised {
          UnfinishedBreaks(inputs, outbox);
        }
        return;
      }
      o := Conclude(inputs, outbox);
    }

    /** What follows the vendor's text: the closing events and `turn-finish`. */
    method Conclude(inputs: seq<Input>, outbox: Outbox) returns (o: Outcome)
      requires Live() && turn.events != [] && Parsed() == VendorMessage(inputs)
      requires Ended() == VendorEnd(inputs) && terminalState.Some? && Undisturbed(inputs)
      requires var n := NotedAll(inputs, turn.turnId, approachSummary);
               Told() == n.(told := n.told + Slices(turn.turnId, FeedAll(Deltas(inputs)).pending))
      modifies this`sequence, turn
      ensures old(turn.events) <= turn.events && (o != Continue ==> Advances(o))
      ensures TellsPart(turn.events, inputs, outbox, turn.turnId, approachSummary)
      ensures o == Raised ==> Breaks(inputs, outbox)
      ensures o == Continue ==>
                && turn.terminal && !turn.done && cancelAt != Some(0)
                && EndsByItself(turn.events, turn.sessionId, turn.turnId, inputs, outbox, approachSummary)
    {
      hide OpenLog, LogText, VendorMessage, FeedAll, Deltas, VendorEnd, Bodies, NotedAll, Closing, Slices, Breaks,
           Undisturbed,
           EndsAs, Given, TurnBodies;
      var state := terminalState.value;
      if needsInput && state == Completed {
        state := NeedsInput;
      }
      TurnBodiesAre(inputs, state, outbox, turn.turnId, approachSummary);
      o := Epilogue(state, outbox);
      if o != Continue {
        if o == Raised {
          UnfinishedBreaks(inputs, outbox);
        }
        return;
      }
      CollectedDoesNotBreak(inputs, outbox);
      EndStateEnds(inputs, outbox);
      var message := if state == Cancelled then Some("The turn was cancelled") else None;
      o := EmitFinish(state, message, Given(vendorSessionId));
    }

    /** The whole generator: `turn-start`, the `try` block, and `turn-finish` with state failed for an exception. */
    method Run(messageId: string, inputs: seq<Input>, outbox: Outbox) returns (o: Outcome)
      requires Live() && turn.events == [] && Parsed() == START && totalText == 0 && Ended() == (None, None)
               && Told() == SILENT
      modifies this, turn
      ensures o != Raised
      ensures o == Interrupted ==> LogOpen() && cancelAt == Some(|turn.events|)
      ensures turn.events != [] ==> turn.events[0].body == TurnStart(messageId)
      ensures TellsPart(turn.events, inputs, outbox, turn.turnId, approachSummary)
      ensures o == Continue ==>
                && turn.terminal && !turn.done && cancelAt != Some(0) && turn.events != []
                && EndsByItself(turn.events, turn.sessionId, turn.turnId, inputs, outbox, approachSummary)
    {
      hide TurnBodies, LogText, Bodies, VendorMessage, Breaks, ClosedLog, EndState, TellsPart, TellsAll, FinalState,
           OpenLog, EndsByItself;
      o := Start(messageId, inputs, outbox);
      if o != Continue {
        return;
      }
      o := Body(inputs, outbox);
      if o == Raised {
        o := Fail(inputs, outbox);
      }
    }

    /** `turn-start`, before anything is told. */
    method Start(messageId: string, inputs: seq<Input>, outbox: Outbox) returns (o: Outcome)
      requires Live() && turn.events == [] && Parsed() == START && Told() == SILENT
      modifies this`sequence, turn
      ensures o in {Continue, Interrupted} && TellsPart(turn.events, inputs, outbox, turn.turnId, approachSummary)
      ensures o == Interrupted ==> LogOpen() && cancelAt == Some(|turn.events|)
      ensures o == Continue ==> Live() && Parsed() == START && Told() == SILENT
      ensures o == Interrupted ==> turn.events == []
      ensures o == Continue ==> turn.events == [Event(0, turn.sessionId, turn.turnId, TurnStart(messageId))]
    {
      NothingTold(inputs, outbox, turn.turnId, approachSummary);
      hide TurnBodies, LogText, Bodies, VendorMessage, TellsPart, OpenLog, EndState;
      o := Emit(TurnStart(messageId));
      SameTelling([], turn.events, inputs, outbox, turn.turnId, approachSummary);
    }

    /** `turn-finish` after an exception. */
    method Fail(inputs: seq<Input>, outbox: Outbox) returns (o: Outcome)
      requires Live() && turn.events != [] && Breaks(inputs, outbox)
      requires TellsPart(turn.events, inputs, outbox, turn.turnId, approachSummary)
      modifies this`sequence, turn
      ensures old(turn.events) <= turn.events
      ensures o in {Continue, Interrupted} && TellsPart(turn.events, inputs, outbox, turn.turnId, approachSummary)
      ensures o == Interrupted ==> LogOpen() && cancelAt == Some(|turn.events|)
      ensures o == Continue ==>
                && turn.terminal && !turn.done && cancelAt != Some(0)
                && EndsByItself(turn.events, turn.sessionId, turn.turnId, inputs, outbox, approachSummary)
    {
      hide TurnBodies, LogText, Bodies, VendorMessage, Breaks, ClosedLog, EndState, TellsPart, TellsAll, OpenLog;
      ghost var told := turn.events;
      o := EmitFinish(Failed, Some("The agent could not complete the turn"), None);
      SameTelling(told, turn.events, inputs, outbox, turn.turnId, approachSummary);
    }
  }

  /** What a turn leaves. Its log ends with a `turn-finish` and is closed unless the cancellation came before
      `turn-start`; its state is the verdict, or cancelled at the point of the cancellation; it tells a beginning of
      what an undisturbed turn tells, and all of it if it ends as completed or needs_input. */
  ghost predicate IsTurn(log: seq<Event>, sessionId: string, turnId: string, messageId: string, inputs: seq<Input>,
                         outbox: Outbox, cancelAt: Option<nat>, summarize: string -> string) {
    && log != [] && log[|log| - 1].body.TurnFinish?
    && (ClosedLog(log, sessionId, turnId) <==> cancelAt != Some(0)) && (cancelAt == Some(0) ==> |log| == 1)
    && (cancelAt != Some(0) ==> log[0].body == TurnStart(messageId))
    && |LogText(log)| <= MAX_TEXT
    && (EndsAs(log[|log| - 1].body, inputs, outbox)
        || (cancelAt == Some(|log| - 1)
            && log[|log| - 1].body == TurnFinish(Cancelled, Some("Stopped by the employee"), None)))
    && TellsPart(log, inputs, outbox, turnId, summarize)
    && (FinalState(log) in {Completed, NeedsInput} ==> TellsAll(log, inputs, outbox, turnId, summarize))
  }

  /** The detached producer. Whatever the vendor sends, wherever an exception or the one cancellation strikes, the log
      it leaves is closed, and unless the cancellation came before `turn-start` it is a complete turn. */
  method ProduceTurn(sessionId: string, turnId: string, messageId: string, inputs: seq<Input>, outbox: Outbox,
                     cancelAt: Option<nat>, approachSummary: string -> string)
    returns (turn: DetachedTurn)
    ensures fresh(turn) && turn.sessionId == sessionId && turn.turnId == turnId && turn.done
    ensures IsTurn(turn.events, sessionId, turnId, messageId, inputs, outbox, cancelAt, approachSummary)
  {
    hide OpenLog, ClosedLog, LogText, VendorMessage, Breaks, EndsAs, TurnBodies, Bodies, EndState;
    turn := new DetachedTurn(sessionId, turnId);
    var stream := new TurnStream(turn, cancelAt, approachSummary);
    var o := stream.Run(messageId, inputs, outbox);
    if o == Interrupted && !turn.terminal {
      var message := "Stopped by the employee";
      var cancelled := Event(|turn.events|, sessionId, turnId, TurnFinish(Cancelled, Some(message), None));
      FinishCloses(turn.events, cancelled, sessionId, turnId);
      BodiesSnoc(turn.events, cancelled);
      turn.Publish(cancelled);
    } else {
      ClosedEnds(turn.events, sessionId, turnId);
    }
    turn.Close();
  }
}
