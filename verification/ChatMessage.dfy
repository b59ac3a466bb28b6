/** Folding a validated log into the persisted message, projecting it to interface chunks, and reconciling it with
    later operation state. */
module ChatMessage {
  import opened Text
  import opened ChatEvents
  import TurnAdapter

  datatype Part =
    | TextPart(text: string, streaming: bool)
    | ProgressPart(id: string, caption: string, workState: WorkState)
    | ToolPart(id: string, toolState: ToolState, toolSummary: string)
    | ApprovalPart(id: string, operationId: string, approvalState: ApprovalState, summary: string)
    | FilePart(id: string, revisionId: string)
    | TerminalPart(id: string, state: TurnState, message: Option<string>)

  /** The message under construction; `state` is `None` while it is streaming. */
  datatype Message = Message(parts: seq<Part>, state: Option<TurnState>)

  datatype ApplyError = NoMessage | ArtifactNotFinalized | PartReused

  datatype Result<T> = Ok(value: T) | Err(error: ApplyError)

  datatype Accumulated = Accumulated(message: Option<Message>, textParts: map<string, nat>)

  const EMPTY := Accumulated(None, map[])

  predicate HasId(part: Part, id: string) {
    !part.TextPart? && part.id == id
  }

  /** The first part with this identifier, or the number of parts. */
  function IndexOfId(parts: seq<Part>, id: string): (i: nat)
    ensures i <= |parts| && (i < |parts| ==> HasId(parts[i], id))
    ensures forall j :: 0 <= j < i ==> !HasId(parts[j], id)
  {
    if parts == [] || HasId(parts[0], id) then 0 else 1 + IndexOfId(parts[1..], id)
  }

  function Upsert(parts: seq<Part>, part: Part): seq<Part>
    requires !part.TextPart?
  {
    var i := IndexOfId(parts, part.id);
    if i < |parts| then parts[i := part] else parts + [part]
  }

  function ProgressIdOf(turnId: string): string {
    "progress-" + turnId
  }

  function EndCaption(state: TurnState): string {
    match state
    case NeedsInput => "Waiting for your reply"
    case Cancelled => "Work stopped"
    case Failed => "Work failed"
    case Completed => "Work complete"
  }

  function ClosePart(part: Part, state: TurnState): Part {
    match part
    case TextPart(text, _) => TextPart(text, false)
    case ProgressPart(id, caption, Running) => ProgressPart(id, EndCaption(state), Finished)
    case _ => part
  }

  function CloseParts(parts: seq<Part>, state: TurnState): (r: seq<Part>)
    ensures |r| == |parts| && forall i :: 0 <= i < |parts| ==> r[i] == ClosePart(parts[i], state)
  {
    seq(|parts|, i requires 0 <= i < |parts| => ClosePart(parts[i], state))
  }

  function TextTo(a: Accumulated, textId: string, delta: string): Result<Accumulated>
    requires a.message.Some?
  {
    var parts := a.message.value.parts;
    if textId !in a.textParts then
      Ok(Accumulated(Some(a.message.value.(parts := parts + [TextPart(delta, true)])), a.textParts[textId := |parts|]))
    else
      var i := a.textParts[textId];
      if i >= |parts| || !parts[i].TextPart? then Err(PartReused)
      else Ok(a.(message := Some(a.message.value.(parts := parts[i := parts[i].(text := parts[i].text + delta)]))))
  }

  /** One event, as the source's `apply`. A new `turn-start` replaces the message but not the text index. */
  function ApplyEvent(a: Accumulated, e: Event): Result<Accumulated> {
    if e.body.TurnStart? then Ok(a.(message := Some(Message([], None))))
    else if a.message.None? then Err(NoMessage)
    else
      var m := a.message.value;
      match e.body
      case TextDelta(textId, delta) => TextTo(a, textId, delta)
      case Artifact(id, _, revision) =>
        if revision.None? then Err(ArtifactNotFinalized)
        else Ok(a.(message := Some(m.(parts := m.parts + [FilePart(id, revision.value)]))))
      case Progress(id, caption, state) =>
        Ok(a.(message := Some(m.(parts := Upsert(m.parts, ProgressPart(id, caption, state))))))
      case Tool(_, _, _, _, Some(caption)) =>
        Ok(a.(message := Some(m.(parts := Upsert(m.parts, ProgressPart(ProgressIdOf(e.turnId), caption, Running))))))
      case Approval(id, operation, state, summary) =>
        Ok(a.(message := Some(m.(parts := Upsert(m.parts, ApprovalPart(id, operation, state, summary))))))
      case TurnFinish(state, message, _) =>
        Ok(a.(message := Some(Message(CloseParts(m.parts, state)
                                      + [TerminalPart("terminal-" + e.turnId, state, message)], Some(state)))))
      case _ => Ok(a)
  }

  function ApplyAll(log: seq<Event>): Result<Accumulated> {
    if log == [] then Ok(EMPTY)
    else
      var a := ApplyAll(log[..|log| - 1]);
      if a.Err? then a else ApplyEvent(a.value, log[|log| - 1])
  }

  class AgentMessageAccumulator {
    var message: Option<Message>
    var textParts: map<string, nat>

    ghost function View(): Accumulated
      reads this
    {
      Accumulated(message, textParts)
    }

    constructor ()
      ensures View() == EMPTY
    {
      message, textParts := None, map[];
    }

    method Apply(e: Event) returns (error: Option<ApplyError>)
      modifies this
      ensures ApplyEvent(old(View()), e) == if error.None? then Ok(View()) else Err(error.value)
      ensures error.Some? ==> View() == old(View())
    {
      if e.body.TurnStart? {
        message := Some(Message([], None));
        return None;
      }
      if message.None? {
        return Some(NoMessage);
      }
      var parts := message.value.parts;
      match e.body {
        case TextDelta(textId, delta) =>
          if textId !in textParts {
            textParts := textParts[textId := |parts|];
            parts := parts + [TextPart(delta, true)];
          } else {
            var index := textParts[textId];
            if index >= |parts| || !parts[index].TextPart? {
              return Some(PartReused);
            }
            parts := parts[index := parts[index].(text := parts[index].text + delta)];
          }
        case Artifact(id, _, revision) =>
          if revision.None? {
            return Some(ArtifactNotFinalized);
          }
          parts := parts + [FilePart(id, revision.value)];
        case Progress(id, caption, state) =>
          parts := Upsert(parts, ProgressPart(id, caption, state));
        case Tool(_, _, _, _, Some(caption)) =>
          parts := Upsert(parts, ProgressPart(ProgressIdOf(e.turnId), caption, Running));
        case Approval(id, operation, state, summary) =>
          parts := Upsert(parts, ApprovalPart(id, operation, state, summary));
        case TurnFinish(state, finishMessage, _) =>
          ghost var open := parts;
          for i := 0 to |parts|
            invariant |parts| == |open|
            invariant forall j :: 0 <= j < |open| ==> parts[j] == if j < i then ClosePart(open[j], state) else open[j]
          {
            parts := parts[i := ClosePart(parts[i], state)];
          }
          assert parts == CloseParts(open, state);
          parts := parts + [TerminalPart("terminal-" + e.turnId, state, finishMessage)];
          message := Some(message.value.(state := Some(state)));
        case _ =>
      }
      message := Some(message.value.(parts := parts));
      error := None;
    }
  }

  // ----- The text index ---------------------------------------------------------------------------------------

  /** A log that starts once. */
  ghost predicate StartsOnce(log: seq<Event>) {
    forall i :: 0 <= i < |log| ==> log[i].body.TurnStart? == (i == 0)
  }

  function TextById(log: seq<Event>, textId: string): string {
    if log == [] then ""
    else
      var e := log[|log| - 1];
      TextById(log[..|log| - 1], textId) + if e.body.TextDelta? && e.body.textId == textId then e.body.delta else ""
  }

  ghost predicate MentionsText(log: seq<Event>, textId: string) {
    exists i :: 0 <= i < |log| && log[i].body.TextDelta? && log[i].body.textId == textId
  }

  ghost predicate IndexOf(textParts: map<string, nat>, i: nat) {
    exists t :: t in textParts && textParts[t] == i
  }

  /** Every stored index points at a text part, no two at the same one, and no text part is unindexed. */
  ghost predicate Indexed(parts: seq<Part>, textParts: map<string, nat>) {
    && (forall t :: t in textParts ==> textParts[t] < |parts| && parts[textParts[t]].TextPart?)
    && (forall t, u :: t in textParts && u in textParts && t != u ==> textParts[t] != textParts[u])
    && (forall i :: 0 <= i < |parts| && parts[i].TextPart? ==> IndexOf(textParts, i))
  }

  ghost predicate TextIndexed(a: Accumulated) {
    a.message.Some? ==> Indexed(a.message.value.parts, a.textParts)
  }

  /** Parts that are text in the same places are indexed by the same map. */
  lemma {:induction false} SameTextPlaces(parts: seq<Part>, parts': seq<Part>, textParts: map<string, nat>)
    requires Indexed(parts, textParts) && TextsStay(parts, parts')
    ensures Indexed(parts', textParts)
  {
  }

  lemma {:induction false} NewTextPlace(parts: seq<Part>, textParts: map<string, nat>, textId: string, part: Part)
    requires Indexed(parts, textParts) && textId !in textParts && part.TextPart?
    ensures Indexed(parts + [part], textParts[textId := |parts|])
  {
    var parts', textParts' := parts + [part], textParts[textId := |parts|];
    forall i | 0 <= i < |parts'| && parts'[i].TextPart?
      ensures IndexOf(textParts', i)
    {
      if i < |parts| {
        assert parts[i].TextPart?;
        var t :| t in textParts && textParts[t] == i;
        assert t in textParts' && textParts'[t] == i;
      } else {
        assert textId in textParts' && textParts'[textId] == i;
      }
    }
  }

  lemma {:induction false} ApplyKeepsIndex(a: Accumulated, e: Event)
    requires TextIndexed(a) && !e.body.TurnStart? && a.message.Some?
    ensures var r := ApplyEvent(a, e);
            && (r.Err? <==> e.body.Artifact? && e.body.revisionId.None?)
            && (r.Err? ==> r.error == ArtifactNotFinalized)
            && (r.Ok? ==> r.value.message.Some? && TextIndexed(r.value))
  {
    hide Indexed;
    if e.body.TextDelta? {
      DeltaKeepsIndex(a, e);
    } else if ApplyEvent(a, e).Ok? {
      var parts := a.message.value.parts;
      OtherPartsKeepTexts(a, e);
      hide ApplyEvent, TextsStay;
      SameTextPlaces(parts, ApplyEvent(a, e).value.message.value.parts, a.textParts);
    }
  }

  /** Text parts are in the same places. */
  ghost predicate TextsStay(parts: seq<Part>, parts': seq<Part>) {
    |parts| <= |parts'| && forall i :: 0 <= i < |parts'| ==> parts'[i].TextPart? == (i < |parts| && parts[i].TextPart?)
  }

  lemma {:induction false} UpsertKeepsTexts(parts: seq<Part>, part: Part)
    requires !part.TextPart?
    ensures TextsStay(parts, Upsert(parts, part))
  {
  }

  lemma {:induction false} OtherPartsKeepTexts(a: Accumulated, e: Event)
    requires a.message.Some? && !e.body.TurnStart? && !e.body.TextDelta? && ApplyEvent(a, e).Ok?
    ensures ApplyEvent(a, e).value.message.Some? && ApplyEvent(a, e).value.textParts == a.textParts
    ensures TextsStay(a.message.value.parts, ApplyEvent(a, e).value.message.value.parts)
  {
    var parts := a.message.value.parts;
    match e.body {
      case Progress(id, caption, state) => UpsertKeepsTexts(parts, ProgressPart(id, caption, state));
      case Tool(_, _, _, _, Some(caption)) =>
        UpsertKeepsTexts(parts, ProgressPart(ProgressIdOf(e.turnId), caption, Running));
      case Approval(id, operation, state, summary) =>
        UpsertKeepsTexts(parts, ApprovalPart(id, operation, state, summary));
      case _ =>
    }
    hide Upsert;
  }

  lemma {:induction false} DeltaKeepsIndex(a: Accumulated, e: Event)
    requires TextIndexed(a) && e.body.TextDelta? && a.message.Some?
    ensures var r := ApplyEvent(a, e); r.Ok? && r.value.message.Some? && TextIndexed(r.value)
  {
    var parts := a.message.value.parts;
    assert ApplyEvent(a, e) == TextTo(a, e.body.textId, e.body.delta);
    hide ApplyEvent;
    if e.body.textId !in a.textParts {
      NewTextPlace(parts, a.textParts, e.body.textId, TextPart(e.body.delta, true));
    } else {
      SameTextPlaces(parts, TextTo(a, e.body.textId, e.body.delta).value.message.value.parts, a.textParts);
    }
  }

  /** A log that starts once is accumulated without error as soon as its files are finalized; in particular "the
      agent reused a chat part identifier" cannot happen. */
  lemma {:induction false} AccumulatesIff(log: seq<Event>)
    requires StartsOnce(log)
    ensures ApplyAll(log).Ok? <==> forall i :: 0 <= i < |log| && log[i].body.Artifact? ==> log[i].body.revisionId.Some?
    ensures ApplyAll(log).Err? ==> ApplyAll(log).error == ArtifactNotFinalized
    ensures ApplyAll(log).Ok? && log != [] ==> ApplyAll(log).value.message.Some? && TextIndexed(ApplyAll(log).value)
  {
    if log != [] {
      var n := |log| - 1;
      AccumulatesIff(log[..n]);
      if n > 0 && ApplyAll(log[..n]).Ok? {
        ApplyKeepsIndex(ApplyAll(log[..n]).value, log[n]);
      }
      assert forall i :: 0 <= i < n ==> log[..n][i] == log[i];
    }
  }

  /** A second `turn-start`, which the stream validator does not rule out, breaks that: the old index outlives the
      parts it pointed into. */
  lemma {:induction false} SecondStartBreaksIndex(start: Event, text: Event)
    requires start.body.TurnStart? && text.body.TextDelta?
    ensures ApplyAll([start, text, start, text]) == Err(PartReused)
  {
    assert [start, text, start, text][..3] == [start, text, start];
    assert [start, text, start][..2] == [start, text];
    assert [start, text][..1] == [start];
    assert [start][..0] == [];
    assert ApplyAll([start]) == Ok(Accumulated(Some(Message([], None)), map[]));
    assert ApplyAll([start, text]).value.textParts == map[text.body.textId := 0];
    assert ApplyAll([start, text, start]).value.textParts == map[text.body.textId := 0];
  }

  function TextOf(a: Accumulated, textId: string): string
    requires TextIndexed(a)
  {
    if a.message.Some? && textId in a.textParts then a.message.value.parts[a.textParts[textId]].text else ""
  }

  lemma {:induction false} ApplyKeepsTexts(a: Accumulated, e: Event, textId: string)
    requires TextIndexed(a) && !e.body.TurnStart? && a.message.Some? && ApplyEvent(a, e).Ok?
    ensures TextIndexed(ApplyEvent(a, e).value)
    ensures var mine := e.body.TextDelta? && e.body.textId == textId;
            && (textId in ApplyEvent(a, e).value.textParts <==> textId in a.textParts || mine)
            && TextOf(ApplyEvent(a, e).value, textId) == TextOf(a, textId) + if mine then e.body.delta else ""
  {
    ApplyKeepsIndex(a, e);
    hide ApplyEvent;
    if e.body.TextDelta? {
      DeltaGoesToItsText(a, e, textId);
    } else {
      OtherPartsKeepTexts(a, e);
      assert TextOf(a, textId) + "" == TextOf(a, textId);
      if textId in a.textParts {
        OtherEventKeepsText(a, e, a.textParts[textId]);
      }
    }
  }

  lemma {:induction false} DeltaGoesToItsText(a: Accumulated, e: Event, textId: string)
    requires TextIndexed(a) && a.message.Some? && e.body.TextDelta?
    requires ApplyEvent(a, e).Ok? && TextIndexed(ApplyEvent(a, e).value)
    ensures textId in ApplyEvent(a, e).value.textParts <==> textId in a.textParts || e.body.textId == textId
    ensures TextOf(ApplyEvent(a, e).value, textId) == TextOf(a, textId) + if e.body.textId == textId then e.body.delta
            else ""
  {
    assert ApplyEvent(a, e) == TextTo(a, e.body.textId, e.body.delta);
    hide ApplyEvent;
    assert TextOf(a, textId) + "" == TextOf(a, textId) && "" + e.body.delta == e.body.delta;
  }

  lemma {:induction false} OtherEventKeepsText(a: Accumulated, e: Event, k: nat)
    requires a.message.Some? && k < |a.message.value.parts| && a.message.value.parts[k].TextPart?
    requires !e.body.TurnStart? && !e.body.TextDelta? && ApplyEvent(a, e).Ok?
    ensures var parts := ApplyEvent(a, e).value.message.value.parts;
            k < |parts| && parts[k].TextPart? && parts[k].text == a.message.value.parts[k].text
  {
    if e.body.TurnFinish? {
      assert CloseParts(a.message.value.parts, e.body.state)[k] == ClosePart(a.message.value.parts[k], e.body.state);
    }
  }

  /** Each text part is the concatenation of its deltas, for any mixture of text identifiers. */
  lemma {:induction false} TextsAreDeltas(log: seq<Event>, textId: string)
    requires StartsOnce(log) && ApplyAll(log).Ok? && log != []
    ensures ApplyAll(log).value.message.Some? && TextIndexed(ApplyAll(log).value)
    ensures textId in ApplyAll(log).value.textParts <==> MentionsText(log, textId)
    ensures TextOf(ApplyAll(log).value, textId) == TextById(log, textId)
  {
    AccumulatesIff(log);
    MentionsStep(log, textId);
    var n := |log| - 1;
    if n > 0 {
      TextsAreDeltas(log[..n], textId);
      ApplyKeepsTexts(ApplyAll(log[..n]).value, log[n], textId);
    } else {
      assert log[..0] == [];
    }
  }

  lemma {:induction false} MentionsStep(log: seq<Event>, t: string)
    requires log != []
    ensures var last := log[|log| - 1];
            MentionsText(log, t)
            <==> MentionsText(log[..|log| - 1], t) || (last.body.TextDelta? && last.body.textId == t)
  {
    var n := |log| - 1;
    if MentionsText(log[..n], t) {
      var i :| 0 <= i < n && log[..n][i].body.TextDelta? && log[..n][i].body.textId == t;
      assert log[i].body.TextDelta?;
    }
    if MentionsText(log, t) {
      var i :| 0 <= i < |log| && log[i].body.TextDelta? && log[i].body.textId == t;
      if i < n {
        assert log[..n][i].body.TextDelta?;
      }
    }
  }

  /** All the text of a message, in order. */
  function MessageText(parts: seq<Part>): string {
    if parts == [] then ""
    else MessageText(parts[..|parts| - 1]) + if parts[|parts| - 1].TextPart? then parts[|parts| - 1].text else ""
  }

  lemma {:induction false} OnlyTextPart(parts: seq<Part>, k: nat)
    requires forall i :: 0 <= i < |parts| && parts[i].TextPart? ==> i == k
    ensures MessageText(parts) == if k < |parts| && parts[k].TextPart? then parts[k].text else ""
  {
    if parts != [] {
      OnlyTextPart(parts[..|parts| - 1], k);
    }
  }

  lemma {:induction false} OneTextId(log: seq<Event>, textId: string)
    requires forall i :: 0 <= i < |log| && log[i].body.TextDelta? ==> log[i].body.textId == textId
    ensures TextById(log, textId) == LogText(log)
  {
    if log != [] {
      OneTextId(log[..|log| - 1], textId);
      assert log[|log| - 1] == log[..][|log| - 1];
    }
  }

  /** The accumulated message of an adapter's turn holds exactly the text of its log. */
  lemma {:induction false} MessageKeepsText(log: seq<Event>, sessionId: string, turnId: string)
    requires TurnAdapter.ClosedLog(log, sessionId, turnId)
    requires forall i :: 0 <= i < |log| && log[i].body.Artifact? ==> log[i].body.revisionId.Some?
    ensures ApplyAll(log).Ok? && ApplyAll(log).value.message.Some?
    ensures MessageText(ApplyAll(log).value.message.value.parts) == LogText(log)
  {
    var n := |log| - 1;
    forall i | 0 <= i < |log|
      ensures log[i].body.TurnStart? == (i == 0)
      ensures log[i].body.TextDelta? ==> log[i].body.textId == TurnAdapter.TextIdOf(turnId)
    {
      if i < n {
        assert log[..n][i] == log[i];
      }
    }
    AccumulatesIff(log);
    var id := TurnAdapter.TextIdOf(turnId);
    TextsAreDeltas(log, id);
    OneTextId(log, id);
    var a := ApplyAll(log).value;
    var parts := a.message.value.parts;
    var k := if id in a.textParts then a.textParts[id] else |parts|;
    forall i | 0 <= i < |parts| && parts[i].TextPart?
      ensures i == k
    {
      assert IndexOf(a.textParts, i);
      var t :| t in a.textParts && a.textParts[t] == i;
      TextsAreDeltas(log, t);
    }
    OnlyTextPart(parts, k);
  }

  // ----- After the end ----------------------------------------------------------------------------------------

  ghost predicate Settled(parts: seq<Part>) {
    forall i :: 0 <= i < |parts| ==>
                  && !(parts[i].TextPart? && parts[i].streaming)
                  && !(parts[i].ProgressPart? && parts[i].workState == Running)
                  && !parts[i].ToolPart?
  }

  lemma {:induction false} NoToolParts(log: seq<Event>)
    requires ApplyAll(log).Ok? && ApplyAll(log).value.message.Some?
    ensures forall p :: p in ApplyAll(log).value.message.value.parts ==> !p.ToolPart?
  {
    if log != [] {
      var before, e := ApplyAll(log[..|log| - 1]).value, log[|log| - 1];
      if before.message.Some? {
        NoToolParts(log[..|log| - 1]);
      }
      NoToolPart(before, e);
      hide ApplyEvent;
    }
  }

  lemma {:induction false} NoToolPart(a: Accumulated, e: Event)
    requires ApplyEvent(a, e).Ok? && ApplyEvent(a, e).value.message.Some?
    requires a.message.Some? ==> forall p :: p in a.message.value.parts ==> !p.ToolPart?
    ensures forall p :: p in ApplyEvent(a, e).value.message.value.parts ==> !p.ToolPart?
  {
    if a.message.Some? {
      var parts, after := a.message.value.parts, ApplyEvent(a, e).value.message.value.parts;
      assert forall i :: 0 <= i < |after| && i < |parts| ==> parts[i] in parts;
    }
  }

  /** Nothing is left streaming or running by a `turn-finish`, whatever came before. */
  lemma {:induction false} FinishSettles(log: seq<Event>)
    requires log != [] && log[|log| - 1].body.TurnFinish? && ApplyAll(log).Ok?
    ensures ApplyAll(log).value.message.Some?
    ensures Settled(ApplyAll(log).value.message.value.parts)
  {
    NoToolParts(log);
  }

  // ----- Reconciliation with operation state -----------------------------------------------------------------

  datatype Operation = Operation(state: ApprovalState, safeSummary: string)

  function ApprovalText(state: ApprovalState, action: string): string {
    if action != "" then
      match state {
        case ApprovalRequired => "Approval needed: " + action
        case Approved => "Approved: " + action
        case Executing => "Running: " + action
        case Succeeded => "Completed: " + action
        case Denied => "Denied: " + action
        case ApprovalFailed => "Failed: " + action
        case Expired => "Expired: " + action
      }
    else
      match state {
        case ApprovalRequired => "Waiting for signed approval"
        case Approved => "Approval received"
        case Executing => "Approved action is running"
        case Succeeded => "Approved action completed"
        case Denied => "Approval was denied; the action did not run"
        case ApprovalFailed => "The governed action failed"
        case Expired => "Approval expired; the action did not run"
      }
  }

  function ReconcilePart(part: Part, state: Option<TurnState>, operation: string -> Option<Operation>): Part {
    match part
    case ApprovalPart(id, operationId, _, _) =>
      var o := operation(operationId);
      if o.None? then part
      else ApprovalPart(id, operationId, o.value.state, ApprovalText(o.value.state, o.value.safeSummary))
    case ProgressPart(id, _, Running) =>
      if state.None? then part
      else
        var caption := match state.value
          case Cancelled => "Work stopped"
          case Failed => "Work failed"
          case _ => "Work complete";
        ProgressPart(id, caption, Finished)
    case ToolPart(id, ToolRunning, _) =>
      if state.None? then part
      else
        var summary := if state.value == Cancelled then "Stopped before the tool returned"
          else "The tool did not return a final result";
        ToolPart(id, ToolFailed, summary)
    case _ => part
  }

  function Reconcile(m: Message, operation: string -> Option<Operation>): (r: Message)
    ensures |r.parts| == |m.parts| && r.state == m.state
  {
    m.(parts := seq(|m.parts|, i requires 0 <= i < |m.parts| => ReconcilePart(m.parts[i], m.state, operation)))
  }

  /** Reading history again changes nothing, and of an accumulated finished message only approvals can change. */
  lemma {:induction false} ReconcileIsStable(m: Message, operation: string -> Option<Operation>)
    ensures Reconcile(Reconcile(m, operation), operation) == Reconcile(m, operation)
    ensures m.state.Some? ==>
              forall i :: 0 <= i < |m.parts| ==>
                            && !(Reconcile(m, operation).parts[i].ProgressPart?
                                 && Reconcile(m, operation).parts[i].workState == Running)
                            && !(Reconcile(m, operation).parts[i].ToolPart?
                                 && Reconcile(m, operation).parts[i].toolState == ToolRunning)
    ensures Settled(m.parts) ==>
              forall i :: 0 <= i < |m.parts| && !m.parts[i].ApprovalPart?
                ==> Reconcile(m, operation).parts[i] == m.parts[i]
  {
    var once := Reconcile(m, operation);
    forall i | 0 <= i < |m.parts|
      ensures Reconcile(once, operation).parts[i] == once.parts[i]
    {
      assert once.parts[i] == ReconcilePart(m.parts[i], m.state, operation);
    }
    assert Reconcile(once, operation).parts == once.parts;
  }
}
