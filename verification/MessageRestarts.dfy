/** Which logs the accumulator takes when a turn may start more than once: the message restarts, the index of its texts
    does not. */
module MessageRestarts {
  import opened Text
  import opened ChatEvents
  import opened ChatMessage

  /** The identifier of the part that an event writes. */
  function GivesId(e: Event): Option<string> {
    match e.body
    case Progress(id, _, _) => Some(id)
    case Tool(_, _, _, _, Some(_)) => Some(ProgressIdOf(e.turnId))
    case Approval(id, _, _, _) => Some(id)
    case Artifact(id, _, _) => Some(id)
    case TurnFinish(_, _, _) => Some("terminal-" + e.turnId)
    case _ => None
  }

  /** Some event since the last start has written a part with this identifier. */
  ghost predicate GivenSince(log: seq<Event>, id: string) {
    exists m :: 0 <= m < |log| && GivenAt(log, m, id)
  }

  ghost predicate GivenAt(log: seq<Event>, m: nat, id: string)
    requires m < |log|
  {
    GivesId(log[m]) == Some(id) && forall q :: m < q < |log| ==> !log[q].body.TurnStart?
  }

  /** Whether an event adds a part to the current message: the first delta of a text ever, a file, the end, and an
      activity not seen since the last start. */
  ghost predicate Opens(before: seq<Event>, e: Event) {
    match e.body
    case TextDelta(textId, _) => !MentionsText(before, textId)
    case Artifact(_, _, _) => true
    case TurnFinish(_, _, _) => true
    case _ => GivesId(e).Some? && !GivenSince(before, GivesId(e).value)
  }

  /** The events that opened the parts of the current message, in order. */
  ghost function Openers(log: seq<Event>): seq<Event> {
    if log == [] then []
    else
      var before, e := log[..|log| - 1], log[|log| - 1];
      if e.body.TurnStart? then [] else if Opens(before, e) then Openers(before) + [e] else Openers(before)
  }

  /** How many parts the message of its time had when a text first arrived. */
  ghost function StoredAt(log: seq<Event>, textId: string): nat
    requires MentionsText(log, textId)
  {
    var before := log[..|log| - 1];
    if MentionsText(before, textId) then StoredAt(before, textId)
    else assert log != []; |Openers(before)|
  }

  /** A delta whose text was stored at a place that in the current message does not exist or is no text. */
  ghost predicate Reuses(before: seq<Event>, e: Event) {
    e.body.TextDelta? && MentionsText(before, e.body.textId)
    && var i := StoredAt(before, e.body.textId); i >= |Openers(before)| || !Openers(before)[i].body.TextDelta?
  }

  /** The reason why an event cannot follow the events before it. */
  ghost function Obstacle(before: seq<Event>, e: Event): Option<ApplyError> {
    if e.body.TurnStart? then None
    else if before == [] then Some(NoMessage)
    else if e.body.Artifact? && e.body.revisionId.None? then Some(ArtifactNotFinalized)
    else if Reuses(before, e) then Some(PartReused)
    else None
  }

  ghost predicate Unobstructed(log: seq<Event>, n: nat)
    requires n <= |log|
  {
    forall k :: 0 <= k < n ==> Obstacle(log[..k], log[k]).None?
  }

  ghost predicate HasPart(parts: seq<Part>, id: string) {
    exists i :: 0 <= i < |parts| && HasId(parts[i], id)
  }

  /** What the log says about the message and the index built from it. */
  ghost predicate Reflects(log: seq<Event>, a: Accumulated) {
    && (a.message.Some? <==> log != [])
    && (forall t :: t in a.textParts <==> MentionsText(log, t))
    && (forall t :: t in a.textParts ==> a.textParts[t] == StoredAt(log, t))
    && (a.message.Some? ==> PartsReflect(log, a.message.value.parts))
  }

  ghost predicate PartsReflect(log: seq<Event>, parts: seq<Part>) {
    && |parts| == |Openers(log)|
    && (forall i :: 0 <= i < |parts| ==> parts[i].TextPart? == Openers(log)[i].body.TextDelta?)
    && forall id :: HasPart(parts, id) <==> GivenSince(log, id)
  }

  lemma {:induction false} MentionsSnoc(before: seq<Event>, e: Event, textId: string)
    ensures MentionsText(before + [e], textId)
            <==> MentionsText(before, textId) || (e.body.TextDelta? && e.body.textId == textId)
  {
    var log := before + [e];
    if MentionsText(before, textId) {
      var i :| 0 <= i < |before| && before[i].body.TextDelta? && before[i].body.textId == textId;
      assert log[i] == before[i];
    }
    assert log[|before|] == e;
  }

  lemma {:induction false} GivenSnoc(before: seq<Event>, e: Event, id: string)
    ensures GivenSince(before + [e], id) <==> !e.body.TurnStart? && (GivenSince(before, id) || GivesId(e) == Some(id))
  {
    var log, n := before + [e], |before|;
    assert log[n] == e && forall m :: 0 <= m < n ==> log[m] == before[m];
    if GivesId(e) == Some(id) {
      assert GivenAt(log, n, id);
    }
    if GivenSince(before, id) && !e.body.TurnStart? {
      var m :| 0 <= m < |before| && GivenAt(before, m, id);
      assert GivenAt(log, m, id);
    }
    if GivenSince(log, id) {
      var m :| 0 <= m < |log| && GivenAt(log, m, id);
      if m < n {
        assert GivenAt(before, m, id);
      }
    }
  }

  /** What one more event adds to the log's side of the correspondence. */
  lemma {:induction false} LogSnoc(before: seq<Event>, e: Event)
    ensures var log := before + [e];
            && Openers(log)
               == (if e.body.TurnStart? then [] else if Opens(before, e) then Openers(before) + [e]
                   else Openers(before))
            && forall t :: MentionsText(log, t) ==>
                 StoredAt(log, t) == if MentionsText(before, t) then StoredAt(before, t) else |Openers(before)|
  {
    assert (before + [e])[..|before|] == before;
  }

  lemma {:induction false} HasPartSnoc(parts: seq<Part>, part: Part, id: string)
    ensures HasPart(parts + [part], id) <==> HasPart(parts, id) || HasId(part, id)
  {
    var longer := parts + [part];
    assert longer[|parts|] == part && forall i :: 0 <= i < |parts| ==> longer[i] == parts[i];
    if HasPart(parts, id) {
      var i :| 0 <= i < |parts| && HasId(parts[i], id);
      assert HasId(longer[i], id);
    }
  }

  lemma {:induction false} HasPartRewritten(parts: seq<Part>, parts': seq<Part>, id: string)
    requires |parts| == |parts'| && forall i :: 0 <= i < |parts| ==> HasId(parts[i], id) == HasId(parts'[i], id)
    ensures HasPart(parts, id) <==> HasPart(parts', id)
  {
    if HasPart(parts, id) {
      var i :| 0 <= i < |parts| && HasId(parts[i], id);
      assert HasId(parts'[i], id);
    }
    if HasPart(parts', id) {
      var i :| 0 <= i < |parts'| && HasId(parts'[i], id);
      assert HasId(parts[i], id);
    }
  }

  /** Adding a part. */
  lemma {:induction false} PartAdded(before: seq<Event>, e: Event, parts: seq<Part>, part: Part)
    requires PartsReflect(before, parts) && Opens(before, e) && !e.body.TurnStart?
    requires part.TextPart? == e.body.TextDelta? && if part.TextPart? then GivesId(e).None?
             else GivesId(e) == Some(part.id)
    ensures PartsReflect(before + [e], parts + [part])
  {
    LogSnoc(before, e);
    forall id ensures HasPart(parts + [part], id) <==> GivenSince(before + [e], id) {
      HasPartSnoc(parts, part, id);
      GivenSnoc(before, e, id);
    }
    hide Openers, Opens, HasPart, GivenSince, GivesId;
  }

  /** Rewriting parts in place. */
  lemma {:induction false} PartsRewritten(before: seq<Event>, e: Event, parts: seq<Part>, parts': seq<Part>)
    requires PartsReflect(before, parts) && !Opens(before, e) && !e.body.TurnStart?
    requires |parts| == |parts'|
    requires forall i :: 0 <= i < |parts|
               ==> parts'[i].TextPart? == parts[i].TextPart? && (!parts[i].TextPart? ==> parts'[i].id == parts[i].id)
    requires GivesId(e).Some? ==> GivenSince(before, GivesId(e).value)
    ensures PartsReflect(before + [e], parts')
  {
    LogSnoc(before, e);
    forall id ensures HasPart(parts', id) <==> GivenSince(before + [e], id) {
      HasPartRewritten(parts, parts', id);
      GivenSnoc(before, e, id);
    }
    hide Openers, Opens, HasPart, GivenSince, GivesId;
  }

  /** Writing an activity's part: in place if the message has it, else as a new one. */
  lemma {:induction false} PartUpserted(before: seq<Event>, e: Event, parts: seq<Part>, part: Part)
    requires PartsReflect(before, parts) && !part.TextPart? && GivesId(e) == Some(part.id)
    requires e.body.Progress? || e.body.Tool? || e.body.Approval?
    ensures PartsReflect(before + [e], Upsert(parts, part))
  {
    var i := IndexOfId(parts, part.id);
    if i < |parts| {
      assert HasPart(parts, part.id);
      PartsRewritten(before, e, parts, parts[i := part]);
    } else {
      assert !HasPart(parts, part.id);
      PartAdded(before, e, parts, part);
    }
  }

  lemma {:induction false} PartsClosed(before: seq<Event>, e: Event, parts: seq<Part>, state: TurnState, part: Part)
    requires PartsReflect(before, parts) && e.body.TurnFinish? && !part.TextPart? && GivesId(e) == Some(part.id)
    ensures PartsReflect(before + [e], CloseParts(parts, state) + [part])
  {
    var closed := CloseParts(parts, state);
    forall id ensures HasPart(closed, id) <==> GivenSince(before, id) {
      HasPartRewritten(parts, closed, id);
    }
    PartAdded(before, e, closed, part);
  }

  lemma {:induction false} NothingWritten(before: seq<Event>, e: Event, parts: seq<Part>)
    requires PartsReflect(before, parts) && !e.body.TurnStart? && !Opens(before, e) && GivesId(e).None?
    ensures PartsReflect(before + [e], parts)
  {
    PartsRewritten(before, e, parts, parts);
  }

  /** An event other than a delta. */
  lemma {:induction false} PartsAfter(before: seq<Event>, e: Event, a: Accumulated)
    requires Reflects(before, a) && a.message.Some? && !e.body.TurnStart? && !e.body.TextDelta? && ApplyEvent(a, e).Ok?
    ensures ApplyEvent(a, e).value.textParts == a.textParts && ApplyEvent(a, e).value.message.Some?
    ensures PartsReflect(before + [e], ApplyEvent(a, e).value.message.value.parts)
  {
    var parts := a.message.value.parts;
    hide PartsReflect, Upsert, CloseParts, Openers, GivenSince, MentionsText;
    match e.body {
      case Artifact(id, _, revision) => PartAdded(before, e, parts, FilePart(id, revision.value));
      case Progress(id, caption, state) => PartUpserted(before, e, parts, ProgressPart(id, caption, state));
      case Tool(_, _, _, _, Some(caption)) =>
        PartUpserted(before, e, parts, ProgressPart(ProgressIdOf(e.turnId), caption, Running));
      case Approval(id, operation, state, summary) =>
        PartUpserted(before, e, parts, ApprovalPart(id, operation, state, summary));
      case TurnFinish(state, message, _) =>
        PartsClosed(before, e, parts, state, TerminalPart("terminal-" + e.turnId, state, message));
      case _ => NothingWritten(before, e, parts);
    }
  }

  /** A delta that is not obstructed. */
  lemma {:induction false} DeltaAfter(before: seq<Event>, e: Event, a: Accumulated)
    requires Reflects(before, a) && a.message.Some? && e.body.TextDelta?
    ensures ApplyEvent(a, e) == Err(PartReused) <==> Reuses(before, e)
    ensures ApplyEvent(a, e).Err? ==> ApplyEvent(a, e).error == PartReused
    ensures ApplyEvent(a, e).Ok? ==> Reflects(before + [e], ApplyEvent(a, e).value)
  {
    var parts, textId := a.message.value.parts, e.body.textId;
    LogSnoc(before, e);
    forall t ensures MentionsText(before + [e], t) <==> MentionsText(before, t) || t == textId {
      MentionsSnoc(before, e, t);
    }
    if textId !in a.textParts {
      PartAdded(before, e, parts, TextPart(e.body.delta, true));
    } else if ApplyEvent(a, e).Ok? {
      PartsRewritten(before, e, parts, ApplyEvent(a, e).value.message.value.parts);
    }
    hide Openers, PartsReflect, MentionsText, StoredAt;
  }

  lemma {:induction false} OtherAfter(before: seq<Event>, e: Event, a: Accumulated)
    requires Reflects(before, a) && !e.body.TextDelta? && ApplyEvent(a, e).Ok?
    ensures Reflects(before + [e], ApplyEvent(a, e).value)
  {
    LogSnoc(before, e);
    forall t ensures MentionsText(before + [e], t) <==> MentionsText(before, t) {
      MentionsSnoc(before, e, t);
    }
    if e.body.TurnStart? {
      forall id ensures !GivenSince(before + [e], id) {
        GivenSnoc(before, e, id);
      }
    } else {
      PartsAfter(before, e, a);
    }
    hide Openers, MentionsText, StoredAt, ApplyEvent, GivenSince;
  }

  /** One event: it is refused exactly for its obstacle, and otherwise message and index go on reflecting the log. */
  lemma {:induction false} EventAfter(before: seq<Event>, e: Event, a: Accumulated)
    requires Reflects(before, a)
    ensures match Obstacle(before, e)
            case None => ApplyEvent(a, e).Ok?
            case Some(error) => ApplyEvent(a, e) == Err(error)
    ensures ApplyEvent(a, e).Ok? ==> Reflects(before + [e], ApplyEvent(a, e).value)
  {
    if e.body.TextDelta? && a.message.Some? {
      DeltaAfter(before, e, a);
    } else if ApplyEvent(a, e).Ok? {
      OtherAfter(before, e, a);
    }
    hide Reuses;
  }

  /** For every log, however often it starts: it is accumulated exactly when no event meets an obstacle, and otherwise
      the error is that of the first one that does. */
  lemma {:induction false} AccumulatesUnless(log: seq<Event>)
    ensures match ApplyAll(log)
            case Ok(a) => Unobstructed(log, |log|) && Reflects(log, a)
            case Err(error) => exists k :: 0 <= k < |log| && Unobstructed(log, k)
                                 && Obstacle(log[..k], log[k]) == Some(error)
  {
    if log == [] {
      NothingReflected();
    } else {
      var n := |log| - 1;
      var before := log[..n];
      AccumulatesUnless(before);
      assert log == before + [log[n]];
      hide Obstacle, Reflects, ApplyEvent;
      if ApplyAll(before).Ok? {
        EventAfter(before, log[n], ApplyAll(before).value);
        UnobstructedPrefix(log, n, n);
      } else {
        var k :| 0 <= k < n && Unobstructed(before, k)
          && Obstacle(before[..k], before[k]) == Some(ApplyAll(before).error);
        UnobstructedPrefix(log, n, k);
        assert before[..k] == log[..k];
      }
    }
  }

  lemma {:induction false} NothingReflected()
    ensures Reflects([], EMPTY)
  {
  }

  lemma {:induction false} UnobstructedPrefix(log: seq<Event>, n: nat, k: nat)
    requires k <= n <= |log|
    ensures Unobstructed(log[..n], k) <==> Unobstructed(log, k)
  {
    hide Obstacle;
    assert forall i :: 0 <= i < k ==> log[..n][..i] == log[..i];
  }

  /** In particular the reuse error occurs exactly for a delta at a stale place, after a prefix that was fine. */
  lemma {:induction false} PartReusedIff(log: seq<Event>)
    ensures ApplyAll(log) == Err(PartReused)
            <==> exists k :: 0 <= k < |log| && Unobstructed(log, k) && Obstacle(log[..k], log[k]) == Some(PartReused)
  {
    AccumulatesUnless(log);
    hide Obstacle, Reflects, ApplyAll;
    if k :| 0 <= k < |log| && Unobstructed(log, k) && Obstacle(log[..k], log[k]) == Some(PartReused) {
      if ApplyAll(log).Err? {
        var j :| 0 <= j < |log| && Unobstructed(log, j) && Obstacle(log[..j], log[j]) == Some(ApplyAll(log).error);
        assert j == k;
      }
    }
  }

  /** A text that first arrived since the last start is never at a stale place: reuse needs a start in between. */
  lemma {:induction false} ReuseNeedsRestart(before: seq<Event>, e: Event, m: nat)
    requires e.body.TextDelta? && m < |before| && before[m].body.TextDelta? && before[m].body.textId == e.body.textId
    requires !MentionsText(before[..m], e.body.textId)
    requires forall q :: m < q < |before| ==> !before[q].body.TurnStart?
    ensures !Reuses(before, e)
  {
    var n := |before| - 1;
    assert MentionsText(before, e.body.textId);
    if m < n {
      assert before[..n][m] == before[m] && before[..n][..m] == before[..m];
      assert MentionsText(before[..n], e.body.textId);
      ReuseNeedsRestart(before[..n], e, m);
    }
  }
}
