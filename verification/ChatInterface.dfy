/** The live projection of a turn: events become interface chunks, and a client that folds the chunks sees what the
    persisted message will hold. */
module ChatInterface {
  import opened Text
  import opened ChatEvents
  import opened ChatMessage
  import opened MessageParts

  datatype Chunk =
    | Start(messageId: string)
    | TextBegin(textId: string)
    | TextMore(textId: string, delta: string)
    | TextEnd(textId: string)
    | Data(part: Part)
    | Finish(state: TurnState)

  /** The chunks of one event; `textIds` are the text identifiers already begun, in order. */
  function MapEvent(textIds: seq<string>, e: Event): Result<seq<Chunk>> {
    match e.body
    case TurnStart(messageId) => Ok([Start(messageId)])
    case Progress(id, caption, state) => Ok([Data(ProgressPart(id, caption, state))])
    case Artifact(id, _, revision) =>
      if revision.None? then Err(ArtifactNotFinalized) else Ok([Data(FilePart(id, revision.value))])
    case TextDelta(textId, delta) =>
      Ok((if textId in textIds then [] else [TextBegin(textId)]) + [TextMore(textId, delta)])
    case Tool(_, _, _, _, caption) =>
      Ok(if caption.None? then [] else [Data(ProgressPart(ProgressIdOf(e.turnId), caption.value, Running))])
    case Approval(id, operation, state, summary) => Ok([Data(ApprovalPart(id, operation, state, summary))])
    case TurnFinish(state, message, _) =>
      Ok(Ends(textIds) + [Data(TerminalPart("terminal-" + e.turnId, state, message)), Finish(state)])
    case _ => Ok([])
  }

  function Ends(textIds: seq<string>): (r: seq<Chunk>)
    ensures |r| == |textIds| && forall i :: 0 <= i < |r| ==> r[i] == TextEnd(textIds[i])
  {
    seq(|textIds|, i requires 0 <= i < |textIds| => TextEnd(textIds[i]))
  }

  function NextTextIds(textIds: seq<string>, e: Event): seq<string> {
    if e.body.TextDelta? && e.body.textId !in textIds then textIds + [e.body.textId] else textIds
  }

  /** A file that Control has not stored yet. */
  predicate Unfinalized(e: Event) {
    e.body.Artifact? && e.body.revisionId.None?
  }

  class AgentUiStreamMapper {
    var textIds: seq<string>

    constructor ()
      ensures textIds == []
    {
      textIds := [];
    }

    /** The chunks of one event; a text is begun exactly before its first delta. */
    method Chunks(e: Event) returns (r: Result<seq<Chunk>>)
      modifies this
      ensures r == MapEvent(old(textIds), e)
      ensures textIds == NextTextIds(old(textIds), e)
      ensures r.Err? <==> Unfinalized(e)
      ensures r.Ok? ==> forall c :: c in r.value && c.TextBegin? ==> c.textId !in old(textIds) && c.textId in textIds
      ensures r.Ok? ==> forall c :: c in r.value && c.TextMore? ==> c.textId in textIds
    {
      match e.body {
        case TurnStart(messageId) =>
          r := Ok([Start(messageId)]);
        case Progress(id, caption, state) =>
          r := Ok([Data(ProgressPart(id, caption, state))]);
        case Artifact(id, _, revision) =>
          if revision.None? {
            return Err(ArtifactNotFinalized);
          }
          r := Ok([Data(FilePart(id, revision.value))]);
        case TextDelta(textId, delta) =>
          var chunks: seq<Chunk> := [];
          if textId !in textIds {
            textIds := textIds + [textId];
            chunks := [TextBegin(textId)];
          }
          r := Ok(chunks + [TextMore(textId, delta)]);
        case Tool(_, _, _, _, caption) =>
          r := Ok(if caption.None? then [] else [Data(ProgressPart(ProgressIdOf(e.turnId), caption.value, Running))]);
        case Approval(id, operation, state, summary) =>
          r := Ok([Data(ApprovalPart(id, operation, state, summary))]);
        case TurnFinish(state, message, _) =>
          var ends: seq<Chunk> := [];
          for i := 0 to |textIds|
            invariant ends == Ends(textIds)[..i]
          {
            ends := ends + [TextEnd(textIds[i])];
          }
          assert Ends(textIds)[..|textIds|] == Ends(textIds);
          r := Ok(ends + [Data(TerminalPart("terminal-" + e.turnId, state, message)), Finish(state)]);
        case _ =>
          r := Ok([]);
      }
    }
  }

  /** What a client keeps: text and data by identifier, and which texts are still growing. */
  datatype View = View(texts: map<string, string>, growing: set<string>, approvals: map<string, Part>,
                       files: map<string, string>)

  const BLANK := View(map[], {}, map[], map[])

  /** A client's fold; a text chunk for a text that is not growing is an error. */
  function Reduce(v: View, c: Chunk): Option<View> {
    match c
    case TextBegin(t) => Some(v.(texts := v.texts[t := ""], growing := v.growing + {t}))
    case TextMore(t, delta) =>
      if t in v.growing && t in v.texts then Some(v.(texts := v.texts[t := v.texts[t] + delta])) else None
    case TextEnd(t) => if t in v.growing then Some(v.(growing := v.growing - {t})) else None
    case Data(ApprovalPart(id, operation, state, summary)) =>
      Some(v.(approvals := v.approvals[id := ApprovalPart(id, operation, state, summary)]))
    case Data(FilePart(id, revision)) => Some(v.(files := v.files[id := revision]))
    case _ => Some(v)
  }

  function ReduceAll(v: Option<View>, chunks: seq<Chunk>): Option<View> {
    if chunks == [] || v.None? then v
    else
      var before := ReduceAll(v, chunks[..|chunks| - 1]);
      if before.None? then None else Reduce(before.value, chunks[|chunks| - 1])
  }

  /** Mapper and client after a whole log: the text identifiers begun and the client's view. */
  function Project(log: seq<Event>): (seq<string>, Option<View>) {
    if log == [] then ([], Some(BLANK))
    else
      var (textIds, view) := Project(log[..|log| - 1]);
      var e := log[|log| - 1];
      var chunks := MapEvent(textIds, e);
      (NextTextIds(textIds, e), if chunks.Err? then None else ReduceAll(view, chunks.value))
  }

  /** Approvals, activities, files and the terminal use different identifiers, as told apart by `kind`. */
  ghost predicate TidyEvent(e: Event, kind: string -> int) {
    && (e.body.Approval? ==> kind(e.body.approvalId) == 1)
    && (e.body.Progress? ==> kind(e.body.activityId) == 2)
    && (e.body.Tool? ==> kind(ProgressIdOf(e.turnId)) == 2)
    && (e.body.Artifact? ==> kind(e.body.artifactId) == 3)
    && (e.body.TurnFinish? ==> kind("terminal-" + e.turnId) == 4)
  }

  ghost predicate TidyParts(parts: seq<Part>, kind: string -> int) {
    && (forall i :: 0 <= i < |parts| ==> TidyPart(parts[i], kind))
    && (forall i, j :: 0 <= i < j < |parts| && parts[i].ApprovalPart? && parts[j].ApprovalPart?
          ==> parts[i].id != parts[j].id)
  }

  ghost predicate TidyPart(p: Part, kind: string -> int) {
    match p
    case ApprovalPart(id, _, _, _) => kind(id) == 1
    case ProgressPart(id, _, _) => kind(id) == 2
    case FilePart(id, _) => kind(id) == 3
    case TerminalPart(id, _, _) => kind(id) == 4
    case ToolPart(_, _, _) => false
    case TextPart(_, _) => true
  }

  /** The client's approvals and files are those of the parts. */
  ghost predicate SameData(parts: seq<Part>, v: View) {
    && (forall p :: p in parts && p.ApprovalPart? ==> p.id in v.approvals && v.approvals[p.id] == p)
    && (forall id :: id in v.approvals
          ==> v.approvals[id].ApprovalPart? && v.approvals[id].id == id && v.approvals[id] in parts)
    && (forall p :: p in parts && p.FilePart? ==> p.id in v.files && v.files[p.id] == p.revisionId)
    && (forall id :: id in v.files ==> FilePart(id, v.files[id]) in parts)
  }

  /** The client's texts are those of the index. */
  ghost predicate SameTexts(a: Accumulated, textIds: seq<string>, v: View)
    requires TextIndexed(a)
  {
    && (forall t :: t in textIds <==> t in a.textParts)
    && (forall t :: t in v.texts <==> t in a.textParts)
    && (forall t :: t in v.texts ==> v.texts[t] == TextOf(a, t))
  }

  lemma {:induction false} UpsertApproval(parts: seq<Part>, part: Part, v: View, kind: string -> int)
    requires TidyParts(parts, kind) && part.ApprovalPart? && TidyPart(part, kind) && SameData(parts, v)
    ensures TidyParts(Upsert(parts, part), kind)
    ensures SameData(Upsert(parts, part), v.(approvals := v.approvals[part.id := part]))
  {
    var i := IndexOfId(parts, part.id);
    var after, v' := Upsert(parts, part), v.(approvals := v.approvals[part.id := part]);
    if i < |parts| {
      assert TidyPart(parts[i], kind) && parts[i].ApprovalPart?;
    }
    assert after[i] == part;
    forall p | p in after && p.ApprovalPart? && p != part
      ensures p in parts && p.id != part.id
    {
      var j :| 0 <= j < |after| && after[j] == p;
      assert parts[j] == p;
    }
    forall id | id in v'.approvals && id != part.id
      ensures v'.approvals[id] in after
    {
      var j :| 0 <= j < |parts| && parts[j] == v.approvals[id];
      assert after[j] == parts[j];
    }
    FilesUnmoved(parts, part, v);
  }

  /** Putting in a part that is no file leaves the files alone, if it replaces no file. */
  lemma {:induction false} FilesUnmoved(parts: seq<Part>, part: Part, v: View)
    requires !part.TextPart? && !part.FilePart?
    requires IndexOfId(parts, part.id) < |parts| ==> !parts[IndexOfId(parts, part.id)].FilePart?
    ensures forall p: Part :: p.FilePart? ==> (p in Upsert(parts, part) <==> p in parts)
  {
    var i, after := IndexOfId(parts, part.id), Upsert(parts, part);
    forall p | p in parts && p.FilePart?
      ensures p in after
    {
      var j :| 0 <= j < |parts| && parts[j] == p;
      assert after[j] == p;
    }
    forall p | p in after && p.FilePart?
      ensures p in parts
    {
      var j :| 0 <= j < |after| && after[j] == p;
      assert parts[j] == p;
    }
  }

  lemma {:induction false} UpsertProgress(parts: seq<Part>, part: Part, v: View, kind: string -> int)
    requires TidyParts(parts, kind) && part.ProgressPart? && TidyPart(part, kind) && SameData(parts, v)
    ensures TidyParts(Upsert(parts, part), kind)
    ensures SameData(Upsert(parts, part), v)
  {
    var i, after := IndexOfId(parts, part.id), Upsert(parts, part);
    if i < |parts| {
      assert TidyPart(parts[i], kind) && parts[i].ProgressPart?;
    }
    forall p | p in after && p.ApprovalPart?
      ensures p in parts
    {
      var j :| 0 <= j < |after| && after[j] == p;
      assert parts[j] == p;
    }
    forall id | id in v.approvals
      ensures v.approvals[id] in after
    {
      var j :| 0 <= j < |parts| && parts[j] == v.approvals[id];
      assert after[j] == parts[j];
    }
    FilesUnmoved(parts, part, v);
  }

  lemma {:induction false} AppendOther(parts: seq<Part>, part: Part, v: View, kind: string -> int)
    requires TidyParts(parts, kind) && TidyPart(part, kind) && SameData(parts, v) && !part.ApprovalPart?
    requires part.FilePart? ==> part.id !in v.files
    ensures TidyParts(parts + [part], kind)
    ensures SameData(parts + [part], if part.FilePart? then v.(files := v.files[part.id := part.revisionId]) else v)
  {
    assert forall p :: p in parts + [part] <==> p in parts || p == part;
  }

  predicate SameKind(p: Part, q: Part) {
    p == q || (p.TextPart? && q.TextPart?) || (p.ProgressPart? && q.ProgressPart?)
  }

  /** Rewriting texts and activities in place moves no approval and no file. */
  lemma {:induction false} RewriteInPlace(parts: seq<Part>, parts': seq<Part>, v: View, kind: string -> int)
    requires TidyParts(parts, kind) && SameData(parts, v) && |parts'| == |parts|
    requires forall i :: 0 <= i < |parts| ==> TidyPart(parts'[i], kind) && SameKind(parts[i], parts'[i])
    ensures TidyParts(parts', kind) && SameData(parts', v)
  {
    forall p: Part | p.ApprovalPart? || p.FilePart?
      ensures p in parts' <==> p in parts
    {
      if p in parts {
        var j :| 0 <= j < |parts| && parts[j] == p;
        assert parts'[j] == p;
      }
      if p in parts' {
        var j :| 0 <= j < |parts'| && parts'[j] == p;
        assert parts[j] == p;
      }
    }
  }

  function DataPart(e: Event): Option<Part> {
    match e.body
    case Progress(id, caption, state) => Some(ProgressPart(id, caption, state))
    case Tool(_, _, _, _, Some(caption)) => Some(ProgressPart(ProgressIdOf(e.turnId), caption, Running))
    case Approval(id, operation, state, summary) => Some(ApprovalPart(id, operation, state, summary))
    case _ => None
  }

  function ViewAfter(v: View, textIds: seq<string>, e: Event): View {
    match e.body
    case Approval(id, operation, state, summary) =>
      v.(approvals := v.approvals[id := ApprovalPart(id, operation, state, summary)])
    case Artifact(id, _, Some(revision)) => v.(files := v.files[id := revision])
    case TextDelta(t, delta) =>
      v.(texts := v.texts[t := (if t in textIds && t in v.texts then v.texts[t] else "") + delta],
         growing := v.growing + {t})
    case TurnFinish(_, _, _) => v.(growing := {})
    case _ => v
  }

  function Tags(textIds: seq<string>): set<string> {
    set t | t in textIds
  }

  lemma {:induction false} ReduceEnds(v: View, textIds: seq<string>, n: nat)
    requires n <= |textIds| && v.growing == Tags(textIds)
    requires forall i, j :: 0 <= i < j < |textIds| ==> textIds[i] != textIds[j]
    ensures ReduceAll(Some(v), Ends(textIds)[..n]) == Some(v.(growing := Tags(textIds[n..])))
  {
    if n == 0 {
      assert textIds[0..] == textIds;
    } else {
      ReduceEnds(v, textIds, n - 1);
      assert Ends(textIds)[..n][..n - 1] == Ends(textIds)[..n - 1];
      assert textIds[n - 1..] == [textIds[n - 1]] + textIds[n..];
      assert textIds[n - 1] !in textIds[n..];
      assert Tags(textIds[n - 1..]) - {textIds[n - 1]} == Tags(textIds[n..]);
    }
  }

  /** The mapper's invariant with its client: begun texts are distinct and growing until the end. */
  ghost predicate Streaming(textIds: seq<string>, v: View) {
    && (forall i, j :: 0 <= i < j < |textIds| ==> textIds[i] != textIds[j])
    && v.growing == Tags(textIds)
    && (forall t :: t in textIds ==> t in v.texts)
  }

  lemma {:induction false} ReduceOne(v: View, chunk: Chunk)
    ensures ReduceAll(Some(v), [chunk]) == Reduce(v, chunk)
  {
    assert [chunk][..0] == [];
    hide Reduce;
  }

  lemma {:induction false} ReduceText(v: View, textIds: seq<string>, e: Event)
    requires Streaming(textIds, v) && e.body.TextDelta?
    ensures ReduceAll(Some(v), MapEvent(textIds, e).value) == Some(ViewAfter(v, textIds, e))
  {
    var t, delta := e.body.textId, e.body.delta;
    if t in textIds {
      assert v.growing + {t} == v.growing;
      assert [] + [TextMore(t, delta)] == [TextMore(t, delta)];
      ReduceOne(v, TextMore(t, delta));
    } else {
      var begun := v.(texts := v.texts[t := ""], growing := v.growing + {t});
      ReduceOne(v, TextBegin(t));
      ReduceOne(begun, TextMore(t, delta));
      ReduceAppend(Some(v), [TextBegin(t)], [TextMore(t, delta)]);
      assert begun.texts[t := "" + delta] == v.texts[t := "" + delta];
    }
    hide ReduceAll;
  }

  lemma {:induction false} ReduceFinish(v: View, textIds: seq<string>, e: Event)
    requires Streaming(textIds, v) && e.body.TurnFinish?
    ensures ReduceAll(Some(v), MapEvent(textIds, e).value) == Some(ViewAfter(v, textIds, e))
  {
    var ends, after := Ends(textIds), v.(growing := {});
    var terminal, finish := Data(TerminalPart("terminal-" + e.turnId, e.body.state, e.body.message)),
      Finish(e.body.state);
    ReduceEnds(v, textIds, |textIds|);
    assert ends[..|textIds|] == ends && Tags(textIds[|textIds|..]) == {};
    ReduceOne(after, terminal);
    ReduceOne(after, finish);
    ReduceAppend(Some(after), [terminal], [finish]);
    ReduceAppend(Some(v), ends, [terminal] + [finish]);
    assert [terminal] + [finish] == [terminal, finish];
    hide ReduceAll, Ends;
  }

  lemma {:induction false} ReduceEvent(v: View, textIds: seq<string>, e: Event)
    requires Streaming(textIds, v) && MapEvent(textIds, e).Ok?
    ensures ReduceAll(Some(v), MapEvent(textIds, e).value) == Some(ViewAfter(v, textIds, e))
    ensures !e.body.TurnFinish? ==> Streaming(NextTextIds(textIds, e), ViewAfter(v, textIds, e))
  {
    StreamingGoesOn(v, textIds, e);
    hide MapEvent, ReduceAll, Streaming;
    if e.body.TurnFinish? {
      ReduceFinish(v, textIds, e);
    } else if e.body.TextDelta? {
      ReduceText(v, textIds, e);
    } else {
      ReduceOther(v, textIds, e);
    }
  }

  lemma {:induction false} StreamingGoesOn(v: View, textIds: seq<string>, e: Event)
    requires Streaming(textIds, v)
    ensures !e.body.TurnFinish? ==> Streaming(NextTextIds(textIds, e), ViewAfter(v, textIds, e))
  {
  }

  /** An event that is neither text nor the end has at most one chunk. */
  lemma {:induction false} ReduceOther(v: View, textIds: seq<string>, e: Event)
    requires !e.body.TextDelta? && !e.body.TurnFinish? && MapEvent(textIds, e).Ok?
    ensures ReduceAll(Some(v), MapEvent(textIds, e).value) == Some(ViewAfter(v, textIds, e))
  {
    var chunks := MapEvent(textIds, e).value;
    if chunks == [] {
      assert ReduceAll(Some(v), []) == Some(v);
    } else {
      assert chunks == [chunks[0]] && Reduce(v, chunks[0]) == Some(ViewAfter(v, textIds, e));
      ReduceOne(v, chunks[0]);
    }
    hide ReduceAll;
  }

  lemma {:induction false} EventKeepsData(a: Accumulated, v: View, textIds: seq<string>, e: Event, kind: string -> int)
    requires a.message.Some? && TextIndexed(a) && !e.body.TurnStart? && ApplyEvent(a, e).Ok?
    requires TidyParts(a.message.value.parts, kind) && TidyEvent(e, kind) && SameData(a.message.value.parts, v)
    requires e.body.Artifact? ==> e.body.artifactId !in v.files
    ensures ApplyEvent(a, e).value.message.Some?
    ensures TidyParts(ApplyEvent(a, e).value.message.value.parts, kind)
    ensures SameData(ApplyEvent(a, e).value.message.value.parts, ViewAfter(v, textIds, e))
  {
    hide SameData, TidyParts, Upsert, CloseParts, TextIndexed;
    var parts := a.message.value.parts;
    if DataPart(e).Some? {
      if e.body.Approval? {
        UpsertApproval(parts, DataPart(e).value, v, kind);
      } else {
        UpsertProgress(parts, DataPart(e).value, v, kind);
      }
    } else {
      match e.body {
        case TextDelta(_, _) =>
          TextKeepsData(a, v, e, kind);
          TextsAreNoData(ApplyEvent(a, e).value.message.value.parts, v, ViewAfter(v, textIds, e));
        case Artifact(id, _, Some(revision)) => AppendOther(parts, FilePart(id, revision), v, kind);
        case TurnFinish(state, message, _) =>
          FinishKeepsData(parts, v, e, kind);
          TextsAreNoData(ApplyEvent(a, e).value.message.value.parts, v, ViewAfter(v, textIds, e));
        case _ =>
      }
    }
  }

  lemma {:induction false} TextsAreNoData(parts: seq<Part>, v: View, v': View)
    requires SameData(parts, v) && v'.approvals == v.approvals && v'.files == v.files
    ensures SameData(parts, v')
  {
  }

  lemma {:induction false} TextKeepsData(a: Accumulated, v: View, e: Event, kind: string -> int)
    requires a.message.Some? && TextIndexed(a) && e.body.TextDelta? && ApplyEvent(a, e).Ok?
    requires TidyParts(a.message.value.parts, kind) && SameData(a.message.value.parts, v)
    ensures ApplyEvent(a, e).value.message.Some?
    ensures TidyParts(ApplyEvent(a, e).value.message.value.parts, kind)
    ensures SameData(ApplyEvent(a, e).value.message.value.parts, v)
  {
    var parts, after := a.message.value.parts, ApplyEvent(a, e).value.message.value.parts;
    if e.body.textId in a.textParts {
      RewriteInPlace(parts, after, v, kind);
    } else {
      AppendOther(parts, TextPart(e.body.delta, true), v, kind);
    }
    hide SameData, TidyParts;
  }

  lemma {:induction false} FinishKeepsData(parts: seq<Part>, v: View, e: Event, kind: string -> int)
    requires e.body.TurnFinish? && TidyParts(parts, kind) && TidyEvent(e, kind) && SameData(parts, v)
    ensures var after := CloseParts(parts, e.body.state)
            + [TerminalPart("terminal-" + e.turnId, e.body.state, e.body.message)];
            TidyParts(after, kind) && SameData(after, v)
  {
    RewriteInPlace(parts, CloseParts(parts, e.body.state), v, kind);
    AppendOther(CloseParts(parts, e.body.state), TerminalPart("terminal-" + e.turnId, e.body.state, e.body.message), v,
                kind);
    hide SameData, TidyParts;
  }

  ghost predicate SameText(a: Accumulated, textIds: seq<string>, v: View, t: string)
    requires TextIndexed(a)
  {
    && (t in textIds <==> t in a.textParts)
    && (t in v.texts <==> t in a.textParts)
    && (t in v.texts ==> v.texts[t] == TextOf(a, t))
  }

  lemma {:induction false} EventKeepsText(a: Accumulated, v: View, textIds: seq<string>, e: Event, t: string)
    requires a.message.Some? && TextIndexed(a) && !e.body.TurnStart? && ApplyEvent(a, e).Ok?
    requires SameText(a, textIds, v, t)
    ensures TextIndexed(ApplyEvent(a, e).value)
    ensures SameText(ApplyEvent(a, e).value, NextTextIds(textIds, e), ViewAfter(v, textIds, e), t)
  {
    hide ApplyEvent, Indexed, TextOf;
    ApplyKeepsTexts(a, e, t);
    if t !in a.textParts {
      TextOfUnindexed(a, t);
    }
    assert TextOf(a, t) + "" == TextOf(a, t);
  }

  lemma {:induction false} TextOfUnindexed(a: Accumulated, t: string)
    requires TextIndexed(a) && t !in a.textParts
    ensures TextOf(a, t) == ""
  {
  }

  lemma {:induction false} EventKeepsTexts(a: Accumulated, v: View, textIds: seq<string>, e: Event)
    requires a.message.Some? && TextIndexed(a) && !e.body.TurnStart? && ApplyEvent(a, e).Ok?
    requires SameTexts(a, textIds, v)
    ensures TextIndexed(ApplyEvent(a, e).value)
    ensures SameTexts(ApplyEvent(a, e).value, NextTextIds(textIds, e), ViewAfter(v, textIds, e))
  {
    hide ApplyEvent, Indexed, TextOf, ViewAfter, NextTextIds;
    ApplyKeepsIndex(a, e);
    var a', textIds', v' := ApplyEvent(a, e).value, NextTextIds(textIds, e), ViewAfter(v, textIds, e);
    forall t
      ensures (t in textIds' <==> t in a'.textParts) && (t in v'.texts <==> t in a'.textParts)
      ensures t in v'.texts ==> v'.texts[t] == TextOf(a', t)
    {
      EventKeepsText(a, v, textIds, e, t);
    }
  }

  ghost predicate TidyLog(log: seq<Event>, kind: string -> int) {
    && StartsOnce(log)
    && (forall i :: 0 <= i < |log| ==> TidyEvent(log[i], kind))
    && (forall i :: 0 <= i < |log| - 1 ==> !log[i].body.TurnFinish?)
    && (forall i :: 0 <= i < |log| && log[i].body.Artifact? ==> log[i].body.revisionId.Some?)
    && (forall i, j :: 0 <= i < j < |log| && log[i].body.Artifact? && log[j].body.Artifact?
          ==> log[i].body.artifactId != log[j].body.artifactId)
  }

  /** Message, mapper and client tell the same story. */
  ghost predicate Agree(a: Accumulated, textIds: seq<string>, v: View, kind: string -> int) {
    && a.message.Some? && TextIndexed(a) && SameTexts(a, textIds, v)
    && SameData(a.message.value.parts, v) && TidyParts(a.message.value.parts, kind)
  }

  lemma {:induction false} EventKeepsAgreement(a: Accumulated, textIds: seq<string>, v: View, e: Event,
                                               kind: string -> int)
    requires Agree(a, textIds, v, kind) && Streaming(textIds, v)
    requires !e.body.TurnStart? && TidyEvent(e, kind)
             && (e.body.Artifact? ==> e.body.revisionId.Some? && e.body.artifactId !in v.files)
    ensures ApplyEvent(a, e).Ok? && MapEvent(textIds, e).Ok?
    ensures ReduceAll(Some(v), MapEvent(textIds, e).value) == Some(ViewAfter(v, textIds, e))
    ensures Agree(ApplyEvent(a, e).value, NextTextIds(textIds, e), ViewAfter(v, textIds, e), kind)
    ensures !e.body.TurnFinish? ==> Streaming(NextTextIds(textIds, e), ViewAfter(v, textIds, e))
    ensures forall id :: id in ViewAfter(v, textIds, e).files
              <==> id in v.files || (e.body.Artifact? && e.body.artifactId == id)
  {
    EventKeepsFiles(v, textIds, e);
    hide ApplyEvent, ReduceAll, ViewAfter, NextTextIds, Streaming, SameTexts, SameData, TidyParts, Indexed;
    ApplyKeepsIndex(a, e);
    ReduceEvent(v, textIds, e);
    EventKeepsData(a, v, textIds, e, kind);
    EventKeepsTexts(a, v, textIds, e);
  }

  lemma {:induction false} EventKeepsFiles(v: View, textIds: seq<string>, e: Event)
    requires e.body.Artifact? ==> e.body.revisionId.Some?
    ensures forall id :: id in ViewAfter(v, textIds, e).files
              <==> id in v.files || (e.body.Artifact? && e.body.artifactId == id)
  {
  }

  lemma {:induction false} StartAgrees(e: Event, kind: string -> int)
    requires e.body.TurnStart?
    ensures ApplyAll([e]) == Ok(Accumulated(Some(Message([], None)), map[]))
    ensures Project([e]) == ([], Some(BLANK))
    ensures Agree(ApplyAll([e]).value, [], BLANK, kind) && Streaming([], BLANK)
  {
    var log := [e];
    assert log[..0] == [];
    assert MapEvent([], e) == Ok([Start(e.body.messageId)]);
    assert [Start(e.body.messageId)][..0] == [];
    assert ReduceAll(Some(BLANK), [Start(e.body.messageId)]) == Reduce(BLANK, Start(e.body.messageId));
  }

  /** A client that folds the live chunks never meets an error and ends with the texts, approvals and files of the
      persisted message. */
  lemma {:induction false} ClientSeesMessage(log: seq<Event>, kind: string -> int)
    requires TidyLog(log, kind) && log != []
    ensures ApplyAll(log).Ok? && Project(log).1.Some?
    ensures Agree(ApplyAll(log).value, Project(log).0, Project(log).1.value, kind)
    ensures !log[|log| - 1].body.TurnFinish? ==> Streaming(Project(log).0, Project(log).1.value)
    ensures forall id :: id in Project(log).1.value.files <==> HasFile(log, id)
  {
    var n := |log| - 1;
    var e := log[n];
    if n == 0 {
      StartAgrees(e, kind);
      assert log == [e];
    } else {
      var before := log[..n];
      assert TidyLog(before, kind);
      ClientSeesMessage(before, kind);
      assert before[n - 1] == log[n - 1];
      hide Agree, Streaming, ApplyEvent, MapEvent, ReduceAll, ViewAfter, NextTextIds, TidyEvent;
      EventKeepsAgreement(ApplyAll(before).value, Project(before).0, Project(before).1.value, e, kind);
      forall id { HasFileStep(log, id); }
    }
  }

  lemma {:induction false} ReduceAppend(v: Option<View>, a: seq<Chunk>, b: seq<Chunk>)
    ensures ReduceAll(v, a + b) == ReduceAll(ReduceAll(v, a), b)
  {
    if b == [] {
      assert a + b == a;
    } else {
      var n := |b| - 1;
      assert (a + b)[..|a + b| - 1] == a + b[..n] && (a + b)[|a + b| - 1] == b[n];
      ReduceAppend(v, a, b[..n]);
      if a == [] {
        assert [] + b == b;
      }
    }
  }

  /** A delta of this text came before event `i`. */
  ghost predicate Begun(log: seq<Event>, i: nat, t: string) {
    exists j :: 0 <= j < i && j < |log| && log[j].body.TextDelta? && log[j].body.textId == t
  }

  /** What a client is sent for event `i`: the part that the message shows of it, a text's beginning before its first
      delta alone, and at the end of the turn the end of every text begun, once, before the end itself. */
  ghost predicate Told(chunks: seq<Chunk>, log: seq<Event>, i: nat)
    requires i < |log|
  {
    var n := |chunks|;
    match log[i].body
    case TurnStart(messageId) => chunks == [Start(messageId)]
    case TextDelta(t, delta) => chunks == if Begun(log, i, t) then [TextMore(t, delta)]
      else [TextBegin(t), TextMore(t, delta)]
    case TurnFinish(state, _, _) =>
      && n >= 2 && chunks[n - 1] == Finish(state) && chunks[n - 2].Data? && Shows(chunks[n - 2].part, log[i])
      && (forall k :: 0 <= k < n - 2 ==> chunks[k].TextEnd? && Begun(log, i, chunks[k].textId))
      && (forall t :: Begun(log, i, t) ==> exists k :: 0 <= k < n - 2 && chunks[k] == TextEnd(t))
      && (forall j, k :: 0 <= j < k < n - 2 ==> chunks[j] != chunks[k])
    case _ =>
      if IsActivity(log[i]) || log[i].body.Artifact? then n == 1 && chunks[0].Data? && Shows(chunks[0].part, log[i])
      else chunks == []
  }

  /** The mapper remembers the texts begun, each once. */
  ghost predicate Remembers(textIds: seq<string>, log: seq<Event>, i: nat) {
    && (forall t :: t in textIds <==> Begun(log, i, t))
    && forall j, k :: 0 <= j < k < |textIds| ==> textIds[j] != textIds[k]
  }

  lemma {:induction false} EventIsTold(textIds: seq<string>, log: seq<Event>, i: nat)
    requires i < |log| && Remembers(textIds, log, i) && MapEvent(textIds, log[i]).Ok?
    ensures Told(MapEvent(textIds, log[i]).value, log, i)
  {
    var e := log[i];
    if e.body.TurnFinish? {
      EndsAreTold(textIds, log, i);
    }
  }

  lemma {:induction false} EndsAreTold(textIds: seq<string>, log: seq<Event>, i: nat)
    requires i < |log| && Remembers(textIds, log, i) && log[i].body.TurnFinish?
    ensures Told(MapEvent(textIds, log[i]).value, log, i)
  {
    var chunks := MapEvent(textIds, log[i]).value;
    assert forall k :: 0 <= k < |textIds| ==> chunks[k] == TextEnd(textIds[k]) && textIds[k] in textIds;
    forall t | Begun(log, i, t) ensures exists k :: 0 <= k < |textIds| && chunks[k] == TextEnd(t) {
      var k :| 0 <= k < |textIds| && textIds[k] == t;
      assert chunks[k] == TextEnd(t);
    }
    hide Begun;
  }

  lemma {:induction false} RemembersNext(textIds: seq<string>, log: seq<Event>, i: nat)
    requires i < |log| && Remembers(textIds, log, i)
    ensures Remembers(NextTextIds(textIds, log[i]), log, i + 1)
  {
    forall t ensures Begun(log, i + 1, t) <==> Begun(log, i, t) || (log[i].body.TextDelta? && log[i].body.textId == t) {
    }
    hide Begun;
  }

  /** A turn as the mapper sends it live: it throws exactly for a file that is not stored yet, and a client that
      folds the chunks of a turn ends, without an error, with the texts, approvals and files of the persisted message.
      */
  method LiveTurn(log: seq<Event>, ghost kind: string -> int)
    returns (chunks: seq<Chunk>, ok: bool, ghost batches: seq<seq<Chunk>>)
    ensures ok <==> forall i :: 0 <= i < |log| ==> !Unfinalized(log[i])
    ensures ok ==> chunks == Flatten(batches) && |batches| == |log| && forall i :: 0 <= i < |log|
                                                                         ==> Told(batches[i], log, i)
    ensures ok ==> ReduceAll(Some(BLANK), chunks) == Project(log).1
    ensures TidyLog(log, kind) && log != []
            ==> ok && ApplyAll(log).Ok? && ReduceAll(Some(BLANK), chunks).Some?
                && Agree(ApplyAll(log).value, Project(log).0, ReduceAll(Some(BLANK), chunks).value, kind)
  {
    hide MapEvent, NextTextIds, ReduceAll, Agree, Remembers, Told, Flatten;
    var mapper := new AgentUiStreamMapper();
    chunks, batches := [], [];
    NoChunks(log);
    for i := 0 to |log|
      invariant Project(log[..i]) == (mapper.textIds, ReduceAll(Some(BLANK), chunks))
      invariant forall j :: 0 <= j < i ==> !Unfinalized(log[j])
      invariant Remembers(mapper.textIds, log, i) && chunks == Flatten(batches) && |batches| == i
      invariant forall j :: 0 <= j < i ==> Told(batches[j], log, j)
    {
      assert log[..i + 1][..i] == log[..i];
      var textIds := mapper.textIds;
      RemembersNext(textIds, log, i);
      var r := mapper.Chunks(log[i]);
      if r.Err? {
        return chunks, false, batches;
      }
      ReduceAppend(Some(BLANK), chunks, r.value);
      EventIsTold(textIds, log, i);
      FlattenSnoc(batches, r.value);
      chunks, batches := chunks + r.value, batches + [r.value];
    }
    assert log[..|log|] == log;
    ok := true;
    if TidyLog(log, kind) && log != [] {
      ClientSeesMessage(log, kind);
    }
  }

  lemma {:induction false} NoChunks(log: seq<Event>)
    ensures ReduceAll(Some(BLANK), []) == Some(BLANK) && Flatten<Chunk>([]) == [] && Remembers([], log, 0)
  {
  }

  ghost predicate HasFile(log: seq<Event>, id: string) {
    exists i :: 0 <= i < |log| && log[i].body.Artifact? && log[i].body.artifactId == id
  }

  lemma {:induction false} HasFileStep(log: seq<Event>, id: string)
    requires log != []
    ensures var last := log[|log| - 1].body;
            HasFile(log, id) <==> HasFile(log[..|log| - 1], id) || (last.Artifact? && last.artifactId == id)
  {
    var n := |log| - 1;
    if i :| 0 <= i < n && log[..n][i].body.Artifact? && log[..n][i].body.artifactId == id {
      assert log[i].body.Artifact?;
    }
    if i :| 0 <= i < n && log[i].body.Artifact? && log[i].body.artifactId == id {
      assert log[..n][i].body.Artifact?;
    }
  }
}
