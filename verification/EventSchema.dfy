/** The event schema, field by field: which events it accepts, and what it hands on of them. */
module EventSchema {
  import opened Text
  import opened ChatEvents
  import opened EventStream

  /** Prose that is not blank and, without its blank ends, no longer than the limit in UTF-16 units. */
  ghost predicate Within(text: string, limit: nat) {
    !Blank(text) && Utf16Length(Trim(text)) <= limit
  }

  ghost predicate WithinIf(text: Option<string>, limit: nat) {
    text.Some? ==> Within(text.value, limit)
  }

  ghost predicate Asks(b: Body) {
    match b
    case TurnStart(messageId) => IsIdentifier(messageId)
    case TextDelta(textId, delta) => IsIdentifier(textId) && delta != "" && Utf16Length(delta) <= 16_000
    case Progress(activityId, caption, _) => IsIdentifier(activityId) && Within(caption, 240)
    case Tool(toolCallId, name, _, summary, caption) =>
      IsIdentifier(toolCallId) && IsToolName(Trim(name)) && WithinIf(summary, 500) && WithinIf(caption, 240)
    case Plan(title, summary, _) => Within(title, 240) && WithinIf(summary, 500)
    case ProviderSummary(summary, provider) => Within(summary, 500) && WithinIf(provider, 80)
    case WebAction(action, caption, url) =>
      && (action == "search" || action == "open" || action == "find") && Within(caption, 240)
      && (url.Some? ==> IsLink(url.value))
    case Source(title, url) => Within(title, 240) && IsLink(url)
    case Approval(approvalId, _, _, summary) => IsIdentifier(approvalId) && Within(summary, 500)
    case Artifact(_, filename, _) => Within(filename, 180) && IsFilename(Trim(filename))
    case ComputerAction(actionId, caption, _) => IsIdentifier(actionId) && Within(caption, 240)
    case Notice(notice) => Within(notice, 500)
    case ErrorReport(_, report) => Within(report, 500)
    case TurnFinish(_, message, session) =>
      WithinIf(message, 500) && (session.Some? ==> session.value != "" && Utf16Length(session.value) <= 512)
  }

  lemma {:induction false} NotBlankIff(s: string)
    ensures Utf16Length(Trim(s)) >= 1 <==> !Blank(s)
    ensures Utf16Length(s) >= 1 <==> s != ""
  {
    TrimIsPart(s);
    Utf16Bounds(s);
    Utf16Bounds(Trim(s));
  }

  lemma {:induction false} FitBoth(a: seq<Prose>, b: seq<Prose>)
    requires |a| <= 1 && |b| <= 1
    ensures (forall p :: p in a + b ==> Fits(p)) <==> (a != [] ==> Fits(a[0])) && (b != [] ==> Fits(b[0]))
  {
    hide Fits;
    assert forall p :: p in a + b <==> p in a || p in b;
    assert (a != [] ==> a[0] in a) && (b != [] ==> b[0] in b);
  }

  /** Types with more than one field of prose, or an optional one. */
  predicate HasMuchProse(b: Body) {
    b.Tool? || b.Plan? || b.ProviderSummary? || b.TurnFinish?
  }

  lemma {:induction false} MuchProseAsks(b: Body)
    requires forall s :: Utf16Length(Trim(s)) >= 1 <==> !Blank(s)
    requires forall s :: Utf16Length(s) >= 1 <==> s != ""
    requires HasMuchProse(b)
    ensures (forall p :: p in ProseOf(b) ==> Fits(p)) && FormsFit(b)
            && (b.TextDelta? ==> 1 <= Utf16Length(b.delta) <= MAX_DELTA_UNITS)
            <==> Asks(b)
  {
    hide Utf16Length, Trim, Blank, IsIdentifier, IsToolName, IsFilename, IsLink;
    match b {
      case Tool(_, _, _, summary, caption) => FitBoth(Optional(summary, 500), Optional(caption, 240));
      case Plan(title, summary, _) => FitBoth([Prose(title, 240)], Optional(summary, 500));
      case ProviderSummary(summary, provider) => FitBoth([Prose(summary, 500)], Optional(provider, 80));
      case TurnFinish(_, message, _) => assert message.Some? ==> Prose(message.value, 500) in ProseOf(b);
    }
  }

  lemma {:induction false} LittleProseAsks(b: Body)
    requires forall s :: Utf16Length(Trim(s)) >= 1 <==> !Blank(s)
    requires forall s :: Utf16Length(s) >= 1 <==> s != ""
    requires !HasMuchProse(b)
    ensures (forall p :: p in ProseOf(b) ==> Fits(p)) && FormsFit(b)
            && (b.TextDelta? ==> 1 <= Utf16Length(b.delta) <= MAX_DELTA_UNITS)
            <==> Asks(b)
  {
    hide Utf16Length, Trim, Blank, IsIdentifier, IsToolName, IsFilename, IsLink;
    FitBoth(ProseOf(b), []);
    assert ProseOf(b) + [] == ProseOf(b);
  }

  lemma {:induction false} ProseAsks(b: Body)
    requires forall s :: Utf16Length(Trim(s)) >= 1 <==> !Blank(s)
    requires forall s :: Utf16Length(s) >= 1 <==> s != ""
    ensures (forall p :: p in ProseOf(b) ==> Fits(p)) && FormsFit(b)
            && (b.TextDelta? ==> 1 <= Utf16Length(b.delta) <= MAX_DELTA_UNITS)
            <==> Asks(b)
  {
    hide *;
    if HasMuchProse(b) {
      MuchProseAsks(b);
    } else {
      LittleProseAsks(b);
    }
  }

  /** Control takes an event exactly when its number is within the bound, it names its session and turn, and its fields
      are what its type asks for. */
  lemma {:induction false} SchemaIs(e: Event)
    ensures SchemaAccepts(e)
            <==> e.sequence <= 100_000 && IsIdentifier(e.sessionId) && IsIdentifier(e.turnId) && Asks(e.body)
  {
    forall s ensures (Utf16Length(Trim(s)) >= 1 <==> !Blank(s)) && (Utf16Length(s) >= 1 <==> s != "") {
      NotBlankIff(s);
    }
    ProseAsks(e.body);
    hide Asks, FormsFit, Utf16Length, ProseOf, IsIdentifier;
  }

  // ----- What is handed on ----------------------------------------------------------------------------------

  lemma {:induction false} TrimIsStable(s: string)
    ensures Trim(Trim(s)) == Trim(s)
  {
    var lead, tail := TrimSplits(s);
    hide IsScriptSpace, Blank;
  }

  /** The handed-on event keeps its number, session, turn and type, its message text, its states and its identifiers;
      only the blank ends of its prose and of a tool's name are gone. */
  ghost predicate HandsOn(e: Event, parsed: Event) {
    && parsed.sequence == e.sequence && parsed.sessionId == e.sessionId && parsed.turnId == e.turnId
    && match e.body
       case TurnStart(_) => parsed == e
       case TextDelta(_, _) => parsed == e
       case Progress(id, caption, work) => parsed.body == Progress(id, Trim(caption), work)
       case Tool(id, name, tool, summary, caption) =>
         && parsed.body.Tool? && parsed.body.toolCallId == id && parsed.body.toolName == Trim(name)
         && parsed.body.toolState == tool && Trims(summary, parsed.body.toolSummary)
         && Trims(caption, parsed.body.progressLabel)
       case Plan(title, summary, work) =>
         && parsed.body.Plan? && parsed.body.title == Trim(title) && Trims(summary, parsed.body.planSummary)
         && parsed.body.planState == work
       case ProviderSummary(summary, provider) =>
         parsed.body.ProviderSummary? && parsed.body.summary == Trim(summary) && Trims(provider, parsed.body.provider)
       case WebAction(action, caption, url) => parsed.body == WebAction(action, Trim(caption), url)
       case Source(title, url) => parsed.body == Source(Trim(title), url)
       case Approval(id, operation, state, summary) => parsed.body == Approval(id, operation, state, Trim(summary))
       case Artifact(id, filename, revision) => parsed.body == Artifact(id, Trim(filename), revision)
       case ComputerAction(id, caption, action) => parsed.body == ComputerAction(id, Trim(caption), action)
       case Notice(notice) => parsed.body == Notice(Trim(notice))
       case ErrorReport(code, report) => parsed.body == ErrorReport(code, Trim(report))
       case TurnFinish(state, message, session) =>
         && parsed.body.TurnFinish? && parsed.body.state == state && Trims(message, parsed.body.message)
         && parsed.body.vendorSessionId == session
  }

  predicate Trims(text: Option<string>, trimmed: Option<string>) {
    text.Some? == trimmed.Some? && (text.Some? ==> trimmed.value == Trim(text.value))
  }

  lemma {:induction false} TrimmedAsks(text: string, limit: nat)
    ensures Trim(Trim(text)) == Trim(text) && (Within(Trim(text), limit) <==> Within(text, limit))
  {
    TrimIsStable(text);
    TrimIsPart(text);
    TrimIsPart(Trim(text));
  }

  lemma {:induction false} TrimmedIf(text: Option<string>, trimmed: Option<string>, limit: nat)
    requires Trims(text, trimmed)
    ensures Trims(trimmed, trimmed) && (WithinIf(trimmed, limit) <==> WithinIf(text, limit))
  {
    if text.Some? {
      TrimmedAsks(text.value, limit);
    }
  }

  lemma {:induction false} HandedOn(e: Event)
    ensures HandsOn(e, Parsed(e))
  {
    hide Trim;
  }

  lemma {:induction false} HandedOnAgain(a: Event, b: Event, c: Event)
    requires HandsOn(a, b) && HandsOn(b, c)
    ensures c == b && (Asks(b.body) <==> Asks(a.body))
  {
    hide Trim, Utf16Length, IsIdentifier, IsToolName, IsFilename, IsLink, Within, WithinIf;
    match a.body {
      case TurnStart(_) =>
      case TextDelta(_, _) =>
      case Progress(_, caption, _) => TrimmedAsks(caption, 240);
      case Tool(_, name, _, summary, caption) =>
        TrimmedAsks(name, 0);
        TrimmedIf(summary, b.body.toolSummary, 500);
        TrimmedIf(caption, b.body.progressLabel, 240);
      case Plan(title, summary, _) =>
        TrimmedAsks(title, 240);
        TrimmedIf(summary, b.body.planSummary, 500);
      case ProviderSummary(summary, provider) =>
        TrimmedAsks(summary, 500);
        TrimmedIf(provider, b.body.provider, 80);
      case WebAction(_, caption, _) => TrimmedAsks(caption, 240);
      case Source(title, _) => TrimmedAsks(title, 240);
      case Approval(_, _, _, summary) => TrimmedAsks(summary, 500);
      case Artifact(_, filename, _) => TrimmedAsks(filename, 180);
      case ComputerAction(_, caption, _) => TrimmedAsks(caption, 240);
      case Notice(notice) => TrimmedAsks(notice, 500);
      case ErrorReport(_, report) => TrimmedAsks(report, 500);
      case TurnFinish(_, message, _) => TrimmedIf(message, b.body.message, 500);
    }
  }

  /** An accepted event is handed on as it came but for blank ends; what is handed on would be accepted again and
      handed on unchanged. */
  lemma {:induction false} ParsedTells(e: Event)
    ensures HandsOn(e, Parsed(e)) && Parsed(Parsed(e)) == Parsed(e)
    ensures SchemaAccepts(Parsed(e)) <==> SchemaAccepts(e)
  {
    HandedOn(e);
    HandedOn(Parsed(e));
    HandedOnAgain(e, Parsed(e), Parsed(Parsed(e)));
    SchemaIs(e);
    SchemaIs(Parsed(e));
    hide SchemaAccepts, Asks, IsIdentifier;
  }
}
