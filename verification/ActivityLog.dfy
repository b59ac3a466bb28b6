/** The activity log of a turn: canonical events become drafts, drafts are appended under keys that make recording
    idempotent, and subscribers follow the log from a cursor while it grows. */
module ActivityLog {
  import opened Text
  import opened ChatEvents

  datatype Kind =
    | PlanKind | ProgressKind | SummaryKind | ToolKind | ApprovalKind | WebKind | SourceKind | ComputerKind | NoticeKind
    | ErrorKind | TerminalKind

  datatype DraftState = InProgress | Done | FailedState | RequiresAction | CancelledState

  /** A draft; its payload is sanitised text of the event it was made from. */
  datatype Draft = Draft(kind: Kind, state: DraftState)

  function OfWork(s: WorkState): DraftState {
    if s.Running? then InProgress else Done
  }

  function OfTool(s: ToolState): DraftState {
    match s
    case ToolRunning => InProgress
    case ToolCompleted => Done
    case ToolFailed => FailedState
  }

  function OfApproval(s: ApprovalState): DraftState {
    match s
    case ApprovalRequired => RequiresAction
    case Approved => InProgress
    case Executing => InProgress
    case Succeeded => Done
    case Denied => CancelledState
    case ApprovalFailed => FailedState
    case Expired => CancelledState
  }

  function OfTurn(s: TurnState): DraftState {
    match s
    case NeedsInput => RequiresAction
    case Completed => Done
    case Cancelled => CancelledState
    case Failed => FailedState
  }

  /** `safeUrl` says which URLs survive sanitising; a source without one is dropped. */
  function Drafts(e: Event, safeUrl: string -> bool): seq<Draft> {
    match e.body
    case TurnStart(_) => [Draft(PlanKind, InProgress)]
    case Plan(_, _, planState) => [Draft(PlanKind, OfWork(planState))]
    case Progress(_, _, workState) => [Draft(ProgressKind, OfWork(workState))]
    case ProviderSummary(_, _) => [Draft(SummaryKind, Done)]
    case Tool(_, _, toolState, _, _) => [Draft(ToolKind, OfTool(toolState))]
    case Approval(_, _, approvalState, _) => [Draft(ApprovalKind, OfApproval(approvalState))]
    case WebAction(_, _, _) => [Draft(WebKind, Done)]
    case Source(_, url) => if safeUrl(url.text) then [Draft(SourceKind, Done)] else []
    case ComputerAction(_, _, actionState) => [Draft(ComputerKind, OfTool(actionState))]
    case Notice(_) => [Draft(NoticeKind, Done)]
    case ErrorReport(_, _) => [Draft(ErrorKind, FailedState)]
    case TurnFinish(state, _, _) =>
      if state == Failed then [Draft(ErrorKind, FailedState), Draft(TerminalKind, FailedState)]
        else [Draft(TerminalKind, OfTurn(state))]
    case TextDelta(_, _) => []
    case Artifact(_, _, _) => []
  }

  function TypeName(b: Body): string {
    match b
    case TurnStart(_) => "turn-start"
    case TextDelta(_, _) => "text-delta"
    case Progress(_, _, _) => "progress"
    case Tool(_, _, _, _, _) => "tool"
    case Plan(_, _, _) => "plan"
    case ProviderSummary(_, _) => "provider-summary"
    case WebAction(_, _, _) => "web-action"
    case Source(_, _) => "source"
    case Approval(_, _, _, _) => "approval"
    case Artifact(_, _, _) => "artifact"
    case ComputerAction(_, _, _) => "computer-action"
    case Notice(_) => "notice"
    case ErrorReport(_, _) => "error"
    case TurnFinish(_, _, _) => "turn-finish"
  }

  function DedupeKey(e: Event, index: nat): string {
    "agent" + [':'] + (Decimal(e.sequence) + [':'] + (TypeName(e.body) + [':'] + Decimal(index)))
  }

  lemma {:induction false} TypeNamesPlain(b: Body)
    ensures ':' !in TypeName(b) && ':' !in "agent"
  {
  }

  /** The key determines the event's number and type and the draft's position. */
  lemma {:induction false} DedupeKeyInjective(e: Event, i: nat, e': Event, j: nat)
    requires DedupeKey(e, i) == DedupeKey(e', j)
    ensures e.sequence == e'.sequence && TypeName(e.body) == TypeName(e'.body) && i == j
  {
    var rest, rest' := TypeName(e.body) + [':'] + Decimal(i), TypeName(e'.body) + [':'] + Decimal(j);
    TypeNamesPlain(e.body);
    TypeNamesPlain(e'.body);
    hide TypeName, DecimalValue;
    DelimitedInjective("agent", Decimal(e.sequence) + [':'] + rest, "agent", Decimal(e'.sequence) + [':'] + rest', ':');
    DecimalRoundTrip(e.sequence);
    DecimalRoundTrip(e'.sequence);
    DelimitedInjective(Decimal(e.sequence), rest, Decimal(e'.sequence), rest', ':');
    DelimitedInjective(TypeName(e.body), Decimal(i), TypeName(e'.body), Decimal(j), ':');
    DecimalInjective(e.sequence, e'.sequence);
    DecimalInjective(i, j);
  }

  /** A stored activity event; its sequence number is its position in the log. */
  datatype Stored = Stored(key: string, draft: Draft)

  function Keys(log: seq<Stored>): set<string> {
    set i | 0 <= i < |log| :: log[i].key
  }

  ghost predicate DistinctKeys(log: seq<Stored>) {
    forall i, j :: 0 <= i < j < |log| ==> log[i].key != log[j].key
  }

  function Appended(log: seq<Stored>, s: Stored): seq<Stored> {
    if s.key in Keys(log) then log else log + [s]
  }

  /** What recording the first `n` drafts of an event leaves. */
  function RecordedThrough(log: seq<Stored>, e: Event, drafts: seq<Draft>, n: nat): seq<Stored>
    requires n <= |drafts|
  {
    if n == 0 then log else Appended(RecordedThrough(log, e, drafts, n - 1), Stored(DedupeKey(e, n - 1), drafts[n - 1]))
  }

  datatype Fate = Ack | Lost | Unsent

  datatype Poll = Poll(before: seq<Stored>, between: seq<Stored>)

  /** How a subscription ends: at the terminal event, by the client, by a refused authorisation, or because the turn has
      no activity. */
  datatype Ending = Terminal | Aborted | Refused | NotFound

  class ActivityStore {
    var log: seq<Stored>

    constructor ()
      ensures log == []
    {
      log := [];
    }

    method AppendActivityEvent(s: Stored, fate: Fate) returns (ok: bool)
      modifies this
      ensures log == if fate == Unsent then old(log) else Appended(old(log), s)
      ensures ok == (fate == Ack)
    {
      if fate != Unsent && s.key !in Keys(log) {
        log := log + [s];
      }
      ok := fate == Ack;
    }

    /** Record an event's drafts in order; a failure leaves the drafts before it, and perhaps its own. */
    method RecordAgentEvent(e: Event, safeUrl: string -> bool, fate: nat -> Fate) returns (ok: bool, ghost done: nat)
      modifies this
      ensures done <= |Drafts(e, safeUrl)| && log == RecordedThrough(old(log), e, Drafts(e, safeUrl), done)
      ensures ok ==> done == |Drafts(e, safeUrl)|
      ensures (forall k :: fate(k) == Ack) ==> ok
    {
      var drafts := Drafts(e, safeUrl);
      done := 0;
      for i := 0 to |drafts|
        invariant done == i && log == RecordedThrough(old(log), e, drafts, i)
      {
        ok := AppendActivityEvent(Stored(DedupeKey(e, i), drafts[i]), fate(i));
        if fate(i) != Unsent { done := i + 1; }
        if !ok { return; }
      }
      ok := true;
    }

    /** The earliest terminal event, if there is one: the aggregate the replay query computes first. */
    method TerminalSequence() returns (t: Option<nat>)
      ensures t == FirstTerminal(log)
    {
      t := None;
      for i := 0 to |log|
        invariant t == FirstTerminal(log[..i])
      {
        assert log[..i + 1][..i] == log[..i];
        if log[i].draft.kind == TerminalKind && t.None? {
          t := Some(i);
        }
      }
      assert log[..|log|] == log;
    }
  }

  function FirstTerminal(log: seq<Stored>): Option<nat> {
    if log == [] then None
    else
      var n := |log| - 1;
      var t := FirstTerminal(log[..n]);
      if t.None? && log[n].draft.kind == TerminalKind then Some(n) else t
  }

  const PAGE := 200

  /** The events after `cursor`, at most a page of them. */
  function PageAfter(log: seq<Stored>, cursor: int): seq<Stored>
    requires cursor >= -1
  {
    if cursor + 1 >= |log| then [] else if cursor + 1 + PAGE >= |log| then log[cursor + 1..]
      else log[cursor + 1..cursor + 1 + PAGE]
  }

  /** What a subscriber to `log` has seen after it started behind `after` and reached `cursor`. */
  predicate Seen(log: seq<Stored>, after: int, cursor: int, yielded: seq<Stored>) {
    && -1 <= after <= cursor && |yielded| == cursor - after
    && (cursor > after ==> cursor < |log| && yielded == log[after + 1..cursor + 1])
  }

  /** Hand a page to the client, asking for authorisation before every event. */
  method DeliverPage(page: seq<Stored>, ghost log: seq<Stored>, ghost after: int, before: int, so: seq<Stored>,
                     authorized: nat -> bool)
    returns (yielded: seq<Stored>, cursor: int, refused: bool)
    requires Seen(log, after, before, so) && page == PageAfter(log, before)
    ensures Seen(log, after, cursor, yielded)
    ensures if refused then !authorized(|yielded|) else cursor == before + |page|
  {
    CursorFits(log, after, before, so);
    hide Seen, PageAfter;
    yielded, cursor := so, before;
    for i := 0 to |page|
      invariant Seen(log, after, cursor, yielded) && cursor == before + i
    {
      if !authorized(|yielded|) {
        return yielded, cursor, true;
      }
      NextSeen(log, after, cursor, yielded, before, i);
      cursor := cursor + 1;
      yielded := yielded + [page[i]];
    }
    refused := false;
  }

  /** Everything that others append while these polls are made. */
  function Arrivals(polls: seq<Poll>): seq<Stored> {
    if polls == [] then []
    else Arrivals(polls[..|polls| - 1]) + (polls[|polls| - 1].before + polls[|polls| - 1].between)
  }

  lemma {:induction false} NextArrivals(log: seq<Stored>, polls: seq<Poll>, k: nat)
    requires k < |polls|
    ensures log + Arrivals(polls[..k + 1]) == log + Arrivals(polls[..k]) + polls[k].before + polls[k].between
  {
    assert polls[..k + 1][..k] == polls[..k];
  }

  /** Follow a turn's activity while others append to it. Whatever the interleaving, the client sees exactly the events
      after its cursor, in order, without gap or repeat, and the stream ends by itself only when the terminal event lies
      behind the cursor. `authorized` is asked before every event. */
  method Subscribe(store: ActivityStore, after: int, polls: seq<Poll>, authorized: nat -> bool)
    returns (yielded: seq<Stored>, ending: Ending, cursor: int, ghost made: nat)
    requires after >= -1
    modifies store
    ensures made <= |polls| && store.log == old(store.log) + Arrivals(polls[..made])
    ensures old(store.log) <= store.log && Seen(store.log, after, cursor, yielded)
    ensures ending == Terminal ==> TerminalReached(store.log, cursor)
    ensures ending == Refused ==> !authorized(|yielded|)
    ensures ending == NotFound <==> polls != [] && old(store.log) == [] && polls[0].before == []
    ensures ending == NotFound ==> made == 0
    ensures ending == Aborted ==> made == |polls|
    ensures ending == Aborted && polls != [] ==> MoreToCome(store.log, polls[|polls| - 1].between, after, cursor)
  {
    yielded, cursor, made := [], after, 0;
    assert polls[..0] == [];
    for k := 0 to |polls|
      invariant made == k && store.log == old(store.log) + Arrivals(polls[..k])
      invariant k > 0 ==> old(store.log) + polls[0].before != [] && store.log != []
      invariant old(store.log) <= store.log && Seen(store.log, after, cursor, yielded)
      invariant k > 0 ==> MoreToCome(store.log, polls[k - 1].between, after, cursor)
    {
      hide Seen, MoreToCome, TerminalReached, PageAfter, FirstTerminal, Arrivals;
      NextArrivals(old(store.log), polls, k);
      Grows(store.log, polls[k].before, after, cursor, yielded);
      store.log := store.log + polls[k].before;
      if store.log == [] {
        return yielded, NotFound, cursor, 0;
      }
      var terminal := store.TerminalSequence();
      Grows(store.log, polls[k].between, after, cursor, yielded);
      made := k + 1;
      ghost var summary, start := store.log, cursor;
      store.log := store.log + polls[k].between;
      CursorFits(store.log, after, cursor, yielded);
      var page := PageAfter(store.log, cursor);
      var refused;
      yielded, cursor, refused := DeliverPage(page, store.log, after, cursor, yielded, authorized);
      if refused {
        return yielded, Refused, cursor, made;
      }
      Polled(summary, polls[k].between, after, start, cursor);
      if terminal.Some? && cursor >= terminal.value {
        return yielded, Terminal, cursor, made;
      }
    }
    assert polls[..|polls|] == polls;
    ending := Aborted;
  }

  predicate TerminalReached(log: seq<Stored>, cursor: int) {
    FirstTerminal(log).Some? && FirstTerminal(log).value <= cursor
  }

  lemma {:induction false} CursorFits(log: seq<Stored>, after: int, cursor: int, yielded: seq<Stored>)
    requires Seen(log, after, cursor, yielded)
    ensures cursor >= after >= -1
  {
  }

  lemma {:induction false} Polled(summary: seq<Stored>, between: seq<Stored>, after: int, start: int, cursor: int)
    requires start >= after >= -1 && cursor == start + |PageAfter(summary + between, start)|
    ensures var terminal := FirstTerminal(summary);
            if terminal.Some? && cursor >= terminal.value then TerminalReached(summary + between, cursor)
            else MoreToCome(summary + between, between, after, cursor)
  {
    FirstTerminalStays(summary, between);
    assert (summary + between)[..|summary|] == summary;
  }

  /** After a poll that does not end the stream: the summary, taken before `between` arrived, shows no terminal event or
      one still ahead, and the poll delivered everything there is or a full page. */
  predicate MoreToCome(log: seq<Stored>, between: seq<Stored>, after: int, cursor: int) {
    && |between| <= |log|
    && (var t := FirstTerminal(log[..|log| - |between|]); t.None? || t.value > cursor)
    && (cursor + 1 >= |log| || cursor - after >= PAGE)
  }

  lemma {:induction false} Grows(log: seq<Stored>, more: seq<Stored>, after: int, cursor: int, yielded: seq<Stored>)
    requires Seen(log, after, cursor, yielded)
    ensures Seen(log + more, after, cursor, yielded) && log <= log + more
  {
  }

  lemma {:induction false} FirstTerminalStays(log: seq<Stored>, more: seq<Stored>)
    ensures FirstTerminal(log).Some?
            ==> FirstTerminal(log + more) == FirstTerminal(log) && FirstTerminal(log).value < |log|
  {
    if more == [] {
      assert log + more == log;
      FirstTerminalBound(log);
    } else {
      var n := |more| - 1;
      assert (log + more)[..|log + more| - 1] == log + more[..n];
      FirstTerminalStays(log, more[..n]);
    }
  }

  lemma {:induction false} FirstTerminalBound(log: seq<Stored>)
    ensures var t := FirstTerminal(log);
            && (t.Some? ==> t.value < |log| && log[t.value].draft.kind == TerminalKind)
            && forall i :: 0 <= i < (if t.Some? then t.value else |log|) ==> log[i].draft.kind != TerminalKind
  {
    if log != [] {
      FirstTerminalBound(log[..|log| - 1]);
    }
  }

  lemma {:induction false} NextSeen(log: seq<Stored>, after: int, cursor: int, yielded: seq<Stored>, start: int, i: nat)
    requires Seen(log, after, cursor, yielded) && start >= -1 && cursor == start + i && i < |PageAfter(log, start)|
    ensures Seen(log, after, cursor + 1, yielded + [PageAfter(log, start)[i]])
  {
    assert PageAfter(log, start)[i] == log[cursor + 1];
  }

  lemma {:induction false} AppendedKeeps(log: seq<Stored>, s: Stored)
    requires DistinctKeys(log)
    ensures DistinctKeys(Appended(log, s)) && Keys(Appended(log, s)) == Keys(log) + {s.key} && log <= Appended(log, s)
  {
    var longer := log + [s];
    assert longer[|log|] == s && forall i :: 0 <= i < |log| ==> longer[i] == log[i] && log[i].key in Keys(log);
    if s.key !in Keys(log) {
      assert Keys(longer) == Keys(log) + {s.key};
    }
  }

  lemma {:induction false} RecordedKeeps(log: seq<Stored>, e: Event, drafts: seq<Draft>, n: nat)
    requires DistinctKeys(log) && n <= |drafts|
    ensures var after := RecordedThrough(log, e, drafts, n);
            DistinctKeys(after) && log <= after && forall k :: 0 <= k < n ==> DedupeKey(e, k) in Keys(after)
  {
    if n > 0 {
      RecordedKeeps(log, e, drafts, n - 1);
      AppendedKeeps(RecordedThrough(log, e, drafts, n - 1), Stored(DedupeKey(e, n - 1), drafts[n - 1]));
    }
  }

  lemma {:induction false} AllPresent(log: seq<Stored>, e: Event, drafts: seq<Draft>, n: nat)
    requires n <= |drafts| && forall k :: 0 <= k < n ==> DedupeKey(e, k) in Keys(log)
    ensures RecordedThrough(log, e, drafts, n) == log
  {
    if n > 0 {
      AllPresent(log, e, drafts, n - 1);
    }
  }

  /** Recording an event again, after any number of other events, adds nothing; and completing a recording that failed
      half way gives what one faultless recording would have given. */
  lemma {:induction false} RecordingIsIdempotent(log: seq<Stored>, later: seq<Stored>, e: Event, drafts: seq<Draft>,
                                                 done: nat)
    requires DistinctKeys(log) && done <= |drafts|
    requires RecordedThrough(log, e, drafts, |drafts|) <= later
    ensures RecordedThrough(later, e, drafts, |drafts|) == later
    ensures RecordedThrough(RecordedThrough(log, e, drafts, done), e, drafts, |drafts|)
            == RecordedThrough(log, e, drafts, |drafts|)
  {
    var whole := RecordedThrough(log, e, drafts, |drafts|);
    RecordedKeeps(log, e, drafts, |drafts|);
    KeysGrow(whole, later);
    AllPresent(later, e, drafts, |drafts|);
    Resumed(log, e, drafts, done, |drafts|);
  }

  lemma {:induction false} KeysGrow(a: seq<Stored>, b: seq<Stored>)
    requires a <= b
    ensures Keys(a) <= Keys(b)
  {
    assert forall i :: 0 <= i < |a| ==> a[i] == b[i];
  }

  lemma {:induction false} Resumed(log: seq<Stored>, e: Event, drafts: seq<Draft>, done: nat, n: nat)
    requires DistinctKeys(log) && done <= n <= |drafts|
    ensures RecordedThrough(RecordedThrough(log, e, drafts, done), e, drafts, n) == RecordedThrough(log, e, drafts, n)
    decreases n
  {
    if n == done {
      RecordedKeeps(log, e, drafts, done);
      AllPresent(RecordedThrough(log, e, drafts, done), e, drafts, done);
    } else {
      Resumed(log, e, drafts, done, n - 1);
    }
  }

  /** Recording a whole turn, one event after another. */
  function TurnRecorded(events: seq<Event>, safeUrl: string -> bool): seq<Stored> {
    if events == [] then []
    else
      var n := |events| - 1;
      RecordedThrough(TurnRecorded(events[..n], safeUrl), events[n], Drafts(events[n], safeUrl),
                      |Drafts(events[n], safeUrl)|)
  }

  /** A turn as the adapter numbers it: event `i` has sequence `i`, and only the last is a turn-finish. */
  predicate Numbered(events: seq<Event>) {
    forall i :: 0 <= i < |events| ==> events[i].sequence == i && (i < |events| - 1 ==> !events[i].body.TurnFinish?)
  }

  /** Nothing in the log comes from event number `n` or later. */
  ghost predicate Earlier(log: seq<Stored>, n: nat) {
    forall i :: 0 <= i < |log| ==> forall e: Event, j: nat :: e.sequence >= n ==> log[i].key != DedupeKey(e, j)
  }

  /** New drafts are all appended: their keys are not in the log yet. */
  lemma {:induction false} RecordedAll(log: seq<Stored>, e: Event, drafts: seq<Draft>, n: nat)
    requires DistinctKeys(log) && Earlier(log, e.sequence) && n <= |drafts|
    ensures var after := RecordedThrough(log, e, drafts, n);
            && |after| == |log| + n && log <= after
            && forall k :: 0 <= k < n ==> after[|log| + k] == Stored(DedupeKey(e, k), drafts[k])
  {
    if n > 0 {
      RecordedAll(log, e, drafts, n - 1);
      KeyIsNew(log, RecordedThrough(log, e, drafts, n - 1), e, n - 1);
      hide DedupeKey, Keys, Earlier, DistinctKeys;
    }
  }

  lemma {:induction false} KeyIsNew(log: seq<Stored>, before: seq<Stored>, e: Event, n: nat)
    requires Earlier(log, e.sequence) && log <= before && |before| == |log| + n
    requires forall k :: 0 <= k < n ==> before[|log| + k].key == DedupeKey(e, k)
    ensures DedupeKey(e, n) !in Keys(before)
  {
    hide DedupeKey;
    forall i | 0 <= i < |before| ensures before[i].key != DedupeKey(e, n) {
      if i < |log| {
        assert before[i] == log[i];
      } else {
        assert before[|log| + (i - |log|)].key == DedupeKey(e, i - |log|);
        if before[i].key == DedupeKey(e, n) {
          DedupeKeyInjective(e, i - |log|, e, n);
        }
      }
    }
  }

  lemma {:induction false} EarlierGrows(log: seq<Stored>, e: Event, drafts: seq<Draft>)
    requires DistinctKeys(log) && Earlier(log, e.sequence)
    ensures Earlier(RecordedThrough(log, e, drafts, |drafts|), e.sequence + 1)
  {
    var recorded := RecordedThrough(log, e, drafts, |drafts|);
    RecordedAll(log, e, drafts, |drafts|);
    forall i, e': Event, j: nat | 0 <= i < |recorded| && e'.sequence >= e.sequence + 1
      ensures recorded[i].key != DedupeKey(e', j) {
      if i >= |log| && recorded[i].key == DedupeKey(e', j) {
        DedupeKeyInjective(e, i - |log|, e', j);
      }
    }
  }

  lemma {:induction false} TurnIsRecorded(events: seq<Event>, safeUrl: string -> bool)
    requires Numbered(events)
    ensures var log := TurnRecorded(events, safeUrl);
            && DistinctKeys(log) && Earlier(log, |events|)
            && ((forall i :: 0 <= i < |events| ==> !events[i].body.TurnFinish?) ==> FirstTerminal(log).None?)
  {
    if events != [] {
      var n := |events| - 1;
      TurnIsRecorded(events[..n], safeUrl);
      NextRecorded(TurnRecorded(events[..n], safeUrl), events[n], safeUrl);
      hide DistinctKeys, Earlier, FirstTerminal, RecordedThrough, Drafts;
    }
  }

  lemma {:induction false} NextRecorded(before: seq<Stored>, e: Event, safeUrl: string -> bool)
    requires DistinctKeys(before) && Earlier(before, e.sequence)
    ensures var log := RecordedThrough(before, e, Drafts(e, safeUrl), |Drafts(e, safeUrl)|);
            && DistinctKeys(log) && Earlier(log, e.sequence + 1)
            && (!e.body.TurnFinish? && FirstTerminal(before).None? ==> FirstTerminal(log).None?)
  {
    hide Drafts, DistinctKeys, Earlier, DedupeKey, FirstTerminal, RecordedThrough, Keys;
    var drafts := Drafts(e, safeUrl);
    RecordedKeeps(before, e, drafts, |drafts|);
    EarlierGrows(before, e, drafts);
    RecordedAll(before, e, drafts, |drafts|);
    OnlyFinishIsTerminal(e, safeUrl);
    var log := RecordedThrough(before, e, drafts, |drafts|);
    if !e.body.TurnFinish? {
      forall i | |before| <= i < |log| ensures log[i].draft.kind != TerminalKind {
        assert log[|before| + (i - |before|)].draft == drafts[i - |before|];
      }
      NoTerminalAdded(before, log);
    }
  }

  lemma {:induction false} OnlyFinishIsTerminal(e: Event, safeUrl: string -> bool)
    ensures !e.body.TurnFinish? ==> forall k :: 0 <= k < |Drafts(e, safeUrl)|
                                      ==> Drafts(e, safeUrl)[k].kind != TerminalKind
  {
  }

  lemma {:induction false} NoTerminalAdded(before: seq<Stored>, after: seq<Stored>)
    requires before <= after && forall i :: |before| <= i < |after| ==> after[i].draft.kind != TerminalKind
    ensures FirstTerminal(before).None? ==> FirstTerminal(after).None?
  {
    FirstTerminalBound(after);
    FirstTerminalBound(before);
    assert forall i :: 0 <= i < |before| ==> before[i] == after[i];
  }

  /** The log of a finished turn ends with its one terminal event, after the error that explains a failure. */
  lemma {:induction false} FinishedTurnEndsWithTerminal(events: seq<Event>, safeUrl: string -> bool)
    requires Numbered(events) && events != [] && events[|events| - 1].body.TurnFinish?
    ensures var log := TurnRecorded(events, safeUrl);
            && log != [] && FirstTerminal(log) == Some(|log| - 1)
            && (events[|events| - 1].body.state == Failed ==> |log| >= 2 && log[|log| - 2].draft.kind == ErrorKind)
  {
    var n := |events| - 1;
    TurnIsRecorded(events[..n], safeUrl);
    FinishRecorded(TurnRecorded(events[..n], safeUrl), events[n], safeUrl);
  }

  lemma {:induction false} FinishRecorded(before: seq<Stored>, e: Event, safeUrl: string -> bool)
    requires DistinctKeys(before) && Earlier(before, e.sequence) && FirstTerminal(before).None? && e.body.TurnFinish?
    ensures var log := RecordedThrough(before, e, Drafts(e, safeUrl), |Drafts(e, safeUrl)|);
            && log != [] && FirstTerminal(log) == Some(|log| - 1)
            && (e.body.state == Failed ==> |log| >= 2 && log[|log| - 2].draft.kind == ErrorKind)
  {
    var drafts := Drafts(e, safeUrl);
    RecordedAll(before, e, drafts, |drafts|);
    FinishDrafts(e, safeUrl);
    hide *;
    EndsWithDrafts(before, RecordedThrough(before, e, drafts, |drafts|), drafts);
  }

  lemma {:induction false} FinishDrafts(e: Event, safeUrl: string -> bool)
    requires e.body.TurnFinish?
    ensures var drafts := Drafts(e, safeUrl);
            && drafts[|drafts| - 1].kind == TerminalKind && |drafts| == (if e.body.state == Failed then 2 else 1)
            && (e.body.state == Failed ==> drafts[0].kind == ErrorKind)
  {
  }

  lemma {:induction false} EndsWithDrafts(before: seq<Stored>, log: seq<Stored>, drafts: seq<Draft>)
    requires FirstTerminal(before).None? && before <= log && |log| == |before| + |drafts|
    requires forall k :: 0 <= k < |drafts| ==> log[|before| + k].draft == drafts[k]
    requires 1 <= |drafts| <= 2 && drafts[|drafts| - 1].kind == TerminalKind
             && (|drafts| == 2 ==> drafts[0].kind == ErrorKind)
    ensures FirstTerminal(log) == Some(|log| - 1) && (|drafts| == 2 ==> log[|log| - 2].draft.kind == ErrorKind)
  {
    hide FirstTerminal;
    assert log[|before| + (|drafts| - 1)].draft == drafts[|drafts| - 1];
    if |drafts| == 2 {
      assert log[|before| + 0].draft == drafts[0];
    }
    EndsWithTerminal(before, log);
  }

  lemma {:induction false} EndsWithTerminal(before: seq<Stored>, log: seq<Stored>)
    requires FirstTerminal(before).None? && before < log && log[|log| - 1].draft.kind == TerminalKind
    requires forall i :: |before| <= i < |log| - 1 ==> log[i].draft.kind != TerminalKind
    ensures FirstTerminal(log) == Some(|log| - 1)
  {
    FirstTerminalBound(log);
    FirstTerminalBound(before);
    hide FirstTerminal;
    assert forall i :: 0 <= i < |before| ==> log[i] == before[i];
  }

  /** What a reader of the activity log is told of an event: the row that a plan, progress, tool, approval, web, source,
      computer, notice or error event leaves, and how a finish looks; text and files leave none. */
  predicate RowOf(b: Body, safeUrl: string -> bool, row: Draft) {
    match b
    case TurnStart(_) => row == Draft(PlanKind, InProgress)
    case Plan(_, _, work) => row.kind == PlanKind
      && (if work == Running then row.state == InProgress else row.state == Done)
    case Progress(_, _, work) =>
      row.kind == ProgressKind && (if work == Running then row.state == InProgress else row.state == Done)
    case ProviderSummary(_, _) => row == Draft(SummaryKind, Done)
    case Tool(_, _, tool, _, _) =>
      row.kind == ToolKind
        && (tool, row.state) in {(ToolRunning, InProgress), (ToolCompleted, Done), (ToolFailed, FailedState)}
    case Approval(_, _, approval, _) =>
      row.kind == ApprovalKind
      && (approval, row.state) in {(ApprovalRequired, RequiresAction), (Approved, InProgress), (Executing, InProgress),
                                   (Succeeded, Done), (Denied, CancelledState), (ApprovalFailed, FailedState),
                                   (Expired, CancelledState)}
    case WebAction(_, _, _) => row == Draft(WebKind, Done)
    case Source(_, url) => safeUrl(url.text) && row == Draft(SourceKind, Done)
    case ComputerAction(_, _, action) =>
      row.kind == ComputerKind
      && (action, row.state) in {(ToolRunning, InProgress), (ToolCompleted, Done), (ToolFailed, FailedState)}
    case Notice(_) => row == Draft(NoticeKind, Done)
    case ErrorReport(_, _) => row == Draft(ErrorKind, FailedState)
    case TurnFinish(end, _, _) =>
      || (row.kind == TerminalKind
          && (end, row.state) in {(NeedsInput, RequiresAction), (Completed, Done), (Cancelled, CancelledState),
                                  (Failed, FailedState)})
      || (end == Failed && row == Draft(ErrorKind, FailedState))
    case TextDelta(_, _) => false
    case Artifact(_, _, _) => false
  }

  lemma {:induction false} DraftsTell(e: Event, safeUrl: string -> bool)
    ensures forall row :: row in Drafts(e, safeUrl) <==> RowOf(e.body, safeUrl, row)
    ensures |Drafts(e, safeUrl)| <= 2 && (|Drafts(e, safeUrl)| == 2 ==> e.body.TurnFinish? && e.body.state == Failed)
  {
    hide DedupeKey;
  }

  /** The log of a turn holds, under the keys of an event, exactly the rows that tell of it. */
  lemma {:induction false} RowsOfTurn(events: seq<Event>, safeUrl: string -> bool, i: nat, row: Draft)
    requires Numbered(events) && i < |events|
    ensures (exists k: nat :: Stored(DedupeKey(events[i], k), row) in TurnRecorded(events, safeUrl))
            <==> RowOf(events[i].body, safeUrl, row)
  {
    var n := |events| - 1;
    TurnIsRecorded(events[..n], safeUrl);
    var before, e := TurnRecorded(events[..n], safeUrl), events[n];
    var drafts := Drafts(e, safeUrl);
    assert TurnRecorded(events, safeUrl) == RecordedThrough(before, e, drafts, |drafts|);
    hide TurnRecorded, RecordedThrough, Drafts, DistinctKeys, Earlier, FirstTerminal, DedupeKey, RowOf;
    if i < n {
      RowsOfTurn(events[..n], safeUrl, i, row);
      OthersKeep(before, e, drafts, events[i], row);
    } else {
      DraftsTell(e, safeUrl);
      OwnRows(before, e, drafts, row);
    }
  }

  lemma {:induction false} OthersKeep(before: seq<Stored>, e: Event, drafts: seq<Draft>, other: Event, row: Draft)
    requires DistinctKeys(before) && Earlier(before, e.sequence) && other.sequence < e.sequence
    ensures (exists k: nat :: Stored(DedupeKey(other, k), row) in before)
            <==> (exists k: nat :: Stored(DedupeKey(other, k), row) in RecordedThrough(before, e, drafts, |drafts|))
  {
    var log := RecordedThrough(before, e, drafts, |drafts|);
    RecordedAll(before, e, drafts, |drafts|);
    hide DedupeKey, RecordedThrough, Earlier;
    if k: nat :| Stored(DedupeKey(other, k), row) in log {
      var at :| 0 <= at < |log| && log[at] == Stored(DedupeKey(other, k), row);
      if at >= |before| {
        DedupeKeyInjective(other, k, e, at - |before|);
      } else {
        assert before[at] == log[at];
      }
    }
  }

  lemma {:induction false} OwnRows(before: seq<Stored>, e: Event, drafts: seq<Draft>, row: Draft)
    requires DistinctKeys(before) && Earlier(before, e.sequence)
    ensures (exists k: nat :: Stored(DedupeKey(e, k), row) in RecordedThrough(before, e, drafts, |drafts|))
            <==> row in drafts
  {
    var log := RecordedThrough(before, e, drafts, |drafts|);
    RecordedAll(before, e, drafts, |drafts|);
    hide DedupeKey, RecordedThrough;
    if row in drafts {
      var k :| 0 <= k < |drafts| && drafts[k] == row;
      assert log[|before| + k] == Stored(DedupeKey(e, k), row);
    }
    if k: nat :| Stored(DedupeKey(e, k), row) in log {
      var at :| 0 <= at < |log| && log[at] == Stored(DedupeKey(e, k), row);
      if at < |before| {
        assert before[at].key == DedupeKey(e, k);
      } else {
        assert log[|before| + (at - |before|)].draft == drafts[at - |before|];
      }
    }
  }

  /** Events of different types have different type names. */
  lemma {:induction false} TypeNamesDiffer(a: Body, b: Body)
    ensures TypeName(a) == TypeName(b)
            <==> ((a.TurnStart? <==> b.TurnStart?) && (a.TextDelta? <==> b.TextDelta?) && (a.Progress? <==> b.Progress?)
                  && (a.Tool? <==> b.Tool?) && (a.Plan? <==> b.Plan?) && (a.ProviderSummary? <==> b.ProviderSummary?)
                  && (a.WebAction? <==> b.WebAction?) && (a.Source? <==> b.Source?) && (a.Approval? <==> b.Approval?)
                  && (a.Artifact? <==> b.Artifact?) && (a.ComputerAction? <==> b.ComputerAction?)
                  && (a.Notice? <==> b.Notice?) && (a.ErrorReport? <==> b.ErrorReport?))
  {
  }

  /** So a subscription to it that ended by itself has delivered every event after its cursor. */
  lemma {:induction false} EndedIsComplete(events: seq<Event>, safeUrl: string -> bool, after: int, cursor: int,
                                           yielded: seq<Stored>)
    requires Numbered(events) && events != [] && events[|events| - 1].body.TurnFinish?
    requires Seen(TurnRecorded(events, safeUrl), after, cursor, yielded)
             && TerminalReached(TurnRecorded(events, safeUrl), cursor)
    ensures yielded == if after >= |TurnRecorded(events, safeUrl)| then []
            else TurnRecorded(events, safeUrl)[after + 1..]
  {
    FinishedTurnEndsWithTerminal(events, safeUrl);
    hide TurnRecorded, FirstTerminal;
    SeenToEnd(TurnRecorded(events, safeUrl), after, cursor, yielded);
  }

  lemma {:induction false} SeenToEnd(log: seq<Stored>, after: int, cursor: int, yielded: seq<Stored>)
    requires Seen(log, after, cursor, yielded) && cursor >= |log| - 1
    ensures yielded == if after >= |log| then [] else log[after + 1..]
  {
  }
}
