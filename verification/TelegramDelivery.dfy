/** Answering a Telegram message: a preview edited while the agent speaks, then the remainder and its artifacts, stored
    and sent in resumable steps. Every call may fail before or after taking effect; a crash is an attempt that stops. */
module TelegramDelivery {
  import opened Text
  import opened TelegramGrouping

  /** Telegram's bound on one message, in characters. */
  const LIMIT := 4000
  const STREAM_START := 24
  const STREAM_EDIT := 160
  const STREAM_EDIT_MS := 900

  datatype Fate = Ack | Lost | Unsent

  /** What a response stream remembers, what its messages read in the chat, and for each call that took effect whether
      it was acknowledged; `messageId` is the position in the chat of the message being edited. */
  datatype Preview = Preview(text: string, published: string, messageId: Option<nat>, publishedAt: nat, streamed: bool,
                             chat: seq<string>, acks: seq<bool>)

  function Shown(text: string): string {
    if |text| <= LIMIT then text else text[..LIMIT]
  }

  /** Whether a longer text is worth a call: enough to start with, or an edit that is due. */
  predicate Due(p: Preview, now: nat) {
    if p.messageId.None? then |p.text| >= STREAM_START || '\n' in p.text
    else now - p.publishedAt >= STREAM_EDIT_MS || |p.text| - |p.published| >= STREAM_EDIT
  }

  /** The chat after a send or an edit that took effect. */
  function Placed(p: Preview): seq<string> {
    if p.messageId.Some? && p.messageId.value < |p.chat| then p.chat[p.messageId.value := Shown(p.text)]
      else p.chat + [Shown(p.text)]
  }

  function Published(p: Preview, now: nat, fate: Fate): Preview {
    if Blank(Shown(p.text)) || Shown(p.text) == p.published || fate == Unsent then p
    else if fate == Lost then p.(chat := Placed(p), acks := p.acks + [false])
    else p.(chat := Placed(p), acks := p.acks + [true], published := Shown(p.text), publishedAt := now,
            messageId := if p.messageId.Some? then p.messageId else Some(|p.chat|))
  }

  /** The first call that took effect and the last one were acknowledged. */
  predicate Confirmed(acks: seq<bool>) {
    acks != [] ==> acks[0] && acks[|acks| - 1]
  }

  /** The message remembered is the last of the chat. It is the only one exactly when the first call that took effect
      was acknowledged, and reads as remembered exactly when the last one was. */
  ghost predicate Honest(p: Preview) {
    && |p.published| <= LIMIT
    && (p.chat == [] <==> p.acks == []) && (p.chat != [] ==> p.streamed) && (forall m :: m in p.chat ==> m != "")
    && if p.messageId.None? then p.published == "" && (p.acks != [] ==> !p.acks[0])
       else && p.chat != [] && p.messageId.value == |p.chat| - 1 && p.published != ""
            && (p.acks[0] <==> |p.chat| == 1)
            && (p.acks[|p.acks| - 1] <==> p.chat[|p.chat| - 1] == p.published)
  }

  /** The message in the chat goes on from what is remembered of it. */
  ghost predicate Ahead(p: Preview) {
    p.messageId.Some? && p.chat != [] ==> p.published <= p.chat[|p.chat| - 1]
  }

  lemma {:induction false} TextIsFree(p: Preview, text: string)
    requires Honest(p)
    ensures var q := p.(streamed := true, text := text); Honest(q) && (Ahead(p) ==> Ahead(q))
  {
  }

  /** A call is made for a text whose first 4,000 characters are neither blank nor on show. It sends a message, or edits
      the one remembered, to read so; only its acknowledgement makes the stream remember it. */
  lemma {:induction false} PublishedTells(p: Preview, now: nat, fate: Fate)
    requires Honest(p)
    ensures var shown, q := p.text[..Min(4_000, |p.text|)], Published(p, now, fate);
            if fate == Unsent || shown == p.published || forall c :: c in shown ==> IsScriptSpace(c) then q == p
            else && q.chat == (if p.messageId.Some? then p.chat[..|p.chat| - 1] else p.chat) + [shown]
                 && q.acks == p.acks + [fate == Ack] && q.text == p.text && q.streamed == p.streamed
                 && q.messageId.Some? == (fate == Ack || p.messageId.Some?)
                 && (if fate == Ack then q.published == shown && q.publishedAt == now
                     else q.published == p.published && q.publishedAt == p.publishedAt)
  {
    var shown := Shown(p.text);
    assert shown == p.text[..Min(4_000, |p.text|)];
    assert Blank(shown) <==> forall c :: c in shown ==> IsScriptSpace(c);
    hide IsScriptSpace;
  }

  lemma {:induction false} DueTells(p: Preview, now: nat, fate: Fate)
    requires Honest(p)
    ensures var q := if Due(p, now) then Published(p, now, fate) else p;
            var shown := p.text[..Min(4_000, |p.text|)];
            var due := if p.messageId.None? then |p.text| >= 24 || '\n' in p.text
                       else now - p.publishedAt >= 900 || |p.text| - |p.published| >= 160;
            && (q.acks != p.acks ==> !Blank(shown) && due)
            && (fate == Ack && !Blank(shown) && due ==> q.published == shown && q.messageId.Some?)
  {
    PublishedTells(p, now, fate);
    var shown := p.text[..Min(4_000, |p.text|)];
    assert Blank(shown) <==> forall c :: c in shown ==> IsScriptSpace(c);
    hide IsScriptSpace, Published;
  }

  lemma {:induction false} PublishingIsHonest(p: Preview, now: nat, fate: Fate)
    requires Honest(p) && p.streamed
    ensures var q := Published(p, now, fate);
            && Honest(q) && q.published in {p.published, Shown(p.text)} && q.text == p.text && q.streamed
            && (fate != Lost && Confirmed(p.acks) ==> Confirmed(q.acks))
            && (Ahead(p) && q.published <= p.text ==> Ahead(q))
  {
    var q := Published(p, now, fate);
    if q.chat != p.chat {
      assert q.chat == Placed(p) && q.chat[|q.chat| - 1] == Shown(p.text) && Shown(p.text) != "";
      assert forall m :: m in q.chat ==> m in p.chat || m == Shown(p.text);
    }
  }

  class TelegramResponseStream {
    var text: string
    var published: string
    var messageId: Option<nat>
    var publishedAt: nat
    var streamed: bool
    var chat: seq<string>
    var acks: seq<bool>

    function State(): Preview
      reads this
    {
      Preview(text, published, messageId, publishedAt, streamed, chat, acks)
    }

    ghost predicate Valid()
      reads this
    {
      Honest(State())
    }

    constructor ()
      ensures Valid() && State() == Preview("", "", None, 0, false, [], [])
    {
      text, published, messageId, publishedAt, streamed, chat, acks := "", "", None, 0, false, [], [];
    }

    method Append(delta: string, now: nat, fate: Fate)
      requires Valid() && published <= text && Ahead(State())
      modifies this
      ensures Valid() && published <= text && Ahead(State()) && text == old(text) + delta && streamed
      ensures fate != Lost && Confirmed(old(acks)) ==> Confirmed(acks)
      ensures var p := old(State()).(streamed := true, text := old(text) + delta);
              State() == if Due(p, now) then Published(p, now, fate) else p
      ensures acks != old(acks)
              ==> !Blank(text[..Min(4_000, |text|)])
                  && if old(messageId).None? then |text| >= 24 || '\n' in text
                     else now - old(publishedAt) >= 900 || |text| - |old(published)| >= 160
      ensures fate == Ack && !Blank(text[..Min(4_000, |text|)])
              && (if old(messageId).None? then |text| >= 24 || '\n' in text
                  else now - old(publishedAt) >= 900 || |text| - |old(published)| >= 160)
              ==> published == text[..Min(4_000, |text|)] && messageId.Some?
    {
      TextIsFree(State(), text + delta);
      DueTells(State().(streamed := true, text := text + delta), now, fate);
      hide Honest, Published, Ahead, Confirmed, Blank, Shown, Min;
      streamed := true;
      text := text + delta;
      if if messageId.None? then |text| >= STREAM_START || '\n' in text
         else now - publishedAt >= STREAM_EDIT_MS || |text| - |published| >= STREAM_EDIT
      {
        Publish(now, fate);
      }
    }

    /** Returns how many characters of the final text the preview already shows: after an acknowledged call, all of them
        up to the bound on one message. */
    method Finish(final: string, now: nat, fate: Fate) returns (count: nat)
      requires Valid() && Ahead(State())
      modifies this
      ensures Valid() && (fate != Lost && Confirmed(old(acks)) ==> Confirmed(acks))
      ensures published <= final ==> Ahead(State())
      ensures !streamed ==> old(!streamed)
      ensures var p := old(State()).(text := final); State() == if p.streamed then Published(p, now, fate) else p
      ensures count == if streamed && published <= final then |published| else 0
      ensures count <= |final| && (count > 0 ==> published == final[..count] && messageId.Some?)
      ensures old(streamed) && fate == Ack && !Blank(final[..Min(4_000, |final|)]) ==> count == Min(4_000, |final|)
    {
      TextIsFree(State(), final);
      PublishedTells(State().(text := final), now, fate);
      hide Published, Blank, Shown, Min;
      text := final;
      if !streamed {
        return 0;
      }
      Publish(now, fate);
      count := if published <= final then |published| else 0;
    }

    method Publish(now: nat, fate: Fate)
      requires Valid() && streamed
      modifies this`published, this`messageId, this`publishedAt, this`chat, this`acks
      ensures Valid() && published in {old(published), Shown(text)}
              && (fate != Lost && Confirmed(old(acks)) ==> Confirmed(acks))
      ensures old(Ahead(State())) && published <= text ==> Ahead(State())
      ensures State() == Published(old(State()), now, fate)
    {
      PublishingIsHonest(State(), now, fate);
      hide Confirmed, Ahead, Blank;
      var preview := if |text| <= LIMIT then text else text[..LIMIT];
      if Blank(preview) || preview == published {
        return;
      }
      if fate != Unsent {
        chat := if messageId.Some? then chat[messageId.value := preview] else chat + [preview];
        acks := acks + [fate == Ack];
      }
      if fate == Ack {
        if messageId.None? {
          messageId := Some(|chat| - 1);
        }
        published, publishedAt := preview, now;
      }
    }
  }

  /** What the stream counts as shown is what the chat reads exactly when the calls are confirmed and the final
      text goes on from the preview. */
  lemma {:induction false} CountedIsShownIff(p: Preview, final: string, count: nat)
    requires Honest(p) && (p.published <= final ==> Ahead(p)) && count == if p.published <= final then |p.published|
             else 0
    ensures Flatten(p.chat) == final[..count] <==> Confirmed(p.acks) && p.published <= final
    ensures Confirmed(p.acks) ==> p.chat == if p.published == "" then [] else [p.published]
  {
    if p.chat != [] {
      FlattenOfNonEmpty(p.chat);
      hide Flatten;
    }
  }

  lemma {:induction false} FlattenOfNonEmpty(parts: seq<string>)
    requires parts != [] && forall m :: m in parts ==> m != ""
    ensures Flatten(parts) != ""
    ensures if |parts| == 1 then Flatten(parts) == parts[0] else |Flatten(parts)| > |parts[|parts| - 1]|
  {
    var before, last := parts[..|parts| - 1], parts[|parts| - 1];
    assert last in parts && Flatten(parts) == Flatten(before) + last;
    if |parts| > 1 {
      assert forall m :: m in before ==> m in parts;
      FlattenOfNonEmpty(before);
    }
  }

  /** A preview whose acknowledgement is lost is forgotten: the chat shows the whole text, and the whole text is still
      to be delivered. */
  method LostPreviewIsRepeated(text: string, now: nat, fallback: string)
    returns (stream: TelegramResponseStream, count: nat)
    requires STREAM_START <= |text| <= LIMIT && !Blank(text)
    ensures stream.chat == [text] && stream.acks == [false]
    ensures count == 0 && Rendered(text, count, [], fallback) == text
  {
    stream := new TelegramResponseStream();
    stream.Append(text, now, Lost);
    assert "" + text == text;
    count := stream.Finish(text, now, Unsent);
    WholeRemains(text, fallback);
  }

  /** A preview that the final text does not go on from stays in the chat when its replacement cannot be sent,
      beside the whole reply, although no acknowledgement was lost. */
  method StalePreviewStays(delta: string, final: string, now: nat, fallback: string)
    returns (stream: TelegramResponseStream, count: nat)
    requires STREAM_START <= |delta| <= LIMIT && !Blank(delta) && final != "" && !(delta <= final)
    ensures stream.chat == [delta] && stream.acks == [true]
    ensures count == 0 && Rendered(final, count, [], fallback) == final
  {
    stream := new TelegramResponseStream();
    stream.Append(delta, now, Ack);
    assert "" + delta == delta;
    count := stream.Finish(final, now, Unsent);
    WholeRemains(final, fallback);
  }

  lemma {:induction false} WholeRemains(text: string, fallback: string)
    requires text != ""
    ensures Rendered(text, 0, [], fallback) == text
  {
    assert [text[0..]] + [] == [text] && [text][..0] == [] && [] + [text] == [text];
    assert NonEmpty([text]) == [text];
  }

  function NonEmpty(parts: seq<string>): seq<string> {
    if parts == [] then []
    else NonEmpty(parts[..|parts| - 1]) + if parts[|parts| - 1] == "" then [] else [parts[|parts| - 1]]
  }

  /** What is stored for delivery after `count` characters of the text were shown. */
  function Rendered(text: string, count: nat, notices: seq<string>, fallback: string): string
    requires count <= |text|
  {
    var joined := Join(NonEmpty([text[count..]] + notices));
    if joined != "" then joined else if count > 0 then "" else fallback
  }

  lemma {:induction false} NonEmptyHead(head: string, parts: seq<string>)
    ensures NonEmpty([head] + parts) == (if head == "" then [] else [head]) + NonEmpty(parts)
  {
    if parts == [] {
      assert [head] + parts == [head] && [head][..0] == [];
    } else {
      var n := |parts| - 1;
      assert ([head] + parts)[..n + 1] == [head] + parts[..n];
      NonEmptyHead(head, parts[..n]);
    }
  }

  lemma {:induction false} JoinHead(x: string, y: string, parts: seq<string>)
    ensures Join([x + y] + parts) == x + Join([y] + parts)
  {
    if parts == [] {
      assert [x + y] + parts == [x + y] && [y] + parts == [y];
    } else {
      var n := |parts| - 1;
      assert ([x + y] + parts)[..n + 1] == [x + y] + parts[..n] && ([y] + parts)[..n + 1] == [y] + parts[..n];
      JoinHead(x, y, parts[..n]);
      var before := Join([y] + parts[..n]);
      assert (x + before) + "\n\n" + parts[n] == x + (before + "\n\n" + parts[n]);
    }
  }

  /** The whole reply: the text and its notices, each once, or the fallback for want of both; a text shown completely
      is a message of its own. */
  function Reply(text: string, count: nat, notices: seq<string>, fallback: string): string {
    var rest := Join(NonEmpty(notices));
    if text == "" then if rest == "" then fallback else rest
    else if count < |text| then Join([text] + NonEmpty(notices))
    else text + rest
  }

  /** The shown beginning and the stored remainder together are the whole reply. */
  lemma {:induction false} RenderedCompletes(text: string, count: nat, notices: seq<string>, fallback: string)
    requires count <= |text|
    ensures text[..count] + Rendered(text, count, notices, fallback) == Reply(text, count, notices, fallback)
  {
    var rest, ns := text[count..], NonEmpty(notices);
    NonEmptyHead(rest, notices);
    hide NonEmpty, Join;
    if rest != "" {
      RestJoined(text, count, ns);
    } else {
      assert [] + ns == ns && text[..count] == text;
      assert text + "" == text && "" + fallback == fallback && "" + Join(ns) == Join(ns);
    }
  }

  lemma {:induction false} RestJoined(text: string, count: nat, notices: seq<string>)
    requires count < |text|
    ensures Join([text[count..]] + notices) != ""
    ensures text[..count] + Join([text[count..]] + notices) == Join([text] + notices)
  {
    var rest := text[count..];
    assert text == text[..count] + rest;
    hide Join;
    JoinHead(text[..count], rest, notices);
    JoinLength([rest] + notices);
    assert ([rest] + notices)[0] == rest;
  }

  lemma {:induction false} JoinLength(parts: seq<string>)
    ensures parts != [] ==> |Join(parts)| >= |parts[0]|
  {
    if |parts| > 1 {
      JoinLength(parts[..|parts| - 1]);
    }
  }

  datatype Item = Chunk(start: nat, text: string) | Document(index: nat)

  function Min(a: nat, b: nat): nat {
    if a <= b then a else b
  }

  function ChunkCount(text: string): nat {
    (|text| + LIMIT - 1) / LIMIT
  }

  function ChunkAt(text: string, i: nat): Item
    requires i < ChunkCount(text)
  {
    Chunk(LIMIT * i, text[LIMIT * i..Min(LIMIT * (i + 1), |text|)])
  }

  /** Everything a stored reply consists of, in order: its text in chunks, then its artifacts. */
  function Items(text: string, artifacts: nat): seq<Item> {
    seq(ChunkCount(text) + artifacts, i requires 0 <= i < ChunkCount(text) + artifacts =>
      if i < ChunkCount(text) then ChunkAt(text, i) else Document(i - ChunkCount(text)))
  }

  /** Repeats of the item just sent count once. */
  function Collapse(sent: seq<Item>): seq<Item> {
    if sent == [] then []
    else
      var n := |sent| - 1;
      if n > 0 && sent[n - 1] == sent[n] then Collapse(sent[..n]) else Collapse(sent[..n]) + [sent[n]]
  }

  lemma {:induction false} CollapseSnoc(sent: seq<Item>, item: Item)
    ensures Collapse(sent + [item]) == if sent != [] && sent[|sent| - 1] == item then Collapse(sent)
            else Collapse(sent) + [item]
    ensures sent != [] ==> Collapse(sent) != [] && Collapse(sent)[|Collapse(sent)| - 1] == sent[|sent| - 1]
  {
    assert (sent + [item])[..|sent|] == sent;
    if |sent| > 1 {
      var n := |sent| - 1;
      assert sent == sent[..n] + [sent[n]];
      CollapseSnoc(sent[..n], sent[n]);
    }
  }

  /** How much of a stored reply has arrived: its first `done` items, and possibly once more the next one, sent but not
      yet recorded. */
  ghost predicate Arrived(sent: seq<Item>, items: seq<Item>, done: nat) {
    && done <= |items|
    && (Collapse(sent) == items[..done] || (done < |items| && Collapse(sent) == items[..done + 1]))
  }

  lemma {:induction false} ItemsDistinct(text: string, artifacts: nat, i: nat, j: nat)
    requires i < j < |Items(text, artifacts)|
    ensures Items(text, artifacts)[i] != Items(text, artifacts)[j]
  {
  }

  /** Sending the next item, whether for the first time or again. */
  lemma {:induction false} SendArrives(sent: seq<Item>, text: string, artifacts: nat, done: nat)
    requires done < |Items(text, artifacts)| && Arrived(sent, Items(text, artifacts), done)
    ensures var items := Items(text, artifacts);
            Collapse(sent + [items[done]]) == items[..done + 1] && Arrived(sent + [items[done]], items, done)
  {
    var items := Items(text, artifacts);
    CollapseSnoc(sent, items[done]);
    var next := items[..done + 1];
    assert next == items[..done] + [items[done]];
    if Collapse(sent) == items[..done] && sent != [] {
      assert done > 0 && sent[|sent| - 1] == items[done - 1];
      ItemsDistinct(text, artifacts, done - 1, done);
    } else if Collapse(sent) == next {
      assert sent != [] && next[|next| - 1] == items[done];
    }
  }

  /** The number of whole steps behind an offset. */
  function Steps(offset: nat, artifactOffset: nat): nat {
    (offset + LIMIT - 1) / LIMIT + artifactOffset
  }

  predicate Boundary(text: string, offset: nat) {
    offset == |text| || (offset < |text| && offset % LIMIT == 0)
  }

  /** What one attempt to deliver meets at each of its calls. */
  datatype Attempt = Attempt(send: nat -> Fate, advance: nat -> Fate, downloads: nat -> bool)

  /** Everything goes through at once. */
  ghost predicate Smooth(attempt: Attempt) {
    forall k :: attempt.send(k) == Ack && attempt.advance(k) == Ack && attempt.downloads(k)
  }

  class PendingResponse {
    const text: string
    const artifacts: nat
    var offset: nat
    var artifactOffset: nat
    var delivered: bool
    /** Everything Telegram has received for this response. */
    var sent: seq<Item>

    ghost predicate Valid()
      reads this
    {
      && Boundary(text, offset) && artifactOffset <= artifacts && (artifactOffset > 0 ==> offset == |text|)
      && (delivered <==> offset == |text| && artifactOffset == artifacts)
      && Arrived(sent, Items(text, artifacts), Steps(offset, artifactOffset))
    }

    /** `stageChannelResponse`; a reply without text or artifacts is never stored. */
    constructor (text: string, artifacts: nat)
      requires text != "" || artifacts > 0
      ensures Valid() && this.text == text && this.artifacts == artifacts && !delivered && sent == []
    {
      this.text, this.artifacts := text, artifacts;
      offset, artifactOffset, delivered, sent := 0, 0, false, [];
      new;
      assert Items(text, artifacts)[..0] == [];
    }

    method SendMessage(start: nat, end: nat, fate: Fate) returns (ok: bool)
      requires start <= end <= |text|
      modifies this`sent
      ensures sent == if fate == Unsent then old(sent) else old(sent) + [Chunk(start, text[start..end])]
      ensures ok == (fate == Ack)
    {
      if fate != Unsent {
        sent := sent + [Chunk(start, text[start..end])];
      }
      ok := fate == Ack;
    }

    method SendDocument(index: nat, fate: Fate) returns (ok: bool)
      modifies this`sent
      ensures sent == if fate == Unsent then old(sent) else old(sent) + [Document(index)]
      ensures ok == (fate == Ack)
    {
      if fate != Unsent {
        sent := sent + [Document(index)];
      }
      ok := fate == Ack;
    }

    method AdvanceChannelResponseDelivery(value: nat, fate: Fate) returns (ok: bool)
      modifies this`offset, this`delivered
      ensures if fate != Unsent && !old(delivered) && old(offset) <= value
              then offset == value && delivered == (value >= |text| && artifactOffset >= artifacts)
              else offset == old(offset) && delivered == old(delivered)
      ensures ok == (fate == Ack)
    {
      if fate != Unsent && !delivered && offset <= value {
        offset, delivered := value, value >= |text| && artifactOffset >= artifacts;
      }
      ok := fate == Ack;
    }

    method AdvanceChannelArtifactDelivery(value: nat, fate: Fate) returns (ok: bool)
      modifies this`artifactOffset, this`delivered
      ensures if fate != Unsent && !old(delivered) && old(artifactOffset) <= value <= artifacts
              then artifactOffset == value && delivered == (value >= artifacts && offset >= |text|)
              else artifactOffset == old(artifactOffset) && delivered == old(delivered)
      ensures ok == (fate == Ack)
    {
      if fate != Unsent && !delivered && artifactOffset <= value <= artifacts {
        artifactOffset, delivered := value, value >= artifacts && offset >= |text|;
      }
      ok := fate == Ack;
    }

    /** One chunk: send it, then record that it was sent. */
    method DeliverChunk(start: nat, send: Fate, advance: Fate) returns (ok: bool)
      requires Valid() && start == offset < |text|
      modifies this
      ensures Valid() && offset in {start, Min(start + LIMIT, |text|)} && artifactOffset == old(artifactOffset)
      ensures ok ==> offset == Min(start + LIMIT, |text|)
      ensures ok == (send == Ack && advance == Ack)
      ensures sent == if send == Unsent then old(sent)
                      else old(sent) + [Chunk(start, text[start..Min(start + 4_000, |text|)])]
    {
      hide Items, Arrived;
      var end := Min(start + LIMIT, |text|);
      ChunkArrives(text, artifacts, sent, start);
      ok := SendMessage(start, end, send);
      if ok {
        ok := AdvanceChannelResponseDelivery(end, advance);
      }
    }

    /** One artifact: fetch it, send it, then record that it was sent. */
    method DeliverArtifact(index: nat, downloads: bool, send: Fate, advance: Fate) returns (ok: bool)
      requires Valid() && offset == |text| && index == artifactOffset < artifacts
      modifies this
      ensures Valid() && offset == old(offset) && artifactOffset in {index, index + 1}
      ensures ok ==> artifactOffset == index + 1
      ensures ok == (downloads && send == Ack && advance == Ack)
      ensures sent == if !downloads || send == Unsent then old(sent) else old(sent) + [Document(index)]
    {
      hide Items, Arrived;
      if !downloads {
        return false;
      }
      DocumentArrives(text, artifacts, sent, index);
      ok := SendDocument(index, send);
      if ok {
        ok := AdvanceChannelArtifactDelivery(index + 1, advance);
      }
    }

    /** Resume from what is recorded. */
    method DeliverPendingResponse(attempt: Attempt) returns (ok: bool)
      requires Valid()
      modifies this
      ensures Valid() && (ok ==> delivered)
      ensures old(delivered) ==> ok && sent == old(sent)
      ensures Smooth(attempt) ==> ok
    {
      hide Arrived, Items;
      var start := offset;
      while start < |text|
        invariant Valid() && start == offset
        invariant old(delivered) ==> start == |text| && sent == old(sent) && artifactOffset == old(artifactOffset)
        decreases |text| - start
      {
        ok := DeliverChunk(start, attempt.send(start), attempt.advance(start));
        if !ok {
          return;
        }
        start := Min(start + LIMIT, |text|);
      }
      var index := artifactOffset;
      while index < artifacts
        invariant Valid() && offset == |text| && index == artifactOffset
        invariant old(delivered) ==> index == artifacts && sent == old(sent)
      {
        ok := DeliverArtifact(index, attempt.downloads(index), attempt.send(|text| + index),
                              attempt.advance(|text| + index));
        if !ok {
          return;
        }
        index := index + 1;
      }
      ok := true;
    }
  }

  lemma {:induction false} ChunkArrives(text: string, artifacts: nat, sent: seq<Item>, start: nat)
    requires start < |text| && Boundary(text, start) && Arrived(sent, Items(text, artifacts), Steps(start, 0))
    ensures var end := Min(start + LIMIT, |text|); var sent' := sent + [Chunk(start, text[start..end])];
            && Boundary(text, end)
            && Arrived(sent', Items(text, artifacts), Steps(start, 0))
               && Arrived(sent', Items(text, artifacts), Steps(end, 0))
  {
    var k := start / LIMIT;
    assert start == LIMIT * k && Steps(start, 0) == k && k < ChunkCount(text);
    assert Items(text, artifacts)[k] == Chunk(start, text[start..Min(start + LIMIT, |text|)]);
    SendArrives(sent, text, artifacts, k);
    assert Steps(Min(start + LIMIT, |text|), 0) == k + 1;
  }

  lemma {:induction false} DocumentArrives(text: string, artifacts: nat, sent: seq<Item>, index: nat)
    requires index < artifacts && Arrived(sent, Items(text, artifacts), Steps(|text|, index))
    ensures var sent' := sent + [Document(index)];
            Arrived(sent', Items(text, artifacts), Steps(|text|, index))
              && Arrived(sent', Items(text, artifacts), Steps(|text|, index + 1))
  {
    var k := ChunkCount(text) + index;
    assert Items(text, artifacts)[k] == Document(index);
    SendArrives(sent, text, artifacts, k);
  }

  /** Over any number of attempts, each failing or crashing anywhere, what arrives is a beginning of the reply, nothing
      skipped or out of order; once the response is recorded as delivered, all of it has. One smooth attempt is enough.
      */
  method DeliverAcrossRestarts(response: PendingResponse, attempts: seq<Attempt>)
    requires response.Valid()
    modifies response
    ensures response.Valid()
    ensures Collapse(response.sent) <= Items(response.text, response.artifacts)
    ensures response.delivered ==> Collapse(response.sent) == Items(response.text, response.artifacts)
    ensures (exists attempt :: attempt in attempts && Smooth(attempt)) ==> response.delivered
  {
    for i := 0 to |attempts|
      invariant response.Valid()
      invariant (exists k :: 0 <= k < i && Smooth(attempts[k])) ==> response.delivered
    {
      var ok := response.DeliverPendingResponse(attempts[i]);
    }
  }

  function TextOf(items: seq<Item>): string {
    if items == [] then ""
    else TextOf(items[..|items| - 1]) + if items[|items| - 1].Chunk? then items[|items| - 1].text else ""
  }

  /** The items of a reply spell its text, no message above the limit, and its artifacts follow in order. */
  lemma {:induction false} ItemsSpell(text: string, artifacts: nat)
    ensures var items := Items(text, artifacts);
            && TextOf(items) == text
            && (forall i :: 0 <= i < |items| && items[i].Chunk? ==> 0 < |items[i].text| <= LIMIT)
            && (forall i :: 0 <= i < |items|
                  ==> items[i] == if i < |items| - artifacts then ChunkAt(text, i)
                      else Document(i - (|items| - artifacts)))
  {
    var items := Items(text, artifacts);
    ChunksSpell(text, artifacts, ChunkCount(text));
    DocumentsAreSilent(items, ChunkCount(text));
    assert items[..|items|] == items;
    assert text[..Min(LIMIT * ChunkCount(text), |text|)] == text;
  }

  lemma {:induction false} ChunksSpell(text: string, artifacts: nat, k: nat)
    requires k <= ChunkCount(text)
    ensures TextOf(Items(text, artifacts)[..k]) == text[..Min(LIMIT * k, |text|)]
  {
    if k > 0 {
      ChunksSpell(text, artifacts, k - 1);
      var items := Items(text, artifacts);
      assert items[..k][..k - 1] == items[..k - 1] && items[..k][k - 1] == ChunkAt(text, k - 1);
      assert LIMIT * (k - 1) < |text|;
      assert text[..LIMIT * (k - 1)] + text[LIMIT * (k - 1)..Min(LIMIT * k, |text|)] == text[..Min(LIMIT * k, |text|)];
    }
  }

  lemma {:induction false} DocumentsAreSilent(items: seq<Item>, from: nat)
    requires from <= |items| && forall i :: from <= i < |items| ==> items[i].Document?
    ensures TextOf(items) == TextOf(items[..from])
    decreases |items|
  {
    if from < |items| {
      DocumentsAreSilent(items[..|items| - 1], from);
      assert items[..|items| - 1][..from] == items[..from];
    } else {
      assert items[..from] == items;
    }
  }

  /** The reply to one message, from its first delta to its last artifact: `count` characters are taken as shown by the
      preview and the rest is stored and delivered over any number of attempts. Once it is delivered, what the preview's
      messages read and the delivered chunks, repeats counted once, are together the whole reply exactly when the first
      and the last preview call to take effect were acknowledged and the final text goes on from the last acknowledged
      preview. */
  method Answer(deltas: seq<string>, clock: nat -> nat, fates: nat -> Fate, final: string, notices: seq<string>,
                fallback: string, artifacts: nat, attempts: seq<Attempt>)
    returns (stream: TelegramResponseStream, count: nat, sent: seq<Item>, delivered: bool)
    ensures count == if stream.published <= final then |stream.published| else 0
    ensures delivered ==> Collapse(sent) == Items(Rendered(final, count, notices, fallback), artifacts)
    ensures delivered
            ==> (Flatten(stream.chat) + TextOf(Collapse(sent)) == Reply(final, count, notices, fallback)
                 <==> Confirmed(stream.acks) && stream.published <= final)
    ensures Confirmed(stream.acks) ==> stream.chat == if stream.published == "" then [] else [stream.published]
    ensures (forall k :: fates(k) != Lost) ==> Confirmed(stream.acks)
    ensures (exists attempt :: attempt in attempts && Smooth(attempt)) ==> delivered
  {
    hide Published, Due, Items, Collapse, TextOf, Smooth, Rendered, Join, NonEmpty, Flatten, Confirmed, Reply;
    stream := new TelegramResponseStream();
    ConfirmedAtFirst();
    for i := 0 to |deltas|
      invariant stream.Valid() && stream.published <= stream.text && Ahead(stream.State())
      invariant (forall k :: fates(k) != Lost) ==> Confirmed(stream.acks)
    {
      stream.Append(deltas[i], clock(i), fates(i));
    }
    count := stream.Finish(final, clock(|deltas|), fates(|deltas|));
    var rendered := Rendered(final, count, notices, fallback);
    if rendered != "" || artifacts > 0 {
      var response := new PendingResponse(rendered, artifacts);
      DeliverAcrossRestarts(response, attempts);
      sent, delivered := response.sent, response.delivered;
    } else {
      sent, delivered := [], true;
      NothingToSend(rendered);
    }
    ItemsSpell(rendered, artifacts);
    RenderedCompletes(final, count, notices, fallback);
    CountedIsShownIff(stream.State(), final, count);
    CancelRight(Flatten(stream.chat), final[..count], rendered);
  }

  /** The answer to a message whose turn throws, after any number of previews: the failure message is stored and
      delivered instead. What the chat reads is the failure message alone exactly when no preview call took effect; any
      other preview stays beside it. */
  method AnswerFailure(deltas: seq<string>, clock: nat -> nat, fates: nat -> Fate, failure: string,
                       attempts: seq<Attempt>)
    returns (stream: TelegramResponseStream, sent: seq<Item>, delivered: bool)
    requires failure != ""
    ensures delivered ==> Collapse(sent) == Items(failure, 0)
    ensures delivered ==> (Flatten(stream.chat) + TextOf(Collapse(sent)) == failure <==> stream.acks == [])
    ensures (exists attempt :: attempt in attempts && Smooth(attempt)) ==> delivered
    ensures Confirmed(stream.acks) ==> stream.chat == if stream.published == "" then [] else [stream.published]
  {
    hide Published, Due, Items, Collapse, TextOf, Smooth, Flatten, Confirmed;
    stream := new TelegramResponseStream();
    for i := 0 to |deltas|
      invariant stream.Valid() && stream.published <= stream.text && Ahead(stream.State())
    {
      stream.Append(deltas[i], clock(i), fates(i));
    }
    var response := new PendingResponse(failure, 0);
    DeliverAcrossRestarts(response, attempts);
    sent, delivered := response.sent, response.delivered;
    ItemsSpell(failure, 0);
    CountedIsShownIff(stream.State(), stream.published, |stream.published|);
    PreviewsStay(stream.State(), failure);
  }

  lemma {:induction false} PreviewsStay(p: Preview, text: string)
    requires Honest(p)
    ensures Flatten(p.chat) + text == text <==> p.acks == []
  {
    if p.chat != [] {
      FlattenOfNonEmpty(p.chat);
    }
  }

  lemma {:induction false} ConfirmedAtFirst()
    ensures Confirmed([])
  {
  }

  lemma {:induction false} CancelRight(x: string, y: string, rest: string)
    ensures x + rest == y + rest <==> x == y
  {
    if x + rest == y + rest {
      assert x == (x + rest)[..|x|];
      assert y == (y + rest)[..|y|];
    }
  }

  lemma {:induction false} NothingToSend(rendered: string)
    requires rendered == ""
    ensures Collapse([]) == Items(rendered, 0)
  {
  }
}
