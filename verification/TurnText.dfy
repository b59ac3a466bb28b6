/** How the workspace adapter turns vendor text deltas into message text: the needs-input marker may arrive
    split over any number of deltas, so the adapter buffers text until it can tell. */
module TurnText {
  import opened Text

  const NEEDS_INPUT_MARKER := "[LEMMACOMPUTER_NEEDS_INPUT]"

  /** `pending` is the undecided initial text; `emitted` is everything sent on as text so far. */
  datatype Parser = Parser(pending: string, known: bool, needsInput: bool, emitted: string)

  const START := Parser("", false, false, "")

  /** The text one delta releases, together with the new marker state. */
  function Feed(p: Parser, delta: string): Parser {
    if delta == "" then p
    else if p.known then p.(emitted := p.emitted + delta)
    else
      var pending := p.pending + delta;
      var stripped := StripLeft(pending);
      if NEEDS_INPUT_MARKER <= stripped then
        Parser("", true, true, p.emitted + StripLeft(stripped[|NEEDS_INPUT_MARKER|..]))
      else if stripped <= NEEDS_INPUT_MARKER then p.(pending := pending)
      else Parser("", true, p.needsInput, p.emitted + pending)
  }

  lemma {:induction false} FeedNothing(p: Parser)
    ensures Feed(p, "") == p
  {
  }

  /** At the end of the vendor stream the undecided text turns out to be ordinary text. */
  function Flush(p: Parser): Parser {
    if p.pending == "" then p else Parser("", true, p.needsInput, p.emitted + p.pending)
  }

  function FeedAll(deltas: seq<string>): Parser {
    if deltas == [] then START else Feed(FeedAll(deltas[..|deltas| - 1]), deltas[|deltas| - 1])
  }

  predicate HasMarker(text: string) {
    NEEDS_INPUT_MARKER <= StripLeft(text)
  }

  function AfterMarker(text: string): string
    requires HasMarker(text)
  {
    StripLeft(text)[|NEEDS_INPUT_MARKER|..]
  }

  /** `rest` is `text` without some of its leading white space. */
  predicate DropsLeadingSpace(text: string, rest: string) {
    && |rest| <= |text|
    && text[|text| - |rest|..] == rest
    && AllPythonSpace(text[..|text| - |rest|])
  }

  predicate Undecided(text: string) {
    !HasMarker(text) && StripLeft(text) <= NEEDS_INPUT_MARKER
  }

  /** Two prefixes of one sequence are comparable. */
  lemma {:induction false} PrefixesCompare(s: string, more: string, m: string)
    ensures m <= s + more || s + more <= m ==> m <= s || s <= m
  {
    if m <= s + more {
      assert m == (s + more)[..|m|];
    } else if s + more <= m {
      assert m[..|s|] == (s + more)[..|s|] == s;
    }
  }

  /** Once the verdict on a prefix is known, more text cannot change it. */
  lemma {:induction false} VerdictIsStable(text: string, more: string)
    requires !Undecided(text)
    ensures !Undecided(text + more)
    ensures HasMarker(text + more) == HasMarker(text)
    ensures HasMarker(text) ==> AfterMarker(text + more) == AfterMarker(text) + more
  {
    StripLeftAppend(text, more);
    var s := StripLeft(text);
    assert s != "" by { assert "" <= NEEDS_INPUT_MARKER; }
    PrefixesCompare(s, more, NEEDS_INPUT_MARKER);
    if HasMarker(text) {
      assert s + more == NEEDS_INPUT_MARKER + (s[|NEEDS_INPUT_MARKER|..] + more);
    }
  }

  /** What the parser state says about the vendor text received so far. */
  predicate Explains(p: Parser, raw: string) {
    && p.known == !Undecided(raw)
    && p.needsInput == HasMarker(raw)
    && (!p.known ==> p.pending == raw && p.emitted == "")
    && (p.known ==> p.pending == "")
    && (p.known && !p.needsInput ==> p.emitted == raw)
    && (p.needsInput ==> DropsLeadingSpace(AfterMarker(raw), p.emitted))
  }

  lemma {:induction false} StripLeftDrops(text: string)
    ensures DropsLeadingSpace(text, StripLeft(text))
  {
    StripLeftSplits(text);
  }

  lemma {:induction false} DropsThenAppend(text: string, rest: string, more: string)
    requires DropsLeadingSpace(text, rest)
    ensures DropsLeadingSpace(text + more, rest + more)
  {
    var k := |text| - |rest|;
    assert (text + more)[..k] == text[..k];
    assert (text + more)[k..] == text[k..] + more;
  }

  lemma {:induction false} FeedExplains(p: Parser, raw: string, delta: string)
    requires Explains(p, raw)
    ensures Explains(Feed(p, delta), raw + delta)
  {
    if delta == "" {
      assert raw + delta == raw;
    } else if p.known {
      VerdictIsStable(raw, delta);
      if p.needsInput {
        DropsThenAppend(AfterMarker(raw), p.emitted, delta);
      }
    } else if HasMarker(raw + delta) {
      StripLeftDrops(AfterMarker(raw + delta));
      assert "" + StripLeft(AfterMarker(raw + delta)) == StripLeft(AfterMarker(raw + delta));
    }
  }

  lemma {:induction false} FeedAllExplains(deltas: seq<string>)
    ensures Explains(FeedAll(deltas), Flatten(deltas))
  {
    if deltas == [] {
      assert StripLeft("") == "";
    } else {
      FeedAllExplains(deltas[..|deltas| - 1]);
      FeedExplains(FeedAll(deltas[..|deltas| - 1]), Flatten(deltas[..|deltas| - 1]), deltas[|deltas| - 1]);
    }
  }

  /** Text fidelity: whatever way the vendor split its text, the flag is a function of the whole text, ordinary
      text survives unchanged, and marked text survives up to white space directly after the marker. */
  lemma {:induction false} TextFidelity(deltas: seq<string>)
    ensures var raw, p := Flatten(deltas), Flush(FeedAll(deltas));
            && p.pending == ""
            && p.needsInput == HasMarker(raw)
            && (!HasMarker(raw) ==> p.emitted == raw)
            && (HasMarker(raw) ==> DropsLeadingSpace(AfterMarker(raw), p.emitted))
  {
    FeedAllExplains(deltas);
  }

  lemma {:induction false} DropsSameStripped(text: string, rest: string)
    requires DropsLeadingSpace(text, rest)
    ensures StripLeft(text) == StripLeft(rest)
  {
    if |rest| < |text| {
      assert IsPythonSpace(text[..|text| - |rest|][0]);
      assert text[1..][..|text| - |rest| - 1] == text[..|text| - |rest|][1..];
      DropsSameStripped(text[1..], rest);
    } else {
      assert text == rest;
    }
  }

  /** No white space comes directly after a leading marker. */
  predicate NoSpaceAfterMarker(raw: string) {
    HasMarker(raw) && AfterMarker(raw) != "" ==> !IsPythonSpace(AfterMarker(raw)[0])
  }

  lemma {:induction false} DropsOnlySpace(text: string, rest: string)
    requires DropsLeadingSpace(text, rest)
    ensures rest == text || (text != "" && IsPythonSpace(text[0]))
  {
    if |rest| < |text| {
      assert text[..|text| - |rest|][0] == text[0];
    }
  }

  /** Two splittings of the same vendor text give the same flag, and the same text up to leading white space; unless
      white space comes directly after a marker, exactly the same text. */
  lemma {:induction false} SplitIndependence(deltas: seq<string>, other: seq<string>)
    requires Flatten(deltas) == Flatten(other)
    ensures var p, q := Flush(FeedAll(deltas)), Flush(FeedAll(other));
            && p.needsInput == q.needsInput
            && StripLeft(p.emitted) == StripLeft(q.emitted)
            && (NoSpaceAfterMarker(Flatten(deltas)) ==> p.emitted == q.emitted)
  {
    TextFidelity(deltas);
    TextFidelity(other);
    var raw := Flatten(deltas);
    if HasMarker(raw) {
      var after, p, q := AfterMarker(raw), Flush(FeedAll(deltas)), Flush(FeedAll(other));
      DropsSameStripped(after, p.emitted);
      DropsSameStripped(after, q.emitted);
      DropsOnlySpace(after, p.emitted);
      DropsOnlySpace(after, q.emitted);
    }
  }

  lemma {:induction false} SpaceStrips(s: string)
    requires AllPythonSpace(s)
    ensures StripLeft(s) == ""
  {
    if s != "" {
      SpaceStrips(s[1..]);
    }
  }

  lemma {:induction false} FedOnce(delta: string)
    ensures FeedAll([delta]) == Feed(START, delta) && Flatten([delta]) == delta
  {
    assert [delta][..0] == [];
  }

  lemma {:induction false} FedTwice(first: string, second: string)
    ensures FeedAll([first, second]) == Feed(Feed(START, first), second) && Flatten([first, second]) == first + second
  {
    assert [first, second][..1] == [first];
    FedOnce(first);
  }

  /** A first delta that holds a leading marker. */
  lemma {:induction false} FeedMarked(raw: string)
    requires HasMarker(raw)
    ensures Feed(START, raw) == Parser("", true, true, StripLeft(AfterMarker(raw)))
  {
    assert raw != "" && "" + raw == raw;
    assert "" + StripLeft(AfterMarker(raw)) == StripLeft(AfterMarker(raw));
  }

  lemma {:induction false} MarkerLeads(lead: string, after: string)
    requires AllPythonSpace(lead)
    ensures HasMarker(lead + NEEDS_INPUT_MARKER + after) && AfterMarker(lead + NEEDS_INPUT_MARKER + after) == after
  {
    SpaceStrips(lead);
    StripLeftAppend(lead, NEEDS_INPUT_MARKER);
    MarkerIsNoSpace();
    StripLeftAppend(lead + NEEDS_INPUT_MARKER, after);
  }

  lemma {:induction false} MarkerIsNoSpace()
    ensures StripLeft(NEEDS_INPUT_MARKER) == NEEDS_INPUT_MARKER != ""
  {
    assert NEEDS_INPUT_MARKER[0] == '[';
  }

  /** The white space after a marker is the one thing that does depend on the split: it is dropped when it comes in the
      delta that completes the marker and kept when it comes later. This is so for every such text. */
  lemma {:induction false} MarkerSpaceDependsOnSplit(lead: string, after: string)
    requires AllPythonSpace(lead) && after != "" && IsPythonSpace(after[0])
    ensures var marked := lead + NEEDS_INPUT_MARKER;
            && Flatten([marked + after]) == Flatten([marked, after]) == marked + after
            && Flush(FeedAll([marked + after])).emitted == StripLeft(after)
            && Flush(FeedAll([marked, after])).emitted == after
            && StripLeft(after) != after
  {
    var marked := lead + NEEDS_INPUT_MARKER;
    FedOnce(marked + after);
    FedTwice(marked, after);
    MarkerLeads(lead, after);
    MarkerLeads(lead, "");
    assert marked + "" == marked;
    FeedMarked(marked + after);
    FeedMarked(marked);
    assert "" + after == after;
    StripLeftSplits(after);
    assert StripLeft("") == "";
  }

  /** Every way of splitting `raw` releases the same text. */
  ghost predicate SplitsAgree(raw: string) {
    forall a, b :: Flatten(a) == raw && Flatten(b) == raw ==> Flush(FeedAll(a)).emitted == Flush(FeedAll(b)).emitted
  }

  /** That is so exactly when no white space comes directly after a leading marker. */
  lemma {:induction false} SplitsAgreeIff(raw: string)
    ensures SplitsAgree(raw) <==> NoSpaceAfterMarker(raw)
  {
    if NoSpaceAfterMarker(raw) {
      forall a, b | Flatten(a) == raw && Flatten(b) == raw
        ensures Flush(FeedAll(a)).emitted == Flush(FeedAll(b)).emitted {
        SplitIndependence(a, b);
      }
    } else {
      StripLeftSplits(raw);
      var lead, after := raw[..|raw| - |StripLeft(raw)|], AfterMarker(raw);
      assert raw == lead + NEEDS_INPUT_MARKER + after;
      hide FeedAll, Flush, HasMarker, AfterMarker, StripLeft;
      MarkerSpaceDependsOnSplit(lead, after);
    }
  }
}
