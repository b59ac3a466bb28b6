/** Character sequences: concatenation, whitespace, UTF-16 width, decimal numerals and delimited keys. */
module Text {

  datatype Option<+T> = None | Some(value: T)

  /** The concatenation of `parts`, in order. */
  function Flatten<T>(parts: seq<seq<T>>): seq<T> {
    if parts == [] then [] else Flatten(parts[..|parts| - 1]) + parts[|parts| - 1]
  }

  lemma {:induction false} FlattenSnoc<T>(parts: seq<seq<T>>, last: seq<T>)
    ensures Flatten(parts + [last]) == Flatten(parts) + last
  {
    assert (parts + [last])[..|parts|] == parts;
  }

  lemma {:induction false} FlattenAppend<T>(a: seq<seq<T>>, b: seq<seq<T>>)
    ensures Flatten(a + b) == Flatten(a) + Flatten(b)
  {
    if b == [] {
      assert a + b == a;
    } else {
      var n := |b| - 1;
      assert (a + b)[..|a + b| - 1] == a + b[..n];
      FlattenAppend(a, b[..n]);
    }
  }

  /** Each part stands in the concatenation, behind those before it. */
  lemma {:induction false} FlattenAt<T>(parts: seq<seq<T>>, i: nat)
    requires i < |parts|
    ensures var from := |Flatten(parts[..i])|;
            from + |parts[i]| <= |Flatten(parts)| && Flatten(parts)[from..from + |parts[i]|] == parts[i]
    ensures i == |parts| - 1 ==> |Flatten(parts)| == |Flatten(parts[..i])| + |parts[i]|
  {
    var n := |parts| - 1;
    var before, last := Flatten(parts[..n]), parts[n];
    assert Flatten(parts) == before + last;
    if i < n {
      FlattenAt(parts[..n], i);
      assert parts[..n][..i] == parts[..i] && parts[..n][i] == parts[i];
      var from := |Flatten(parts[..i])|;
      hide Flatten;
      assert (before + last)[from..from + |parts[i]|] == before[from..from + |parts[i]|];
    } else {
      hide Flatten;
      assert (before + last)[|before|..|before| + |last|] == last;
    }
  }

  /** Python's `str.isspace` for one character. */
  predicate IsPythonSpace(c: char) {
    '\U{9}' <= c <= '\U{D}' || '\U{1C}' <= c <= ' '
      || c in "\U{85}\U{A0}\U{1680}\U{2028}\U{2029}\U{202F}\U{205F}\U{3000}"
    || '\U{2000}' <= c <= '\U{200A}'
  }

  /** The white space and line terminators removed by ECMAScript's `trim`. */
  predicate IsScriptSpace(c: char) {
    '\U{9}' <= c <= '\U{D}' || c in " \U{A0}\U{1680}\U{2028}\U{2029}\U{202F}\U{205F}\U{3000}\U{FEFF}"
    || '\U{2000}' <= c <= '\U{200A}'
  }

  predicate AllPythonSpace(s: string) {
    forall i :: 0 <= i < |s| ==> IsPythonSpace(s[i])
  }

  function StripLeft(s: string): string {
    if s != "" && IsPythonSpace(s[0]) then StripLeft(s[1..]) else s
  }

  /** `StripLeft` removes exactly the longest run of leading white space. */
  lemma {:induction false} StripLeftSplits(s: string)
    ensures |StripLeft(s)| <= |s|
    ensures s == s[..|s| - |StripLeft(s)|] + StripLeft(s)
    ensures AllPythonSpace(s[..|s| - |StripLeft(s)|])
    ensures StripLeft(s) != "" ==> !IsPythonSpace(StripLeft(s)[0])
  {
    if s != "" && IsPythonSpace(s[0]) {
      StripLeftSplits(s[1..]);
      SpaceBefore(s, StripLeft(s[1..]));
      hide IsPythonSpace, AllPythonSpace;
    }
  }

  lemma {:induction false} SpaceBefore(s: string, rest: string)
    requires s != "" && IsPythonSpace(s[0]) && |rest| <= |s| - 1
    requires s[1..] == s[1..][..|s| - 1 - |rest|] + rest && AllPythonSpace(s[1..][..|s| - 1 - |rest|])
    ensures s == s[..|s| - |rest|] + rest && AllPythonSpace(s[..|s| - |rest|])
  {
    hide IsPythonSpace;
    var head := s[1..][..|s| - 1 - |rest|];
    assert s[..|s| - |rest|] == [s[0]] + head;
    assert s == [s[0]] + s[1..];
  }

  lemma {:induction false} StripLeftAppend(s: string, t: string)
    ensures StripLeft(s + t) == if StripLeft(s) == "" then StripLeft(t) else StripLeft(s) + t
  {
    if s == "" {
      assert s + t == t;
    } else {
      assert (s + t)[1..] == s[1..] + t;
      if IsPythonSpace(s[0]) {
        StripLeftAppend(s[1..], t);
      }
    }
  }

  predicate Blank(s: string) {
    forall i :: 0 <= i < |s| ==> IsScriptSpace(s[i])
  }

  function TrimEnd(s: string): string {
    if s != "" && IsScriptSpace(s[|s| - 1]) then TrimEnd(s[..|s| - 1]) else s
  }

  function TrimStart(s: string): string {
    if s != "" && IsScriptSpace(s[0]) then TrimStart(s[1..]) else s
  }

  function Trim(s: string): string {
    TrimEnd(TrimStart(s))
  }

  lemma {:induction false} TrimStartIsPart(s: string)
    ensures |TrimStart(s)| <= |s| && s[|s| - |TrimStart(s)|..] == TrimStart(s)
    ensures TrimStart(s) == "" <==> Blank(s)
    ensures Blank(s[..|s| - |TrimStart(s)|])
    ensures TrimStart(s) != "" ==> !IsScriptSpace(TrimStart(s)[0])
  {
    hide IsScriptSpace;
    if s != "" && IsScriptSpace(s[0]) {
      TrimStartIsPart(s[1..]);
      assert s == [s[0]] + s[1..];
      assert Blank(s) <==> Blank(s[1..]);
      var rest := |TrimStart(s)|;
      assert s[..|s| - rest] == [s[0]] + s[1..][..|s| - 1 - rest];
    }
  }

  lemma {:induction false} TrimEndIsPart(s: string)
    ensures TrimEnd(s) <= s
    ensures s != "" && !IsScriptSpace(s[0]) ==> TrimEnd(s) != ""
  {
    hide IsScriptSpace;
    if s != "" && IsScriptSpace(s[|s| - 1]) {
      TrimEndIsPart(s[..|s| - 1]);
    }
  }

  /** Trimming leaves a part, and nothing exactly of blank text. */
  lemma {:induction false} TrimIsPart(s: string)
    ensures |Trim(s)| <= |s| && (BasicPlane(s) ==> BasicPlane(Trim(s)))
    ensures Trim(s) == "" <==> Blank(s)
  {
    TrimStartIsPart(s);
    TrimEndIsPart(TrimStart(s));
    hide IsScriptSpace, TrimStart, TrimEnd;
    var k := |s| - |TrimStart(s)|;
    assert forall i :: 0 <= i < |Trim(s)| ==> Trim(s)[i] == TrimStart(s)[i] == s[k..][i];
  }

  /** Trimming takes the blank ends off, all of them and nothing else. */
  lemma {:induction false} TrimSplits(s: string) returns (lead: string, tail: string)
    ensures s == lead + Trim(s) + tail && Blank(lead) && Blank(tail)
    ensures Trim(s) != "" ==> !IsScriptSpace(Trim(s)[0]) && !IsScriptSpace(Trim(s)[|Trim(s)| - 1])
  {
    hide IsScriptSpace, TrimStart, TrimEnd;
    TrimStartIsPart(s);
    TrimEndSplits(TrimStart(s));
    lead, tail := s[..|s| - |TrimStart(s)|], TrimStart(s)[|Trim(s)|..];
    assert s == lead + TrimStart(s);
  }

  lemma {:induction false} TrimEndSplits(s: string)
    ensures TrimEnd(s) <= s && Blank(s[|TrimEnd(s)|..])
    ensures TrimEnd(s) != "" ==> !IsScriptSpace(TrimEnd(s)[|TrimEnd(s)| - 1])
  {
    hide IsScriptSpace;
    if s != "" && IsScriptSpace(s[|s| - 1]) {
      var n := |s| - 1;
      TrimEndSplits(s[..n]);
      assert s[|TrimEnd(s)|..] == s[..n][|TrimEnd(s)|..] + [s[n]];
    }
  }

  /** The number of UTF-16 code units that encode `s`: two for every supplementary character. */
  function Utf16Length(s: string): nat {
    if s == "" then 0 else Utf16Length(s[..|s| - 1]) + if s[|s| - 1] >= '\U{10000}' then 2 else 1
  }

  function SupplementaryAt(s: string): set<int> {
    set i | 0 <= i < |s| && s[i] >= '\U{10000}'
  }

  lemma {:induction false} Utf16Is(s: string)
    ensures Utf16Length(s) == |s| + |SupplementaryAt(s)|
  {
    if s != "" {
      var n := |s| - 1;
      Utf16Is(s[..n]);
      SupplementarySnoc(s);
      hide SupplementaryAt;
    }
  }

  lemma {:induction false} SupplementarySnoc(s: string)
    requires s != ""
    ensures var n := |s| - 1;
            && SupplementaryAt(s) == SupplementaryAt(s[..n]) + (if s[n] >= '\U{10000}' then {n} else {})
            && n !in SupplementaryAt(s[..n])
  {
  }

  predicate BasicPlane(s: string) {
    forall i :: 0 <= i < |s| ==> s[i] < '\U{10000}'
  }

  lemma {:induction false} Utf16Bounds(s: string)
    ensures |s| <= Utf16Length(s) <= 2 * |s|
    ensures Utf16Length(s) == |s| <==> BasicPlane(s)
  {
    if s != "" {
      var p := s[..|s| - 1];
      Utf16Bounds(p);
      assert s == p + [s[|s| - 1]];
      if BasicPlane(s) { assert BasicPlane(p); }
      if BasicPlane(p) && s[|s| - 1] < '\U{10000}' { assert BasicPlane(s); }
    }
  }

  function Digit(d: nat): char
    requires d < 10
  {
    '0' + d as char
  }

  function Decimal(n: nat): string {
    if n < 10 then [Digit(n)] else Decimal(n / 10) + [Digit(n % 10)]
  }

  function DecimalValue(s: string): int {
    if s == "" then 0 else DecimalValue(s[..|s| - 1]) * 10 + (s[|s| - 1] as int - '0' as int)
  }

  lemma {:induction false} DecimalRoundTrip(n: nat)
    ensures DecimalValue(Decimal(n)) == n
    ensures forall i :: 0 <= i < |Decimal(n)| ==> '0' <= Decimal(n)[i] <= '9'
  {
    if n >= 10 {
      DecimalRoundTrip(n / 10);
      assert Decimal(n)[..|Decimal(n)| - 1] == Decimal(n / 10);
    } else {
      assert Decimal(n)[..0] == "";
    }
  }

  lemma {:induction false} DecimalInjective(m: nat, n: nat)
    requires Decimal(m) == Decimal(n)
    ensures m == n
  {
    DecimalRoundTrip(m);
    DecimalRoundTrip(n);
  }

  /** A delimiter that occurs in neither first field splits a joined key in only one way. */
  lemma {:induction false} DelimitedInjective(a: string, b: string, a': string, b': string, d: char)
    requires d !in a && d !in a'
    requires a + [d] + b == a' + [d] + b'
    ensures a == a' && b == b'
  {
    var s := a + [d] + b;
    assert s[|a|] == d && s[|a'|] == d;
    if |a| < |a'| || |a'| < |a| {
      assert false;
    }
    assert a == s[..|a|] && b == s[|a| + 1..];
  }
}
