/** Naming the connector tools offered to an agent: a label for the server, the upstream name, and a number where that
    is already taken. */
module ToolNaming {
  import opened Text

  const WAIT_TOOL := "wait-for-governed-operation"
  const MAX_LABEL := 32

  predicate Allowed(c: char) {
    'A' <= c <= 'Z' || 'a' <= c <= 'z' || '0' <= c <= '9' || c == '_' || c == '-'
  }

  function LowerChar(c: char): char {
    if 'A' <= c <= 'Z' then c - 'A' + 'a' else c
  }

  function Lower(s: string): string {
    if s == "" then "" else Lower(s[..|s| - 1]) + [LowerChar(s[|s| - 1])]
  }

  /** Every run of other characters becomes one underscore. */
  function Replaced(s: string): string {
    if s == "" then ""
    else
      var n := |s| - 1;
      if Allowed(s[n]) then Replaced(s[..n]) + [s[n]]
      else if n > 0 && !Allowed(s[n - 1]) then Replaced(s[..n])
      else Replaced(s[..n]) + "_"
  }

  function StripLeftUnderscores(s: string): string {
    if s != "" && s[0] == '_' then StripLeftUnderscores(s[1..]) else s
  }

  function StripRightUnderscores(s: string): string {
    if s != "" && s[|s| - 1] == '_' then StripRightUnderscores(s[..|s| - 1]) else s
  }

  function WithoutPrefix(s: string, prefix: string): string {
    if prefix <= s then s[|prefix|..] else s
  }

  function Label(serverName: string, serverId: string): string {
    var name := if serverName != "" then serverName else if serverId != "" then serverId else "connector";
    var plain := WithoutPrefix(Lower(StripLeftUnderscores(StripRightUnderscores(Replaced(name)))), "lemmacomputer_");
    var named := if plain == "ms365" then "microsoft365" else plain;
    var short := if |named| <= MAX_LABEL then named else named[..MAX_LABEL];
    if short == "" then "connector" else short
  }

  /** A tool as the gateway lists it; `Malformed` is anything without a name. Absent server fields read as empty. */
  datatype Raw = Malformed | Tool(name: string, serverName: string, serverId: string)

  const MS365 := "lemmacomputer_ms365"

  /** The tools that are offered: well formed, not the upload session, and for Microsoft 365 only the qualified ones. */
  predicate Offered(raw: Raw, qualified: set<string>) {
    raw.Tool? && raw.name != "create-upload-session" && (raw.serverName == MS365 ==> raw.name in qualified)
  }

  function BaseName(raw: Raw): string
    requires raw.Tool?
  {
    Label(raw.serverName, raw.serverId) + "__" + raw.name
  }

  /** The names tried in turn for one tool. */
  function Candidate(base: string, k: nat): string
    requires k >= 1
  {
    if k == 1 then base else base + "_" + Decimal(k)
  }

  lemma {:induction false} CandidatesDiffer(base: string, j: nat, k: nat)
    requires 1 <= j < k
    ensures Candidate(base, j) != Candidate(base, k)
  {
    var n := |base| + 1;
    if j > 1 {
      assert Candidate(base, j)[n..] == Decimal(j) && Candidate(base, k)[n..] == Decimal(k);
      if Decimal(j) == Decimal(k) {
        DecimalInjective(j, k);
      }
    }
  }

  /** The first candidate that is free. */
  predicate FirstFree(base: string, used: set<string>, k: nat) {
    k >= 1 && Candidate(base, k) !in used && forall j :: 1 <= j < k ==> Candidate(base, j) in used
  }

  lemma {:induction false} FirstFreeIsUnique(base: string, used: set<string>, j: nat, k: nat)
    requires FirstFree(base, used, j) && FirstFree(base, used, k)
    ensures j == k
  {
  }

  /** Ends because the candidates are pairwise distinct and the used names are finitely many. */
  method UniqueName(base: string, used: set<string>) returns (name: string, ghost k: nat)
    ensures FirstFree(base, used, k) && name == Candidate(base, k)
    ensures name !in used && base <= name
  {
    name := base;
    k := 1;
    var suffix := 2;
    ghost var tried: set<string> := {};
    while name in used
      invariant k >= 1 && suffix == k + 1 && name == Candidate(base, k)
      invariant forall j :: 1 <= j < k ==> Candidate(base, j) in used
      invariant forall t :: t in tried ==> exists j :: 1 <= j < k && t == Candidate(base, j)
      decreases used - tried
    {
      if name in tried {
        var j :| 1 <= j < k && name == Candidate(base, j);
        CandidatesDiffer(base, j, k);
      }
      tried := tried + {name};
      name := base + "_" + Decimal(suffix);
      suffix := suffix + 1;
      k := k + 1;
    }
  }

  datatype Entry = Upstream(raw: Raw) | Wait

  /** A tool as it is offered to the agent. */
  datatype Listed = Listed(name: string, entry: Entry)

  function Names(list: seq<Listed>): set<string> {
    set i | 0 <= i < |list| :: list[i].name
  }

  function OfferedTools(raws: seq<Raw>, qualified: set<string>): seq<Raw> {
    if raws == [] then []
    else
      var n := |raws| - 1;
      OfferedTools(raws[..n], qualified) + if Offered(raws[n], qualified) then [raws[n]] else []
  }

  predicate DistinctNames(list: seq<Listed>) {
    forall i, j :: 0 <= i < j < |list| ==> list[i].name != list[j].name
  }

  /** The list names exactly the offered tools, in order, each with the first name not taken by the wait tool or an
      earlier one. */
  ghost predicate Named(list: seq<Listed>, offered: seq<Raw>) {
    && |list| == |offered|
    && forall i :: 0 <= i < |list| ==> NamedAt(list, offered, i)
  }

  ghost predicate NamedAt(list: seq<Listed>, offered: seq<Raw>, i: nat)
    requires i < |list| == |offered|
  {
    && offered[i].Tool? && list[i].entry == Upstream(offered[i])
    && exists k :: FirstFree(BaseName(offered[i]), {WAIT_TOOL} + Names(list[..i]), k)
         && list[i].name == Candidate(BaseName(offered[i]), k)
  }

  /** The map holds exactly the listed tools, each under its own name. */
  ghost predicate Agrees(tools: map<string, Entry>, list: seq<Listed>) {
    && tools.Keys == Names(list)
    && forall i :: 0 <= i < |list| ==> list[i].name in tools && tools[list[i].name] == list[i].entry
  }

  /** The offered tools and then the wait tool, all under different names. */
  ghost predicate IsToolList(list: seq<Listed>, offered: seq<Raw>) {
    && list != [] && list[|list| - 1] == Listed(WAIT_TOOL, Wait)
    && Named(list[..|list| - 1], offered) && DistinctNames(list)
  }

  class ConnectorTools {
    var tools: map<string, Entry>

    constructor ()
      ensures tools == map[]
    {
      tools := map[];
    }

    /** `response` is absent when the gateway's tool list is not a list; the tools then stay as they were. */
    method DiscoverTools(response: Option<seq<Raw>>, qualified: set<string>) returns (result: Option<seq<Listed>>)
      modifies this
      ensures response.None? ==> result.None? && tools == old(tools)
      ensures response.Some?
              ==> result.Some? && IsToolList(result.value, OfferedTools(response.value, qualified))
                  && Agrees(tools, result.value)
    {
      if response.None? {
        return None;
      }
      var raws := response.value;
      var list: seq<Listed> := [];
      tools := map[];
      var used := {WAIT_TOOL};
      for i := 0 to |raws|
        invariant Named(list, OfferedTools(raws[..i], qualified)) && Fits(list) && Agrees(tools, list)
        invariant used == {WAIT_TOOL} + Names(list)
      {
        hide Named, Fits, Agrees, BaseName, FirstFree, Names, Offered;
        NextOffered(raws, i, qualified);
        var raw := raws[i];
        if Offered(raw, qualified) {
          IsTool(raw, qualified);
          var name, k := UniqueName(BaseName(raw), used);
          NamedNext(list, OfferedTools(raws[..i], qualified), raw, name, k);
          AgreesNext(tools, list, Listed(name, Upstream(raw)));
          used := used + {name};
          tools := tools[name := Upstream(raw)];
          list := list + [Listed(name, Upstream(raw))];
        }
      }
      assert raws[..|raws|] == raws;
      WaitLast(list);
      AgreesNext(tools, list, Listed(WAIT_TOOL, Wait));
      tools := tools[WAIT_TOOL := Wait];
      list := list + [Listed(WAIT_TOOL, Wait)];
      result := Some(list);
    }
  }

  /** Distinct names, none of them the wait tool's. */
  predicate Fits(list: seq<Listed>) {
    DistinctNames(list) && WAIT_TOOL !in Names(list)
  }

  lemma {:induction false} IsTool(raw: Raw, qualified: set<string>)
    requires Offered(raw, qualified)
    ensures raw.Tool?
  {
  }

  lemma {:induction false} NextOffered(raws: seq<Raw>, i: nat, qualified: set<string>)
    requires i < |raws|
    ensures OfferedTools(raws[..i + 1], qualified)
         == if Offered(raws[i], qualified) then OfferedTools(raws[..i], qualified) + [raws[i]]
           else OfferedTools(raws[..i], qualified)
  {
    assert raws[..i + 1][..i] == raws[..i];
  }

  lemma {:induction false} NamesSnoc(list: seq<Listed>, l: Listed)
    ensures Names(list + [l]) == Names(list) + {l.name}
  {
    var longer := list + [l];
    assert longer[|list|] == l && forall i :: 0 <= i < |list| ==> longer[i] == list[i];
  }

  lemma {:induction false} NamedNext(list: seq<Listed>, offered: seq<Raw>, raw: Raw, name: string, k: nat)
    requires Named(list, offered) && Fits(list) && raw.Tool?
    requires FirstFree(BaseName(raw), {WAIT_TOOL} + Names(list), k) && name == Candidate(BaseName(raw), k)
    ensures var longer := list + [Listed(name, Upstream(raw))];
            && Named(longer, offered + [raw]) && Fits(longer) && name !in Names(list)
            && {WAIT_TOOL} + Names(longer) == {WAIT_TOOL} + Names(list) + {name}
  {
    var longer, more := list + [Listed(name, Upstream(raw))], offered + [raw];
    NamesSnoc(list, Listed(name, Upstream(raw)));
    assert longer[..|list|] == list;
    forall i | 0 <= i < |longer| ensures NamedAt(longer, more, i) {
      if i < |list| {
        assert NamedAt(list, offered, i) && longer[..i] == list[..i];
      }
    }
    assert forall i :: 0 <= i < |list| ==> list[i].name in Names(list);
  }

  lemma {:induction false} AgreesNext(tools: map<string, Entry>, list: seq<Listed>, l: Listed)
    requires Agrees(tools, list) && l.name !in Names(list)
    ensures Agrees(tools[l.name := l.entry], list + [l])
  {
    NamesSnoc(list, l);
    assert forall i :: 0 <= i < |list| ==> list[i].name in Names(list);
  }

  lemma {:induction false} WaitLast(list: seq<Listed>)
    requires Fits(list)
    ensures WAIT_TOOL !in Names(list)
    ensures var longer := list + [Listed(WAIT_TOOL, Wait)]; DistinctNames(longer) && longer[..|longer| - 1] == list
  {
    assert forall i :: 0 <= i < |list| ==> list[i].name in Names(list);
    assert (list + [Listed(WAIT_TOOL, Wait)])[..|list|] == list;
  }

  /** Naming is determined by the offered tools alone. */
  lemma {:induction false} NamingIsUnique(a: seq<Listed>, b: seq<Listed>, offered: seq<Raw>)
    requires Named(a, offered) && Named(b, offered)
    ensures a == b
    decreases |offered|
  {
    if offered != [] {
      var n := |offered| - 1;
      NamedPrefix(a, offered);
      NamedPrefix(b, offered);
      NamingIsUnique(a[..n], b[..n], offered[..n]);
      assert NamedAt(a, offered, n) && NamedAt(b, offered, n);
      var used := {WAIT_TOOL} + Names(a[..n]);
      var j :| FirstFree(BaseName(offered[n]), used, j) && a[n].name == Candidate(BaseName(offered[n]), j);
      var k :| FirstFree(BaseName(offered[n]), used, k) && b[n].name == Candidate(BaseName(offered[n]), k);
      FirstFreeIsUnique(BaseName(offered[n]), used, j, k);
      assert a == a[..n] + [a[n]] && b == b[..n] + [b[n]];
    }
  }

  lemma {:induction false} NamedPrefix(a: seq<Listed>, offered: seq<Raw>)
    requires Named(a, offered) && offered != []
    ensures Named(a[..|a| - 1], offered[..|offered| - 1])
  {
    var n := |a| - 1;
    forall i | 0 <= i < n ensures NamedAt(a[..n], offered[..n], i) {
      assert NamedAt(a, offered, i) && a[..n][..i] == a[..i];
    }
  }
}
