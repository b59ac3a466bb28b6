/** What the names of connector tools read: the label made of a server's name, and the tools that get one. */
module ToolLabels {
  import opened Text
  import opened ToolNaming

  predicate AllAllowed(s: string) {
    forall i :: 0 <= i < |s| ==> Allowed(s[i])
  }

  predicate NoneAllowed(s: string) {
    forall i :: 0 <= i < |s| ==> !Allowed(s[i])
  }

  /** A name of allowed characters is kept. */
  lemma {:induction false} ReplacedKeeps(s: string)
    requires AllAllowed(s)
    ensures Replaced(s) == s
  {
    if s != "" {
      ReplacedKeeps(s[..|s| - 1]);
      hide Allowed;
    }
  }

  /** A run of other characters becomes one underscore, whatever stands before it and behind it. */
  lemma {:induction false} ReplacedRun(before: string, run: string, after: string)
    requires (before == "" || Allowed(before[|before| - 1])) && run != "" && NoneAllowed(run)
    requires after == "" || Allowed(after[0])
    ensures Replaced(before + run + after) == Replaced(before) + "_" + Replaced(after)
  {
    var s := before + run + after;
    var n := |s| - 1;
    hide Allowed;
    if after != "" {
      var m := |after| - 1;
      assert s[..n] == before + run + after[..m] && s[n] == after[m];
      ReplacedRun(before, run, after[..m]);
      assert m == 0 ==> Replaced(after[..m]) == "";
      assert m > 0 ==> s[n - 1] == after[m - 1];
    } else if |run| > 1 {
      assert s == before + run && s[n - 1] == run[|run| - 2] && s[n] == run[|run| - 1];
      assert s[..n] == before + run[..|run| - 1] + "";
      ReplacedRun(before, run[..|run| - 1], "");
    } else {
      assert s == before + run && s[..n] == before && s[n] == run[0];
    }
  }

  lemma {:induction false} ReplacedIsAllowed(s: string)
    ensures AllAllowed(Replaced(s))
  {
    if s != "" {
      ReplacedIsAllowed(s[..|s| - 1]);
    }
  }

  predicate Underscores(s: string) {
    forall i :: 0 <= i < |s| ==> s[i] == '_'
  }

  /** `core` is `s` without the underscores at its ends. */
  ghost predicate Strips(s: string, core: string) {
    && (exists lead, tail :: s == lead + core + tail && Underscores(lead) && Underscores(tail))
    && (core != "" ==> core[0] != '_' && core[|core| - 1] != '_')
  }

  lemma {:induction false} RightStrips(s: string)
    ensures StripRightUnderscores(s) <= s && Underscores(s[|StripRightUnderscores(s)|..])
    ensures var core := StripRightUnderscores(s); core != "" ==> core[|core| - 1] != '_'
  {
    if s != "" && s[|s| - 1] == '_' {
      RightStrips(s[..|s| - 1]);
      var core := StripRightUnderscores(s);
      assert s[|core|..] == s[..|s| - 1][|core|..] + "_";
    }
  }

  lemma {:induction false} LeftStrips(s: string)
    ensures var core := StripLeftUnderscores(s);
            && |core| <= |s| && s == s[..|s| - |core|] + core && Underscores(s[..|s| - |core|])
            && (core != "" ==> core[0] != '_' && core[|core| - 1] == s[|s| - 1])
  {
    if s != "" && s[0] == '_' {
      LeftStrips(s[1..]);
      var core := StripLeftUnderscores(s);
      hide StripLeftUnderscores;
      assert s == "_" + s[1..] && s[..|s| - |core|] == "_" + s[1..][..|s| - 1 - |core|];
    }
  }

  lemma {:induction false} BothStrip(s: string)
    ensures Strips(s, StripLeftUnderscores(StripRightUnderscores(s)))
  {
    var right := StripRightUnderscores(s);
    RightStrips(s);
    LeftStrips(right);
    hide StripLeftUnderscores, StripRightUnderscores;
    var core := StripLeftUnderscores(right);
    var lead, tail := right[..|right| - |core|], s[|right|..];
    assert s == right + tail && right == lead + core;
  }

  /** Lower case, character by character. */
  lemma {:induction false} LowerAt(s: string)
    ensures |Lower(s)| == |s|
    ensures forall i :: 0 <= i < |s|
              ==> if 'A' <= s[i] <= 'Z' then Lower(s)[i] as int == s[i] as int + 32 else Lower(s)[i] == s[i]
  {
    if s != "" {
      LowerAt(s[..|s| - 1]);
    }
  }

  predicate InLabel(c: char) {
    'a' <= c <= 'z' || '0' <= c <= '9' || c == '_' || c == '-'
  }

  predicate Plain(s: string) {
    forall i :: 0 <= i < |s| ==> InLabel(s[i])
  }

  /** The server that the label is made of: its name, else its identifier, else a word for any. */
  predicate Names(serverName: string, serverId: string, name: string) {
    && name != "" && (serverName != "" ==> name == serverName)
    && (serverName == "" && serverId != "" ==> name == serverId)
    && (serverName == "" && serverId == "" ==> name == "connector")
  }

  /** The label is the start of what is left of the cleaned name behind the product's own prefix; Microsoft 365 is
      written out, and nothing left is a connector. */
  ghost predicate Labels(cleaned: string, given: string) {
    exists rest ::
      && (cleaned == "lemmacomputer_" + rest || (cleaned == rest && !("lemmacomputer_" <= cleaned)))
      && (rest == "ms365" ==> given == "microsoft365") && (rest == "" ==> given == "connector")
      && (rest != "ms365" && rest != "" ==> given <= rest && |given| == if |rest| <= 32 then |rest| else 32)
  }

  /** How a label is made, from the name to its at most 32 characters. */
  lemma {:induction false} LabelIs(serverName: string, serverId: string)
    ensures exists name, core ::
              && Names(serverName, serverId, name) && Strips(Replaced(name), core)
              && Labels(Lower(core), Label(serverName, serverId))
  {
    var name := if serverName != "" then serverName else if serverId != "" then serverId else "connector";
    BothStrip(Replaced(name));
    var core := StripLeftUnderscores(StripRightUnderscores(Replaced(name)));
    hide StripLeftUnderscores, StripRightUnderscores, Replaced, Lower, Strips;
    var cleaned := Lower(core);
    var rest := WithoutPrefix(cleaned, "lemmacomputer_");
    assert "lemmacomputer_" <= cleaned ==> cleaned == "lemmacomputer_" + rest;
    assert Labels(cleaned, Label(serverName, serverId));
    assert Names(serverName, serverId, name);
  }

  /** A label is never empty, never longer than 32 characters, and made of lower-case letters, digits, underscores and
      hyphens alone. */
  lemma {:induction false} LabelIsPlain(serverName: string, serverId: string)
    ensures var given := Label(serverName, serverId);
            1 <= |given| <= 32 && Plain(given)
  {
    LabelIs(serverName, serverId);
    var name, core :| Names(serverName, serverId, name) && Strips(Replaced(name), core)
                      && Labels(Lower(core), Label(serverName, serverId));
    ReplacedIsAllowed(name);
    LowerAt(core);
    PlainLabel(Replaced(name), core, Lower(core), Label(serverName, serverId));
  }

  lemma {:induction false} PlainLabel(replaced: string, core: string, cleaned: string, given: string)
    requires AllAllowed(replaced) && Strips(replaced, core) && Labels(cleaned, given) && |cleaned| == |core|
    requires forall i :: 0 <= i < |core|
               ==> if 'A' <= core[i] <= 'Z' then cleaned[i] as int == core[i] as int + 32 else cleaned[i] == core[i]
    ensures 1 <= |given| <= 32 && Plain(given)
  {
    CoreIsPlain(replaced, core, cleaned);
    FixedLabels(given);
    hide Strips, Allowed, Plain;
    var rest :| (cleaned == "lemmacomputer_" + rest || (cleaned == rest && !("lemmacomputer_" <= cleaned)))
                && (rest == "ms365" ==> given == "microsoft365") && (rest == "" ==> given == "connector")
                && (rest != "ms365" && rest != "" ==> given <= rest && |given| == if |rest| <= 32 then |rest| else 32);
    TailIsPlain("lemmacomputer_", rest);
    if rest != "ms365" && rest != "" {
      HeadIsPlain(rest, given);
    }
  }

  lemma {:induction false} CoreIsPlain(replaced: string, core: string, cleaned: string)
    requires AllAllowed(replaced) && Strips(replaced, core) && |cleaned| == |core|
    requires forall i :: 0 <= i < |core|
               ==> if 'A' <= core[i] <= 'Z' then cleaned[i] as int == core[i] as int + 32 else cleaned[i] == core[i]
    ensures Plain(cleaned)
  {
    var lead, tail :| replaced == lead + core + tail && Underscores(lead) && Underscores(tail);
    assert forall i :: 0 <= i < |core| ==> core[i] == replaced[|lead| + i];
  }

  lemma {:induction false} TailIsPlain(lead: string, rest: string)
    ensures Plain(lead + rest) ==> Plain(rest)
  {
    assert forall i :: 0 <= i < |rest| ==> rest[i] == (lead + rest)[|lead| + i];
  }

  lemma {:induction false} HeadIsPlain(s: string, head: string)
    requires head <= s && Plain(s)
    ensures Plain(head)
  {
    assert forall i :: 0 <= i < |head| ==> head[i] == s[i];
  }

  lemma {:induction false} FixedLabels(given: string)
    ensures given in {"microsoft365", "connector"} ==> |given| <= 32 && forall i :: 0 <= i < |given|
                                                                          ==> InLabel(given[i])
  {
  }

  // ----- The tools that are named ---------------------------------------------------------------------------

  lemma {:induction false} OfferedAppend(a: seq<Raw>, b: seq<Raw>, qualified: set<string>)
    ensures OfferedTools(a + b, qualified) == OfferedTools(a, qualified) + OfferedTools(b, qualified)
  {
    if b == [] {
      assert a + b == a;
    } else {
      assert (a + b)[..|a + b| - 1] == a + b[..|b| - 1];
      OfferedAppend(a, b[..|b| - 1], qualified);
      hide Offered;
    }
  }

  /** One tool of the list is offered exactly when it is well formed, does not open an upload, and is qualified if it is
      one of Microsoft 365's. */
  lemma {:induction false} OfferedOne(raw: Raw, qualified: set<string>)
    ensures OfferedTools([raw], qualified)
            == if raw.Malformed? || raw.name == "create-upload-session"
                  || (raw.serverName == "lemmacomputer_ms365" && raw.name !in qualified) then []
               else [raw]
  {
    assert [raw][..0] == [];
  }

  /** A tool is named by its label, two underscores and its own name; if the wait tool or a tool before it has that
      name, by the first number from two on with which no tool before it is named. */
  lemma {:induction false} NameReads(list: seq<Listed>, offered: seq<Raw>, i: nat)
    requires Named(list, offered) && i < |list|
    ensures offered[i].Tool? && list[i].entry == Upstream(offered[i])
    ensures var base := Label(offered[i].serverName, offered[i].serverId) + "__" + offered[i].name;
            if Free(base, list, i) then list[i].name == base
            else exists k :: k >= 2 && list[i].name == base + "_" + Decimal(k) && Free(list[i].name, list, i)
                             && forall j :: 2 <= j < k ==> !Free(base + "_" + Decimal(j), list, i)
  {
    assert NamedAt(list, offered, i);
    var base := BaseName(offered[i]);
    var k: nat :| FirstFree(base, {WAIT_TOOL} + ToolNaming.Names(list[..i]), k) && list[i].name == Candidate(base, k);
    assert forall j: nat :: j < i ==> list[..i][j] == list[j];
    forall name ensures Free(name, list, i) <==> name !in {WAIT_TOOL} + ToolNaming.Names(list[..i]) {
    }
    assert Candidate(base, 1) == base;
    assert forall j :: 2 <= j < k ==> Candidate(base, j) == base + "_" + Decimal(j);
    hide Label, Decimal;
  }

  ghost predicate Free(name: string, list: seq<Listed>, i: nat)
    requires i <= |list|
  {
    name != "wait-for-governed-operation" && forall j :: 0 <= j < i ==> list[j].name != name
  }
}
