/** Grouping consecutive Telegram updates into one agent message. */
module TelegramGrouping {
  import opened Text

  /** An absent text, media group or callback reads as the empty string: the procedures only ask whether they hold
      anything. */
  datatype Update = Update(id: nat, chat: string, sender: string, chatType: string, text: string, attachment: bool,
                           mediaGroup: string, callback: string)

  const MAX_ATTACHMENTS := 4
  const MAX_TEXT := 4096

  predicate IsWord(c: char) {
    'a' <= c <= 'z' || 'A' <= c <= 'Z' || '0' <= c <= '9' || c == '_'
  }

  function SkipWord(s: string): string {
    if s != "" && IsWord(s[0]) then SkipWord(s[1..]) else s
  }

  /** `/agent`, `/new` or `/chatid`, an optional bot name, and then the end or white space. */
  predicate IsCommand(s: string) {
    CommandNamed(s, "/agent") || CommandNamed(s, "/new") || CommandNamed(s, "/chatid")
  }

  predicate CommandNamed(s: string, name: string) {
    name <= s
    && var rest := s[|name|..];
       var after := if |rest| > 1 && rest[0] == '@' && IsWord(rest[1]) then SkipWord(rest[1..]) else rest;
       after == "" || IsScriptSpace(after[0])
  }

  predicate Immediate(u: Update) {
    u.callback != "" || (u.text != "" && !u.attachment && IsCommand(u.text))
  }

  function Texts(group: seq<Update>): seq<string> {
    if group == [] then []
    else Texts(group[..|group| - 1]) + if Trim(group[|group| - 1].text) == "" then []
      else [Trim(group[|group| - 1].text)]
  }

  function Join(parts: seq<string>): string {
    if parts == [] then ""
    else if |parts| == 1 then parts[0]
    else Join(parts[..|parts| - 1]) + "\n\n" + parts[|parts| - 1]
  }

  function GroupedText(group: seq<Update>): string {
    Join(Texts(group))
  }

  function Attachments(group: seq<Update>): nat {
    if group == [] then 0 else Attachments(group[..|group| - 1]) + if group[|group| - 1].attachment then 1 else 0
  }

  predicate SameConversation(a: Update, b: Update) {
    a.chat == b.chat && a.sender == b.sender && a.chatType == b.chatType
  }

  predicate CanAppend(group: seq<Update>, candidate: Update)
    requires group != []
  {
    var first := group[0];
    if Immediate(first) || Immediate(candidate) || !SameConversation(candidate, first) then false
    else if Attachments(group) + (if candidate.attachment then 1 else 0) > MAX_ATTACHMENTS then false
    else if Utf16Length(GroupedText(group + [candidate])) > MAX_TEXT then false
    else if first.mediaGroup != "" && candidate.mediaGroup == first.mediaGroup then true
    else
      var hasText := exists u :: u in group && Trim(u.text) != "";
      var hasAttachment := Attachments(group) > 0;
      (hasText && candidate.attachment) || (hasAttachment && Trim(candidate.text) != "")
        || (hasAttachment && candidate.attachment)
  }

  /** Every update of the group but the first could be appended to those before it. */
  predicate Grown(group: seq<Update>) {
    group != [] && forall n :: 0 < n < |group| ==> CanAppend(group[..n], group[n])
  }

  /** No group could take the first update of the next. */
  predicate Greedy(groups: seq<seq<Update>>) {
    forall i :: 0 < i < |groups| && groups[i - 1] != [] && groups[i] != [] ==> !CanAppend(groups[i - 1], groups[i][0])
  }

  predicate AllGrown(groups: seq<seq<Update>>) {
    forall g :: g in groups ==> Grown(g)
  }

  predicate IsGrouping(groups: seq<seq<Update>>, updates: seq<Update>) {
    Flatten(groups) == updates && AllGrown(groups) && Greedy(groups)
  }

  method GroupTelegramUpdates(updates: seq<Update>) returns (groups: seq<seq<Update>>)
    ensures IsGrouping(groups, updates)
  {
    groups := [];
    for i := 0 to |updates|
      invariant IsGrouping(groups, updates[..i])
    {
      hide IsGrouping, CanAppend;
      assert updates[..i + 1] == updates[..i] + [updates[i]];
      var last := |groups| - 1;
      NonemptyGroups(groups, updates[..i]);
      if groups != [] && CanAppend(groups[last], updates[i]) {
        Extended(groups, updates[..i], updates[i]);
        groups := groups[last := groups[last] + [updates[i]]];
      } else {
        Opened(groups, updates[..i], updates[i]);
        groups := groups + [[updates[i]]];
      }
    }
    assert updates[..|updates|] == updates;
  }

  lemma {:induction false} NonemptyGroups(groups: seq<seq<Update>>, updates: seq<Update>)
    requires IsGrouping(groups, updates)
    ensures groups != [] ==> groups[|groups| - 1] != []
  {
    hide CanAppend;
    if groups != [] {
      assert groups[|groups| - 1] in groups;
    }
  }

  lemma {:induction false} GrowsByOne(group: seq<Update>, u: Update)
    requires Grown(group) && CanAppend(group, u)
    ensures Grown(group + [u])
  {
    var g := group + [u];
    forall n | 0 < n < |g| ensures CanAppend(g[..n], g[n]) {
      assert g[..n] == group[..n];
      if n == |group| {
        assert group[..n] == group;
      }
    }
  }

  lemma {:induction false} Extended(groups: seq<seq<Update>>, updates: seq<Update>, u: Update)
    requires IsGrouping(groups, updates) && groups != [] && groups[|groups| - 1] != []
    requires CanAppend(groups[|groups| - 1], u)
    ensures IsGrouping(groups[|groups| - 1 := groups[|groups| - 1] + [u]], updates + [u])
  {
    var last := |groups| - 1;
    var grown := groups[last := groups[last] + [u]];
    assert grown[..last] == groups[..last];
    assert Flatten(grown) == Flatten(groups) + [u];
    assert groups[last] in groups;
    GrowsByOne(groups[last], u);
    assert AllGrown(grown) by {
      assert forall g :: g in grown ==> g in groups || g == groups[last] + [u];
    }
    assert Greedy(grown) by {
      hide CanAppend;
      assert forall i :: 0 <= i < last ==> grown[i] == groups[i];
      assert (groups[last] + [u])[0] == groups[last][0];
    }
  }

  lemma {:induction false} Opened(groups: seq<seq<Update>>, updates: seq<Update>, u: Update)
    requires IsGrouping(groups, updates)
    requires groups != [] && groups[|groups| - 1] != [] ==> !CanAppend(groups[|groups| - 1], u)
    ensures IsGrouping(groups + [[u]], updates + [u])
  {
    hide CanAppend;
    FlattenSnoc(groups, [u]);
    assert Grown([u]);
    assert forall g :: g in groups + [[u]] ==> g in groups || g == [u];
  }

  lemma {:induction false} TakeGrouping(groups: seq<seq<Update>>, updates: seq<Update>)
    requires IsGrouping(groups, updates) && groups != []
    ensures IsGrouping(groups[..|groups| - 1], Flatten(groups[..|groups| - 1]))
  {
    hide CanAppend, Grown;
    assert forall g :: g in groups[..|groups| - 1] ==> g in groups;
  }

  /** A group of several updates is one sender's words in one chat: no command, at most four attachments and at most
      4,096 UTF-16 units of text. */
  predicate OneMessage(group: seq<Update>) {
    && (forall u :: u in group ==> !Immediate(u) && SameConversation(u, group[0]))
    && Attachments(group) <= MAX_ATTACHMENTS
    && Utf16Length(GroupedText(group)) <= MAX_TEXT
  }

  lemma {:induction false} GrownIsOneMessage(group: seq<Update>)
    requires Grown(group) && |group| > 1
    ensures OneMessage(group)
    decreases |group|
  {
    hide *;
    var rest, u := GrownSplits(group);
    if |rest| > 1 {
      GrownIsOneMessage(rest);
    }
    OneMessageGrows(rest, u);
  }

  lemma {:induction false} GrownSplits(group: seq<Update>) returns (rest: seq<Update>, u: Update)
    requires Grown(group) && |group| > 1
    ensures group == rest + [u] && 0 < |rest| < |group| && CanAppend(rest, u) && Grown(rest)
  {
    var n := |group| - 1;
    rest, u := group[..n], group[n];
    hide CanAppend;
    assert CanAppend(group[..n], group[n]);
    GrownPrefix(group, n);
  }

  lemma {:induction false} OneMessageGrows(group: seq<Update>, u: Update)
    requires group != [] && CanAppend(group, u) && (|group| > 1 ==> OneMessage(group))
    ensures OneMessage(group + [u])
  {
    AppendedFits(group, u);
    hide CanAppend, Immediate, Attachments, GroupedText, Utf16Length;
    assert forall v :: v in group + [u] ==> v in group || v == u;
    if |group| == 1 {
      assert forall v :: v in group ==> v == group[0];
    }
  }

  lemma {:induction false} GrownPrefix(group: seq<Update>, n: nat)
    requires Grown(group) && 0 < n <= |group|
    ensures Grown(group[..n])
  {
    hide CanAppend;
    assert forall k :: 0 < k < n ==> group[..n][..k] == group[..k];
  }

  lemma {:induction false} AppendedFits(group: seq<Update>, u: Update)
    requires group != [] && CanAppend(group, u)
    ensures !Immediate(group[0]) && !Immediate(u) && SameConversation(u, group[0])
    ensures Attachments(group + [u]) <= MAX_ATTACHMENTS && Utf16Length(GroupedText(group + [u])) <= MAX_TEXT
  {
    hide Immediate, GroupedText, Utf16Length;
    assert (group + [u])[..|group|] == group;
  }

  /** Grouping loses nothing, keeps the order, and mixes nothing that does not belong together. */
  lemma {:induction false} GroupsAreMessages(groups: seq<seq<Update>>, updates: seq<Update>)
    requires IsGrouping(groups, updates)
    ensures Flatten(groups) == updates
    ensures forall g :: g in groups ==> g != [] && (|g| > 1 ==> OneMessage(g))
  {
    forall g | g in groups ensures g != [] && (|g| > 1 ==> OneMessage(g)) {
      if |g| > 1 {
        GrownIsOneMessage(g);
      }
    }
  }

  /** The grouping of a prefix is decided by that prefix alone: there is only one grouping of a list of updates. */
  lemma {:induction false} GroupingIsUnique(a: seq<seq<Update>>, b: seq<seq<Update>>, updates: seq<Update>)
    requires IsGrouping(a, updates) && IsGrouping(b, updates)
    ensures a == b
    decreases |updates|
  {
    hide IsGrouping;
    EmptyGrouping(a, updates);
    EmptyGrouping(b, updates);
    if updates != [] {
      var n := |updates| - 1;
      var a' := WithoutLast(a, updates);
      var b' := WithoutLast(b, updates);
      GroupingIsUnique(a', b', updates[..n]);
    }
  }

  lemma {:induction false} EmptyGrouping(groups: seq<seq<Update>>, updates: seq<Update>)
    requires IsGrouping(groups, updates)
    ensures groups == [] <==> updates == []
  {
    hide CanAppend;
    if groups != [] {
      assert groups[|groups| - 1] in groups;
      assert updates == Flatten(groups[..|groups| - 1]) + groups[|groups| - 1];
    }
  }

  /** Taking back the last update: the grouping of the rest, of which `groups` is the one possible continuation. */
  lemma {:induction false} WithoutLast(groups: seq<seq<Update>>, updates: seq<Update>) returns (rest: seq<seq<Update>>)
    requires IsGrouping(groups, updates) && updates != []
    ensures IsGrouping(rest, updates[..|updates| - 1]) && groups == Continued(rest, updates[|updates| - 1])
  {
    EmptyGrouping(groups, updates);
    var last := |groups| - 1;
    var group := groups[last];
    assert group in groups && Grown(group);
    TakeGrouping(groups, updates);
    LastOfFlat(groups, updates);
    if |group| == 1 {
      rest := groups[..last];
      OneAlone(groups, updates);
    } else {
      rest := groups[last := group[..|group| - 1]];
      OneOfMany(groups, updates, rest);
    }
  }

  lemma {:induction false} LastOfFlat(groups: seq<seq<Update>>, updates: seq<Update>)
    requires groups != [] && Flatten(groups) == updates && groups[|groups| - 1] != []
    ensures var group := groups[|groups| - 1];
            updates != [] && updates[|updates| - 1] == group[|group| - 1]
            && updates[..|updates| - 1] == Flatten(groups[..|groups| - 1]) + group[..|group| - 1]
  {
  }

  lemma {:induction false} OneAlone(groups: seq<seq<Update>>, updates: seq<Update>)
    requires IsGrouping(groups, updates) && groups != [] && |groups[|groups| - 1]| == 1 && updates != []
    requires groups[|groups| - 1] == [updates[|updates| - 1]]
    ensures groups == Continued(groups[..|groups| - 1], updates[|updates| - 1])
  {
    hide CanAppend;
    var rest := groups[..|groups| - 1];
    assert groups == rest + [[updates[|updates| - 1]]];
  }

  lemma {:induction false} OneOfMany(groups: seq<seq<Update>>, updates: seq<Update>, rest: seq<seq<Update>>)
    requires IsGrouping(groups, updates) && groups != [] && |groups[|groups| - 1]| > 1 && updates != []
    requires rest == groups[|groups| - 1 := groups[|groups| - 1][..|groups[|groups| - 1]| - 1]]
    requires updates[|updates| - 1] == groups[|groups| - 1][|groups[|groups| - 1]| - 1]
    requires updates[..|updates| - 1] == Flatten(groups[..|groups| - 1]) + rest[|groups| - 1]
    ensures IsGrouping(rest, updates[..|updates| - 1]) && groups == Continued(rest, updates[|updates| - 1])
  {
    var u := updates[|updates| - 1];
    Shortened(groups, updates, rest);
    Regrown(groups, rest, u);
    hide CanAppend, Grown, AllGrown, Greedy;
    var last := |groups| - 1;
    assert Flatten(rest) == Flatten(rest[..last]) + rest[last];
  }

  /** Giving the last group back its last update. */
  lemma {:induction false} Regrown(groups: seq<seq<Update>>, rest: seq<seq<Update>>, u: Update)
    requires AllGrown(groups) && groups != [] && |groups[|groups| - 1]| > 1
    requires rest == groups[|groups| - 1 := groups[|groups| - 1][..|groups[|groups| - 1]| - 1]]
    requires u == groups[|groups| - 1][|groups[|groups| - 1]| - 1]
    ensures var last := |groups| - 1;
            && rest[..last] == groups[..last] && groups == rest[last := rest[last] + [u]]
            && rest[last] != [] && CanAppend(rest[last], u)
  {
    var last := |groups| - 1;
    var group := groups[last];
    assert Grown(group) by {
      assert group in groups;
    }
    hide *;
    var before, v := GrownSplits(group);
    assert before == group[..|group| - 1] && v == u;
    assert groups == rest[last := before + [u]];
  }

  lemma {:induction false} Shortened(groups: seq<seq<Update>>, updates: seq<Update>, rest: seq<seq<Update>>)
    requires IsGrouping(groups, updates) && groups != [] && |groups[|groups| - 1]| > 1
    requires rest == groups[|groups| - 1 := groups[|groups| - 1][..|groups[|groups| - 1]| - 1]]
    ensures AllGrown(rest) && Greedy(rest)
  {
    var last := |groups| - 1;
    var group := groups[last];
    assert group in groups;
    assert Grown(rest[last]) by {
      assert forall k :: 0 < k < |rest[last]| ==> rest[last][..k] == group[..k] && rest[last][k] == group[k];
    }
    hide CanAppend;
    assert forall g :: g in rest ==> g in groups || g == rest[last];
    assert forall i :: 0 <= i < last ==> rest[i] == groups[i];
    assert rest[last][0] == group[0];
  }

  function Continued(groups: seq<seq<Update>>, u: Update): seq<seq<Update>> {
    var last := |groups| - 1;
    if groups != [] && groups[last] != [] && CanAppend(groups[last], u) then groups[last := groups[last] + [u]]
      else groups + [[u]]
  }
}
