/** What texts, groups and replies read: joined parts with one blank line between them, commands, and the reasons for
    which updates stand together or apart. */
module TelegramMessages {
  import opened Text
  import opened TelegramGrouping
  import TelegramDelivery

  /** `text` is the parts in order, one blank line between two of them. */
  ghost predicate Spells(text: string, parts: seq<string>)
    decreases |parts|
  {
    if parts == [] then text == ""
    else if |parts| == 1 then text == parts[0]
    else exists rest :: text == parts[0] + "\n\n" + rest && Spells(rest, parts[1..])
  }

  lemma {:induction false} JoinOne(part: string)
    ensures Join([part]) == part
  {
  }

  /** Joining goes part by part, wherever the parts are divided. */
  lemma {:induction false} JoinAppend(a: seq<string>, b: seq<string>)
    requires a != [] && b != []
    ensures Join(a + b) == Join(a) + "\n\n" + Join(b)
  {
    var n := |b| - 1;
    assert (a + b)[..|a + b| - 1] == a + b[..n];
    if n > 0 {
      JoinAppend(a, b[..n]);
      JoinsAgain(Join(a), Join(b[..n]), b[n]);
    } else {
      assert a + b[..n] == a;
    }
  }

  lemma {:induction false} JoinsAgain(a: string, b: string, c: string)
    ensures a + "\n\n" + b + "\n\n" + c == a + "\n\n" + (b + "\n\n" + c)
  {
  }

  lemma {:induction false} JoinSpells(parts: seq<string>)
    ensures Spells(Join(parts), parts)
  {
    if |parts| > 1 {
      JoinSpells(parts[1..]);
      JoinAppend(parts[..1], parts[1..]);
      assert parts == parts[..1] + parts[1..] && parts[..1] == [parts[0]];
      JoinOne(parts[0]);
      hide Join;
    }
  }

  /** The trimmed texts of a group that are not blank, update by update. */
  lemma {:induction false} TextsAppend(a: seq<Update>, b: seq<Update>)
    ensures Texts(a + b) == Texts(a) + Texts(b)
  {
    if b == [] {
      assert a + b == a;
    } else {
      assert (a + b)[..|a + b| - 1] == a + b[..|b| - 1];
      TextsAppend(a, b[..|b| - 1]);
    }
  }

  lemma {:induction false} TextsOfOne(u: Update)
    ensures Texts([u]) == if Trim(u.text) == "" then [] else [Trim(u.text)]
  {
    assert [u][..0] == [];
  }

  /** Every text of a group that is not blank stands in its message, trimmed, once and in order. */
  lemma {:induction false} GroupReads(group: seq<Update>)
    ensures Spells(GroupedText(group), Texts(group))
  {
    JoinSpells(Texts(group));
  }

  lemma {:induction false} GivenAppend(a: seq<string>, b: seq<string>)
    ensures TelegramDelivery.NonEmpty(a + b) == TelegramDelivery.NonEmpty(a) + TelegramDelivery.NonEmpty(b)
  {
    if b == [] {
      assert a + b == a;
    } else {
      assert (a + b)[..|a + b| - 1] == a + b[..|b| - 1];
      GivenAppend(a, b[..|b| - 1]);
    }
  }

  lemma {:induction false} GivenOne(notice: string)
    ensures TelegramDelivery.NonEmpty([notice]) == if notice == "" then [] else [notice]
  {
    assert [notice][..0] == [];
  }

  /** A reply is its text and every notice that is not empty, once and in order; a text that the preview shows
      completely is a message of its own before the notices; the fallback replies for want of text and notices. */
  lemma {:induction false} ReplyReads(text: string, count: nat, notices: seq<string>, fallback: string)
    requires count <= |text|
    ensures var reply, given := TelegramDelivery.Reply(text, count, notices, fallback),
            TelegramDelivery.NonEmpty(notices);
            if text == "" && given == [] then reply == fallback
            else if text == "" then Spells(reply, given)
            else if count < |text| then Spells(reply, [text] + given)
            else exists rest :: reply == text + rest && Spells(rest, given)
  {
    var given := TelegramDelivery.NonEmpty(notices);
    JoinSpells(given);
    JoinSpells([text] + given);
    GivenIsNotEmpty(notices);
    if given != [] {
      TelegramDelivery.JoinLength(given);
      assert given[0] in given;
    }
    hide Spells, TelegramDelivery.NonEmpty;
  }

  lemma {:induction false} GivenIsNotEmpty(notices: seq<string>)
    ensures forall part :: part in TelegramDelivery.NonEmpty(notices) ==> part != ""
  {
    if notices != [] {
      GivenIsNotEmpty(notices[..|notices| - 1]);
    }
  }

  // ----- Commands -------------------------------------------------------------------------------------------

  /** A bot's name after an at sign, or nothing. */
  predicate IsAddress(bot: string) {
    bot == "" || (|bot| > 1 && bot[0] == '@' && forall i :: 1 <= i < |bot| ==> IsWord(bot[i]))
  }

  ghost predicate ReadsAs(s: string, name: string, bot: string, tail: string) {
    s == name + bot + tail && IsAddress(bot) && (tail == "" || IsScriptSpace(tail[0]))
  }

  lemma {:induction false} SkipWordSplits(s: string)
    ensures |SkipWord(s)| <= |s| && s == s[..|s| - |SkipWord(s)|] + SkipWord(s)
    ensures forall i :: 0 <= i < |s| - |SkipWord(s)| ==> IsWord(s[i])
    ensures SkipWord(s) != "" ==> !IsWord(SkipWord(s)[0])
  {
    if s != "" && IsWord(s[0]) {
      SkipWordSplits(s[1..]);
      hide IsWord;
      assert s == [s[0]] + s[1..];
    }
  }

  lemma {:induction false} SkipWordAppend(word: string, rest: string)
    requires (forall i :: 0 <= i < |word| ==> IsWord(word[i])) && (rest == "" || !IsWord(rest[0]))
    ensures SkipWord(word + rest) == rest
  {
    if word == "" {
      assert word + rest == rest;
    } else {
      assert (word + rest)[1..] == word[1..] + rest;
      SkipWordAppend(word[1..], rest);
    }
  }

  /** A command is its name, perhaps a bot's, and then nothing or white space. */
  lemma {:induction false} CommandIff(s: string, name: string)
    ensures CommandNamed(s, name) <==> exists bot, tail :: ReadsAs(s, name, bot, tail)
  {
    if CommandNamed(s, name) {
      CommandReads(s, name);
    }
    if bot, tail :| ReadsAs(s, name, bot, tail) {
      ReadsCommand(s, name, bot, tail);
    }
    hide CommandNamed, ReadsAs;
  }

  lemma {:induction false} CommandReads(s: string, name: string)
    requires CommandNamed(s, name)
    ensures exists bot, tail :: ReadsAs(s, name, bot, tail)
  {
    var rest := s[|name|..];
    assert s == name + rest;
    if |rest| > 1 && rest[0] == '@' && IsWord(rest[1]) {
      SkipWordSplits(rest[1..]);
      hide SkipWord, IsWord, IsScriptSpace;
      var after := SkipWord(rest[1..]);
      var bot := rest[..|rest| - |after|];
      assert rest == bot + after && bot[0] == '@';
      assert forall i :: 1 <= i < |bot| ==> bot[i] == rest[1..][i - 1];
      assert ReadsAs(s, name, bot, after);
    } else {
      assert ReadsAs(s, name, "", rest);
    }
  }

  lemma {:induction false} ReadsCommand(s: string, name: string, bot: string, tail: string)
    requires ReadsAs(s, name, bot, tail)
    ensures CommandNamed(s, name)
  {
    var rest := s[|name|..];
    assert rest == bot + tail;
    assert tail != "" ==> !IsWord(tail[0]) && tail[0] != '@';
    if bot != "" {
      assert rest[1..] == bot[1..] + tail && rest[0] == '@' && rest[1] == bot[1];
      SkipWordAppend(bot[1..], tail);
    }
    hide SkipWord;
  }

  ghost predicate Commands(u: Update) {
    || u.callback != ""
    || (!u.attachment && exists name, bot, tail :: name in {"/agent", "/new", "/chatid"}
                           && ReadsAs(u.text, name, bot, tail))
  }

  lemma {:induction false} ImmediateIff(u: Update)
    ensures Immediate(u) <==> Commands(u)
  {
    CommandIff(u.text, "/agent");
    CommandIff(u.text, "/new");
    CommandIff(u.text, "/chatid");
    hide CommandNamed;
    assert forall name, bot, tail :: ReadsAs("", name, bot, tail) ==> name == "";
  }

  // ----- Groups ---------------------------------------------------------------------------------------------

  function AttachedAt(group: seq<Update>): set<int> {
    set i | 0 <= i < |group| && group[i].attachment
  }

  lemma {:induction false} AttachmentsAre(group: seq<Update>)
    ensures Attachments(group) == |AttachedAt(group)|
  {
    if group != [] {
      var n := |group| - 1;
      AttachmentsAre(group[..n]);
      assert AttachedAt(group) == AttachedAt(group[..n]) + if group[n].attachment then {n} else {};
    }
  }

  /** An update belongs to the message begun by `group`: nobody commands, one conversation, at most four attachments and
      4,096 units of text in all, and it goes on from it: by the media group of the first, by an attachment after text
      or another attachment, or by text after an attachment. */
  ghost predicate Belongs(group: seq<Update>, u: Update)
    requires group != []
  {
    && !Commands(group[0]) && !Commands(u)
    && u.chat == group[0].chat && u.sender == group[0].sender && u.chatType == group[0].chatType
    && |AttachedAt(group + [u])| <= 4
    && (forall text :: Spells(text, Texts(group + [u])) ==> Utf16Length(text) <= 4_096)
    && (|| (u.mediaGroup != "" && u.mediaGroup == group[0].mediaGroup)
        || (u.attachment && exists v :: v in group && (v.attachment || Trim(v.text) != ""))
        || (Trim(u.text) != "" && exists v :: v in group && v.attachment))
  }

  lemma {:induction false} SpellsOne(a: string, b: string, parts: seq<string>)
    requires Spells(a, parts) && Spells(b, parts)
    ensures a == b
    decreases |parts|
  {
    if |parts| > 1 {
      var x :| a == parts[0] + "\n\n" + x && Spells(x, parts[1..]);
      var y :| b == parts[0] + "\n\n" + y && Spells(y, parts[1..]);
      SpellsOne(x, y, parts[1..]);
    }
  }

  lemma {:induction false} AttachedSome(group: seq<Update>)
    ensures Attachments(group) > 0 <==> exists v :: v in group && v.attachment
  {
    if group != [] {
      AttachedSome(group[..|group| - 1]);
      assert group == group[..|group| - 1] + [group[|group| - 1]];
    }
  }

  lemma {:induction false} CanAppendIff(group: seq<Update>, u: Update)
    requires group != []
    ensures CanAppend(group, u) <==> Belongs(group, u)
  {
    ImmediateIff(group[0]);
    ImmediateIff(u);
    AttachmentsAre(group + [u]);
    AttachedSome(group);
    GroupReads(group + [u]);
    forall text | Spells(text, Texts(group + [u])) ensures text == GroupedText(group + [u]) {
      SpellsOne(text, GroupedText(group + [u]), Texts(group + [u]));
    }
    assert (group + [u])[..|group|] == group;
    assert Attachments(group + [u]) == Attachments(group) + if u.attachment then 1 else 0;
    hide Immediate, Commands, GroupedText, Texts, Spells, Attachments, AttachedAt, Utf16Length, Trim;
  }

  /** The groups are the longest messages: each update after the first of a group belongs to those before it, and the
      first update of the next group does not belong to the group before. */
  lemma {:induction false} GroupsHold(groups: seq<seq<Update>>, updates: seq<Update>)
    requires IsGrouping(groups, updates)
    ensures forall g, n :: g in groups && 0 < n < |g| ==> Belongs(g[..n], g[n])
    ensures forall i :: 0 < i < |groups| && groups[i - 1] != [] && groups[i] != []
              ==> !Belongs(groups[i - 1], groups[i][0])
  {
    forall g, n | g in groups && 0 < n < |g| ensures Belongs(g[..n], g[n]) {
      assert Grown(g);
      CanAppendIff(g[..n], g[n]);
    }
    forall i | 0 < i < |groups| && groups[i - 1] != [] && groups[i] != []
      ensures !Belongs(groups[i - 1], groups[i][0]) {
      CanAppendIff(groups[i - 1], groups[i][0]);
    }
  }
}
