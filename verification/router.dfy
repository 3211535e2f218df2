/** The message classifier (agent/router.py): the first rule that applies, in
    a fixed priority order, decides what an incoming Slack message is. */
module Routing {
  import opened Base
  import opened Text
  import opened SkillConfig
  import opened Loader
  import opened State

  /** The fields of a Slack event the classifier and the orchestrator read;
      a missing `text` or `channel` reads as "". */
  datatype Event = Event(
    text: string,
    channel: string,
    user: string,
    ts: string,
    threadTs: Option<string>,
    channelName: Option<string>)

  /** The message type together with its context dictionary. Both
      channel-interaction shapes of the source are kept apart. */
  datatype Classification =
    | Continuation(conversation: Conversation)
    | SkillModification(text: string)
    | Command(text: string)
    | MentionInteraction(skills: seq<Config>, text: string)
    | AmbientInteraction(conversation: Conversation, text: string)
    | General(text: string)

  /** A pattern list: one search predicate per regular expression, each
      applied to the whole (lower-cased) text. */
  type Patterns = seq<string -> bool>

  /** `_matches_patterns`: some pattern is found in the lower-cased text. */
  function MatchesPatterns(text: string, patterns: Patterns): (r: bool)
    ensures r <==> exists i :: 0 <= i < |patterns| && patterns[i](Lower(text))
    decreases |patterns|
  {
    if |patterns| == 0 then false
    else patterns[0](Lower(text)) || MatchesPatterns(text, patterns[1..])
  }

  lemma LowerIdempotent(s: string)
    ensures Lower(Lower(s)) == Lower(s)
  {
    assert forall i :: 0 <= i < |s| ==> LowerChar(LowerChar(s[i])) == LowerChar(s[i]);
  }

  /** Matching ignores case: a text and its lower-cased form match the same patterns. */
  lemma MatchingIgnoresCase(text: string, patterns: Patterns)
    ensures MatchesPatterns(Lower(text), patterns) == MatchesPatterns(text, patterns)
  {
    LowerIdempotent(text);
  }

  /** `\w` on ASCII. */
  predicate IsWordChar(c: char) {
    'a' <= c <= 'z' || 'A' <= c <= 'Z' || '0' <= c <= '9' || c == '_'
  }

  /** The end of the run of characters satisfying `p` that starts at `i`. */
  function RunEnd(s: string, i: nat, p: char -> bool): (k: nat)
    requires i <= |s|
    ensures i <= k <= |s|
    ensures forall j :: i <= j < k ==> p(s[j])
    ensures k == |s| || !p(s[k])
    decreases |s| - i
  {
    if i == |s| || !p(s[i]) then i else RunEnd(s, i + 1, p)
  }

  /** Where a match of `<@\w+>\s*` that starts at the front of `s` ends, if
      there is one. */
  function MentionEnd(s: string): (r: Option<nat>)
    ensures r.Some? ==> 4 <= r.value <= |s|
    ensures r.Some? <==> |s| >= 2 && s[0] == '<' && s[1] == '@' && 2 < RunEnd(s, 2, IsWordChar) < |s|
                         && s[RunEnd(s, 2, IsWordChar)] == '>'
  {
    if |s| >= 2 && s[0] == '<' && s[1] == '@' then
      var w := RunEnd(s, 2, IsWordChar);
      if 2 < w < |s| && s[w] == '>' then Some(RunEnd(s, w + 1, IsSpace)) else None
    else None
  }

  /** `re.sub(r"<@\w+>\s*", "", s)`: scanning left to right, every match is
      deleted and every other character kept. */
  function RemoveMentions(s: string): (r: string)
    ensures |r| <= |s|
    decreases |s|
  {
    if |s| == 0 then ""
    else match MentionEnd(s)
      case Some(e) => RemoveMentions(s[e..])
      case None => [s[0]] + RemoveMentions(s[1..])
  }

  /** `_strip_mention`. */
  function StripMention(text: string): string {
    Trim(RemoveMentions(text))
  }

  /** No `<@` pair anywhere in the string. */
  predicate NoMentionOpener(s: string) {
    forall i :: 0 <= i < |s| - 1 ==> !(s[i] == '<' && s[i + 1] == '@')
  }

  lemma {:induction false} OpenerFreeUnchanged(s: string)
    requires NoMentionOpener(s)
    ensures RemoveMentions(s) == s
    decreases |s|
  {
    if |s| > 0 {
      assert MentionEnd(s).None?;
      KeepsFirst(s);
      assert NoMentionOpener(s[1..]) by {
        forall i | 0 <= i < |s[1..]| - 1 ensures !(s[1..][i] == '<' && s[1..][i + 1] == '@') {
          assert s[1..][i] == s[i + 1] && s[1..][i + 1] == s[i + 2];
        }
      }
      OpenerFreeUnchanged(s[1..]);
    }
  }

  /** A text without `<@` has nothing removed: stripping it is just trimming. */
  lemma NoMentionUnchanged(text: string)
    requires !Contains(text, "<@")
    ensures RemoveMentions(text) == text
    ensures StripMention(text) == Trim(text)
  {
    OpenerFound(text);
    OpenerFreeUnchanged(text);
  }

  lemma OpenerFound(s: string)
    ensures !NoMentionOpener(s) ==> Contains(s, "<@")
  {
    if !NoMentionOpener(s) {
      var i :| 0 <= i < |s| - 1 && s[i] == '<' && s[i + 1] == '@';
      assert s[i..i + 2] == "<@";
      assert OccursAt(s, "<@", i);
    }
  }

  /** Without a match at the front the first character is kept. */
  lemma KeepsFirst(s: string)
    requires |s| > 0
    ensures MentionEnd(s).None? ==> RemoveMentions(s) == [s[0]] + RemoveMentions(s[1..])
  {
  }

  /** The same run computed on a longer string, when the run stops before the extension. */
  lemma {:induction false} RunEndExtend(a: string, c: string, i: nat, p: char -> bool)
    requires i <= |a| && |c| > 0 && !p(c[0])
    ensures RunEnd(a + c, i, p) == RunEnd(a, i, p)
    decreases |a| - i
  {
    if i < |a| && p(a[i]) {
      RunEndExtend(a, c, i + 1, p);
    }
  }

  /** A match that starts in `a` ends in `a` when what follows begins with `<`. */
  lemma MentionEndExtend(a: string, c: string)
    requires |a| > 0 && |c| > 0 && c[0] == '<'
    ensures MentionEnd(a + c) == MentionEnd(a)
  {
    if |a| >= 2 && a[0] == '<' && a[1] == '@' {
      RunEndExtend(a, c, 2, IsWordChar);
      var w := RunEnd(a, 2, IsWordChar);
      if 2 < w < |a| && a[w] == '>' {
        RunEndExtend(a, c, w + 1, IsSpace);
      }
    }
  }

  /** Removal works piecewise across a boundary in front of `<`. */
  lemma {:induction false} RemovalSplits(a: string, c: string)
    requires |c| > 0 && c[0] == '<'
    ensures RemoveMentions(a + c) == RemoveMentions(a) + RemoveMentions(c)
    decreases |a|
  {
    if |a| == 0 {
      assert a + c == c;
    } else {
      MentionEndExtend(a, c);
      match MentionEnd(a)
      case Some(e) =>
        assert (a + c)[e..] == a[e..] + c;
        RemovalSplits(a[e..], c);
      case None =>
        assert (a + c)[1..] == a[1..] + c;
        RemovalSplits(a[1..], c);
    }
  }

  /** The mention token for a user id. */
  function MentionToken(id: string): string {
    "<@" + id + ">"
  }

  /** A mention token and the whitespace after it vanish, wherever they stand. */
  lemma MentionRemoved(a: string, id: string, b: string)
    requires |id| > 0 && forall j :: 0 <= j < |id| ==> IsWordChar(id[j])
    ensures RemoveMentions(a + MentionToken(id) + b) == RemoveMentions(a) + RemoveMentions(TrimLeft(b))
  {
    var c := MentionToken(id) + b;
    assert a + MentionToken(id) + b == a + c;
    RemovalSplits(a, c);
    TokenRemoved(id, b);
  }

  /** A mention token at the front is removed with the whitespace after it. */
  lemma TokenRemoved(id: string, b: string)
    requires |id| > 0 && forall j :: 0 <= j < |id| ==> IsWordChar(id[j])
    ensures RemoveMentions(MentionToken(id) + b) == RemoveMentions(TrimLeft(b))
  {
    var tok := MentionToken(id);
    var c := tok + b;
    assert MentionEnd(c) == Some(RunEnd(c, |tok|, IsSpace)) by {
      RunEndAll("<@" + id, 2, IsWordChar);
      RunEndExtend("<@" + id, ">" + b, 2, IsWordChar);
      assert "<@" + id + (">" + b) == c;
    }
    SpacesSkipped(c, |tok|);
    assert c[|tok|..] == b;
  }

  /** A run over characters that all satisfy `p` reaches the end. */
  lemma {:induction false} RunEndAll(s: string, i: nat, p: char -> bool)
    requires i <= |s| && forall j :: i <= j < |s| ==> p(s[j])
    ensures RunEnd(s, i, p) == |s|
    decreases |s| - i
  {
    if i < |s| {
      RunEndAll(s, i + 1, p);
    }
  }

  /** Skipping a whitespace run is what `TrimLeft` does. */
  lemma {:induction false} SpacesSkipped(s: string, i: nat)
    requires i <= |s|
    ensures s[RunEnd(s, i, IsSpace)..] == TrimLeft(s[i..])
    decreases |s| - i
  {
    if i < |s| && IsSpace(s[i]) {
      SpacesSkipped(s, i + 1);
      assert s[i..][1..] == s[i + 1..];
    }
  }

  /** The names a list of skills carries. */
  function Names(cs: seq<Config>): set<Option<string>> {
    set c | c in cs :: c.name
  }

  lemma NamesAppend(cs: seq<Config>, c: Config)
    ensures Names(cs + [c]) == Names(cs) + {c.name}
  {
    assert forall d :: d in cs + [c] <==> d in cs || d == c;
  }

  /** Keep the first skill of each name, in order (the `seen_names` filter). */
  function DedupByName(cs: seq<Config>): (r: seq<Config>)
    ensures forall c :: c in r ==> c in cs
    ensures forall i, j :: 0 <= i < j < |r| ==> r[i].name != r[j].name
    ensures Names(r) == Names(cs)
    ensures |r| > 0 <==> |cs| > 0
    decreases |cs|
  {
    if |cs| == 0 then []
    else
      var init := cs[..|cs| - 1];
      var prev := DedupByName(init);
      var last := cs[|cs| - 1];
      assert cs == init + [last];
      NamesAppend(init, last);
      NamesAppend(prev, last);
      if last.name in Names(prev) then prev else prev + [last]
  }

  /** The `seen_names` set tracks the names kept so far. */
  lemma SeenStep(seen: set<string>, cs: seq<Config>, c: Config)
    requires c.name.Some? && forall n :: n in seen <==> Some(n) in Names(cs)
    ensures c.name.value in seen <==> c.name in Names(cs)
    ensures forall n :: n in seen + {c.name.value} <==> Some(n) in Names(cs + [c])
  {
    NamesAppend(cs, c);
  }

  lemma DedupSnoc(cs: seq<Config>, c: Config)
    ensures DedupByName(cs + [c]) ==
      if c.name in Names(DedupByName(cs)) then DedupByName(cs) else DedupByName(cs) + [c]
  {
    assert (cs + [c])[..|cs|] == cs;
  }

  /** One more skill from the same reference list, as `DedupSnoc` states it. */
  lemma DedupExtend(before: seq<Config>, found: seq<Config>, j: nat)
    requires j < |found|
    ensures DedupByName(before + found[..j + 1]) ==
      if found[j].name in Names(DedupByName(before + found[..j])) then DedupByName(before + found[..j])
      else DedupByName(before + found[..j]) + [found[j]]
  {
    assert before + found[..j + 1] == (before + found[..j]) + [found[j]];
    DedupSnoc(before + found[..j], found[j]);
  }

  /** The channel references a mention is matched against: the channel id,
      then `#name` when the event carries a non-empty channel name. */
  function ChannelRefs(e: Event): (r: seq<string>)
    ensures |r| >= 1 && r[0] == e.channel
  {
    [e.channel] + if e.channelName.Some? && e.channelName.value != "" then ["#" + e.channelName.value] else []
  }

  class MessageRouter {
    const store: ConversationStore
    const loader: SkillLoader
    const botUserId: string
    /** SKILL_MODIFICATION_PATTERNS. */
    const modificationPatterns: Patterns
    /** COMMAND_PATTERNS. */
    const commandPatterns: Patterns

    constructor (store: ConversationStore, loader: SkillLoader, botUserId: string,
                 modificationPatterns: Patterns, commandPatterns: Patterns)
      ensures this.store == store && this.loader == loader && this.botUserId == botUserId
      ensures this.modificationPatterns == modificationPatterns && this.commandPatterns == commandPatterns
    {
      this.store := store;
      this.loader := loader;
      this.botUserId := botUserId;
      this.modificationPatterns := modificationPatterns;
      this.commandPatterns := commandPatterns;
    }

    /** The skills listed for each reference, reference by reference. */
    function Candidates(refs: seq<string>): (r: seq<Config>)
      requires loader.Valid()
      reads loader
      ensures forall c :: c in r <==> c in loader.skills.Values && c.trigger == Some("mention")
                                        && exists k :: 0 <= k < |refs| && c.channel == Some(refs[k])
      ensures forall i :: 0 <= i < |r| ==> r[i].name.Some?
      decreases |refs|
    {
      if |refs| == 0 then []
      else Candidates(refs[..|refs| - 1]) + loader.GetChannelSkills(refs[|refs| - 1])
    }

    /** A thread reply to a known conversation. */
    predicate ThreadHit(e: Event)
      requires store.Valid()
      reads store
    {
      e.threadTs.Some? && e.threadTs.value != "" && store.GetConversationByThread(e.threadTs.value).Some?
    }

    predicate Mentioned(e: Event) {
      Contains(e.text, MentionToken(botUserId))
    }

    /** Some skill-bound, unfinished conversation lives in the channel. */
    predicate HasActive(channel: string)
      reads store
    {
      exists c :: c in store.conversations.Values && IsActiveIn(c, channel)
    }

    /** The mention loop: walk the references in order and keep the first
        skill seen under each name. */
    method CollectMentionSkills(refs: seq<string>) returns (channelSkills: seq<Config>)
      requires loader.Valid()
      ensures channelSkills == DedupByName(Candidates(refs))
    {
      channelSkills := [];
      var seen: set<string> := {};
      for k := 0 to |refs|
        invariant channelSkills == DedupByName(Candidates(refs[..k]))
        invariant forall n :: n in seen <==> Some(n) in Names(channelSkills)
      {
        var found := loader.GetChannelSkills(refs[k]);
        assert refs[..k + 1][..k] == refs[..k];
        assert Candidates(refs[..k + 1]) == Candidates(refs[..k]) + found;
        channelSkills, seen := AddUnseen(channelSkills, seen, found, Candidates(refs[..k]));
      }
      assert refs[..|refs|] == refs;
    }

    /** The inner loop over one reference's skills. */
    static method AddUnseen(acc: seq<Config>, seen0: set<string>, found: seq<Config>, ghost before: seq<Config>)
      returns (channelSkills: seq<Config>, seen: set<string>)
      requires acc == DedupByName(before)
      requires forall n :: n in seen0 <==> Some(n) in Names(acc)
      requires forall i :: 0 <= i < |found| ==> found[i].name.Some?
      ensures channelSkills == DedupByName(before + found)
      ensures forall n :: n in seen <==> Some(n) in Names(channelSkills)
    {
      channelSkills, seen := acc, seen0;
      assert before + found[..0] == before;
      for j := 0 to |found|
        invariant channelSkills == DedupByName(before + found[..j])
        invariant forall n :: n in seen <==> Some(n) in Names(channelSkills)
      {
        var skill := found[j];
        DedupExtend(before, found, j);
        SeenStep(seen, channelSkills, skill);
        if skill.name.value !in seen {
          channelSkills := channelSkills + [skill];
          seen := seen + {skill.name.value};
        }
      }
      assert found[..|found|] == found;
    }

    /** `classify`: continuation, then modification, then command, then a
        mention with matching skills, then an active conversation in the
        channel, and otherwise a general message. */
    method Classify(e: Event) returns (r: Classification)
      requires store.Valid() && loader.Valid()
      ensures r.Continuation? <==> ThreadHit(e)
      ensures r.Continuation? ==> r.conversation == store.GetConversationByThread(e.threadTs.value).value
      ensures r.SkillModification? <==> !ThreadHit(e) && MatchesPatterns(e.text, modificationPatterns)
      ensures r.Command? <==> !ThreadHit(e) && !MatchesPatterns(e.text, modificationPatterns)
                              && MatchesPatterns(e.text, commandPatterns)
      ensures r.SkillModification? || r.Command? ==> r.text == e.text
      ensures r.MentionInteraction? <==>
                !ThreadHit(e) && !MatchesPatterns(e.text, modificationPatterns)
                && !MatchesPatterns(e.text, commandPatterns)
                && Mentioned(e) && |Candidates(ChannelRefs(e))| > 0
      ensures r.MentionInteraction? ==>
                r.skills == DedupByName(Candidates(ChannelRefs(e))) && |r.skills| > 0
                && r.text == StripMention(e.text)
      ensures r.AmbientInteraction? <==>
                !ThreadHit(e) && !MatchesPatterns(e.text, modificationPatterns)
                && !MatchesPatterns(e.text, commandPatterns)
                && !(Mentioned(e) && |Candidates(ChannelRefs(e))| > 0)
                && HasActive(e.channel)
      ensures r.AmbientInteraction? ==>
                r.conversation in store.conversations.Values && IsActiveIn(r.conversation, e.channel)
                && r.text == e.text
                && forall c :: c in store.conversations.Values && IsActiveIn(c, e.channel) ==>
                     c.updatedAt <= r.conversation.updatedAt
      ensures r.General? ==> r.text == e.text
    {
      if e.threadTs.Some? && e.threadTs.value != "" {
        var conv := store.GetConversationByThread(e.threadTs.value);
        if conv.Some? {
          return Continuation(conv.value);
        }
      }
      if MatchesPatterns(e.text, modificationPatterns) {
        return SkillModification(e.text);
      }
      if MatchesPatterns(e.text, commandPatterns) {
        return Command(e.text);
      }
      if Contains(e.text, MentionToken(botUserId)) {
        var channelSkills := CollectMentionSkills(ChannelRefs(e));
        if |channelSkills| > 0 {
          return MentionInteraction(channelSkills, StripMention(e.text));
        }
      }
      var active := store.GetActiveConversationsForChannel(e.channel);
      assert HasActive(e.channel) ==> |active| > 0;
      if |active| > 0 {
        assert active[0] in active;
        forall c | c in store.conversations.Values && IsActiveIn(c, e.channel)
          ensures c.updatedAt <= active[0].updatedAt
        {
          var k :| 0 <= k < |active| && active[k] == c;
        }
        return AmbientInteraction(active[0], e.text);
      }
      return General(e.text);
    }
  }
}
