/** The skill executor (skills/executor.py): the per-conversation state
    machine that opens a skill conversation, advances it one exchange at a
    time, and completes it once the turn budget is used up. */
module Executor {
  import opened Base
  import opened Text
  import opened SkillConfig
  import opened Loader
  import opened State
  import opened LlmRouting
  import Output

  /** The turn budget when a skill does not set `max_turns`. */
  const DefaultMaxTurns := 8

  /** The closing sentence of every system prompt. */
  function Budget(maxTurns: int): string {
    "\nThis conversation should complete within " + IntToString(maxTurns)
    + " turns. When you've gathered enough information, summarize and wrap up."
  }

  function QuestionLines(qs: seq<string>): (r: seq<string>)
    ensures |r| == |qs| && forall i :: 0 <= i < |qs| ==> r[i] == "  - " + qs[i]
  {
    seq(|qs|, i requires 0 <= i < |qs| => "  - " + qs[i])
  }

  /** A titled list of questions, or nothing when the key is absent. */
  function QuestionBlock(title: string, qs: Option<seq<string>>): seq<string> {
    if qs.Some? then [title] + QuestionLines(qs.value) else []
  }

  const FixedTitle := "\nFixed questions to ask:"
  const RotatingTitle := "\nRotating questions (pick one per session):"

  /** The participants line, present when the key is. */
  function ParticipantsLine(cfg: Config): (r: seq<string>)
    ensures |r| <= 1
  {
    if cfg.participants.Some? then ["\nParticipants: " + Join(", ", cfg.participants.value)] else []
  }

  /** The output-format line, present when the key is; the format defaults to text. */
  function OutputLine(cfg: Config): (r: seq<string>)
    ensures |r| <= 1
  {
    if cfg.output.Some? then ["\nOutput format: " + cfg.output.value.format.GetOr("text")] else []
  }

  /** The first lines of the system prompt: the context and the two question blocks. */
  function QuestionParts(cfg: Config): seq<string>
    requires cfg.context.Some?
  {
    [Trim(cfg.context.value)] + QuestionBlock(FixedTitle, cfg.fixedQuestions)
    + QuestionBlock(RotatingTitle, cfg.rotatingQuestions)
  }

  /** The lines of the system prompt, in the order they are appended. */
  function PromptParts(cfg: Config): (r: seq<string>)
    requires cfg.context.Some?
    ensures |r| >= 2 && r[0] == Trim(cfg.context.value)
    ensures r[|r| - 1] == Budget(cfg.maxTurns.GetOr(DefaultMaxTurns))
  {
    QuestionParts(cfg) + ParticipantsLine(cfg) + OutputLine(cfg) + [Budget(cfg.maxTurns.GetOr(DefaultMaxTurns))]
  }

  /** The system prompt: its lines joined by newlines. */
  function SystemPrompt(cfg: Config): string
    requires cfg.context.Some?
  {
    Join("\n", PromptParts(cfg))
  }

  /** The prompt starts with the stripped context and ends with the turn budget. */
  lemma PromptFrame(cfg: Config)
    requires cfg.context.Some?
    ensures StartsWith(SystemPrompt(cfg), Trim(cfg.context.value))
    ensures EndsWith(SystemPrompt(cfg), Budget(cfg.maxTurns.GetOr(DefaultMaxTurns)))
  {
    var parts := PromptParts(cfg);
    JoinStartsWithFirst("\n", parts);
    JoinEndsWithLast("\n", parts);
  }

  /** The prompt lists every fixed question on a line of its own. */
  lemma PromptListsFixedQuestions(cfg: Config, k: nat)
    requires cfg.context.Some? && cfg.fixedQuestions.Some? && k < |cfg.fixedQuestions.value|
    ensures Contains(SystemPrompt(cfg), "  - " + cfg.fixedQuestions.value[k])
  {
    FixedQuestionAt(cfg, k);
    LineInJoin(PromptParts(cfg), 2 + k, "  - " + cfg.fixedQuestions.value[k]);
  }

  lemma LineInJoin(parts: seq<string>, k: nat, line: string)
    requires k < |parts| && parts[k] == line
    ensures Contains(Join("\n", parts), line)
  {
    JoinContainsPart("\n", parts, k);
  }

  lemma FixedQuestionAt(cfg: Config, k: nat)
    requires cfg.context.Some? && cfg.fixedQuestions.Some? && k < |cfg.fixedQuestions.value|
    ensures 2 + k < |PromptParts(cfg)|
    ensures PromptParts(cfg)[2 + k] == "  - " + cfg.fixedQuestions.value[k]
  {
    var head := [Trim(cfg.context.value)];
    var fixed := QuestionBlock(FixedTitle, cfg.fixedQuestions);
    BlockLineAt(FixedTitle, cfg.fixedQuestions.value, k);
    SuffixIndex(head, fixed, 1 + k);
    PrefixIndex(head + fixed, QuestionBlock(RotatingTitle, cfg.rotatingQuestions), 2 + k);
    QuestionPartAt(cfg, 2 + k);
  }

  /** Line `1 + k` of a present question block is the `k`-th question. */
  lemma BlockLineAt(title: string, qs: seq<string>, k: nat)
    requires k < |qs|
    ensures |QuestionBlock(title, Some(qs))| == 1 + |qs|
    ensures QuestionBlock(title, Some(qs))[1 + k] == "  - " + qs[k]
  {
  }

  lemma PrefixIndex(a: seq<string>, b: seq<string>, i: nat)
    requires i < |a|
    ensures i < |a + b| && (a + b)[i] == a[i]
  {
  }

  lemma SuffixIndex(a: seq<string>, b: seq<string>, j: nat)
    requires j < |b|
    ensures |a| + j < |a + b| && (a + b)[|a| + j] == b[j]
  {
  }

  /** The lines before the participants line are the first lines of the prompt. */
  lemma QuestionPartAt(cfg: Config, i: nat)
    requires cfg.context.Some? && i < |QuestionParts(cfg)|
    ensures i < |PromptParts(cfg)| && PromptParts(cfg)[i] == QuestionParts(cfg)[i]
  {
    var q := QuestionParts(cfg);
    PrefixIndex(q, ParticipantsLine(cfg), i);
    PrefixIndex(q + ParticipantsLine(cfg), OutputLine(cfg), i);
    PrefixIndex(q + ParticipantsLine(cfg) + OutputLine(cfg), [Budget(cfg.maxTurns.GetOr(DefaultMaxTurns))], i);
  }

  /** The prompt lists every rotating question on a line of its own. */
  lemma PromptListsRotatingQuestions(cfg: Config, k: nat)
    requires cfg.context.Some? && cfg.rotatingQuestions.Some? && k < |cfg.rotatingQuestions.value|
    ensures Contains(SystemPrompt(cfg), "  - " + cfg.rotatingQuestions.value[k])
  {
    var i := 2 + |QuestionBlock(FixedTitle, cfg.fixedQuestions)| + k;
    RotatingQuestionAt(cfg, k);
    LineInJoin(PromptParts(cfg), i, "  - " + cfg.rotatingQuestions.value[k]);
  }

  lemma RotatingQuestionAt(cfg: Config, k: nat)
    requires cfg.context.Some? && cfg.rotatingQuestions.Some? && k < |cfg.rotatingQuestions.value|
    ensures var i := 2 + |QuestionBlock(FixedTitle, cfg.fixedQuestions)| + k;
            i < |PromptParts(cfg)| && PromptParts(cfg)[i] == "  - " + cfg.rotatingQuestions.value[k]
  {
    var head := [Trim(cfg.context.value)] + QuestionBlock(FixedTitle, cfg.fixedQuestions);
    BlockLineAt(RotatingTitle, cfg.rotatingQuestions.value, k);
    SuffixIndex(head, QuestionBlock(RotatingTitle, cfg.rotatingQuestions), 1 + k);
    QuestionPartAt(cfg, |head| + 1 + k);
  }

  /** With participants, the prompt names them, separated by ", ". */
  lemma PromptNamesParticipants(cfg: Config)
    requires cfg.context.Some? && cfg.participants.Some?
    ensures Contains(SystemPrompt(cfg), "\nParticipants: " + Join(", ", cfg.participants.value))
  {
    ParticipantsLineAt(cfg);
    LineInJoin(PromptParts(cfg), |QuestionParts(cfg)|, "\nParticipants: " + Join(", ", cfg.participants.value));
  }

  /** The participants line follows the question blocks. */
  lemma ParticipantsLineAt(cfg: Config)
    requires cfg.context.Some? && cfg.participants.Some?
    ensures |QuestionParts(cfg)| < |PromptParts(cfg)|
    ensures PromptParts(cfg)[|QuestionParts(cfg)|] == "\nParticipants: " + Join(", ", cfg.participants.value)
  {
    TailIndex(QuestionParts(cfg), ParticipantsLine(cfg), OutputLine(cfg), [Budget(cfg.maxTurns.GetOr(DefaultMaxTurns))]);
  }

  /** With an output section, the prompt states its format, and "text" when
      the section names none. */
  lemma PromptStatesOutputFormat(cfg: Config)
    requires cfg.context.Some? && cfg.output.Some?
    ensures Contains(SystemPrompt(cfg), "\nOutput format: " + cfg.output.value.format.GetOr("text"))
    ensures cfg.output.value.format.None? ==> Contains(SystemPrompt(cfg), "\nOutput format: text")
  {
    var i := |QuestionParts(cfg)| + |ParticipantsLine(cfg)|;
    OutputLineAt(cfg);
    if cfg.output.value.format.None? {
      LineInJoin(PromptParts(cfg), i, "\nOutput format: text");
    } else {
      LineInJoin(PromptParts(cfg), i, "\nOutput format: " + cfg.output.value.format.value);
    }
  }

  /** The output-format line follows the participants line. */
  lemma OutputLineAt(cfg: Config)
    requires cfg.context.Some? && cfg.output.Some?
    ensures |QuestionParts(cfg)| + |ParticipantsLine(cfg)| < |PromptParts(cfg)|
    ensures PromptParts(cfg)[|QuestionParts(cfg)| + |ParticipantsLine(cfg)|]
            == "\nOutput format: " + cfg.output.value.format.GetOr("text")
    ensures cfg.output.value.format.None? ==>
              PromptParts(cfg)[|QuestionParts(cfg)| + |ParticipantsLine(cfg)|] == "\nOutput format: text"
  {
    TailIndex(QuestionParts(cfg) + ParticipantsLine(cfg), OutputLine(cfg), [], [Budget(cfg.maxTurns.GetOr(DefaultMaxTurns))]);
  }

  /** The first line of `b` sits right after `a` in `a + b + c + d`. */
  lemma TailIndex(a: seq<string>, b: seq<string>, c: seq<string>, d: seq<string>)
    requires |b| > 0
    ensures |a| < |a + b + c + d| && (a + b + c + d)[|a|] == b[0]
  {
  }

  /** `build_system_prompt`; a definition without `context` raises KeyError. */
  method BuildSystemPrompt(cfg: Config) returns (r: Result<string>)
    ensures cfg.context.None? ==> r == Err(MissingKey("context"))
    ensures cfg.context.Some? ==> r == Ok(SystemPrompt(cfg))
  {
    if cfg.context.None? {
      return Err(MissingKey("context"));
    }
    var parts := [Trim(cfg.context.value)];
    parts := AppendQuestions(parts, FixedTitle, cfg.fixedQuestions);
    parts := AppendQuestions(parts, RotatingTitle, cfg.rotatingQuestions);
    ghost var before := parts;
    if cfg.participants.Some? {
      parts := parts + ["\nParticipants: " + Join(", ", cfg.participants.value)];
    }
    assert parts == before + ParticipantsLine(cfg);
    before := parts;
    if cfg.output.Some? {
      parts := parts + ["\nOutput format: " + cfg.output.value.format.GetOr("text")];
    }
    assert parts == before + OutputLine(cfg);
    parts := parts + [Budget(cfg.maxTurns.GetOr(DefaultMaxTurns))];
    return Ok(Join("\n", parts));
  }

  /** One question block of `build_system_prompt`: the title, then one line per question. */
  method AppendQuestions(parts: seq<string>, title: string, questions: Option<seq<string>>)
    returns (r: seq<string>)
    ensures r == parts + QuestionBlock(title, questions)
  {
    r := parts;
    if questions.Some? {
      r := r + [title];
      var qs := questions.value;
      for i := 0 to |qs|
        invariant r == parts + [title] + QuestionLines(qs[..i])
      {
        r := r + ["  - " + qs[i]];
      }
      assert qs[..|qs|] == qs;
    }
  }

  /** The state a new skill conversation is written with at a given turn. */
  function ActiveAt(turn: int): ConvState {
    ConvState(Some(Active), Some(turn), map[])
  }

  /** Role and content of each stored message. */
  function Exchange(ms: seq<Message>): (r: seq<Turn>)
    ensures |r| == |ms| && forall i :: 0 <= i < |ms| ==> r[i] == Turn(ms[i].role, ms[i].content)
  {
    seq(|ms|, i requires 0 <= i < |ms| => Turn(ms[i].role, ms[i].content))
  }

  /** What the provider router is shown of a log: role and content of every
      message that is not a system message, in order. */
  function Shown(ms: seq<Message>): seq<Turn> {
    Output.NonSystem(Exchange(ms))
  }

  /** The content of the first system message, if any. */
  function FirstSystem(ms: seq<Message>): (r: Option<string>)
    ensures r.None? <==> forall i :: 0 <= i < |ms| ==> ms[i].role != System
    ensures r.Some? ==> exists i :: 0 <= i < |ms| && ms[i].role == System && ms[i].content == r.value
                                    && forall j :: 0 <= j < i ==> ms[j].role != System
    decreases |ms|
  {
    if |ms| == 0 then None
    else if ms[0].role == System then Some(ms[0].content)
    else
      var r := FirstSystem(ms[1..]);
      assert forall i :: 1 <= i < |ms| ==> ms[i] == ms[1..][i - 1];
      r
  }

  /** The turn budget in force: the skill's `max_turns` when the skill is
      known (and its definition non-empty), otherwise 8. */
  function MaxTurns(cfg: Option<Config>): int {
    if cfg.Some? && !cfg.value.IsEmpty() then cfg.value.maxTurns.GetOr(DefaultMaxTurns) else DefaultMaxTurns
  }

  /** The state after one more exchange: the turn counter goes up by one,
      and the phase becomes complete once the budget is reached. */
  function NextState(s: ConvState, maxTurns: int): (r: ConvState)
    ensures r.turn == Some(s.turn.GetOr(0) + 1)
    ensures r.extra == s.extra
    ensures r.phase == Some(Complete) <==> s.turn.GetOr(0) + 1 >= maxTurns || s.phase == Some(Complete)
    ensures r.phase != Some(Complete) ==> r.phase == s.phase
  {
    var turn := s.turn.GetOr(0) + 1;
    s.(turn := Some(turn), phase := if turn >= maxTurns then Some(Complete) else s.phase)
  }

  /** Starting from an active conversation at turn `start` (turn 1 is where
      `start_skill` leaves it), `n` more exchanges reach turn `start + n`, and
      the conversation is complete exactly when one of them reached the budget. */
  lemma {:induction false} CompletesAtBudget(start: nat, maxTurns: int, n: nat)
    ensures Iterate(ActiveAt(start), maxTurns, n).turn == Some(start + n)
    ensures Iterate(ActiveAt(start), maxTurns, n).phase == Some(Complete) <==> n > 0 && start + n >= maxTurns
    decreases n
  {
    if n > 0 {
      CompletesAtBudget(start, maxTurns, n - 1);
    }
  }

  /** `n` exchanges in a row. */
  function Iterate(s: ConvState, maxTurns: int, n: nat): ConvState
    decreases n
  {
    if n == 0 then s else NextState(Iterate(s, maxTurns, n - 1), maxTurns)
  }

  /** What `start_skill` returns: the opening reply and the conversation id. */
  datatype Started = Started(text: string, id: nat)

  /** The request `continue_skill` hands to the provider router. */
  datatype Request = Request(messages: seq<Turn>, systemPrompt: Option<string>, cfg: Option<Config>)

  /** The fixed opening user turn. */
  const Opening := Turn(User, "Begin the conversation.")

  /** The outcome of one exchange on `conv`, whose log `history` already ends
      with the new user message, taking the store from `convs`/`msgs` at time
      `clock` to `convs'`/`msgs'`. The request shows the non-system history
      and the first system message. A backend failure changes nothing more.
      Otherwise the reply is logged; then, when the turn budget is reached
      and the skill has an `output` section, the hand-off raises with the
      transcript built for it and the state is not written; in every other
      case provider and the next state are written and the reply returned. */
  predicate Exchanged(router: LlmRouter, conv: Conversation, history: seq<Message>, cfg: Option<Config>,
                      userMessage: string, backends: Backends,
                      r: Result<Option<string>>, asked: Option<Request>, transcript: Option<seq<Turn>>,
                      convs: map<nat, Conversation>, msgs: map<nat, seq<Message>>, clock: nat,
                      convs': map<nat, Conversation>, msgs': map<nat, seq<Message>>)
  {
    var answer := router.Answer(cfg, Shown(history), backends);
    && asked == Some(Request(Shown(history), FirstSystem(history), cfg))
    && (answer.Err? ==>
          r == Err(BackendFailed) && transcript.None? && convs' == convs && msgs' == msgs)
    && (answer.Ok? ==>
          Concluded(conv, history, cfg, userMessage, answer.value, r, transcript, convs, msgs, clock, convs', msgs'))
  }

  /** The writes after a reply arrives: the reply is logged; then either the
      hand-off raises, or provider and next state are written. */
  predicate Concluded(conv: Conversation, history: seq<Message>, cfg: Option<Config>, userMessage: string, reply: Reply,
                      r: Result<Option<string>>, transcript: Option<seq<Turn>>,
                      convs: map<nat, Conversation>, msgs: map<nat, seq<Message>>, clock: nat,
                      convs': map<nat, Conversation>, msgs': map<nat, seq<Message>>)
  {
    var next := NextState(conv.state, MaxTurns(cfg));
    var handOff := next.turn.value >= MaxTurns(cfg) && cfg.Some? && !cfg.value.IsEmpty() && cfg.value.output.Some?;
    && msgs' == msgs[conv.id := history + [Message(Assistant, reply.text, clock)]]
    && (handOff ==>
          r == Err(HandOffFailed)
          && transcript == Some(Exchange(history) + [Turn(User, userMessage), Turn(Assistant, reply.text)])
          && convs' == convs)
    && (!handOff ==>
          r == Ok(Some(reply.text)) && transcript.None?
          && convs' == convs[conv.id := conv.(provider := reply.provider, state := next, updatedAt := clock + 1)])
  }

  /** The outcome of opening a skill conversation with `prompt`: the row for
      `cfg` is created at turn 0 under the fresh id `id` at time `clock`; a
      backend failure leaves only that row, and a reply is logged after the
      prompt and moves the row to turn 1 with the provider that answered. */
  predicate Opened(router: LlmRouter, cfg: Config, prompt: string, channel: string, user: string, thread: string,
                   backends: Backends, r: Result<Started>, id: nat, clock: nat,
                   convs: map<nat, Conversation>, msgs: map<nat, seq<Message>>,
                   convs': map<nat, Conversation>, msgs': map<nat, seq<Message>>)
  {
    var answer := router.Answer(Some(cfg), [Opening], backends);
    var row0 := Conversation(id, thread, channel, user, cfg.name, ActiveAt(0), cfg.llm.GetOr("local"), clock, clock);
    && id !in convs
    && (answer.Err? ==>
          r == Err(BackendFailed) && convs' == convs[id := row0] && msgs' == msgs)
    && (answer.Ok? ==>
          r == Ok(Started(answer.value.text, id))
          && convs' == convs[id := row0.(provider := answer.value.provider, state := ActiveAt(1), updatedAt := clock + 3)]
          && msgs' == msgs[id := [Message(System, prompt, clock + 1), Message(Assistant, answer.value.text, clock + 2)]])
  }

  class SkillExecutor {
    const store: ConversationStore
    const router: LlmRouter
    const loader: SkillLoader?

    constructor (store: ConversationStore, router: LlmRouter, loader: SkillLoader?)
      ensures this.store == store && this.router == router && this.loader == loader
    {
      this.store := store;
      this.router := router;
      this.loader := loader;
    }

    ghost predicate Valid()
      reads this, store, loader
    {
      store.Valid() && (loader != null ==> loader.Valid())
    }

    /** The definition `continue_skill` looks up for a conversation. */
    function ConfigFor(c: Conversation): (r: Option<Config>)
      requires loader != null ==> loader.Valid()
      reads loader
      ensures r.Some? <==> c.skillName.Some? && c.skillName.value != "" && loader != null
                           && c.skillName.value in loader.skills
      ensures r.Some? ==> r.value == loader.skills[c.skillName.value] && r.value.name == c.skillName
    {
      if c.skillName.Some? && c.skillName.value != "" && loader != null then loader.GetSkill(c.skillName.value)
      else None
    }

    /** `start_skill`: create the conversation at turn 0, ask for the opening
        message, then record the prompt and the reply and move to turn 1. A
        definition missing `context` or `name` raises before anything is
        written; a cloud failure leaves the new conversation without messages. */
    method StartSkill(cfg: Config, channel: string, user: string, thread: string, backends: Backends)
      returns (r: Result<Started>)
      requires Valid()
      modifies store
      ensures Valid()
      ensures cfg.context.None? ==> r == Err(MissingKey("context"))
      ensures cfg.context.Some? && cfg.name.None? ==> r == Err(MissingKey("name"))
      ensures cfg.context.None? || cfg.name.None? ==>
                store.conversations == old(store.conversations) && store.messages == old(store.messages)
      ensures cfg.context.Some? && cfg.name.Some? ==>
                Opened(router, cfg, SystemPrompt(cfg), channel, user, thread, backends, r,
                       old(store.nextId), old(store.clock), old(store.conversations), old(store.messages),
                       store.conversations, store.messages)
    {
      var prompt := BuildSystemPrompt(cfg);
      if prompt.Err? {
        return Err(prompt.error);
      }
      if cfg.name.None? {
        return Err(MissingKey("name"));
      }
      r := Open(cfg, prompt.value, channel, user, thread, backends);
    }

    /** The part of `start_skill` after the definition checks: the new
        conversation is written first, so a cloud failure leaves it behind. */
    method Open(cfg: Config, prompt: string, channel: string, user: string, thread: string, backends: Backends)
      returns (r: Result<Started>)
      requires Valid()
      modifies store
      ensures Valid()
      ensures Opened(router, cfg, prompt, channel, user, thread, backends, r,
                     old(store.nextId), old(store.clock), old(store.conversations), old(store.messages),
                     store.conversations, store.messages)
    {
      var id := store.CreateConversation(thread, channel, user, cfg.name, Some(ActiveAt(0)), cfg.llm.GetOr("local"));
      var reply := router.GetResponse([Opening], Some(cfg), backends);
      if reply.Err? {
        return Err(BackendFailed);
      }
      RecordOpening(id, prompt, reply.value);
      r := Ok(Started(reply.value.text, id));
    }

    /** The writes of a successful opening: the prompt and the reply are
        logged, then the provider and turn 1 are recorded. */
    method RecordOpening(id: nat, prompt: string, reply: Reply)
      requires Valid() && id in store.conversations && id !in store.messages
      modifies store
      ensures Valid()
      ensures store.conversations == old(store.conversations)[id :=
                old(store.conversations[id]).(provider := reply.provider, state := ActiveAt(1), updatedAt := old(store.clock) + 2)]
      ensures store.messages == old(store.messages)[id := [
                Message(System, prompt, old(store.clock)), Message(Assistant, reply.text, old(store.clock) + 1)]]
      ensures store.nextId == old(store.nextId)
    {
      ghost var c0 := store.clock;
      store.AddMessage(id, System, prompt);
      store.AddMessage(id, Assistant, reply.text);
      assert store.messages[id] == [Message(System, prompt, c0), Message(Assistant, reply.text, c0 + 1)];
      ProviderAndState(store.conversations[id], reply.provider, ActiveAt(1));
      store.UpdateConversation(id, [SetProvider(reply.provider), SetState(ActiveAt(1))]);
    }

    /** `continue_skill`. An unknown conversation yields `None` and nothing
        changes. Otherwise the user message is stored, the provider router is
        asked with the non-system history and the first system message as the
        prompt, and the reply is stored. Reaching the turn budget marks the
        conversation complete; if the skill has an `output` section the
        hand-off call raises (it passes a `channel_id` keyword the output
        handler does not accept), so the new state is not written and the
        transcript that was built for it is returned beside the error.
        Otherwise provider and state are written and the reply returned. */
    method ContinueSkill(id: nat, userMessage: string, backends: Backends)
      returns (r: Result<Option<string>>, asked: Option<Request>, transcript: Option<seq<Turn>>)
      requires Valid()
      modifies store
      ensures Valid()
      ensures id !in old(store.conversations) ==>
                r == Ok(None) && asked.None? && transcript.None?
                && store.conversations == old(store.conversations) && store.messages == old(store.messages)
      ensures id in old(store.conversations) ==>
        var history := old(store.GetMessages(id)) + [Message(User, userMessage, old(store.clock))];
        Exchanged(router, old(store.conversations[id]), history, ConfigFor(old(store.conversations[id])),
                  userMessage, backends, r, asked, transcript,
                  old(store.conversations), old(store.messages)[id := history], old(store.clock) + 1,
                  store.conversations, store.messages)
    {
      var found := store.GetConversation(id);
      if found.None? {
        return Ok(None), None, None;
      }
      var conv := found.value;
      var history := LogUserMessage(id, userMessage);
      var cfg: Option<Config> := None;
      if conv.skillName.Some? && conv.skillName.value != "" && loader != null {
        cfg := loader.GetSkill(conv.skillName.value);
      }
      assert cfg == ConfigFor(conv);
      r, asked, transcript := Advance(conv, history, cfg, userMessage, backends);
    }

    /** The first write of `continue_skill`: the user message is logged, and
        the log as it now reads is returned. */
    method LogUserMessage(id: nat, userMessage: string) returns (history: seq<Message>)
      requires Valid()
      modifies store
      ensures Valid()
      ensures history == old(store.GetMessages(id)) + [Message(User, userMessage, old(store.clock))]
      ensures history == store.GetMessages(id)
      ensures store.messages == old(store.messages)[id := history]
      ensures store.conversations == old(store.conversations) && store.clock == old(store.clock) + 1
    {
      store.AddMessage(id, User, userMessage);
      history := store.GetMessages(id);
    }

    /** The part of `continue_skill` after the user message is stored: ask,
        store the reply, then either hand off or write the new state. */
    method Advance(conv: Conversation, history: seq<Message>, cfg: Option<Config>, userMessage: string, backends: Backends)
      returns (r: Result<Option<string>>, asked: Option<Request>, transcript: Option<seq<Turn>>)
      requires Valid() && conv.id in store.conversations && store.conversations[conv.id] == conv
      requires history == store.GetMessages(conv.id)
      modifies store
      ensures Valid()
      ensures Exchanged(router, conv, history, cfg, userMessage, backends, r, asked, transcript,
                        old(store.conversations), old(store.messages), old(store.clock),
                        store.conversations, store.messages)
    {
      var messages := Shown(history);
      var systemPrompt := FirstSystem(history);
      asked := Some(Request(messages, systemPrompt, cfg));
      var reply := router.GetResponse(messages, cfg, backends);
      if reply.Err? {
        return Err(BackendFailed), asked, None;
      }
      r, transcript := Conclude(conv, history, cfg, userMessage, reply.value);
    }

    /** The part of `continue_skill` after the reply arrives. */
    method Conclude(conv: Conversation, history: seq<Message>, cfg: Option<Config>, userMessage: string, reply: Reply)
      returns (r: Result<Option<string>>, transcript: Option<seq<Turn>>)
      requires Valid() && conv.id in store.conversations && store.conversations[conv.id] == conv
      requires history == store.GetMessages(conv.id)
      modifies store
      ensures Valid()
      ensures Concluded(conv, history, cfg, userMessage, reply, r, transcript,
                        old(store.conversations), old(store.messages), old(store.clock),
                        store.conversations, store.messages)
    {
      var id := conv.id;
      store.AddMessage(id, Assistant, reply.text);
      var state := conv.state;
      var turn := state.turn.GetOr(0) + 1;
      var maxTurns := if cfg.Some? && !cfg.value.IsEmpty() then cfg.value.maxTurns.GetOr(DefaultMaxTurns) else DefaultMaxTurns;
      if turn >= maxTurns {
        state := state.(phase := Some(Complete));
        if cfg.Some? && !cfg.value.IsEmpty() && cfg.value.output.Some? {
          transcript := Some(Exchange(history) + [Turn(User, userMessage), Turn(Assistant, reply.text)]);
          return Err(HandOffFailed), transcript;
        }
      }
      state := state.(turn := Some(turn));
      ProviderAndState(conv, reply.provider, state);
      store.UpdateConversation(id, [SetProvider(reply.provider), SetState(state)]);
      r, transcript := Ok(Some(reply.text)), None;
    }
  }

  /** The hand-off transcript holds the new user message twice: once from the
      stored history and once appended after it. */
  lemma TranscriptRepeatsUserMessage(history: seq<Message>, userMessage: string, reply: string)
    requires |history| > 0 && history[|history| - 1] == history[|history| - 1].(role := User, content := userMessage)
    ensures var t := Exchange(history) + [Turn(User, userMessage), Turn(Assistant, reply)];
            t[|t| - 3] == t[|t| - 2] == Turn(User, userMessage)
  {
  }
}
