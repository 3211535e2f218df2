/** The orchestrator (agent/core.py): each incoming event is classified and
    handed to exactly one handler, which continues or starts a skill
    conversation, creates or modifies a skill, or answers directly. */
module Core {
  import opened Base
  import opened Text
  import opened SkillConfig
  import opened Loader
  import opened State
  import opened LlmRouting
  import opened Routing
  import opened Executor
  import opened Scheduler
  import opened Creator

  // ---- Replies ----

  const Rephrase := "I wasn't able to create that skill. Could you rephrase what you'd like?"
  const Closing := "\nYou can modify this by telling me what to change."

  /** The first line of a creation reply. */
  function Intro(name: string): string {
    "Got it! I've created a new skill: *" + name + "*\n"
  }

  /** The schedule note of a creation reply: present only for a non-empty schedule. */
  function ScheduleInfo(cfg: Config): (r: string)
    ensures r == "" <==> cfg.schedule.None? || cfg.schedule.value == ""
    ensures r != "" ==> Contains(r, "`" + cfg.schedule.value + "`")
  {
    if cfg.schedule.Some? && cfg.schedule.value != "" then
      ContainsMiddle(" | Schedule: ", "`" + cfg.schedule.value + "`", " (active now)");
      " | Schedule: " + ("`" + cfg.schedule.value + "`") + " (active now)"
    else ""
  }

  /** The reply to a successful creation. Formatting it looks up `description`
      and `trigger`, and a definition without either raises. */
  function CommandReply(cfg: Config): (r: Result<string>)
    requires cfg.name.Some?
    ensures r.Err? ==> r.error == MissingKey("description") || r.error == MissingKey("trigger")
    ensures r.Ok? <==> cfg.description.Some? && cfg.trigger.Some?
    ensures cfg.description.None? ==> r == Err(MissingKey("description"))
    ensures r.Ok? ==> StartsWith(r.value, Intro(cfg.name.value))
                      && EndsWith(r.value, ScheduleInfo(cfg) + Closing)
                      && Contains(r.value, "_" + cfg.description.value + "_\n")
                      && Contains(r.value, "Trigger: `" + cfg.trigger.value + "`")
  {
    if cfg.description.None? then Err(MissingKey("description"))
    else if cfg.trigger.None? then Err(MissingKey("trigger"))
    else
      var intro := Intro(cfg.name.value);
      var desc := "_" + cfg.description.value + "_\n";
      var trig := "Trigger: `" + cfg.trigger.value + "`";
      var tail := ScheduleInfo(cfg) + Closing;
      var s := intro + desc + trig + tail;
      assert s == intro + desc + (trig + tail);
      ContainsMiddle(intro, desc, trig + tail);
      assert s == (intro + desc) + trig + tail;
      ContainsMiddle(intro + desc, trig, tail);
      assert s[..|intro|] == intro;
      assert s[|s| - |tail|..] == tail;
      Ok(s)
  }

  function UpdatedReply(name: string): string {
    "Updated skill *" + name + "*. Changes saved."
  }

  function TroubleReply(name: string): string {
    "I had trouble updating *" + name + "*. Could you try rephrasing?"
  }

  /** A skill name in backticks. */
  function Quoted(names: seq<string>): (r: seq<string>)
    ensures |r| == |names| && forall i :: 0 <= i < |names| ==> r[i] == "`" + names[i] + "`"
  {
    seq(|names|, i requires 0 <= i < |names| => "`" + names[i] + "`")
  }

  /** The reply when no skill is recognised: every skill name, quoted. */
  function WhichSkill(names: seq<string>): string {
    "Which skill would you like to modify? Active skills: " + Join(", ", Quoted(names))
  }

  /** The no-match reply lists every skill. */
  lemma WhichSkillListsAll(names: seq<string>, k: nat)
    requires k < |names|
    ensures Contains(WhichSkill(names), "`" + names[k] + "`")
  {
    var list := Join(", ", Quoted(names));
    JoinContainsPart(", ", Quoted(names), k);
    ContainsDrop(WhichSkill(names), |WhichSkill(names)| - |list|, "`" + names[k] + "`");
    assert WhichSkill(names)[|WhichSkill(names)| - |list|..] == list;
  }

  // ---- Skill-name matching for modification requests ----

  /** Lower-cased text with hyphens and spaces removed. */
  function Compact(text: string): string {
    RemoveChar(RemoveChar(Lower(text), '-'), ' ')
  }

  /** Whether a modification request names this skill: the name occurs in
      the lower-cased text, or the name without hyphens occurs in the
      compacted text. */
  predicate NameMatches(name: string, text: string) {
    Contains(Lower(text), name) || Contains(Compact(text), RemoveChar(name, '-'))
  }

  /** A name is recognised however the request spaces or hyphenates it. */
  lemma SpelledApart(name: string, text: string, written: string)
    requires Contains(Lower(text), written)
    requires RemoveChar(RemoveChar(written, '-'), ' ') == RemoveChar(name, '-')
    ensures NameMatches(name, text)
  {
    ContainsRemoved(Lower(text), written, '-');
    ContainsRemoved(RemoveChar(Lower(text), '-'), RemoveChar(written, '-'), ' ');
  }

  /** The first name, from position `from` on, that the request names. */
  function FirstMatch(names: seq<string>, text: string, from: nat): (r: Option<nat>)
    requires from <= |names|
    ensures r.Some? ==> from <= r.value < |names| && NameMatches(names[r.value], text)
                        && forall j :: from <= j < r.value ==> !NameMatches(names[j], text)
    ensures r.None? <==> forall j :: from <= j < |names| ==> !NameMatches(names[j], text)
    decreases |names| - from
  {
    if from == |names| then None
    else if NameMatches(names[from], text) then Some(from)
    else FirstMatch(names, text, from + 1)
  }

  // ---- Dispatch ----

  /** The handler call an event leads to. */
  datatype Action =
    | Continue(id: nat, text: string)
    | Create(text: string)
    | Modify(text: string)
    | Start(skill: Config, channel: string, user: string, thread: string)
    | Chat(text: string)

  /** `handle_message` with `_handle_channel_interaction`: each message type
      goes to its own handler. A reply in a known thread continues that
      conversation with the raw event text; a mention starts the first
      matching skill in a thread rooted at the event; an ambient message
      continues the channel's most recent active conversation. */
  function Plan(kind: Classification, e: Event): (a: Action)
    requires kind.MentionInteraction? ==> |kind.skills| > 0
    ensures a.Continue? <==> kind.Continuation? || kind.AmbientInteraction?
    ensures a.Create? <==> kind.Command?
    ensures a.Modify? <==> kind.SkillModification?
    ensures a.Start? <==> kind.MentionInteraction?
    ensures a.Chat? <==> kind.General?
    ensures a.Start? ==> a.skill == kind.skills[0] && a.thread == e.ts && a.channel == e.channel && a.user == e.user
    ensures a.Continue? ==> a.id == kind.conversation.id
    ensures kind.Continuation? ==> a.text == e.text
    ensures kind.AmbientInteraction? || kind.Command? || kind.SkillModification? || kind.General? ==> a.text == kind.text
  {
    match kind
    case Continuation(c) => Continue(c.id, e.text)
    case SkillModification(t) => Modify(t)
    case Command(t) => Create(t)
    case MentionInteraction(skills, t) => Start(skills[0], e.channel, e.user, e.ts)
    case AmbientInteraction(c, t) => Continue(c.id, t)
    case General(t) => Chat(t)
  }

  /** The job table after a live registration of `cfg`, when it asks for one. */
  function WithJob(jobs: map<string, Job>, cfg: Config, accepts: FieldRule): map<string, Job>
    requires cfg.name.Some?
  {
    if cfg.trigger == Some("scheduled") && TriggerOf(cfg, accepts).Some?
    then jobs[JobId(cfg.name.value) := Job(cfg.name.value, TriggerOf(cfg, accepts).value)]
    else jobs
  }

  /** The skill registry (its key order and entries) and the scheduler's job table. */
  datatype Catalogue = Catalogue(order: seq<string>, skills: map<string, Config>, jobs: map<string, Job>)

  /** The catalogue after `cfg` is saved and, when there is a scheduler and
      the definition asks for one, given its job. */
  function Saved(before: Catalogue, sched: SkillScheduler?, cfg: Config): Catalogue
    requires cfg.name.Some?
  {
    var (order, skills) := Insert(before.order, before.skills, cfg);
    Catalogue(order, skills, if sched != null then WithJob(before.jobs, cfg, sched.accepts) else before.jobs)
  }

  /** A handler's reply as `handle_message` passes it on. */
  function Passed(r: Result<string>): Result<Option<string>> {
    if r.Ok? then Ok(Some(r.value)) else Err(r.error)
  }

  /** The outcome of `_handle_command` on `text`, taking the catalogue from
      `before` to `after`: a provider failure raises; a reply that is not an
      acceptable definition asks the user to rephrase and changes nothing; an
      accepted definition is saved, registered live, and described. */
  predicate Commanded(llm: LlmRouter, parse: Parser, sched: SkillScheduler?, text: string, backends: Backends,
                      r: Result<Option<string>>, before: Catalogue, after: Catalogue)
  {
    var answer := llm.Answer(Some(CloudOnly), [Turn(User, text)], backends);
    var made := if answer.Ok? then Accepted(answer.value.text, parse) else None;
    && (answer.Err? ==> r == Err(BackendFailed))
    && (answer.Ok? && made.None? ==> r == Ok(Some(Rephrase)))
    && (made.None? ==> after == before)
    && (made.Some? ==> r == Passed(CommandReply(made.value)) && after == Saved(before, sched, made.value))
  }

  /** The outcome of modifying the registered skill `name`, whose definition
      is `current`: the provider is sent the dumped definition and the
      request; a failure raises; an unacceptable reply gets the trouble reply
      and changes nothing; an accepted one is saved and registered live. */
  predicate NamedModified(llm: LlmRouter, parse: Parser, dump: Dumper, sched: SkillScheduler?,
                          name: string, current: Config, text: string, backends: Backends,
                          r: Result<Option<string>>, before: Catalogue, after: Catalogue)
  {
    var prompt := ModifyPrompt(dump(current), text);
    var answer := llm.Answer(Some(CloudOnly), [Turn(User, prompt)], backends);
    var made := if answer.Ok? then Accepted(answer.value.text, parse) else None;
    && (answer.Err? ==> r == Err(BackendFailed))
    && (answer.Ok? && made.None? ==> r == Ok(Some(TroubleReply(name))))
    && (made.None? ==> after == before)
    && (made.Some? ==> r == Ok(Some(UpdatedReply(made.value.name.value))) && after == Saved(before, sched, made.value))
  }

  /** The outcome of `_handle_modification` on `text`: the first registered
      name, in registry order, that the text names is modified; with none,
      the reply lists every name and nothing changes. */
  predicate Modified(llm: LlmRouter, parse: Parser, dump: Dumper, sched: SkillScheduler?, text: string,
                     backends: Backends, r: Result<Option<string>>, before: Catalogue, after: Catalogue)
  {
    var first := FirstMatch(before.order, text, 0);
    && (first.None? ==> r == Ok(Some(WhichSkill(before.order))) && after == before)
    && (first.Some? ==>
          var name := before.order[first.value];
          name in before.skills
          && NamedModified(llm, parse, dump, sched, name, before.skills[name], text, backends, r, before, after))
  }

  /** The outcome of starting `cfg` from a mention, as the channel handler
      returns it: a definition without `context` or `name` raises before
      anything is written; otherwise the conversation is opened under the
      fresh id `id` as `start_skill` does, and the reply is the opening text. */
  predicate Launched(llm: LlmRouter, cfg: Config, channel: string, user: string, thread: string, backends: Backends,
                     r: Result<Option<string>>, id: nat, clock: nat,
                     convs: map<nat, Conversation>, msgs: map<nat, seq<Message>>,
                     convs': map<nat, Conversation>, msgs': map<nat, seq<Message>>)
  {
    && (cfg.context.None? ==> r == Err(MissingKey("context")))
    && (cfg.context.Some? && cfg.name.None? ==> r == Err(MissingKey("name")))
    && (cfg.context.None? || cfg.name.None? ==> convs' == convs && msgs' == msgs)
    && (cfg.context.Some? && cfg.name.Some? ==>
          var answer := llm.Answer(Some(cfg), [Opening], backends);
          var started := if answer.Ok? then Ok(Started(answer.value.text, id)) else Err(BackendFailed);
          && Opened(llm, cfg, SystemPrompt(cfg), channel, user, thread, backends, started, id, clock,
                    convs, msgs, convs', msgs')
          && r == (if answer.Ok? then Ok(Some(answer.value.text)) else Err(BackendFailed)))
  }

  class AgentCore {
    const store: ConversationStore
    const llm: LlmRouter
    const loader: SkillLoader
    const botUserId: string
    const scheduler: SkillScheduler?
    const router: MessageRouter
    const executor: SkillExecutor
    const creator: SkillCreator

    /** The collaborators share one store, one registry and one provider router. */
    ghost predicate Valid()
      reads store, loader
    {
      store.Valid() && loader.Valid()
      && router.store == store && router.loader == loader && router.botUserId == botUserId
      && executor.store == store && executor.loader == loader && executor.router == llm
      && creator.loader == loader && creator.router == llm
      && (scheduler != null ==> scheduler.loader == loader)
    }

    constructor (store: ConversationStore, llm: LlmRouter, loader: SkillLoader, botUserId: string,
                 scheduler: SkillScheduler?, modificationPatterns: Patterns, commandPatterns: Patterns,
                 parse: Parser, dump: Dumper)
      requires store.Valid() && loader.Valid()
      requires scheduler != null ==> scheduler.loader == loader
      ensures Valid()
      ensures this.store == store && this.llm == llm && this.loader == loader && this.scheduler == scheduler
      ensures creator.parse == parse && creator.dump == dump
      ensures router.modificationPatterns == modificationPatterns && router.commandPatterns == commandPatterns
    {
      this.store := store;
      this.llm := llm;
      this.loader := loader;
      this.botUserId := botUserId;
      this.scheduler := scheduler;
      router := new MessageRouter(store, loader, botUserId, modificationPatterns, commandPatterns);
      executor := new SkillExecutor(store, llm, loader);
      creator := new SkillCreator(llm, loader, parse, dump);
    }

    /** The scheduler's job table, or nothing without a scheduler. */
    function Jobs(): map<string, Job>
      reads scheduler
    {
      if scheduler != null then scheduler.jobs else map[]
    }

    /** The registry and job table as they stand. */
    function Snapshot(): Catalogue
      reads loader, scheduler
    {
      Catalogue(loader.order, loader.skills, Jobs())
    }

    /** Live registration: a scheduled definition gets its job when there is a scheduler. */
    method RegisterIfScheduled(cfg: Config)
      requires cfg.name.Some?
      requires scheduler != null ==> scheduler.loader == loader
      modifies scheduler
      ensures scheduler != null ==> scheduler.jobs == WithJob(old(scheduler.jobs), cfg, scheduler.accepts)
                                    && scheduler.callback == old(scheduler.callback)
    {
      if scheduler != null && cfg.trigger == Some("scheduled") {
        var _ := scheduler.AddSkillJob(cfg);
      }
    }

    /** `_handle_command`: create a skill from the request; on success
        register it live when scheduled and describe it, otherwise ask the
        user to rephrase. A provider failure raises. */
    method HandleCommand(text: string, backends: Backends) returns (r: Result<string>)
      requires Valid()
      modifies loader, scheduler
      ensures Valid()
      ensures Commanded(llm, creator.parse, scheduler, text, backends, Passed(r), old(Snapshot()), Snapshot())
    {
      var created := creator.CreateFromDescription(text, backends);
      if created.Err? {
        return Err(created.error);
      }
      if created.value.None? {
        return Ok(Rephrase);
      }
      var cfg := created.value.value;
      RegisterIfScheduled(cfg);
      r := CommandReply(cfg);
    }

    /** `_handle_modification`: the first registered skill, in registry
        order, that the request names is modified; its reply is saved and
        registered live when scheduled. With no skill named, the reply lists
        them all. */
    method HandleModification(text: string, backends: Backends) returns (r: Result<string>, matched: Option<string>)
      requires Valid()
      modifies loader, scheduler
      ensures Valid()
      ensures Modified(llm, creator.parse, creator.dump, scheduler, text, backends, Passed(r), old(Snapshot()), Snapshot())
      ensures var first := FirstMatch(old(loader.order), text, 0);
              matched == if first.Some? then Some(old(loader.order)[first.value]) else None
    {
      var names := loader.order;
      for i := 0 to |names|
        invariant forall j :: 0 <= j < i ==> !NameMatches(names[j], text)
      {
        var name := names[i];
        if Contains(Lower(text), name) || Contains(Compact(text), RemoveChar(name, '-')) {
          assert FirstMatch(names, text, 0) == Some(i) by {
            FirstMatchAt(names, text, i);
          }
          matched := Some(name);
          r := ModifyNamed(name, text, backends);
          return;
        }
      }
      matched := None;
      r := Ok(WhichSkill(names));
    }

    /** One matched modification: ask, save, register, reply. */
    method ModifyNamed(name: string, text: string, backends: Backends) returns (r: Result<string>)
      requires Valid() && name in loader.skills
      modifies loader, scheduler
      ensures Valid()
      ensures NamedModified(llm, creator.parse, creator.dump, scheduler, name, old(loader.skills[name]), text, backends,
                            Passed(r), old(Snapshot()), Snapshot())
    {
      var updated, _ := creator.ModifySkill(name, text, backends);
      if updated.Err? {
        return Err(updated.error);
      }
      if updated.value.None? {
        return Ok(TroubleReply(name));
      }
      var cfg := updated.value.value;
      RegisterIfScheduled(cfg);
      r := Ok(UpdatedReply(cfg.name.value));
    }

    /** `trigger_scheduled_skill`: start the skill in a thread still to be
        posted, recorded as "pending". */
    method TriggerScheduledSkill(cfg: Config, channel: string, user: string, backends: Backends)
      returns (r: Result<Started>)
      requires Valid()
      modifies store
      ensures Valid()
      ensures r.Ok? <==> cfg.context.Some? && cfg.name.Some? && llm.Answer(Some(cfg), [Opening], backends).Ok?
      ensures cfg.context.None? ==> r == Err(MissingKey("context"))
      ensures cfg.context.Some? && cfg.name.None? ==> r == Err(MissingKey("name"))
      ensures cfg.context.None? || cfg.name.None? ==>
                store.conversations == old(store.conversations) && store.messages == old(store.messages)
      ensures cfg.context.Some? && cfg.name.Some? ==>
                Opened(llm, cfg, SystemPrompt(cfg), channel, user, "pending", backends, r,
                       old(store.nextId), old(store.clock), old(store.conversations), old(store.messages),
                       store.conversations, store.messages)
      ensures r.Ok? ==> r.value.id in store.conversations && r.value.id !in old(store.conversations)
                        && store.conversations[r.value.id].thread == "pending"
                        && store.conversations[r.value.id].channel == channel
                        && store.conversations[r.value.id].user == user
                        && store.conversations[r.value.id].skillName == cfg.name
    {
      r := executor.StartSkill(cfg, channel, user, "pending", backends);
    }

    /** `_handle_general`: answer directly, with no skill configuration, so
        the local provider is asked unless overridden. */
    method HandleGeneral(text: string, backends: Backends) returns (r: Result<string>)
      ensures var answer := llm.Answer(None, [Turn(User, text)], backends);
              (answer.Ok? ==> r == Ok(answer.value.text)) && (answer.Err? ==> r == Err(BackendFailed))
    {
      var reply := llm.GetResponse([Turn(User, text)], None, backends);
      if reply.Err? {
        return Err(reply.error);
      }
      r := Ok(reply.value.text);
    }

    /** `handle_message`: classify, then run the one handler for the class.
        Besides the reply, the classification, the handler call and, for a
        continuation, what the executor asked and handed off are returned.
        Every handler but the mention's gets the event's own text. */
    method HandleMessage(e: Event, backends: Backends)
      returns (r: Result<Option<string>>, kind: Classification, action: Action,
               asked: Option<Request>, transcript: Option<seq<Turn>>)
      requires Valid()
      modifies store, loader, scheduler
      ensures Valid()
      ensures kind.MentionInteraction? ==> |kind.skills| > 0
      ensures action == Plan(kind, e)
      ensures kind.Continuation? <==> old(router.ThreadHit(e))
      ensures !action.Start? ==> action.text == e.text
      ensures Dispatched(action, backends, r, asked, transcript, old(Snapshot()), Snapshot(),
                         old(store.nextId), old(store.clock), old(store.conversations), old(store.messages),
                         old(ContinuedConfig(action)),
                         store.conversations, store.messages)
    {
      kind := router.Classify(e);
      action := Plan(kind, e);
      r, asked, transcript := Dispatch(action, backends);
    }

    /** The outcome of running the handler `action` names, taking the
        catalogue from `before` to `after` and the store from `convs`/`msgs`
        (next id `id`, time `clock`) to `convs'`/`msgs'`; `cfg` is the
        definition a continued conversation is found to follow. A command, a
        modification and a general message leave the store alone; a start
        and a continuation leave the catalogue alone; a general message
        changes nothing. */
    ghost predicate Dispatched(action: Action, backends: Backends, r: Result<Option<string>>,
                               asked: Option<Request>, transcript: Option<seq<Turn>>,
                               before: Catalogue, after: Catalogue, id: nat, clock: nat,
                               convs: map<nat, Conversation>, msgs: map<nat, seq<Message>>, cfg: Option<Config>,
                               convs': map<nat, Conversation>, msgs': map<nat, seq<Message>>)
    {
      && (!action.Continue? ==> asked.None? && transcript.None?)
      && (action.Continue? || action.Start? ==> after == before)
      && (action.Create? || action.Modify? || action.Chat? ==> convs' == convs && msgs' == msgs)
      && (action.Create? ==> Commanded(llm, creator.parse, scheduler, action.text, backends, r, before, after))
      && (action.Modify? ==> Modified(llm, creator.parse, creator.dump, scheduler, action.text, backends, r, before, after))
      && (action.Start? ==>
            Launched(llm, action.skill, action.channel, action.user, action.thread, backends, r, id, clock,
                     convs, msgs, convs', msgs'))
      && (action.Continue? && action.id !in convs ==>
            r == Ok(None) && asked.None? && transcript.None? && convs' == convs && msgs' == msgs)
      && (action.Continue? && action.id in convs ==>
            var history := (if action.id in msgs then msgs[action.id] else []) + [Message(User, action.text, clock)];
            Exchanged(llm, convs[action.id], history, cfg, action.text, backends, r, asked, transcript,
                      convs, msgs[action.id := history], clock + 1, convs', msgs'))
      && (action.Chat? ==>
            var answer := llm.Answer(None, [Turn(User, action.text)], backends);
            after == before
            && (answer.Ok? ==> r == Ok(Some(answer.value.text))) && (answer.Err? ==> r == Err(BackendFailed)))
    }

    /** The definition a continuation of a stored conversation follows. */
    function ContinuedConfig(action: Action): Option<Config>
      requires Valid()
      reads store, loader
    {
      if action.Continue? && action.id in store.conversations
      then executor.ConfigFor(store.conversations[action.id]) else None
    }

    /** Run the handler an action names. */
    method Dispatch(action: Action, backends: Backends)
      returns (r: Result<Option<string>>, asked: Option<Request>, transcript: Option<seq<Turn>>)
      requires Valid()
      modifies store, loader, scheduler
      ensures Valid()
      ensures Dispatched(action, backends, r, asked, transcript, old(Snapshot()), Snapshot(),
                         old(store.nextId), old(store.clock), old(store.conversations), old(store.messages),
                         old(ContinuedConfig(action)),
                         store.conversations, store.messages)
    {
      asked, transcript := None, None;
      match action
      case Continue(id, text) =>
        r, asked, transcript := ContinueBranch(id, text, backends);
      case Create(text) =>
        r := CommandBranch(text, backends);
      case Modify(text) =>
        r := ModificationBranch(text, backends);
      case Start(skill, channel, user, thread) =>
        r := StartBranch(skill, channel, user, thread, backends);
      case Chat(text) =>
        r := ChatBranch(text, backends);
    }

    /** The general branch of `handle_message`. */
    method ChatBranch(text: string, backends: Backends) returns (r: Result<Option<string>>)
      requires Valid()
      ensures Dispatched(Chat(text), backends, r, None, None, old(Snapshot()), Snapshot(),
                         old(store.nextId), old(store.clock), old(store.conversations), old(store.messages),
                         None, store.conversations, store.messages)
    {
      var reply := HandleGeneral(text, backends);
      r := Passed(reply);
    }

    /** The continuation branch of `handle_message`, for a reply in a known
        thread and for an ambient message alike. */
    method ContinueBranch(id: nat, text: string, backends: Backends)
      returns (r: Result<Option<string>>, asked: Option<Request>, transcript: Option<seq<Turn>>)
      requires Valid()
      modifies store
      ensures Valid()
      ensures Dispatched(Continue(id, text), backends, r, asked, transcript, old(Snapshot()), Snapshot(),
                         old(store.nextId), old(store.clock), old(store.conversations), old(store.messages),
                         old(ContinuedConfig(Continue(id, text))), store.conversations, store.messages)
    {
      r, asked, transcript := executor.ContinueSkill(id, text, backends);
    }

    /** The command branch of `handle_message`. */
    method CommandBranch(text: string, backends: Backends) returns (r: Result<Option<string>>)
      requires Valid()
      modifies loader, scheduler
      ensures Valid()
      ensures Dispatched(Create(text), backends, r, None, None, old(Snapshot()), Snapshot(),
                         old(store.nextId), old(store.clock), old(store.conversations), old(store.messages),
                         None, store.conversations, store.messages)
    {
      var reply := HandleCommand(text, backends);
      r := Passed(reply);
    }

    /** The modification branch of `handle_message`. */
    method ModificationBranch(text: string, backends: Backends) returns (r: Result<Option<string>>)
      requires Valid()
      modifies loader, scheduler
      ensures Valid()
      ensures Dispatched(Modify(text), backends, r, None, None, old(Snapshot()), Snapshot(),
                         old(store.nextId), old(store.clock), old(store.conversations), old(store.messages),
                         None, store.conversations, store.messages)
    {
      var reply, _ := HandleModification(text, backends);
      r := Passed(reply);
    }

    /** The mention branch of `handle_message`: `_handle_channel_interaction`
        starting a skill and passing on its opening text. */
    method StartBranch(skill: Config, channel: string, user: string, thread: string, backends: Backends)
      returns (r: Result<Option<string>>)
      requires Valid()
      modifies store
      ensures Valid()
      ensures Dispatched(Start(skill, channel, user, thread), backends, r, None, None, old(Snapshot()), Snapshot(),
                         old(store.nextId), old(store.clock), old(store.conversations), old(store.messages),
                         None, store.conversations, store.messages)
    {
      var started := executor.StartSkill(skill, channel, user, thread, backends);
      r := if started.Ok? then Ok(Some(started.value.text)) else Err(started.error);
    }
  }

  /** A name that matches, after names that do not, is the first match. */
  lemma FirstMatchAt(names: seq<string>, text: string, i: nat)
    requires i < |names| && NameMatches(names[i], text)
    requires forall j :: 0 <= j < i ==> !NameMatches(names[j], text)
    ensures FirstMatch(names, text, 0) == Some(i)
  {
    var m := FirstMatch(names, text, 0);
    assert m.Some?;
    assert !(m.value < i) && !(i < m.value);
  }
}
