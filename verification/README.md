# Slack assistant conversation core, in Dafny

This project models how the Slack assistant orchestrates a conversation. The
assistant classifies each incoming Slack message, then does one of five things:

- continues a skill conversation it already runs in that thread or channel;
- creates a new skill from a request;
- modifies an existing skill;
- starts a skill that is bound to a channel mention;
- answers directly.

A *skill* is a YAML definition with a context, questions, a turn budget, an
optional cron schedule and an optional output section. The model covers these
parts of the system:

- **`State`** — the conversation store. It holds conversation rows and their
  message logs, with ids from a counter and time from a logical clock.
- **`Loader`** — the skill registry, kept in insertion order like a Python dict.
- **`LlmRouting`** — the provider router. It picks the local or the cloud model
  by the global override, the escalation threshold and the skill's `llm` key,
  and falls back to the cloud model.
- **`Routing`** — the message classifier, including the mention stripper and
  the de-duplication of mention skills.
- **`Executor`** — the skill executor:
  - the system prompt it builds;
  - starting a skill conversation;
  - continuing one, with the turn counter and completion.
- **`Output`** — the output hand-off: the rendered transcript and the path template.
- **`Scheduler`** — the cron parsing and the job table of the scheduler.
- **`Creator`** — the skill creator: stripping code fences from a reply,
  accepting the parsed YAML, and saving it.
- **`Core`** — the agent core, which dispatches on the classification and
  writes the reply texts.
- **`Gmail`** — the mail client's payload helpers:
  - part search in depth-first pre-order;
  - body choice and truncation;
  - header defaults.

The model also includes two modules that the others share. `Base` holds
`Option`, `Result` and the error kinds. `Text` holds string functions
(`Trim`, `Lower`, `Split`, `Join`, `ReplaceAll`, `Contains`, `Words`) together
with their lemmas.

Every outside effect becomes a parameter:

- The language-model backends are one outcome per request: unavailable, raises or replies.
- The YAML parser and dumper, the regular-expression pattern lists, the cron
  field validator, base64url decoding and HTML stripping are function-valued
  parameters.
- The wall clock becomes a `Now` value or a counter.

## Model

| member | source | states |
|---|---|---|
| Loader.LoadFile | skills/loader.py:34-41 | A file loads if and only if it is a mapping with `name`, `description`, `trigger` and `context`. The loaded value is that mapping; a missing key is a `MissingKey` error. |
| Loader.Insert | skills/loader.py:65 | Inserting into the registry keeps it well formed. A new name goes last and an existing name keeps its place. The map gains the one entry. |
| Loader.LoadedFrom | skills/loader.py:22-32 | Loading a list of files always yields a well-formed registry: distinct ordered keys, each entry stored under its own name. |
| Loader.FailingFileSkipped | skills/loader.py:26-31 | A file that fails to load leaves the registry exactly as the other files make it. |
| Loader.LoadedFromEntries | skills/loader.py:22-32 | A name is registered if and only if some file defines it. Its entry is the last file that defines it. |
| Loader.SkillFileName | skills/loader.py:61 | The file name is the skill name with each space turned into a hyphen and every other character kept, followed by `.yaml`. It contains no space. |
| Loader.SkillLoader.constructor | skills/loader.py:15-17 | A new loader has an empty registry. |
| Loader.SkillLoader.LoadAll | skills/loader.py:22-32 | The registry is rebuilt from scratch as `LoadedFrom(docs)` and returned. |
| Loader.SkillLoader.GetSkill | skills/loader.py:43-44 | A skill is found if and only if its name is registered. It is the stored entry, and its name is the key. |
| Loader.SkillLoader.GetAllSkills | skills/loader.py:46-47 | All entries, in registry order, one per key. |
| Loader.SkillLoader.GetScheduledSkills | skills/loader.py:49-50 | Exactly the entries whose trigger is `scheduled`, and each has a name. |
| Loader.SkillLoader.GetChannelSkills | skills/loader.py:52-57 | Exactly the entries bound to the channel whose trigger is `mention`. |
| Loader.SkillLoader.SaveSkill | skills/loader.py:59-67 | The registry becomes `Insert(old, cfg)` and stays well formed. The file name is the hyphenated name. |
| Loader.SaveThenGet | skills/loader.py:59-67 | After a save, the saved name maps to the new definition and every other name keeps its entry. |
| State.ApplyField | agent/state.py:97-116 | Setting one column changes that column alone. The id and the timestamps are kept. |
| State.ApplyFieldsEffect | agent/state.py:97-116 | After an update, each column holds the last value given for it, or its old value. |
| State.ConversationStore.constructor | agent/state.py:12-32 | A new store has no conversations and no messages. |
| State.ConversationStore.CreateConversation | agent/state.py:34-66 | The new row gets a fresh id, the given columns, an empty state when none is given, and created = updated = now. Nothing else changes. |
| State.ConversationStore.GetConversation | agent/state.py:83-95 | A row is found if and only if the id is stored, and it carries that id. |
| State.ConversationStore.GetConversationByThread | agent/state.py:68-81 | Nothing is found if and only if no row has the thread. Otherwise the result is the row with the lowest id that has it. |
| State.ConversationStore.UpdateConversation | agent/state.py:97-116 | A stored row gets the fields applied and `updated_at` set to now. An unknown id changes nothing, and messages never change. |
| State.ConversationStore.AddMessage | agent/state.py:118-128 | The message is appended to the conversation's log with the current time. The rows are unchanged. |
| State.ConversationStore.GetMessages | agent/state.py:130-139 | The log is in strictly increasing time order and is empty for an unknown id. |
| State.ConversationStore.SelectNewestFirst | agent/state.py:144-149 | Exactly the selected rows, each once, ordered by `updated_at` descending. |
| State.ConversationStore.GetActiveConversationsForChannel | agent/state.py:141-161 | Exactly the channel's rows that are bound to a skill and not complete, newest first, each once. |
| State.DropComplete | agent/state.py:150-160 | Keeps exactly the rows whose phase is not complete, in the same newest-first order and without duplicates. |
| LlmRouting.CountUserTurns | agent/llm_router.py:30 | The count is zero exactly when no message is a user message. It equals the length exactly when all are. |
| LlmRouting.LlmRouter.SelectProvider | agent/llm_router.py:23-34 | The override wins. Without a config the choice is `local`. Above the threshold (default 4) it is `cloud`, otherwise the config's `llm` (default `local`). |
| LlmRouting.LlmRouter.GetResponse | agent/llm_router.py:36-58 | The local reply is used if and only if local was selected and it answers. Otherwise the cloud reply is used. A cloud failure is an error. |
| LlmRouting.CloudIsSticky | agent/llm_router.py:28-32 | Once selection says `cloud` with no override, one more user message keeps it `cloud`. |
| LlmRouting.OnlyUserTurnsEscalate | agent/llm_router.py:30 | Appending a non-user message never changes the selection. |
| Routing.MatchesPatterns | agent/router.py:99-101 | True if and only if some pattern matches the lower-cased text. |
| Routing.MatchingIgnoresCase | agent/router.py:99-101 | Lower-casing the text first changes nothing. |
| Routing.RemoveMentions | agent/router.py:103-104 | Removing mentions never makes the text longer. |
| Routing.NoMentionUnchanged | agent/router.py:103-104 | Text without `<@` is only trimmed. |
| Routing.MentionRemoved | agent/router.py:103-104 | A `<@id>` token and the whitespace after it vanish, wherever they stand. |
| Routing.TokenRemoved | agent/router.py:103-104 | A mention token at the front of the text removes itself and the whitespace that follows it. |
| Routing.DedupByName | agent/router.py:76-82 | Keeps the first skill of each name: one per name, the same set of names, and a non-empty result for non-empty input. |
| Routing.DedupSnoc | agent/router.py:78-82 | Each next skill is appended if and only if its name is new. |
| Routing.ChannelRefs | agent/router.py:72-75 | The channel id always comes first. |
| Routing.MessageRouter.constructor | agent/router.py:36-44 | The router keeps the store, the registry and the bot id. |
| Routing.MessageRouter.Candidates | agent/router.py:78-79 | Exactly the mention skills of some referenced channel, each named. |
| Routing.MessageRouter.CollectMentionSkills | agent/router.py:76-82 | The collected skills are the de-duplicated candidates. |
| Routing.MessageRouter.Classify | agent/router.py:46-97 | The five classes in priority order, each with an if-and-only-if: a known thread, then modification patterns, then command patterns, then a mention with channel skills (mention stripped), then the most recently updated active conversation, otherwise general. |
| Output.NonSystem | skills/output.py:36-38 | Exactly the non-system messages are kept, and no message is added. |
| Output.NonSystemAppend | skills/output.py:36-38 | Filtering a concatenation filters each part and concatenates the results, so order and repeats are kept. |
| Output.NonSystemSingle | skills/output.py:36-38 | One message is kept exactly when it is not a system message. |
| Output.EntriesAreShownMessages | skills/output.py:36-40 | One labelled entry per non-system message, in order. |
| Output.ToText | skills/output.py:43-50 | `Label: content` entries joined by blank lines. |
| Output.ToMarkdown | skills/output.py:34-41 | A dated title, then bold-labelled entries, joined by newlines. |
| Output.FormatOutput | skills/output.py:29-32 | `markdown` gives the markdown rendering, which starts with its title. Any other format gives text. |
| Output.ShowsEveryMessage | skills/output.py:29-50 | Every non-system message appears, labelled, in the rendering. |
| Output.ExpandUser | skills/output.py:61 | A leading `~`, alone or before `/`, becomes the home directory. A path without a leading `~` is unchanged. |
| Output.NoPlaceholderLeft | skills/output.py:52-58 | After templating, neither `{date}` nor `{week}` remains. |
| Output.Handle | skills/output.py:12-27 | With no output section, or an empty one, the result is nothing. A section holding only keys the handler does not read, such as `channel`, still counts. With `save_to` the result is the resolved path. Otherwise it is the rendered transcript. |
| Executor.QuestionLines | skills/executor.py:32-33 | One `  - q` line per question, in order. |
| Executor.PromptParts | skills/executor.py:27-55 | The first line is the trimmed context and the last is the turn budget (default 8). |
| Executor.PromptFrame | skills/executor.py:27-55 | The prompt starts with the trimmed context and ends with the budget sentence. |
| Executor.PromptListsRotatingQuestions | skills/executor.py:35-38 | Every rotating question appears in the prompt as `  - q` on a line of its own. |
| Executor.PromptNamesParticipants | skills/executor.py:40-43 | With participants, the prompt contains `Participants: ` followed by their names joined with ", ". |
| Executor.PromptStatesOutputFormat | skills/executor.py:45-47 | With an output section, the prompt states its format, and `text` when the section names none. |
| Executor.FixedQuestionAt | skills/executor.py:30-33 | The k-th fixed question is line 2 + k. |
| Executor.PromptListsFixedQuestions | skills/executor.py:30-33 | Every fixed question appears in the prompt. |
| Executor.BuildSystemPrompt | skills/executor.py:27-55 | A missing `context` is an error. Otherwise the result is the joined prompt lines. |
| Executor.AppendQuestions | skills/executor.py:30-38 | A present question list appends its title and one line per question. |
| Executor.Exchange | skills/executor.py:101-105 | The role and content of each stored message. |
| Executor.FirstSystem | skills/executor.py:107-110 | The content of the earliest system message, or none if and only if there is none. |
| Executor.NextState | skills/executor.py:122-138 | The turn goes up by one. The phase becomes complete exactly when the budget is reached or it already was. Other keys are kept. |
| Executor.CompletesAtBudget | skills/executor.py:122-127 | From an active conversation at turn s (turn 1 after `start_skill`), n exchanges reach turn s + n. The conversation is complete if and only if n > 0 and s + n ≥ max turns. |
| Executor.SkillExecutor.constructor | skills/executor.py:15-25 | The executor keeps its collaborators. |
| Executor.SkillExecutor.ConfigFor | skills/executor.py:112-114 | A config is found if and only if the conversation names a skill, a registry is present and the name is registered. It is then the registered definition. |
| Executor.SkillExecutor.StartSkill | skills/executor.py:57-88 | Missing `context` or `name` is an error with no change. Otherwise a fresh row is created at turn 0 with the skill's provider. Then: (1) if the provider fails, only that row exists; (2) if it answers, the log is [system prompt, reply], the row is at turn 1 with the provider used, and the reply is returned. |
| Executor.SkillExecutor.Open | skills/executor.py:65-88 | As `StartSkill`, after the prompt is built. |
| Executor.SkillExecutor.RecordOpening | skills/executor.py:82-86 | Logs the prompt and the reply, then sets the provider and turn 1. |
| Executor.SkillExecutor.ContinueSkill | skills/executor.py:90-145 | An unknown id gives nothing and changes nothing. Otherwise the user message is logged and the provider is asked with the non-system history and the first system prompt. Then: (1) if the provider fails, nothing more changes; (2) if the budget is reached and the skill has output, the hand-off fails after the reply is logged; (3) otherwise the reply is logged and returned, with the next state and the provider used. |
| Executor.SkillExecutor.Advance | skills/executor.py:100-145 | The same outcome as `ContinueSkill`, for a conversation whose user message is already logged. |
| Executor.SkillExecutor.LogUserMessage | skills/executor.py:98-100 | The user message is appended to the conversation's log. The log that comes back is the old log plus that message, and no row changes. |
| Executor.SkillExecutor.Conclude | skills/executor.py:120-145 | The reply is logged. At the turn budget, a skill with output fails the hand-off and the row stays as it was. Otherwise the row gets the next turn, the provider used and the phase `complete` once the budget is reached. |
| Executor.TranscriptRepeatsUserMessage | skills/executor.py:129-134 | The hand-off transcript holds the user message twice in a row. |
| Scheduler.JobId | agent/scheduler.py:55 | The job id is `skill-` followed by the name. |
| Scheduler.JobIdInjective | agent/scheduler.py:55 | Distinct skills get distinct job ids. |
| Scheduler.ParseCron | agent/scheduler.py:63-77 | A trigger is built if and only if the trimmed expression has exactly five words, each accepted in its position. The fields are those words. |
| Scheduler.WordsOfJoin | agent/scheduler.py:64 | Splitting space-joined words gives the words back. |
| Scheduler.ParseCronText | agent/scheduler.py:63-77 | Parsing a written-out valid trigger gives it back (round trip). |
| Scheduler.RegisteredStep | agent/scheduler.py:38-58 | One more scheduled skill adds exactly its job when its schedule parses. |
| Scheduler.RegisteredJobs | agent/scheduler.py:33-61 | Every job comes from a scheduled skill with a valid schedule, keyed by its id. Every such skill has a job. |
| Scheduler.SkillScheduler.constructor | agent/scheduler.py:16-22 | A new scheduler has no jobs and no callback. |
| Scheduler.SkillScheduler.SetTriggerCallback | agent/scheduler.py:24-31 | The callback is set and the jobs are kept. |
| Scheduler.SkillScheduler.RegisterSkills | agent/scheduler.py:33-61 | The job table is rebuilt from the scheduled skills in order. |
| Scheduler.SkillScheduler.AddSkillJob | agent/scheduler.py:97-112 | Not scheduled, or an invalid schedule: no change. A missing name raises. Otherwise the one job is added or replaced. |
| Scheduler.SkillScheduler.FireSkill | agent/scheduler.py:79-87 | An unknown skill does nothing. A known skill with no callback does nothing. Otherwise the callback is invoked with the registered definition. |
| Scheduler.AddKeepsOthers | agent/scheduler.py:105-111 | Adding one skill's job leaves every other skill's job as it was. |
| Creator.Inner | skills/creator.py:56-57 | The lines without the first and the last. |
| Creator.StripFence | skills/creator.py:54-57 | An unfenced reply is only trimmed. |
| Creator.FencedLines | skills/creator.py:56 | The lines of a fenced reply are the opening, the body's lines and the closing fence. |
| Creator.FencedFrame | skills/creator.py:54-55 | A fenced reply is already trimmed and starts with the fence. |
| Creator.StripTrimmedFence | skills/creator.py:54-57 | A trimmed fenced reply is reduced to its inner lines. |
| Creator.StripFenceUnwraps | skills/creator.py:54-57 | Stripping a fenced reply gives back exactly the body (round trip). |
| Creator.Accept | skills/creator.py:65-67 | A parse result is accepted if and only if it is a mapping with a `name`. |
| Creator.AcceptedFenced | skills/creator.py:54-67 | A fenced reply is accepted exactly as its body would be: the fence lines are dropped before parsing, and the result must be a mapping with a `name`. |
| Creator.AcceptedUnfenced | skills/creator.py:54-67 | A reply without a fence is parsed after trimming only, and accepted when the result is a mapping with a `name`. |
| Creator.ModifyPrompt | skills/creator.py:77-82 | The prompt starts with the header "Here is the current skill configuration:", a blank line and the current YAML. It contains the line "Modify it according to this request: " followed by the request. |
| Creator.AsksCloud | skills/creator.py:48-52 | With no override, the creator's requests go to the cloud model. |
| Creator.SkillCreator.constructor | skills/creator.py:41-43 | The creator keeps its collaborators. |
| Creator.SkillCreator.SaveReply | skills/creator.py:59-70 | An accepted reply is saved into the registry and returned. Anything else changes nothing. |
| Creator.SkillCreator.CreateFromDescription | skills/creator.py:45-70 | A provider failure propagates. A reply is saved if and only if it is accepted. |
| Creator.SkillCreator.ModifySkill | skills/creator.py:72-105 | An unknown skill gives nothing and nothing is asked. Otherwise the modification prompt is sent, and the reply is saved if and only if it is accepted. |
| Creator.RenameKeepsOriginal | skills/creator.py:102-104 | A modification that renames a skill keeps the old entry next to the new one. |
| Core.ScheduleInfo | agent/core.py:87-89 | The note is empty if and only if there is no schedule. Otherwise it quotes the schedule. |
| Core.CommandReply | agent/core.py:91-97 | A missing description or trigger raises. Otherwise the reply introduces the skill, contains its description and trigger, and ends with the schedule note and the closing line. |
| Core.Quoted | agent/core.py:119 | Each name in backticks. |
| Core.WhichSkillListsAll | agent/core.py:117-120 | The reply for an unmatched modification lists every skill. |
| Core.SpelledApart | agent/core.py:104-109 | A name is recognised however the request spaces or hyphenates it. |
| Core.FirstMatch | agent/core.py:107-109 | The first skill, in registry order, that the request names. None if and only if no skill is named. |
| Core.FirstMatchAt | agent/core.py:107-109 | A match found after only non-matches is the first match. |
| Core.Plan | agent/core.py:43-77 | Each classification leads to exactly one handler. A mention starts the first channel skill in the message's thread. Continuations and ambient messages continue that conversation. Every handler except the mention start gets the classified text, and a thread continuation gets the raw event text. |
| Core.AgentCore.constructor | agent/core.py:18-41 | The collaborators share one store, one registry and one provider router. |
| Core.AgentCore.RegisterIfScheduled | agent/core.py:84-85 | With a scheduler, a scheduled definition gets its job. Otherwise nothing changes. |
| Core.AgentCore.HandleCommand | agent/core.py:79-98 | `Commanded`: a provider failure propagates. A reply that is not an acceptable definition gets the rephrase text and changes nothing. An accepted definition is inserted in the registry, given its job when scheduled and a scheduler exists, and described in the reply. |
| Core.AgentCore.HandleModification | agent/core.py:100-120 | `Modified`: the first registered name, in registry order, that the request names is the one modified, with the outcome of `ModifyNamed`. With no match the reply lists every skill and nothing changes. |
| Core.AgentCore.ModifyNamed | agent/core.py:110-115 | `NamedModified`: the provider gets the dumped definition and the request. A failure propagates. An unacceptable reply gets the trouble text and changes nothing. An accepted one is inserted, given its job when scheduled, and confirmed by name. |
| Core.AgentCore.TriggerScheduledSkill | agent/core.py:60-72 | The outcome of `start_skill` in thread `pending`. A missing `context`, then a missing `name`, is an error and nothing changes. Otherwise the row is created at a fresh id with the channel, user and skill name (`Opened`). A provider failure leaves only that row. An answer is returned as the opening reply, logged after the system prompt, and moves the row to turn 1 with the provider used. No other row or log changes. |
| Core.AgentCore.HandleGeneral | agent/core.py:141-173 | The answer to the text, with no skill config, or the provider's failure. |
| Core.AgentCore.HandleMessage | agent/core.py:43-58 | The handler run is the one `Plan` picks for the classification, and every handler except the mention start gets the event's text. The reply and the new registry, job table and store are those of `Dispatched` for that handler. |
| Core.AgentCore.Dispatch | agent/core.py:48-58 | `Dispatched`, one clause per handler. A command or a modification changes only the registry and jobs, as `Commanded` and `Modified` say. A mention start changes only the store, as `start_skill` does (`Launched`). A continuation changes only the store, as one exchange of `continue_skill` does (`Exchanged`). A general message changes nothing and returns the answer. |
| Core.AgentCore.CommandBranch | agent/core.py:50-51 | The command handler's outcome (`Commanded`), with the store untouched. |
| Core.AgentCore.ModificationBranch | agent/core.py:52-53 | The modification handler's outcome (`Modified`), with the store untouched. |
| Core.AgentCore.StartBranch | agent/core.py:129-139 | The opening text of `start_skill` and its new conversation (`Launched`), with the registry and jobs untouched. |
| Core.AgentCore.ContinueBranch | agent/core.py:74-77 | An unknown id changes nothing. Otherwise one exchange as `continue_skill` performs it (`Exchanged`), with the registry and jobs untouched. |
| Core.AgentCore.ChatBranch | agent/core.py:56-57 | The direct answer, or the provider's failure. Nothing changes. |
| Gmail.FindPart | services/gmail.py:143-159 | A found part's data is never empty. |
| Gmail.FindPartIsPreOrderFirst | services/gmail.py:143-159 | The part found is the first hit in a depth-first pre-order walk. |
| Gmail.Truncate | services/gmail.py:121 | Python's `[:n]` is a prefix of the string. For n ≥ 0 its length is min(len, n). For negative n it counts from the end. |
| Gmail.DecodeBody | services/gmail.py:161-167 | Total: a decoding failure gives "". |
| Gmail.ExtractBody | services/gmail.py:111-139 | The body is never longer than a non-negative `max_length`. |
| Gmail.BodySource | services/gmail.py:111-139 | The body is the chosen source cut to `max_length`, in this priority order: top-level plain text, then the first nested plain part in pre-order, then the first HTML part stripped, then top-level data. With none of them the body is "". |
| Gmail.EmptyPayloadEmptyBody | services/gmail.py:118-139 | An empty payload has an empty body. |
| Gmail.HeaderMap | services/gmail.py:96-99 | A name is a key if and only if some header has that name. |
| Gmail.LastHeaderWins | services/gmail.py:96-99 | Among duplicate headers, the last one's value is kept. |
| Gmail.HeaderOr | services/gmail.py:103-106 | An absent header gives its default. |
| Gmail.Summarize | services/gmail.py:70-93 | The requested id, Subject/From/Date with defaults `(no subject)`/`unknown`/"", and the snippet or "". |
| Gmail.ParseMessage | services/gmail.py:95-109 | A missing id raises. Otherwise the headers come with their defaults and the body is at most 3000 characters. |
| Gmail.MissingHeadersDefault | services/gmail.py:100-108 | A message without headers gets every default. |

## Left out

- SQLite, files, YAML text, logging and async scheduling are not modelled. The store is two maps with an id counter and a logical clock. The registry is filled from already-parsed documents.
- Conversation ids are counter values, not UUIDs. Timestamps are clock ticks, so "newest first" and message order are exact rather than limited to ISO-string resolution.
- `get_conversation_by_thread` has no `ORDER BY`. The model returns the lowest id with the thread, which is one valid reading of SQLite's row order.
- The language-model providers (`providers/ollama.py`, `providers/claude.py`) are outcomes passed as parameters. The system prompt passed to the provider is recorded by the executor but is not used to choose the reply.
- The regular-expression pattern lists are abstract predicates on the lower-cased text. The mention pattern `<@\w+>\s*` is modelled for ASCII word and space characters only.
- Text.Trim, Text.Lower, Text.Words, Routing.RemoveMentions: these handle ASCII whitespace and ASCII letters only. Python's `strip()`, `split()`, `lower()` and regex `\s` also handle Unicode whitespace, the separators `\x1c`-`\x1f` and non-ASCII case. For example, `"<@U1>\xa0hi"` becomes `"hi"` in Python but `"\xa0hi"` in the model.
- YAML parsing and dumping, the cron field validation of `CronTrigger`, base64url decoding and `_strip_html` are parameters.
- SkillConfig.Config: a key set to YAML `null` is read as an absent key, for every key. Python tells the two apart, and these results differ:
  - `llm: null`: `get("llm", "local")` gives `None`, so the router goes to the cloud, while the model picks local.
  - `description: null`: the command reply renders `_None_`, while `Core.CommandReply` reports the key as missing.
  - `escalation_threshold: null`: the comparison with the turn count raises `TypeError`, while the model uses the default 4.
  - `name: null`: Python accepts the definition, while the model treats it like a missing name.
- The APScheduler runtime is not modelled: `start`, `shutdown`, job persistence and timed firing. `_fire_skill` is modelled as the decision it makes, and the callback as an identifier.
- `AgentCore.close`, `LLMRouter.close` and `executor.process_service_actions` are not modelled. `google_services` is not part of this model, so the general reply's capabilities text is left out too.
- The Gmail API calls (`search_messages`, `get_message`, `list_recent`, `list_unread`) and the service cache are not modelled. Only the payload helpers they use are. A header entry without `name` or `value` is not modelled.
- Executor.SkillExecutor.ContinueSkill: when the budget is reached and the skill has output, `continue_skill` calls `handle(..., channel_id=...)`. `OutputHandler.handle` takes no such argument, so the call raises. The model returns `HandOffFailed` after the reply is logged, leaving the turn and state unsaved. `Output.Handle` is therefore never reached from the executor as written.
- Core.AgentCore.constructor: as written, `AgentCore(...)` raises `TypeError`. It passes `slack_client` to `OutputHandler`, which has no `__init__` and takes no arguments. It passes `google_services` to `SkillExecutor.__init__`, which has no such parameter. The model wires the collaborators as evidently intended, so it describes an agent the source as written cannot construct.
- Output.ExpandUser: the `~user` form of `expanduser` is not modelled.
- Output.Handle: writing the file and creating its directory are not modelled. The result is the templated path with `~` expanded, not normalised as `str(Path(...))` normalises it. Python collapses `//` and `/./` and drops a trailing `/`. For example, `~/notes//{date}/` gives `/home/u/notes/2026-10-11` in Python and `/home/u/notes//2026-10-11/` in the model.
