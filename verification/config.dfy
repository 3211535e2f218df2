/** A skill definition as the code sees it: a parsed YAML mapping in which
    every key may be absent. Absent keys are `None`; a key explicitly set to
    YAML null is not distinguished from an absent one. */
module SkillConfig {
  import opened Base

  /** The `output:` sub-mapping. */
  datatype OutputConfig = OutputConfig(
    format: Option<string>,
    saveTo: Option<string>,
    postToChannel: Option<bool>,
    /** Keys of the sub-mapping the output handler never reads (channel, ...). */
    others: map<string, string>)
  {
    /** Python truthiness of the sub-mapping: only the empty mapping is false. */
    predicate IsEmpty() {
      format.None? && saveTo.None? && postToChannel.None? && others == map[]
    }
  }

  datatype Config = Config(
    name: Option<string>,
    description: Option<string>,
    trigger: Option<string>,
    context: Option<string>,
    schedule: Option<string>,
    channel: Option<string>,
    llm: Option<string>,
    escalationThreshold: Option<int>,
    maxTurns: Option<int>,
    fixedQuestions: Option<seq<string>>,
    rotatingQuestions: Option<seq<string>>,
    participants: Option<seq<string>>,
    output: Option<OutputConfig>,
    /** Keys the orchestration code never reads (target_user, services, ...). */
    others: map<string, string>)
  {
    /** Python truthiness of the mapping: only the empty mapping is false. */
    predicate IsEmpty() {
      name.None? && description.None? && trigger.None? && context.None?
      && schedule.None? && channel.None? && llm.None? && escalationThreshold.None?
      && maxTurns.None? && fixedQuestions.None? && rotatingQuestions.None?
      && participants.None? && output.None? && others == map[]
    }
  }

  /** The mapping with no keys at all. */
  const Empty := Config(None, None, None, None, None, None, None, None, None,
                        None, None, None, None, map[])

  /** The ad-hoc configuration `{"llm": "cloud"}` the skill creator passes to the
      provider router. */
  const CloudOnly := Empty.(llm := Some("cloud"))

  /** What `yaml.safe_load` produced: an error, a document that is not a mapping,
      or a mapping. The parser itself is not part of this model. */
  datatype Yaml = YamlError | NotAMapping | Mapping(config: Config)

  /** `config.get(key) == value` for a string-valued key. */
  predicate Is(field: Option<string>, value: string) {
    field == Some(value)
  }
}
