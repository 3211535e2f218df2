/** The provider router (agent/llm_router.py): choose between the local and
    the cloud model, then fall back to the cloud when the local one is
    unavailable or fails. The backends are represented by the outcome each
    one would produce for this request. */
module LlmRouting {
  import opened Base
  import opened SkillConfig
  import opened State

  /** What the local backend does when asked: `is_available()` is false, the
      call raises, or it answers. */
  datatype LocalOutcome = LocalUnavailable | LocalRaises | LocalReplies(text: string)

  /** What the cloud backend does when asked: it raises or answers. */
  datatype CloudOutcome = CloudRaises | CloudReplies(text: string)

  datatype Backends = Backends(local: LocalOutcome, cloud: CloudOutcome)

  /** `(response_text, provider_used)`. */
  datatype Reply = Reply(text: string, provider: string)

  /** The number of user-role entries among the messages. */
  function CountUserTurns(messages: seq<Turn>): (n: nat)
    ensures n <= |messages|
    ensures n == 0 <==> forall i :: 0 <= i < |messages| ==> messages[i].role != User
    ensures n == |messages| <==> forall i :: 0 <= i < |messages| ==> messages[i].role == User
    decreases |messages|
  {
    if |messages| == 0 then 0
    else CountUserTurns(messages[..|messages| - 1]) + (if messages[|messages| - 1].role == User then 1 else 0)
  }

  /** The default escalation threshold. */
  const DefaultThreshold := 4

  datatype LlmRouter = LlmRouter(globalOverride: Option<string>)
  {
    /** A non-empty global override. */
    predicate Overridden() {
      globalOverride.Some? && globalOverride.value != ""
    }

    /** `_select_provider`. */
    function SelectProvider(cfg: Option<Config>, messages: seq<Turn>): (p: string)
      ensures Overridden() ==> p == globalOverride.value
      ensures !Overridden() && (cfg.None? || cfg.value.IsEmpty()) ==> p == "local"
      ensures !Overridden() && cfg.Some? && !cfg.value.IsEmpty() ==>
        if CountUserTurns(messages) > cfg.value.escalationThreshold.GetOr(DefaultThreshold)
        then p == "cloud"
        else p == cfg.value.llm.GetOr("local")
    {
      if Overridden() then globalOverride.value
      else if cfg.Some? && !cfg.value.IsEmpty() then
        var threshold := cfg.value.escalationThreshold.GetOr(DefaultThreshold);
        if CountUserTurns(messages) > threshold then "cloud" else cfg.value.llm.GetOr("local")
      else "local"
    }

    /** The answer a request gets: the local backend's when the local one was
        selected and answers, otherwise the cloud's, whose failure propagates. */
    function Answer(cfg: Option<Config>, messages: seq<Turn>, backends: Backends): Result<Reply> {
      if SelectProvider(cfg, messages) == "local" && backends.local.LocalReplies? then
        Ok(Reply(backends.local.text, "local"))
      else if backends.cloud.CloudReplies? then
        Ok(Reply(backends.cloud.text, "cloud"))
      else
        Err(BackendFailed)
    }

    /** `get_response`: try the local backend when it was selected and is
        available; any other case, or a local failure, goes to the cloud,
        whose failure is not caught. */
    method GetResponse(messages: seq<Turn>, cfg: Option<Config>, backends: Backends)
      returns (r: Result<Reply>)
      ensures r.Ok? && r.value.provider == "local" <==>
                SelectProvider(cfg, messages) == "local" && backends.local.LocalReplies?
      ensures r.Ok? && r.value.provider == "local" ==> r.value.text == backends.local.text
      ensures r.Ok? ==> r.value.provider == "local" || r.value.provider == "cloud"
      ensures r.Ok? && r.value.provider == "cloud" ==>
                backends.cloud.CloudReplies? && r.value.text == backends.cloud.text
      ensures r.Err? <==> !(SelectProvider(cfg, messages) == "local" && backends.local.LocalReplies?)
                          && backends.cloud.CloudRaises?
      ensures r.Err? ==> r.error == BackendFailed
      ensures r == Answer(cfg, messages, backends)
    {
      var provider := SelectProvider(cfg, messages);
      if provider == "local" {
        match backends.local
        case LocalReplies(text) =>
          return Ok(Reply(text, "local"));
        case LocalUnavailable =>
          provider := "cloud";
        case LocalRaises =>
          provider := "cloud";
      }
      match backends.cloud
      case CloudReplies(text) =>
        r := Ok(Reply(text, "cloud"));
      case CloudRaises =>
        r := Err(BackendFailed);
    }
  }

  /** One more user message never moves a conversation off the cloud: once
      selection says "cloud" without an override, it keeps saying so. */
  lemma {:induction false} CloudIsSticky(router: LlmRouter, cfg: Option<Config>, messages: seq<Turn>, content: string)
    requires !router.Overridden()
    requires router.SelectProvider(cfg, messages) == "cloud"
    ensures router.SelectProvider(cfg, messages + [Turn(User, content)]) == "cloud"
  {
    var longer := messages + [Turn(User, content)];
    assert longer[..|longer| - 1] == messages;
    assert CountUserTurns(longer) == CountUserTurns(messages) + 1;
  }

  /** Only user messages count toward escalation: appending any other message
      leaves the selection unchanged. */
  lemma {:induction false} OnlyUserTurnsEscalate(router: LlmRouter, cfg: Option<Config>, messages: seq<Turn>, t: Turn)
    requires t.role != User
    ensures router.SelectProvider(cfg, messages + [t]) == router.SelectProvider(cfg, messages)
  {
    var longer := messages + [t];
    assert longer[..|longer| - 1] == messages;
    assert CountUserTurns(longer) == CountUserTurns(messages);
  }
}
