/** Skill creation and modification from natural language (skills/creator.py).
    The model is asked for a YAML definition; a fenced reply is unwrapped,
    the YAML parsed, and a mapping with a name is saved to the registry.
    The YAML parser and dumper are parameters. */
module Creator {
  import opened Base
  import opened Text
  import opened SkillConfig
  import opened Loader
  import opened State
  import opened LlmRouting

  /** `yaml.safe_load`, as far as its outcome goes. */
  type Parser = string -> Yaml

  /** `yaml.dump(..., default_flow_style=False)`. */
  type Dumper = Config -> string

  const Fence := "```"

  /** `lines[1:-1]`: every line but the first and the last. */
  function Inner(lines: seq<string>): (r: seq<string>)
    ensures |lines| <= 2 ==> r == []
    ensures |lines| > 2 ==> |r| == |lines| - 2 && forall i :: 0 <= i < |r| ==> r[i] == lines[i + 1]
  {
    if |lines| <= 2 then [] else lines[1..|lines| - 1]
  }

  /** The reply with surrounding whitespace removed and, when it opens with a
      code fence, its first and last lines dropped. */
  function StripFence(response: string): (r: string)
    ensures !StartsWith(Trim(response), Fence) ==> r == Trim(response)
  {
    var t := Trim(response);
    if StartsWith(t, Fence) then Join("\n", Inner(Split(t, '\n'))) else t
  }

  /** The text of a fenced reply: an opening fence line, the body, and a closing fence. */
  function Fenced(opening: string, body: string): string {
    opening + "\n" + body + "\n" + Fence
  }

  /** The lines of a fenced reply. */
  lemma {:induction false} FencedLines(opening: string, body: string)
    requires '\n' !in opening
    ensures Split(Fenced(opening, body), '\n') == [opening] + Split(body, '\n') + [Fence]
  {
    assert Fenced(opening, body) == (opening + ['\n'] + body) + ['\n'] + Fence;
    SplitAround(opening + ['\n'] + body, '\n', Fence);
    SplitAround(opening, '\n', body);
    SplitNoSeparator(opening, '\n');
    SplitNoSeparator(Fence, '\n');
  }

  /** Text between backticks has nothing to trim. */
  lemma BacktickedTrimmed(s: string)
    requires |s| > 0 && s[0] == '`' && s[|s| - 1] == '`'
    ensures Trim(s) == s
  {
    TrimUnchanged(s);
  }

  /** A fenced reply is already trimmed and opens with the fence. */
  lemma FencedFrame(opening: string, body: string)
    requires StartsWith(opening, Fence)
    ensures Trim(Fenced(opening, body)) == Fenced(opening, body)
    ensures StartsWith(Fenced(opening, body), Fence)
  {
    var s := Fenced(opening, body);
    assert s == opening + ("\n" + body + "\n" + Fence);
    assert s[..3] == opening[..3];
    assert s[|s| - 1] == '`';
    BacktickedTrimmed(s);
  }

  /** On trimmed text that opens with a fence, stripping drops the outer lines. */
  lemma StripTrimmedFence(t: string)
    requires Trim(t) == t && StartsWith(t, Fence)
    ensures StripFence(t) == Join("\n", Inner(Split(t, '\n')))
  {
  }

  /** A body wrapped in a fence comes back out unchanged. */
  lemma StripFenceUnwraps(opening: string, body: string)
    requires StartsWith(opening, Fence) && '\n' !in opening
    ensures StripFence(Fenced(opening, body)) == body
  {
    var s := Fenced(opening, body);
    assert StripFence(s) == Join("\n", Inner(Split(s, '\n'))) by {
      FencedFrame(opening, body);
      StripTrimmedFence(s);
    }
    assert Inner(Split(s, '\n')) == Split(body, '\n') by {
      FencedLines(opening, body);
      var lines := [opening] + Split(body, '\n') + [Fence];
      assert Inner(lines) == Split(body, '\n');
    }
    JoinSplit(body, '\n');
  }

  /** A created skill is accepted when it is a mapping that has a `name`. */
  function Accept(doc: Yaml): (r: Option<Config>)
    ensures r.Some? <==> doc.Mapping? && doc.config.name.Some?
    ensures r.Some? ==> r.value == doc.config && r.value.name.Some?
  {
    if doc.Mapping? && doc.config.name.Some? then Some(doc.config) else None
  }

  /** The definition a reply yields, if it is acceptable. */
  function Accepted(reply: string, parse: Parser): (r: Option<Config>)
    ensures r.Some? ==> r.value.name.Some?
  {
    Accept(parse(StripFence(reply)))
  }

  /** A fenced reply is judged by its body alone: the fence lines never reach the parser. */
  lemma AcceptedFenced(opening: string, body: string, parse: Parser)
    requires StartsWith(opening, Fence) && '\n' !in opening
    ensures Accepted(Fenced(opening, body), parse) == Accept(parse(body))
  {
    StripFenceUnwraps(opening, body);
  }

  /** A reply without a fence is parsed after trimming only. */
  lemma AcceptedUnfenced(reply: string, parse: Parser)
    requires !StartsWith(Trim(reply), Fence)
    ensures Accepted(reply, parse) == Accept(parse(Trim(reply)))
  {
  }

  /** The request a modification sends: the current definition as YAML and
      the requested change. */
  function ModifyPrompt(currentYaml: string, modification: string): (r: string)
    ensures StartsWith(r, "Here is the current skill configuration:\n\n" + currentYaml)
    ensures Contains(r, "Modify it according to this request: " + modification)
  {
    var head := "Here is the current skill configuration:\n\n" + currentYaml + "\n\n";
    var ask := "Modify it according to this request: " + modification;
    var r := head + ask + "\n\n" + "Respond with ONLY the complete updated YAML.";
    assert r[..|head + ask|] == head + ask;
    assert r[|head|..|head| + |ask|] == ask;
    assert OccursAt(r, ask, |head|);
    r
  }

  /** Both requests go to the cloud provider unless a global override says otherwise. */
  lemma AsksCloud(router: LlmRouter, content: string)
    requires !router.Overridden()
    ensures router.SelectProvider(Some(CloudOnly), [Turn(User, content)]) == "cloud"
  {
    assert !CloudOnly.IsEmpty();
    assert [Turn(User, content)][..0] == [];
    assert CountUserTurns([Turn(User, content)]) == 1;
  }

  class SkillCreator {
    const router: LlmRouter
    const loader: SkillLoader
    const parse: Parser
    const dump: Dumper

    constructor (router: LlmRouter, loader: SkillLoader, parse: Parser, dump: Dumper)
      ensures this.router == router && this.loader == loader && this.parse == parse && this.dump == dump
    {
      this.router := router;
      this.loader := loader;
      this.parse := parse;
      this.dump := dump;
    }

    /** Unwrap, parse and check a reply; save and return the definition it
        yields, or return `None` and save nothing. */
    method SaveReply(reply: string) returns (r: Option<Config>)
      requires loader.Valid()
      modifies loader
      ensures loader.Valid()
      ensures r == Accepted(reply, parse)
      ensures r.None? ==> loader.order == old(loader.order) && loader.skills == old(loader.skills)
      ensures r.Some? ==> (loader.order, loader.skills) == Insert(old(loader.order), old(loader.skills), r.value)
    {
      var text := StripFence(reply);
      var doc := parse(text);
      r := Accept(doc);
      if r.Some? {
        var _ := loader.SaveSkill(r.value);
      }
    }

    /** `create_from_description`: ask the cloud provider for a definition
        and save what it returns if acceptable. A provider failure raises. */
    method CreateFromDescription(description: string, backends: Backends) returns (r: Result<Option<Config>>)
      requires loader.Valid()
      modifies loader
      ensures loader.Valid()
      ensures
        var answer := router.Answer(Some(CloudOnly), [Turn(User, description)], backends);
        && (answer.Err? ==> r == Err(BackendFailed))
        && (answer.Ok? ==> r == Ok(Accepted(answer.value.text, parse)))
        && (r.Ok? && r.value.Some? ==>
              (loader.order, loader.skills) == Insert(old(loader.order), old(loader.skills), r.value.value))
        && (!(r.Ok? && r.value.Some?) ==>
              loader.order == old(loader.order) && loader.skills == old(loader.skills))
    {
      var reply := router.GetResponse([Turn(User, description)], Some(CloudOnly), backends);
      if reply.Err? {
        return Err(BackendFailed);
      }
      var saved := SaveReply(reply.value.text);
      r := Ok(saved);
    }

    /** `modify_skill`: for a known skill, send its current YAML and the
        requested change to the cloud provider and save the acceptable reply,
        under whatever name the reply gives. An unknown skill returns `None`
        without asking. */
    method ModifySkill(name: string, modification: string, backends: Backends)
      returns (r: Result<Option<Config>>, asked: Option<string>)
      requires loader.Valid()
      modifies loader
      ensures loader.Valid()
      ensures name !in old(loader.skills) ==> r == Ok(None) && asked.None?
      ensures name in old(loader.skills) ==>
        var prompt := ModifyPrompt(dump(old(loader.skills[name])), modification);
        var answer := router.Answer(Some(CloudOnly), [Turn(User, prompt)], backends);
        && asked == Some(prompt)
        && (answer.Err? ==> r == Err(BackendFailed))
        && (answer.Ok? ==> r == Ok(Accepted(answer.value.text, parse)))
      ensures r.Ok? && r.value.Some? ==>
                (loader.order, loader.skills) == Insert(old(loader.order), old(loader.skills), r.value.value)
      ensures !(r.Ok? && r.value.Some?) ==>
                loader.order == old(loader.order) && loader.skills == old(loader.skills)
    {
      var skill := loader.GetSkill(name);
      if skill.None? {
        return Ok(None), None;
      }
      var prompt := ModifyPrompt(dump(skill.value), modification);
      asked := Some(prompt);
      var reply := router.GetResponse([Turn(User, prompt)], Some(CloudOnly), backends);
      if reply.Err? {
        return Err(BackendFailed), asked;
      }
      var saved := SaveReply(reply.value.text);
      r := Ok(saved);
    }
  }

  /** A modification reply that renames the skill adds a new entry and
      leaves the old one in place. */
  lemma RenameKeepsOriginal(order: seq<string>, skills: map<string, Config>, name: string, updated: Config)
    requires WellFormed(order, skills) && name in skills
    requires updated.name.Some? && updated.name.value != name
    ensures name in Insert(order, skills, updated).1
    ensures Insert(order, skills, updated).1[name] == skills[name]
    ensures updated.name.value in Insert(order, skills, updated).1
  {
  }
}
