/** The skill registry (skills/loader.py): skill definitions keyed by name,
    in the insertion order of the Python dictionary that holds them. */
module Loader {
  import opened Base
  import opened Text
  import opened SkillConfig

  /** `_load_file`: a definition is accepted only if it is a mapping carrying
      name, description, trigger and context; the first missing key is reported. */
  function LoadFile(doc: Yaml): (r: Result<Config>)
    ensures r.Ok? <==> doc.Mapping? && doc.config.name.Some? && doc.config.description.Some?
                       && doc.config.trigger.Some? && doc.config.context.Some?
    ensures r.Ok? ==> r.value == doc.config
    ensures r.Err? && doc.Mapping? ==> r.error.MissingKey?
  {
    match doc
    case Mapping(cfg) =>
      if cfg.name.None? then Err(MissingKey("name"))
      else if cfg.description.None? then Err(MissingKey("description"))
      else if cfg.trigger.None? then Err(MissingKey("trigger"))
      else if cfg.context.None? then Err(MissingKey("context"))
      else Ok(cfg)
    case _ => Err(Unloadable)
  }

  predicate Distinct(names: seq<string>) {
    forall i, j :: 0 <= i < j < |names| ==> names[i] != names[j]
  }

  /** The registry invariant: the key order lists each key once, and every
      entry is stored under its own name. */
  ghost predicate WellFormed(order: seq<string>, skills: map<string, Config>) {
    Distinct(order)
    && (forall n :: n in skills <==> n in order)
    && (forall n :: n in skills ==> skills[n].name == Some(n))
  }

  /** `skills[cfg["name"]] = cfg` on a Python dict: a new key goes last, an
      existing key keeps its position and gets the new value. */
  function Insert(order: seq<string>, skills: map<string, Config>, cfg: Config)
    : (r: (seq<string>, map<string, Config>))
    requires cfg.name.Some?
    ensures WellFormed(order, skills) ==> WellFormed(r.0, r.1)
    ensures r.1 == skills[cfg.name.value := cfg]
    ensures |r.0| == if cfg.name.value in skills then |order| else |order| + 1
  {
    var n := cfg.name.value;
    if n in skills then (order, skills[n := cfg]) else (order + [n], skills[n := cfg])
  }

  /** The registry `load_all` builds from skill files read in this order. */
  function LoadedFrom(docs: seq<Yaml>): (r: (seq<string>, map<string, Config>))
    ensures WellFormed(r.0, r.1)
    decreases |docs|
  {
    if |docs| == 0 then ([], map[])
    else
      var prev := LoadedFrom(docs[..|docs| - 1]);
      match LoadFile(docs[|docs| - 1])
      case Ok(cfg) => Insert(prev.0, prev.1, cfg)
      case Err(_) => prev
  }

  /** The file defines a loadable skill with this name. */
  predicate DefinesSkill(doc: Yaml, n: string) {
    LoadFile(doc).Ok? && doc.config.name == Some(n)
  }

  /** A file that fails to load leaves the registry as the other files make it. */
  lemma {:induction false} FailingFileSkipped(before: seq<Yaml>, bad: Yaml, after: seq<Yaml>)
    requires LoadFile(bad).Err?
    ensures LoadedFrom(before + [bad] + after) == LoadedFrom(before + after)
    decreases |after|
  {
    if |after| == 0 {
      assert (before + [bad] + after)[..|before| + 1 - 1] == before;
      assert before + after == before;
    } else {
      var last := after[|after| - 1];
      var init := after[..|after| - 1];
      FailingFileSkipped(before, bad, init);
      assert (before + [bad] + after)[..|before + [bad] + after| - 1] == before + [bad] + init;
      assert (before + after)[..|before + after| - 1] == before + init;
    }
  }

  /** The loaded registry holds a name exactly when some file defines it, and
      then the definition from the last such file. */
  lemma {:induction false} LoadedFromEntries(docs: seq<Yaml>, n: string)
    ensures n in LoadedFrom(docs).1 <==> exists i :: 0 <= i < |docs| && DefinesSkill(docs[i], n)
    ensures n in LoadedFrom(docs).1 ==>
      exists i :: 0 <= i < |docs| && DefinesSkill(docs[i], n)
        && LoadedFrom(docs).1[n] == docs[i].config
        && forall j :: i < j < |docs| ==> !DefinesSkill(docs[j], n)
    decreases |docs|
  {
    if |docs| > 0 {
      var init := docs[..|docs| - 1];
      var last := docs[|docs| - 1];
      LoadedFromEntries(init, n);
      assert forall i :: 0 <= i < |init| ==> init[i] == docs[i];
      if DefinesSkill(last, n) {
        assert LoadedFrom(docs).1[n] == last.config;
      } else {
        assert n in LoadedFrom(docs).1 <==> n in LoadedFrom(init).1;
        if n in LoadedFrom(init).1 {
          assert LoadedFrom(docs).1[n] == LoadedFrom(init).1[n];
        }
      }
    }
  }

  /** The entries of a list of skills that satisfy `keep`, in their order. */
  function Filter(cs: seq<Config>, keep: Config -> bool): (r: seq<Config>)
    ensures |r| <= |cs|
    ensures forall c :: c in r <==> c in cs && keep(c)
  {
    if |cs| == 0 then []
    else if keep(cs[0]) then [cs[0]] + Filter(cs[1..], keep)
    else Filter(cs[1..], keep)
  }

  predicate IsScheduled(c: Config) {
    Is(c.trigger, "scheduled")
  }

  predicate IsMentionSkillFor(c: Config, channel: string) {
    Is(c.channel, channel) && Is(c.trigger, "mention")
  }

  /** The character a name character becomes in a file name. */
  function Hyphenated(c: char): char {
    if c == ' ' then '-' else c
  }

  /** The file a skill is saved to: spaces in the name become hyphens. */
  function SkillFileName(name: string): (r: string)
    ensures |r| == |name| + 5 && EndsWith(r, ".yaml")
    ensures forall i :: 0 <= i < |name| ==> r[i] == Hyphenated(name[i])
    ensures ' ' !in r
  {
    var stem := ReplaceAll(name, " ", "-");
    SpacesHyphenated(name);
    stem + ".yaml"
  }

  /** Replacing " " by "-" maps each character on its own and keeps the length. */
  lemma {:induction false} SpacesHyphenated(s: string)
    ensures |ReplaceAll(s, " ", "-")| == |s|
    ensures forall i :: 0 <= i < |s| ==> ReplaceAll(s, " ", "-")[i] == Hyphenated(s[i])
    decreases |s|
  {
    if |s| > 0 {
      assert s[..1] == [s[0]];
      SpacesHyphenated(s[1..]);
      assert ReplaceAll(s, " ", "-") == [Hyphenated(s[0])] + ReplaceAll(s[1..], " ", "-");
    }
  }

  class SkillLoader {
    /** The key order of the underlying dictionary. */
    var order: seq<string>
    var skills: map<string, Config>

    ghost predicate Valid()
      reads this
    {
      WellFormed(order, skills)
    }

    constructor ()
      ensures Valid() && order == [] && skills == map[]
    {
      order, skills := [], map[];
    }

    /** `load_all`: forget every entry, then register each file that loads, in
        the order the directory listing gives. */
    method LoadAll(docs: seq<Yaml>) returns (loaded: map<string, Config>)
      modifies this
      ensures Valid()
      ensures (order, skills) == LoadedFrom(docs)
      ensures loaded == skills
    {
      order, skills := [], map[];
      for i := 0 to |docs|
        invariant (order, skills) == LoadedFrom(docs[..i])
      {
        assert docs[..i + 1][..i] == docs[..i];
        match LoadFile(docs[i])
        case Ok(cfg) =>
          var n := cfg.name.value;
          if n !in skills {
            order := order + [n];
          }
          skills := skills[n := cfg];
        case Err(_) =>
      }
      assert docs[..|docs|] == docs;
      loaded := skills;
    }

    function GetSkill(name: string): (r: Option<Config>)
      requires Valid()
      reads this
      ensures r.Some? <==> name in skills
      ensures r.Some? ==> r.value.name == Some(name) && r.value == skills[name]
    {
      if name in skills then Some(skills[name]) else None
    }

    /** The values of the dictionary, in key order. */
    function GetAllSkills(): (r: seq<Config>)
      requires Valid()
      reads this
      ensures |r| == |order|
      ensures forall i :: 0 <= i < |r| ==> r[i] == skills[order[i]]
      ensures forall c :: c in r <==> c in skills.Values
    {
      var r := seq(|order|, i requires 0 <= i < |order| reads this requires Valid() => skills[order[i]]);
      assert forall c :: c in skills.Values ==> c in r by {
        forall c | c in skills.Values ensures c in r {
          var n :| n in skills && skills[n] == c;
          var i :| 0 <= i < |order| && order[i] == n;
          assert r[i] == c;
        }
      }
      r
    }

    /** `get_scheduled_skills`: exactly the entries whose trigger is "scheduled". */
    function GetScheduledSkills(): (r: seq<Config>)
      requires Valid()
      reads this
      ensures forall c :: c in r <==> c in skills.Values && c.trigger == Some("scheduled")
      ensures forall i :: 0 <= i < |r| ==> r[i].name.Some?
    {
      Filter(GetAllSkills(), IsScheduled)
    }

    /** `get_channel_skills`: exactly the mention-triggered entries bound to this
        channel reference (compared as plain strings). */
    function GetChannelSkills(channel: string): (r: seq<Config>)
      requires Valid()
      reads this
      ensures forall c :: c in r <==> c in skills.Values && c.channel == Some(channel)
                                       && c.trigger == Some("mention")
      ensures forall i :: 0 <= i < |r| ==> r[i].name.Some?
    {
      Filter(GetAllSkills(), c => IsMentionSkillFor(c, channel))
    }

    /** `save_skill`: store the definition under its name (overwriting in place)
        and return the file name it is written to; the write itself is not modelled. */
    method SaveSkill(cfg: Config) returns (fileName: string)
      requires Valid() && cfg.name.Some?
      modifies this
      ensures Valid()
      ensures (order, skills) == Insert(old(order), old(skills), cfg)
      ensures fileName == SkillFileName(cfg.name.value)
    {
      fileName := SkillFileName(cfg.name.value);
      var n := cfg.name.value;
      if n !in skills {
        order := order + [n];
      }
      skills := skills[n := cfg];
    }
  }

  /** After saving, looking the name up gives the saved definition and every
      other name keeps its entry. */
  lemma SaveThenGet(order: seq<string>, skills: map<string, Config>, cfg: Config, other: string)
    requires WellFormed(order, skills) && cfg.name.Some?
    ensures Insert(order, skills, cfg).1[cfg.name.value] == cfg
    ensures other != cfg.name.value ==>
      (other in Insert(order, skills, cfg).1 <==> other in skills)
      && (other in skills ==> Insert(order, skills, cfg).1[other] == skills[other])
  {
  }
}
