/** The scheduled-skill job registry (agent/scheduler.py). The APScheduler
    instance is represented by its job table: job id to the skill it fires
    and the cron trigger it fires on. Timers, the SQLite job store and the
    meaning of each cron field are not modelled; which field values the
    cron library accepts is a parameter. */
module Scheduler {
  import opened Base
  import opened Text
  import opened SkillConfig
  import opened Loader

  /** The five positions of a cron expression. */
  datatype CronField = Minute | Hour | Day | Month | DayOfWeek

  /** Whether the cron library accepts a value in a position. */
  type FieldRule = (CronField, string) -> bool

  /** A parsed cron trigger. */
  datatype Cron = Cron(minute: string, hour: string, day: string, month: string, dayOfWeek: string)

  /** One scheduled job: the skill it fires and when. */
  datatype Job = Job(skillName: string, trigger: Cron)

  /** The coroutine registered with `set_trigger_callback`, by identity. */
  datatype Callback = Callback(id: nat)

  /** What one firing does. */
  datatype Firing = NotFound | NoCallback | Invoked(callback: Callback, skill: Config)

  /** The job id of a skill. */
  function JobId(name: string): (id: string)
    ensures StartsWith(id, "skill-") && id[6..] == name
  {
    "skill-" + name
  }

  /** Different skills never share a job. */
  lemma JobIdInjective(a: string, b: string)
    requires JobId(a) == JobId(b)
    ensures a == b
  {
    assert a == JobId(a)[6..];
  }

  /** The whitespace-separated fields of an expression, as `strip().split()` gives them. */
  function CronFields(expr: string): seq<string> {
    Words(Trim(expr))
  }

  /** `_parse_cron`: exactly five fields, each accepted in its position. */
  function ParseCron(expr: string, accepts: FieldRule): (r: Option<Cron>)
    ensures r.Some? <==>
              var f := CronFields(expr);
              |f| == 5 && accepts(Minute, f[0]) && accepts(Hour, f[1]) && accepts(Day, f[2])
              && accepts(Month, f[3]) && accepts(DayOfWeek, f[4])
    ensures r.Some? ==> [r.value.minute, r.value.hour, r.value.day, r.value.month, r.value.dayOfWeek] == CronFields(expr)
  {
    var f := CronFields(expr);
    if |f| != 5 then None
    else if accepts(Minute, f[0]) && accepts(Hour, f[1]) && accepts(Day, f[2])
            && accepts(Month, f[3]) && accepts(DayOfWeek, f[4]) then
      Some(Cron(f[0], f[1], f[2], f[3], f[4]))
    else None
  }

  /** The expression a trigger is written as: its fields separated by single spaces. */
  function CronText(c: Cron): string {
    Join(" ", [c.minute, c.hour, c.day, c.month, c.dayOfWeek])
  }

  /** A field as the parser produces it: non-empty, without whitespace. */
  predicate IsWord(w: string) {
    |w| > 0 && forall j :: 0 <= j < |w| ==> !IsSpace(w[j])
  }

  /** The run of non-space characters starting at a word ends where the word does. */
  lemma TokenEndAfterWord(w: string, rest: string)
    requires IsWord(w) && (rest == [] || IsSpace(rest[0]))
    ensures TokenEnd(w + rest, 0) == |w|
  {
    var s := w + rest;
    var k := TokenEnd(s, 0);
    assert forall j :: 0 <= j < |w| ==> s[j] == w[j];
    assert |w| < |s| ==> s[|w|] == rest[0];
  }

  /** Splitting words joined by single spaces gives the words back. */
  lemma {:induction false} WordsOfJoin(ws: seq<string>)
    requires forall k :: 0 <= k < |ws| ==> IsWord(ws[k])
    ensures Words(Join(" ", ws)) == ws
    decreases |ws|
  {
    if |ws| == 1 {
      TokenEndAfterWord(ws[0], []);
      assert ws[0][|ws[0]|..] == [];
      assert ws[0][..|ws[0]|] == ws[0];
    } else if |ws| > 1 {
      var tail := Join(" ", ws[1..]);
      var s := ws[0] + " " + tail;
      TokenEndAfterWord(ws[0], " " + tail);
      assert s == ws[0] + (" " + tail);
      assert s[..|ws[0]|] == ws[0];
      assert s[|ws[0]|..] == " " + tail;
      assert (" " + tail)[1..] == tail;
      WordsOfJoin(ws[1..]);
      assert ws == [ws[0]] + ws[1..];
    }
  }

  /** Parsing a trigger's own text gives it back. */
  lemma ParseCronText(c: Cron, accepts: FieldRule)
    requires IsWord(c.minute) && IsWord(c.hour) && IsWord(c.day) && IsWord(c.month) && IsWord(c.dayOfWeek)
    requires accepts(Minute, c.minute) && accepts(Hour, c.hour) && accepts(Day, c.day)
             && accepts(Month, c.month) && accepts(DayOfWeek, c.dayOfWeek)
    ensures ParseCron(CronText(c), accepts) == Some(c)
  {
    var ws := [c.minute, c.hour, c.day, c.month, c.dayOfWeek];
    var t := CronText(c);
    JoinStartsWithFirst(" ", ws);
    JoinEndsWithLast(" ", ws);
    TrimUnchanged(t);
    WordsOfJoin(ws);
  }

  /** The trigger a definition would be scheduled with: a non-empty
      `schedule` that parses. */
  function TriggerOf(c: Config, accepts: FieldRule): Option<Cron> {
    if c.schedule.None? || c.schedule.value == "" then None
    else ParseCron(c.schedule.value, accepts)
  }

  /** The job table `register_skills` builds from the scheduled skills, in order. */
  function Registered(cs: seq<Config>, accepts: FieldRule): map<string, Job>
    requires forall i :: 0 <= i < |cs| ==> cs[i].name.Some?
    decreases |cs|
  {
    if |cs| == 0 then map[]
    else
      var jobs := Registered(cs[..|cs| - 1], accepts);
      var c := cs[|cs| - 1];
      match TriggerOf(c, accepts)
      case None => jobs
      case Some(t) => jobs[JobId(c.name.value) := Job(c.name.value, t)]
  }

  /** One more skill extends the table by its job, if it has a trigger. */
  lemma RegisteredStep(cs: seq<Config>, i: nat, accepts: FieldRule)
    requires i < |cs| && forall k :: 0 <= k < |cs| ==> cs[k].name.Some?
    ensures Registered(cs[..i + 1], accepts) ==
              if TriggerOf(cs[i], accepts).None? then Registered(cs[..i], accepts)
              else Registered(cs[..i], accepts)[JobId(cs[i].name.value) := Job(cs[i].name.value, TriggerOf(cs[i], accepts).value)]
  {
    assert cs[..i + 1][..i] == cs[..i];
  }

  /** Every job comes from one of the skills, fires it on its own trigger,
      and every skill with a usable trigger has its job. */
  lemma {:induction false} RegisteredJobs(cs: seq<Config>, accepts: FieldRule)
    requires forall i :: 0 <= i < |cs| ==> cs[i].name.Some?
    ensures forall id :: id in Registered(cs, accepts) ==>
              exists i :: 0 <= i < |cs| && TriggerOf(cs[i], accepts).Some? && id == JobId(cs[i].name.value)
                          && Registered(cs, accepts)[id] == Job(cs[i].name.value, TriggerOf(cs[i], accepts).value)
    ensures forall i :: 0 <= i < |cs| && TriggerOf(cs[i], accepts).Some? ==>
              JobId(cs[i].name.value) in Registered(cs, accepts)
    decreases |cs|
  {
    if |cs| > 0 {
      var init := cs[..|cs| - 1];
      RegisteredJobs(init, accepts);
      forall id | id in Registered(cs, accepts)
        ensures exists i :: 0 <= i < |cs| && TriggerOf(cs[i], accepts).Some? && id == JobId(cs[i].name.value)
                            && Registered(cs, accepts)[id] == Job(cs[i].name.value, TriggerOf(cs[i], accepts).value)
      {
        var c := cs[|cs| - 1];
        if TriggerOf(c, accepts).Some? && id == JobId(c.name.value) {
        } else {
          assert id in Registered(init, accepts) && Registered(cs, accepts)[id] == Registered(init, accepts)[id];
          var i :| 0 <= i < |init| && TriggerOf(init[i], accepts).Some? && id == JobId(init[i].name.value)
                   && Registered(init, accepts)[id] == Job(init[i].name.value, TriggerOf(init[i], accepts).value);
          assert cs[i] == init[i];
        }
      }
      forall i | 0 <= i < |cs| && TriggerOf(cs[i], accepts).Some?
        ensures JobId(cs[i].name.value) in Registered(cs, accepts)
      {
        if i < |init| {
          assert cs[i] == init[i];
        }
      }
    }
  }

  class SkillScheduler {
    const loader: SkillLoader
    /** Which cron field values the trigger library accepts. */
    const accepts: FieldRule
    /** The scheduler's job table. */
    var jobs: map<string, Job>
    var callback: Option<Callback>

    constructor (loader: SkillLoader, accepts: FieldRule)
      ensures this.loader == loader && this.accepts == accepts
      ensures jobs == map[] && callback.None?
    {
      this.loader := loader;
      this.accepts := accepts;
      jobs := map[];
      callback := None;
    }

    /** `set_trigger_callback`. */
    method SetTriggerCallback(cb: Callback)
      modifies this
      ensures callback == Some(cb) && jobs == old(jobs)
    {
      callback := Some(cb);
    }

    /** `register_skills`: drop every job, then add one per scheduled skill
        whose schedule is present, non-empty and parses. */
    method RegisterSkills()
      requires loader.Valid()
      modifies this
      ensures callback == old(callback)
      ensures jobs == Registered(loader.GetScheduledSkills(), accepts)
    {
      jobs := map[];
      var skills := loader.GetScheduledSkills();
      for i := 0 to |skills|
        invariant jobs == Registered(skills[..i], accepts)
        invariant callback == old(callback)
      {
        RegisteredStep(skills, i, accepts);
        var skill := skills[i];
        var schedule := skill.schedule;
        if schedule.None? || schedule.value == "" {
          continue;
        }
        var trigger := ParseCron(schedule.value, accepts);
        if trigger.None? {
          continue;
        }
        jobs := jobs[JobId(skill.name.value) := Job(skill.name.value, trigger.value)];
      }
      assert skills[..|skills|] == skills;
    }

    /** `add_skill_job`: add or replace one skill's job. A definition without
        a non-empty schedule, not triggered by "scheduled", or whose cron does
        not parse changes nothing; a definition without a name raises once
        its trigger has parsed. */
    method AddSkillJob(cfg: Config) returns (r: Result<bool>)
      modifies this
      ensures callback == old(callback)
      ensures TriggerOf(cfg, accepts).None? || cfg.trigger != Some("scheduled") ==>
                r == Ok(false) && jobs == old(jobs)
      ensures TriggerOf(cfg, accepts).Some? && cfg.trigger == Some("scheduled") && cfg.name.None? ==>
                r == Err(MissingKey("name")) && jobs == old(jobs)
      ensures TriggerOf(cfg, accepts).Some? && cfg.trigger == Some("scheduled") && cfg.name.Some? ==>
                r == Ok(true)
                && jobs == old(jobs)[JobId(cfg.name.value) := Job(cfg.name.value, TriggerOf(cfg, accepts).value)]
    {
      var schedule := cfg.schedule;
      if schedule.None? || schedule.value == "" || cfg.trigger != Some("scheduled") {
        return Ok(false);
      }
      var trigger := ParseCron(schedule.value, accepts);
      if trigger.None? {
        return Ok(false);
      }
      if cfg.name.None? {
        return Err(MissingKey("name"));
      }
      jobs := jobs[JobId(cfg.name.value) := Job(cfg.name.value, trigger.value)];
      r := Ok(true);
    }

    /** `_fire_skill`: look the skill up when the job fires, so the callback
        gets the registry's current definition; an unknown name or a missing
        callback does nothing. */
    method FireSkill(name: string) returns (r: Firing)
      requires loader.Valid()
      ensures name !in loader.skills <==> r == NotFound
      ensures name in loader.skills && callback.None? <==> r == NoCallback
      ensures r.Invoked? <==> name in loader.skills && callback.Some?
      ensures r.Invoked? ==> r.callback == callback.value && r.skill == loader.skills[name]
                             && r.skill.name == Some(name)
    {
      var skill := loader.GetSkill(name);
      if skill.None? {
        return NotFound;
      }
      if callback.None? {
        return NoCallback;
      }
      r := Invoked(callback.value, skill.value);
    }
  }

  /** Adding a job touches no other skill's job. */
  lemma AddKeepsOthers(jobs: map<string, Job>, name: string, job: Job, other: string)
    requires other != name
    ensures JobId(other) in jobs[JobId(name) := job] <==> JobId(other) in jobs
    ensures JobId(other) in jobs ==> jobs[JobId(name) := job][JobId(other)] == jobs[JobId(other)]
  {
    if JobId(other) == JobId(name) {
      JobIdInjective(other, name);
    }
  }
}
