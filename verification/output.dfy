/** The output hand-off (skills/output.py): a finished conversation rendered
    as plain text or markdown, and the path template it would be saved under.
    Writing the file is not part of the model; the clock and the home
    directory are parameters. */
module Output {
  import opened Base
  import opened Text
  import opened SkillConfig
  import opened State

  /** The moment `datetime.now()` and `isocalendar()` report. */
  datatype Now = Now(year: nat, month: nat, day: nat, hour: nat, minute: nat, isoYear: nat, isoWeek: nat)

  /** `{n:02d}`. */
  function TwoDigits(n: nat): string {
    PadLeft(NatToString(n), 2, '0')
  }

  /** `strftime("%Y-%m-%d")`. */
  function DateString(now: Now): string {
    NatToString(now.year) + "-" + TwoDigits(now.month) + "-" + TwoDigits(now.day)
  }

  /** `f"{year}-W{week:02d}"` from the ISO calendar. */
  function WeekString(now: Now): string {
    NatToString(now.isoYear) + "-W" + TwoDigits(now.isoWeek)
  }

  /** The markdown title line, stamped `%Y-%m-%d %H:%M`. */
  function Header(now: Now): string {
    "# Session - " + DateString(now) + " " + TwoDigits(now.hour) + ":" + TwoDigits(now.minute) + "\n"
  }

  /** The speaker label: assistant messages are the bot, every other role is the user. */
  function Label(role: Role, bot: string, user: string): string {
    if role == Assistant then bot else user
  }

  function Entry(t: Turn, bot: string, user: string, end: string): string {
    Label(t.role, bot, user) + ": " + t.content + end
  }

  /** The messages that are shown: every one that is not a system message, in order. */
  function NonSystem(ms: seq<Turn>): (r: seq<Turn>)
    ensures forall t :: t in r <==> t in ms && t.role != System
    ensures |r| <= |ms|
    decreases |ms|
  {
    if |ms| == 0 then []
    else
      var init := NonSystem(ms[..|ms| - 1]);
      assert forall t :: t in ms <==> t in ms[..|ms| - 1] || t == ms[|ms| - 1];
      if ms[|ms| - 1].role == System then init else init + [ms[|ms| - 1]]
  }

  /** Filtering distributes over concatenation, so the kept messages keep
      their relative order and their repeats. */
  lemma {:induction false} NonSystemAppend(a: seq<Turn>, b: seq<Turn>)
    ensures NonSystem(a + b) == NonSystem(a) + NonSystem(b)
    decreases |b|
  {
    if |b| == 0 {
      assert a + b == a;
    } else {
      var init := b[..|b| - 1];
      assert (a + b)[..|a + b| - 1] == a + init;
      assert (a + b)[|a + b| - 1] == b[|b| - 1];
      NonSystemAppend(a, init);
    }
  }

  /** A single message is kept exactly when it is not a system message. */
  lemma NonSystemSingle(t: Turn)
    ensures NonSystem([t]) == if t.role == System then [] else [t]
  {
    assert [t][..0] == [];
  }

  /** One labelled entry per message, skipping system messages (the loop body
      of `_to_text` and `_to_markdown`). */
  function Entries(ms: seq<Turn>, bot: string, user: string, end: string): seq<string>
    decreases |ms|
  {
    if |ms| == 0 then []
    else
      var last := ms[|ms| - 1];
      Entries(ms[..|ms| - 1], bot, user, end) + if last.role == System then [] else [Entry(last, bot, user, end)]
  }

  /** The entries are exactly the shown messages, labelled, in order. */
  lemma {:induction false} EntriesAreShownMessages(ms: seq<Turn>, bot: string, user: string, end: string)
    ensures |Entries(ms, bot, user, end)| == |NonSystem(ms)|
    ensures forall i :: 0 <= i < |NonSystem(ms)| ==>
              Entries(ms, bot, user, end)[i] == Entry(NonSystem(ms)[i], bot, user, end)
    decreases |ms|
  {
    if |ms| > 0 {
      EntriesAreShownMessages(ms[..|ms| - 1], bot, user, end);
    }
  }

  /** `_to_text`: one `Label: content` line per shown message, separated by blank lines. */
  method ToText(messages: seq<Turn>) returns (r: string)
    ensures r == Join("\n\n", Entries(messages, "Bot", "User", ""))
  {
    var lines: seq<string> := [];
    for i := 0 to |messages|
      invariant lines == Entries(messages[..i], "Bot", "User", "")
    {
      assert messages[..i + 1][..i] == messages[..i];
      if messages[i].role == System {
        continue;
      }
      var role := if messages[i].role == Assistant then "Bot" else "User";
      assert Entry(messages[i], "Bot", "User", "") == role + ": " + messages[i].content;
      lines := lines + [role + ": " + messages[i].content];
    }
    assert messages[..|messages|] == messages;
    r := Join("\n\n", lines);
  }

  /** `_to_markdown`: a dated title, then one bold-labelled entry per shown message. */
  method ToMarkdown(messages: seq<Turn>, now: Now) returns (r: string)
    ensures r == Join("\n", [Header(now)] + Entries(messages, "**Bot**", "**User**", "\n"))
  {
    var lines: seq<string> := [Header(now)];
    for i := 0 to |messages|
      invariant lines == [Header(now)] + Entries(messages[..i], "**Bot**", "**User**", "\n")
    {
      assert messages[..i + 1][..i] == messages[..i];
      if messages[i].role == System {
        continue;
      }
      var roleLabel := if messages[i].role == Assistant then "**Bot**" else "**User**";
      lines := lines + [roleLabel + ": " + messages[i].content + "\n"];
    }
    assert messages[..|messages|] == messages;
    r := Join("\n", lines);
  }

  /** The rendering `_format_output` chooses: markdown for "markdown", text for anything else. */
  function Rendered(messages: seq<Turn>, fmt: string, now: Now): string {
    if fmt == "markdown" then Join("\n", [Header(now)] + Entries(messages, "**Bot**", "**User**", "\n"))
    else Join("\n\n", Entries(messages, "Bot", "User", ""))
  }

  /** `_format_output`. */
  method FormatOutput(messages: seq<Turn>, fmt: string, now: Now) returns (r: string)
    ensures fmt == "markdown" ==> StartsWith(r, Header(now))
    ensures r == Rendered(messages, fmt, now)
  {
    if fmt == "markdown" {
      r := ToMarkdown(messages, now);
      JoinStartsWithFirst("\n", [Header(now)] + Entries(messages, "**Bot**", "**User**", "\n"));
    } else {
      r := ToText(messages);
    }
  }

  /** Every shown message appears, labelled, in either rendering. */
  lemma ShowsEveryMessage(messages: seq<Turn>, fmt: string, now: Now, k: nat)
    requires k < |NonSystem(messages)|
    ensures fmt != "markdown" ==> Contains(Rendered(messages, fmt, now), Entry(NonSystem(messages)[k], "Bot", "User", ""))
    ensures fmt == "markdown" ==> Contains(Rendered(messages, fmt, now), Entry(NonSystem(messages)[k], "**Bot**", "**User**", "\n"))
  {
    EntriesAreShownMessages(messages, "Bot", "User", "");
    EntriesAreShownMessages(messages, "**Bot**", "**User**", "\n");
    if fmt == "markdown" {
      var parts := [Header(now)] + Entries(messages, "**Bot**", "**User**", "\n");
      assert parts[k + 1] == Entry(NonSystem(messages)[k], "**Bot**", "**User**", "\n");
      JoinContainsPart("\n", parts, k + 1);
    } else {
      JoinContainsPart("\n\n", Entries(messages, "Bot", "User", ""), k);
    }
  }

  /** The template with `{date}` and `{week}` filled in. */
  function Templated(template: string, now: Now): string {
    ReplaceAll(ReplaceAll(template, "{date}", DateString(now)), "{week}", WeekString(now))
  }

  /** `Path(...).expanduser()` for the current user's `~`: a leading `~`, alone
      or followed by `/`, stands for the home directory. */
  function ExpandUser(path: string, home: string): (r: string)
    ensures !StartsWith(path, "~") ==> r == path
    ensures StartsWith(path, "~") && (|path| == 1 || path[1] == '/') ==>
              StartsWith(r, home) && EndsWith(r, path[1..])
  {
    if |path| > 0 && path[0] == '~' && (|path| == 1 || path[1] == '/') then home + path[1..] else path
  }

  /** `_resolve_path`. */
  function ResolvePath(template: string, now: Now, home: string): string {
    ExpandUser(Templated(template, now), home)
  }

  /** The characters a filled-in date or week can hold. */
  predicate DateChar(c: char) {
    '0' <= c <= '9' || c == '-' || c == 'W'
  }

  predicate DateChars(s: string) {
    forall j :: 0 <= j < |s| ==> DateChar(s[j])
  }

  lemma TwoDigitsChars(n: nat)
    ensures DateChars(TwoDigits(n))
  {
    var s := NatToString(n);
    var r := TwoDigits(n);
    forall j | 0 <= j < |r| ensures DateChar(r[j]) {
      if j >= |r| - |s| {
        assert r[j] == s[j - (|r| - |s|)];
      }
    }
  }

  lemma DateStringChars(now: Now)
    ensures DateChars(DateString(now)) && DateChars(WeekString(now))
    ensures |DateString(now)| > 0 && |WeekString(now)| > 0
  {
    TwoDigitsChars(now.month);
    TwoDigitsChars(now.day);
    TwoDigitsChars(now.isoWeek);
  }

  /** Text made of date characters shares none with a placeholder. */
  lemma NoPlaceholderChar(s: string, placeholder: string)
    requires DateChars(s) && forall j :: 0 <= j < |placeholder| ==> !DateChar(placeholder[j])
    ensures forall c :: c in s ==> c !in placeholder
  {
    forall c | c in s ensures c !in placeholder {
      var j :| 0 <= j < |s| && s[j] == c;
    }
  }

  /** No placeholder survives templating. */
  lemma NoPlaceholderLeft(template: string, now: Now)
    ensures !Contains(Templated(template, now), "{date}")
    ensures !Contains(Templated(template, now), "{week}")
  {
    var date := DateString(now);
    var week := WeekString(now);
    DateStringChars(now);
    NoPlaceholderChar(date, "{date}");
    NoPlaceholderChar(week, "{date}");
    NoPlaceholderChar(week, "{week}");
    ReplaceRemovesAll(template, "{date}", date);
    var once := ReplaceAll(template, "{date}", date);
    ReplaceKeepsAbsent(once, "{week}", week, "{date}");
    ReplaceRemovesAll(once, "{week}", week);
  }

  /** `handle`'s result: nothing without an output section, the resolved path
      when the section names a file, and the rendered transcript otherwise. */
  method Handle(cfg: Config, messages: seq<Turn>, now: Now, home: string) returns (r: Option<string>)
    ensures cfg.output.None? || cfg.output.value.IsEmpty() ==> r.None?
    ensures cfg.output.Some? && !cfg.output.value.IsEmpty() ==>
      var out := cfg.output.value;
      r == if out.saveTo.Some? && out.saveTo.value != "" then Some(ResolvePath(out.saveTo.value, now, home))
           else Some(Rendered(messages, out.format.GetOr("text"), now))
  {
    if cfg.output.None? || cfg.output.value.IsEmpty() {
      return None;
    }
    var out := cfg.output.value;
    var content := FormatOutput(messages, out.format.GetOr("text"), now);
    if out.saveTo.Some? && out.saveTo.value != "" {
      r := Some(ResolvePath(out.saveTo.value, now, home));
    } else {
      r := Some(content);
    }
  }
}
