/**
 * The monitor's fixed table of event templates: one title, description and
 * colour for each of the five container actions it reports.
 */
module Templates {
  import opened Wrappers

  /** A text with one `{name}` placeholder, held as the parts either side of it. */
  datatype Pattern = Pattern(before: string, after: string) {

    /** `pattern.format(name=name)`: the name is inserted verbatim, never re-parsed. */
    function Format(name: string): (text: string)
      ensures |text| == |before| + |name| + |after|
    {
      before + name + after
    }

    /** The name a formatted text was built from, if it was built from this pattern. */
    function Unformat(text: string): (name: Option<string>)
      ensures name.Some? ==> |name.value| == |text| - |before| - |after|
    {
      if |before| + |after| <= |text|
         && text[..|before|] == before
         && text[|text| - |after|..] == after
      then Some(text[|before|..|text| - |after|])
      else None
    }
  }

  /** Recovering the name from a formatted text gives back that name. */
  lemma UnformatFormat(p: Pattern, name: string)
    ensures p.Unformat(p.Format(name)) == Some(name)
  {
    var text := p.Format(name);
    assert text[..|p.before|] == p.before;
    assert text[|text| - |p.after|..] == p.after;
    assert text[|p.before|..|text| - |p.after|] == name;
  }

  /** A text the pattern recognises is exactly the pattern formatted with the recovered name. */
  lemma FormatUnformat(p: Pattern, text: string)
    requires p.Unformat(text).Some?
    ensures p.Format(p.Unformat(text).value) == text
  {
    var name := p.Unformat(text).value;
    assert text == text[..|p.before|] + text[|p.before|..|text| - |p.after|] + text[|text| - |p.after|..];
  }

  /** Different names give different texts: the substitution loses nothing. */
  lemma FormatInjective(p: Pattern, n: string, m: string)
    requires p.Format(n) == p.Format(m)
    ensures n == m
  {
    UnformatFormat(p, n);
    UnformatFormat(p, m);
  }

  /** An `EventConfig`: title and description patterns and an RGB colour. */
  datatype EventTemplate = EventTemplate(title: Pattern, description: Pattern, color: int)

  /** The actions the table has a template for. */
  const KnownActions: set<string> := {"start", "die", "pause", "unpause", "health_status"}

  const StartTemplate := EventTemplate(
    Pattern("\U{1F7E2} Container Started: ", ""),
    Pattern("Container ", " has started successfully."),
    0x00FF00)
  const DieTemplate := EventTemplate(
    Pattern("\U{1F534} Container Stopped: ", ""),
    Pattern("Container ", " has stopped."),
    0xFF0000)
  const PauseTemplate := EventTemplate(
    Pattern("\U{23F8}\U{FE0F} Container Paused: ", ""),
    Pattern("Container ", " has been paused."),
    0xFFA500)
  const UnpauseTemplate := EventTemplate(
    Pattern("\U{25B6}\U{FE0F} Container Unpaused: ", ""),
    Pattern("Container ", " has been unpaused."),
    0x00FF00)
  const HealthStatusTemplate := EventTemplate(
    Pattern("\U{1F3E5} Health Status: ", ""),
    Pattern("Health status changed for container ", "."),
    0x0000FF)

  /** The `event_configs` table. */
  const EventConfigs: map<string, EventTemplate> := map[
    "start" := StartTemplate,
    "die" := DieTemplate,
    "pause" := PauseTemplate,
    "unpause" := UnpauseTemplate,
    "health_status" := HealthStatusTemplate
  ]

  /**
   * The template for an action, if the table has one (`action in
   * self.event_configs`); every colour fits in 24 bits.
   */
  function TemplateFor(action: string): (t: Option<EventTemplate>)
    ensures t.Some? <==> action in KnownActions
    ensures t.Some? ==> 0 <= t.value.color < 0x1000000
  {
    if action in EventConfigs then Some(EventConfigs[action]) else None
  }

  /** The start template's title for a container called `web`, and its colour. */
  lemma StartExample()
    ensures TemplateFor("start") == Some(StartTemplate)
    ensures StartTemplate.title.Format("web") == "\U{1F7E2} Container Started: web"
    ensures StartTemplate.color == 0x00FF00
  {
    assert "start" != "pause" by {
      assert "start"[0] != "pause"[0];
    }
    assert EventConfigs["start"] == StartTemplate;
  }

  /**
   * The title of a notification tells which action it reports: two known
   * actions whose titles coincide, for any names, are the same action.
   */
  lemma TitleIdentifiesAction(a: string, b: string, n: string, m: string)
    requires a in KnownActions && b in KnownActions
    requires TemplateFor(a).value.title.Format(n) == TemplateFor(b).value.title.Format(m)
    ensures a == b
  {
    var ta, tb := TemplateFor(a).value.title, TemplateFor(b).value.title;
    assert ta.Format(n)[0] == ta.before[0];
    assert tb.Format(m)[0] == tb.before[0];
    if ta.before[0] == '\U{1F7E2}' {
      assert a == "start";
    }
    if ta.before[0] == '\U{23F8}' {
      assert a == "pause";
    }
    if ta.before[0] == '\U{25B6}' {
      assert a == "unpause";
    }
  }
}
