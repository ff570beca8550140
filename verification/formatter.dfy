/**
 * The notification formatter: the Discord embed fields and the title,
 * description and colour of the notification for an accepted event.
 */
module Formatter {
  import opened Wrappers
  import opened Filter
  import opened Templates
  import opened Enricher

  /** One embed field: `{"name": ..., "value": ..., "inline": ...}`. */
  datatype Field = Field(name: string, value: string, inline: bool)

  /** What is handed to the delivery client for one event. */
  datatype Notification = Notification(title: string, description: string, color: int, fields: seq<Field>)

  /** The value of the first field called `name`, as a reader of the embed finds it. */
  function ValueOf(fields: seq<Field>, name: string): (v: Option<string>)
    ensures v.Some? <==> exists i :: 0 <= i < |fields| && fields[i].name == name
  {
    if fields == [] then None
    else if fields[0].name == name then Some(fields[0].value)
    else ValueOf(fields[1..], name)
  }

  /** A field whose name no earlier field has is the one a reader finds by that name. */
  lemma {:induction false} ValueOfAt(fields: seq<Field>, i: nat)
    requires i < |fields|
    requires forall j :: 0 <= j < i ==> fields[j].name != fields[i].name
    ensures ValueOf(fields, fields[i].name) == Some(fields[i].value)
  {
    if i > 0 {
      ValueOfAt(fields[1..], i - 1);
    }
  }

  /** The exit code from the event attributes, `"Unknown"` when absent. */
  function ExitCode(e: Event): (code: string)
    ensures "exitCode" in e.attributes ==> code == e.attributes["exitCode"]
    ensures "exitCode" !in e.attributes ==> code == "Unknown"
  {
    Get(e.attributes, "exitCode").GetOr("Unknown")
  }

  /**
   * The Discord timestamp markup for a point in time given as decimal Unix
   * seconds: the time, verbatim, between `<t:` and the full-date style `:F>`.
   */
  function TimestampMarkup(clock: string): (m: string)
    ensures |m| == |clock| + 6
    ensures m[..3] == "<t:" && m[3..|m| - 3] == clock && m[|m| - 3..] == ":F>"
  {
    "<t:" + clock + ":F>"
  }

  /** The embed field names, in the order the embed shows them. */
  const FieldNames: seq<string> := ["Event", "Image", "Status", "Health", "Platform", "Timestamp", "Exit Code"]

  /**
   * The embed fields for an event: Event, Image, Status, Health and
   * Platform side by side, a full-width Timestamp, and for `die` one more
   * full-width Exit Code; every field name occurs once.
   */
  function Fields(action: string, status: ContainerStatus, clock: string, exitCode: string): (fields: seq<Field>)
    ensures |fields| == if action == "die" then 7 else 6
    ensures forall i :: 0 <= i < |fields| ==> fields[i].name == FieldNames[i]
    ensures forall i :: 0 <= i < |fields| ==> (fields[i].inline <==> i < 5)
    ensures forall i, j :: 0 <= i < j < |fields| ==> fields[i].name != fields[j].name
  {
    [ Field("Event", action, true),
      Field("Image", status.image, true),
      Field("Status", status.status, true),
      Field("Health", status.health, true),
      Field("Platform", status.platform, true),
      Field("Timestamp", TimestampMarkup(clock), false) ]
    + (if action == "die" then [Field("Exit Code", exitCode, false)] else [])
  }

  /** Builds the field list as the monitor does: the six fixed fields, then the exit code for `die`. */
  method BuildFields(action: string, status: ContainerStatus, clock: string, exitCode: string) returns (fields: seq<Field>)
    ensures fields == Fields(action, status, clock, exitCode)
  {
    fields := [
      Field("Event", action, true),
      Field("Image", status.image, true),
      Field("Status", status.status, true),
      Field("Health", status.health, true),
      Field("Platform", status.platform, true),
      Field("Timestamp", TimestampMarkup(clock), false)
    ];
    if action == "die" {
      fields := fields + [Field("Exit Code", exitCode, false)];
    }
  }

  /**
   * Read by name, the fields carry the action, the enriched status, the
   * send time, and the exit code exactly when the action is `die`.
   */
  lemma FieldsByName(action: string, status: ContainerStatus, clock: string, exitCode: string)
    ensures ValueOf(Fields(action, status, clock, exitCode), "Event") == Some(action)
    ensures ValueOf(Fields(action, status, clock, exitCode), "Image") == Some(status.image)
    ensures ValueOf(Fields(action, status, clock, exitCode), "Status") == Some(status.status)
    ensures ValueOf(Fields(action, status, clock, exitCode), "Health") == Some(status.health)
    ensures ValueOf(Fields(action, status, clock, exitCode), "Platform") == Some(status.platform)
    ensures ValueOf(Fields(action, status, clock, exitCode), "Timestamp") == Some(TimestampMarkup(clock))
    ensures ValueOf(Fields(action, status, clock, exitCode), "Exit Code") ==
              if action == "die" then Some(exitCode) else None
  {
    var fs := Fields(action, status, clock, exitCode);
    ValueOfAt(fs, 0);
    ValueOfAt(fs, 1);
    ValueOfAt(fs, 2);
    ValueOfAt(fs, 3);
    ValueOfAt(fs, 4);
    ValueOfAt(fs, 5);
    if action == "die" {
      ValueOfAt(fs, 6);
    }
  }

  /**
   * The notification for an event whose action has a template: the
   * template's title and description with the container's name, its colour,
   * and the fields; no notification for any other action.
   */
  function Compose(e: Event, status: ContainerStatus, clock: string): (n: Option<Notification>)
    ensures n.Some? <==> e.action in KnownActions
  {
    match TemplateFor(e.action)
    case None => None
    case Some(t) =>
      var name := ContainerName(e);
      Some(Notification(
        t.title.Format(name),
        t.description.Format(name),
        t.color,
        Fields(e.action, status, clock, ExitCode(e))))
  }

  /**
   * Builds the notification for an event whose action has a template, as the
   * monitor does: the fields list first, then the template filled in with the
   * container's name.
   */
  method BuildNotification(e: Event, status: ContainerStatus, clock: string) returns (n: Notification)
    requires e.action in KnownActions
    ensures Compose(e, status, clock) == Some(n)
  {
    var fields := BuildFields(e.action, status, clock, ExitCode(e));
    var t := EventConfigs[e.action];
    var name := ContainerName(e);
    n := Notification(t.title.Format(name), t.description.Format(name), t.color, fields);
  }

  /**
   * A notification names its container: the container's name is recovered
   * from the title through the action's title pattern, and the title
   * determines the action.
   */
  lemma ComposeNamesContainer(e: Event, status: ContainerStatus, clock: string)
    requires e.action in KnownActions
    ensures TemplateFor(e.action).value.title.Unformat(Compose(e, status, clock).value.title) == Some(ContainerName(e))
    ensures TemplateFor(e.action).value.description.Unformat(Compose(e, status, clock).value.description) == Some(ContainerName(e))
    ensures 0 <= Compose(e, status, clock).value.color < 0x1000000
  {
    var t := TemplateFor(e.action).value;
    UnformatFormat(t.title, ContainerName(e));
    UnformatFormat(t.description, ContainerName(e));
  }

  /**
   * A `start` event for `web`, whose container runs image `web:latest` on
   * `linux` with no health check.
   */
  lemma StartScenario(clock: string)
    ensures var e := Event("container", "start", "abc", map["name" := "web"]);
            var a := ContainerAttrs(["web:latest"], "running", None, Some("2024-01-01T12:00:00.000Z"), Some("linux"));
            var n := Compose(e, Enrich(Found(a)), clock);
            && n.Some?
            && n.value.title == "\U{1F7E2} Container Started: web"
            && n.value.color == 0x00FF00
            && ValueOf(n.value.fields, "Image") == Some("web:latest")
            && ValueOf(n.value.fields, "Status") == Some("running")
            && ValueOf(n.value.fields, "Health") == Some("N/A")
            && ValueOf(n.value.fields, "Platform") == Some("linux")
            && |n.value.fields| == 6
  {
    var e := Event("container", "start", "abc", map["name" := "web"]);
    var a := ContainerAttrs(["web:latest"], "running", None, Some("2024-01-01T12:00:00.000Z"), Some("linux"));
    var s := Enrich(Found(a));
    EnrichFound(a);
    StartExample();
    assert ContainerName(e) == "web";
    FieldsByName("start", s, clock, ExitCode(e));
  }

  /** A `die` event's last field is its exit code, `Unknown` when the event has none. */
  lemma DieScenario(e: Event, status: ContainerStatus, clock: string)
    requires e.action == "die"
    ensures var fs := Compose(e, status, clock).value.fields;
            && |fs| == 7
            && fs[6] == Field("Exit Code", if "exitCode" in e.attributes then e.attributes["exitCode"] else "Unknown", false)
  {
  }
}
