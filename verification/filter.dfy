/**
 * The Docker lifecycle event as the monitor reads it, the monitor's
 * subscription configuration, and the decision whether an event is one the
 * operator subscribed to.
 */
module Filter {
  import opened Wrappers
  import opened Text

  /**
   * A decoded Docker event: its `Type`, `Action`, `id` and the
   * `Actor.Attributes` dictionary (where `name` and `exitCode` live).
   */
  datatype Event = Event(kind: string, action: string, id: string, attributes: map<string, string>)

  /**
   * The monitor's configuration once read from the environment. The
   * notification level has already been lower-cased (see `MakeConfig`);
   * the container list is kept as written.
   */
  datatype Config = Config(
    monitoredContainers: string,
    notificationLevel: string,
    maxRetries: int,
    retryDelay: int)

  function Get(m: map<string, string>, key: string): Option<string>
  {
    if key in m then Some(m[key]) else None
  }

  /**
   * The configuration the monitor builds from already-parsed settings: the
   * container list as written, the notification level with its upper-case
   * letters lowered and every other character (commas included) kept.
   */
  function MakeConfig(monitoredContainers: string, notificationLevel: string, maxRetries: int, retryDelay: int): (c: Config)
    ensures c.monitoredContainers == monitoredContainers
    ensures !HasUpper(c.notificationLevel)
    ensures |c.notificationLevel| == |notificationLevel|
    ensures forall i :: 0 <= i < |notificationLevel| && 'A' <= notificationLevel[i] <= 'Z' ==>
              c.notificationLevel[i] as int == notificationLevel[i] as int + 32
    ensures forall i :: 0 <= i < |notificationLevel| && !('A' <= notificationLevel[i] <= 'Z') ==>
              c.notificationLevel[i] == notificationLevel[i]
    ensures c.maxRetries == maxRetries && c.retryDelay == retryDelay
  {
    Config(monitoredContainers, Lower(notificationLevel), maxRetries, retryDelay)
  }

  /** The container's name from the event attributes, `"unknown"` when absent. */
  function ContainerName(e: Event): (name: string)
    ensures "name" in e.attributes ==> name == e.attributes["name"]
    ensures "name" !in e.attributes ==> name == "unknown"
  {
    Get(e.attributes, "name").GetOr("unknown")
  }

  /** The container allow-list: `*` or exact membership in the comma-separated list. */
  predicate ContainerAllowed(monitored: string, name: string)
    ensures monitored == "*" ==> ContainerAllowed(monitored, name)
    ensures monitored != "*" && ContainerAllowed(monitored, name) ==> ',' !in name
  {
    monitored == "*" || name in Split(monitored)
  }

  /** The action allow-list: `all` or exact membership in the comma-separated list. */
  predicate ActionAllowed(level: string, action: string)
    ensures level == "all" ==> ActionAllowed(level, action)
    ensures level != "all" && ActionAllowed(level, action) ==> ',' !in action
  {
    level == "all" || action in Split(level)
  }

  /** Whether an event is a container event the operator subscribed to. */
  predicate ShouldNotify(e: Event, c: Config)
    ensures ShouldNotify(e, c) ==> e.kind == "container"
    ensures ShouldNotify(e, c) ==> ContainerAllowed(c.monitoredContainers, ContainerName(e))
    ensures ShouldNotify(e, c) ==> ActionAllowed(c.notificationLevel, e.action)
  {
    && e.kind == "container"
    && ContainerAllowed(c.monitoredContainers, ContainerName(e))
    && ActionAllowed(c.notificationLevel, e.action)
  }

  /** An event that is not about a container is rejected, whatever else it holds. */
  lemma NonContainerRejected(e: Event, c: Config)
    requires e.kind != "container"
    ensures !ShouldNotify(e, c)
  {
  }

  /**
   * An explicit container list admits a name exactly when the name occurs in
   * the list between commas (or the ends of the list) and holds no comma.
   */
  lemma ContainerAllowedIff(monitored: string, name: string)
    requires monitored != "*"
    ensures ContainerAllowed(monitored, name) <==>
              ',' !in name && exists i: nat :: DelimitedAt(monitored, name, i)
  {
    InSplitIff(monitored, name);
  }

  /**
   * The whole filter in both directions: a container event passes exactly
   * when each list is its wildcard or holds the (untrimmed, comma-free)
   * name or action between commas or the ends of the list.
   */
  lemma ShouldNotifyIff(e: Event, c: Config)
    ensures ShouldNotify(e, c) <==>
              && e.kind == "container"
              && (c.monitoredContainers == "*" ||
                  (',' !in ContainerName(e) && exists i: nat :: DelimitedAt(c.monitoredContainers, ContainerName(e), i)))
              && (c.notificationLevel == "all" ||
                  (',' !in e.action && exists i: nat :: DelimitedAt(c.notificationLevel, e.action, i)))
  {
    InSplitIff(c.monitoredContainers, ContainerName(e));
    InSplitIff(c.notificationLevel, e.action);
  }

  /** With the wildcard lists every container event passes the filter. */
  lemma WildcardsAdmitAll(e: Event, c: Config)
    requires c.monitoredContainers == "*" && c.notificationLevel == "all"
    ensures ShouldNotify(e, c) <==> e.kind == "container"
  {
  }

  /** `"web,db"` admits `web` and `db` and rejects `cache`, ` db` and `web,db`. */
  lemma WebDbExample()
    ensures ContainerAllowed("web,db", "web")
    ensures ContainerAllowed("web,db", "db")
    ensures !ContainerAllowed("web,db", "cache")
    ensures !ContainerAllowed("web,db", " db")
    ensures !ContainerAllowed("web,db", "web,db")
  {
    var s := "web,db";
    assert CommaIndex(s) == 3;
    assert s[4..] == "db";
    assert s[..3] == "web";
    assert CommaIndex("db") == 2;
    assert Split("db") == ["db"];
    assert Split(s) == ["web", "db"];
  }

  /**
   * The notification level is lower-cased once, the event's action never:
   * unless the configured level reads `all` in any case, an event whose
   * action is spelled with an upper-case letter is always rejected.
   */
  lemma UpperCaseActionRejected(monitored: string, level: string, retries: int, delay: int, e: Event)
    requires HasUpper(e.action)
    requires Lower(level) != "all"
    ensures !ShouldNotify(e, MakeConfig(monitored, level, retries, delay))
  {
    var lowered := MakeConfig(monitored, level, retries, delay).notificationLevel;
    if e.action in Split(lowered) {
      var i := PieceIsDelimited(lowered, e.action);
      assert false;
    }
  }

  /** A level of `ALL` in any casing switches the action filter off. */
  lemma AllInAnyCase(monitored: string, level: string, retries: int, delay: int, e: Event)
    requires |level| == 3
    requires level[0] in "aA" && level[1] in "lL" && level[2] in "lL"
    ensures ShouldNotify(e, MakeConfig(monitored, level, retries, delay)) <==>
              e.kind == "container" && ContainerAllowed(monitored, ContainerName(e))
  {
    assert MakeConfig(monitored, level, retries, delay).notificationLevel == "all";
  }
}
