/**
 * The event loop: for each Docker event, filter, enrich, format and deliver,
 * one event after another.
 *
 * The event stream is modelled as a finite sequence of observations; each
 * observation carries what the outside world supplies while that event is
 * handled (the container lookup, the clock and the webhook's replies).
 */
module EventLoop {
  import opened Wrappers
  import opened Text
  import opened Filter
  import opened Templates
  import opened Enricher
  import opened Formatter
  import opened Delivery

  /** One event with the lookup result, the send time and the webhook replies it meets. */
  datatype Observation = Observation(event: Event, lookup: Lookup, clock: string, replies: seq<Reply>)

  /** The decision for one event. */
  datatype Decision = Skip | Send(notification: Notification)

  /** A notification handed to the delivery client and how its delivery ended. */
  datatype Report = Report(notification: Notification, outcome: Outcome)

  /**
   * The per-event step: skip an event the filter rejects or whose action
   * has no template; otherwise enrich it and compose its notification.
   */
  function Step(c: Config, e: Event, lookup: Lookup, clock: string): (d: Decision)
    ensures d.Send? <==> ShouldNotify(e, c) && e.action in KnownActions
  {
    if !ShouldNotify(e, c) then Skip
    else match Compose(e, Enrich(lookup), clock)
      case None => Skip
      case Some(n) => Send(n)
  }

  /**
   * The container lookup is consulted only for an event that is sent: the
   * step for any other event is the same whatever the lookup would return.
   */
  lemma SkipIgnoresLookup(c: Config, e: Event, l1: Lookup, l2: Lookup, clock: string)
    requires !(ShouldNotify(e, c) && e.action in KnownActions)
    ensures Step(c, e, l1, clock) == Step(c, e, l2, clock) == Skip
  {
  }

  /** A sent notification is the template's, filled in with the enriched status. */
  lemma SendIsComposed(c: Config, e: Event, lookup: Lookup, clock: string)
    requires Step(c, e, lookup, clock).Send?
    ensures Some(Step(c, e, lookup, clock).notification) == Compose(e, Enrich(lookup), clock)
    ensures e.kind == "container"
  {
  }

  /** Every observation carries a reply for each attempt the budget allows. */
  predicate Supplied(c: Config, obs: seq<Observation>)
  {
    forall i :: 0 <= i < |obs| ==> c.maxRetries <= |obs[i].replies|
  }

  /** What handling one observation reports: nothing, or one delivery. */
  function Handle(c: Config, o: Observation): (r: seq<Report>)
    requires c.maxRetries <= |o.replies|
    ensures |r| <= 1
    ensures |r| == 1 <==> ShouldNotify(o.event, c) && o.event.action in KnownActions
  {
    match Step(c, o.event, o.lookup, o.clock)
    case Skip => []
    case Send(n) => [Report(n, Deliver(c.maxRetries, o.replies))]
  }

  /** The reports of a run over a finite stretch of the event stream, in event order. */
  function Run(c: Config, obs: seq<Observation>): (reports: seq<Report>)
    requires Supplied(c, obs)
    ensures |reports| <= |obs|
  {
    if obs == [] then []
    else Run(c, obs[..|obs| - 1]) + Handle(c, obs[|obs| - 1])
  }

  /** Handling one more observation appends what it reports. */
  lemma RunSnoc(c: Config, obs: seq<Observation>, i: nat)
    requires Supplied(c, obs) && 0 < i <= |obs|
    ensures Run(c, obs[..i]) == Run(c, obs[..i - 1]) + Handle(c, obs[i - 1])
  {
    assert obs[..i][..i - 1] == obs[..i - 1];
  }

  /**
   * One pass of `monitor_events`' loop body: each `continue` of the source
   * is an early return with nothing sent; an accepted event with a template
   * is enriched, formatted and delivered, and a failed delivery is only
   * reported.
   */
  method HandleEvent(c: Config, o: Observation) returns (sent: seq<Report>)
    requires c.maxRetries <= |o.replies|
    ensures sent == Handle(c, o)
  {
    sent := [];
    var e := o.event;
    if e.kind != "container" {
      return;
    }
    var name := ContainerName(e);
    var action := e.action;
    if c.monitoredContainers != "*" && name !in Split(c.monitoredContainers) {
      return;
    }
    if c.notificationLevel != "all" && action !in Split(c.notificationLevel) {
      return;
    }
    if action in EventConfigs {
      var n := BuildNotification(e, Enrich(o.lookup), o.clock);
      var delivered, attempts, sleeps := SendWithRetries(c.maxRetries, o.replies);
      sent := [Report(n, Outcome(delivered, attempts, sleeps))];
    }
  }

  /**
   * `monitor_events`' loop over the events, one event after another; no
   * event's outcome stops the loop.
   */
  method MonitorEvents(c: Config, obs: seq<Observation>) returns (reports: seq<Report>)
    requires Supplied(c, obs)
    ensures reports == Run(c, obs)
  {
    reports := [];
    var i := 0;
    while i < |obs|
      invariant 0 <= i <= |obs|
      invariant reports == Run(c, obs[..i])
    {
      var sent := HandleEvent(c, obs[i]);
      reports := reports + sent;
      i := i + 1;
      RunSnoc(c, obs, i);
    }
    assert obs[..i] == obs;
  }

  /** Handling one more observation after a stretch appends what it reports. */
  lemma RunPush(c: Config, s: seq<Observation>, o: Observation)
    requires Supplied(c, s) && c.maxRetries <= |o.replies|
    ensures Supplied(c, s + [o])
    ensures Run(c, s + [o]) == Run(c, s) + Handle(c, o)
  {
    SuppliedAppend(c, s, [o]);
    assert (s + [o])[..|s|] == s;
  }

  /**
   * Runs compose: the reports of two consecutive stretches of the stream
   * are those of the first followed by those of the second, so notifications
   * keep the order of their events and no delivery failure stops the loop.
   */
  lemma {:induction false} RunAppend(c: Config, a: seq<Observation>, b: seq<Observation>)
    requires Supplied(c, a) && Supplied(c, b)
    ensures Supplied(c, a + b)
    ensures Run(c, a + b) == Run(c, a) + Run(c, b)
  {
    SuppliedAppend(c, a, b);
    if b == [] {
      assert a + b == a;
    } else {
      var init, last := b[..|b| - 1], b[|b| - 1];
      assert b == init + [last];
      forall i | 0 <= i < |init|
        ensures c.maxRetries <= |init[i].replies|
      {
        assert init[i] == b[i];
      }
      SuppliedAppend(c, a, init);
      calc {
        Run(c, a + b);
        { assert a + b == (a + init) + [last]; }
        Run(c, (a + init) + [last]);
        { RunPush(c, a + init, last); }
        Run(c, a + init) + Handle(c, last);
        { RunAppend(c, a, init); }
        (Run(c, a) + Run(c, init)) + Handle(c, last);
        Run(c, a) + (Run(c, init) + Handle(c, last));
        { RunPush(c, init, last); }
        Run(c, a) + Run(c, b);
      }
    }
  }

  lemma SuppliedAppend(c: Config, a: seq<Observation>, b: seq<Observation>)
    requires Supplied(c, a) && Supplied(c, b)
    ensures Supplied(c, a + b)
  {
    forall i | 0 <= i < |a + b|
      ensures c.maxRetries <= |(a + b)[i].replies|
    {
      if i >= |a| {
        assert (a + b)[i] == b[i - |a|];
      }
    }
  }

  /**
   * Every report comes from an observation that passed the filter, has a
   * template, and whose delivery outcome is that of its replies.
   */
  lemma {:induction false} RunSound(c: Config, obs: seq<Observation>, k: nat)
    requires Supplied(c, obs)
    requires k < |Run(c, obs)|
    ensures exists i :: 0 <= i < |obs|
              && ShouldNotify(obs[i].event, c)
              && obs[i].event.action in KnownActions
              && Run(c, obs)[k] == Handle(c, obs[i])[0]
  {
    var init := obs[..|obs| - 1];
    var last := obs[|obs| - 1];
    if k < |Run(c, init)| {
      RunSound(c, init, k);
      var i :| 0 <= i < |init|
               && ShouldNotify(init[i].event, c)
               && init[i].event.action in KnownActions
               && Run(c, init)[k] == Handle(c, init[i])[0];
      assert obs[i] == init[i];
    } else {
      assert |Handle(c, last)| == 1;
      assert Run(c, obs)[k] == Handle(c, last)[0];
    }
  }

  /** A stretch of the stream with no event the filter accepts sends nothing. */
  lemma {:induction false} NothingAcceptedNothingSent(c: Config, obs: seq<Observation>)
    requires Supplied(c, obs)
    requires forall i :: 0 <= i < |obs| ==> !ShouldNotify(obs[i].event, c)
    ensures Run(c, obs) == []
  {
    if obs != [] {
      NothingAcceptedNothingSent(c, obs[..|obs| - 1]);
    }
  }

  /** In particular, a stream of events that are not about containers sends nothing. */
  lemma NonContainerStreamSendsNothing(c: Config, obs: seq<Observation>)
    requires Supplied(c, obs)
    requires forall i :: 0 <= i < |obs| ==> obs[i].event.kind != "container"
    ensures Run(c, obs) == []
  {
    NothingAcceptedNothingSent(c, obs);
  }

  /** With the list `web,db`, a `cache` event is dropped and the webhook is never called. */
  lemma CacheEventDropped(o: Observation)
    requires o.event.kind == "container" && o.event.attributes == map["name" := "cache"]
    requires |o.replies| >= 3
    ensures Run(Config("web,db", "all", 3, 5), [o]) == []
  {
    WebDbExample();
    var c := Config("web,db", "all", 3, 5);
    assert ContainerName(o.event) == "cache";
    assert [o][..0] == [];
  }
}
