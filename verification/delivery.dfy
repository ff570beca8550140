/**
 * The delivery client: posts a notification to the webhook up to
 * `max_retries` times and stops at the first `204 No Content`.
 *
 * The network is not modelled; the reply to the k-th attempt is `replies[k]`.
 * Sleeping is modelled by counting the sleeps (each lasts `retry_delay`
 * seconds).
 */
module Delivery {

  /** What one POST produced: an HTTP status code, or a `RequestException`. */
  datatype Reply = Status(code: int) | TransportError

  /** How a delivery ended: acknowledged or not, attempts made, sleeps taken. */
  datatype Outcome = Outcome(delivered: bool, attempts: nat, sleeps: nat)

  /** The success reply of a Discord webhook. */
  const NoContent := Status(204)

  /** The number of attempts `range(max_retries)` allows. */
  function Budget(maxRetries: int): (n: nat)
    ensures maxRetries <= 0 ==> n == 0
    ensures maxRetries > 0 ==> n == maxRetries
  {
    if maxRetries <= 0 then 0 else maxRetries
  }

  /** Index of the first `204` among the first `n` replies, or `n` when there is none. */
  function FirstAck(replies: seq<Reply>, n: nat): (i: nat)
    requires n <= |replies|
    ensures i <= n
    ensures i < n ==> replies[i] == NoContent
    ensures forall j :: 0 <= j < i ==> replies[j] != NoContent
  {
    if n == 0 then 0
    else if replies[0] == NoContent then 0
    else 1 + FirstAck(replies[1..], n - 1)
  }

  /**
   * The sleeps the first `k` attempts take: one for each transport error,
   * except on the last attempt index `max_retries - 1`.
   */
  function SleepsBefore(replies: seq<Reply>, k: nat, maxRetries: int): (n: nat)
    requires k <= |replies|
    ensures n <= k
  {
    if k == 0 then 0
    else SleepsBefore(replies, k - 1, maxRetries)
         + if replies[k - 1].TransportError? && k - 1 < maxRetries - 1 then 1 else 0
  }

  /**
   * What the delivery loop does with these replies: it stops after the
   * first `204` within the budget, or gives up once the budget is spent.
   */
  function Deliver(maxRetries: int, replies: seq<Reply>): (o: Outcome)
    requires maxRetries <= |replies|
    ensures o.attempts <= Budget(maxRetries)
    ensures o.sleeps <= o.attempts
    ensures o.delivered ==> o.attempts >= 1 && replies[o.attempts - 1] == NoContent
    ensures !o.delivered ==> o.attempts == Budget(maxRetries)
  {
    var n := Budget(maxRetries);
    var i := FirstAck(replies, n);
    if i < n then Outcome(true, i + 1, SleepsBefore(replies, i, maxRetries))
    else Outcome(false, n, SleepsBefore(replies, n, maxRetries))
  }

  /**
   * `send_discord_embed`'s retry loop. A `204` returns at once; any other
   * status is logged and the next attempt follows without sleeping; a
   * transport error sleeps unless it was the last attempt.
   */
  method SendWithRetries(maxRetries: int, replies: seq<Reply>) returns (delivered: bool, attempts: nat, sleeps: nat)
    requires maxRetries <= |replies|
    ensures Outcome(delivered, attempts, sleeps) == Deliver(maxRetries, replies)
  {
    attempts, sleeps := 0, 0;
    var attempt := 0;
    while attempt < maxRetries
      invariant 0 <= attempt <= Budget(maxRetries)
      invariant attempts == attempt
      invariant forall j :: 0 <= j < attempt ==> replies[j] != NoContent
      invariant sleeps == SleepsBefore(replies, attempt, maxRetries)
    {
      attempts := attempts + 1;
      match replies[attempt] {
        case Status(code) =>
          if code == 204 {
            delivered := true;
            return;
          }
        case TransportError =>
          if attempt < maxRetries - 1 {
            sleeps := sleeps + 1;
          }
      }
      attempt := attempt + 1;
    }
    delivered := false;
  }

  /** Delivery succeeds exactly when one of the first `max_retries` replies is `204`. */
  lemma DeliveredIff(maxRetries: int, replies: seq<Reply>)
    requires maxRetries <= |replies|
    ensures Deliver(maxRetries, replies).delivered <==>
              exists i :: 0 <= i < maxRetries && replies[i] == NoContent
  {
  }

  /**
   * No attempt follows the first `204`, and never more than `max_retries`
   * attempts are made: a success is the last attempt and the only `204`
   * among them; a failure has spent the whole budget.
   */
  lemma AttemptsBounded(maxRetries: int, replies: seq<Reply>)
    requires maxRetries <= |replies|
    ensures var d := Deliver(maxRetries, replies);
            && d.attempts <= Budget(maxRetries)
            && (d.delivered ==> d.attempts >= 1 && replies[d.attempts - 1] == NoContent)
            && (forall j :: 0 <= j < d.attempts - 1 ==> replies[j] != NoContent)
            && (!d.delivered ==> d.attempts == Budget(maxRetries))
  {
  }

  /** With `max_retries <= 0` nothing is sent and delivery fails at once. */
  lemma NoBudgetNoAttempt(maxRetries: int, replies: seq<Reply>)
    requires maxRetries <= 0
    ensures Deliver(maxRetries, replies) == Outcome(false, 0, 0)
  {
  }

  /** The attempt indices after which the client sleeps, among the first `k`. */
  ghost function SleepIndices(replies: seq<Reply>, k: nat, maxRetries: int): set<nat>
    requires k <= |replies|
  {
    set j: nat | j < k && replies[j].TransportError? && j < maxRetries - 1
  }

  /**
   * The sleep count is the number of attempts that met a transport error
   * and were not the last attempt index.
   */
  lemma {:induction false} SleepsAreTransportErrors(replies: seq<Reply>, k: nat, maxRetries: int)
    requires k <= |replies|
    ensures SleepsBefore(replies, k, maxRetries) == |SleepIndices(replies, k, maxRetries)|
  {
    if k == 0 {
      assert SleepIndices(replies, k, maxRetries) == {};
    } else {
      SleepsAreTransportErrors(replies, k - 1, maxRetries);
      var before := SleepIndices(replies, k - 1, maxRetries);
      var j: nat := k - 1;
      if replies[j].TransportError? && j < maxRetries - 1 {
        assert SleepIndices(replies, k, maxRetries) == before + {j};
      } else {
        assert SleepIndices(replies, k, maxRetries) == before;
      }
    }
  }

  /** The sleeps among the first `k` attempts are at most `k` and at most `max_retries - 1`. */
  lemma {:induction false} SleepsBounded(replies: seq<Reply>, k: nat, maxRetries: int)
    requires k <= |replies|
    ensures SleepsBefore(replies, k, maxRetries) <= k
    ensures maxRetries >= 1 ==> SleepsBefore(replies, k, maxRetries) <= maxRetries - 1
  {
    if k > 0 {
      SleepsBounded(replies, k - 1, maxRetries);
    }
  }

  /** A reply other than a transport error never causes a sleep. */
  lemma {:induction false} NoTransportErrorNoSleep(replies: seq<Reply>, k: nat, maxRetries: int)
    requires k <= |replies|
    requires forall j :: 0 <= j < k ==> replies[j].Status?
    ensures SleepsBefore(replies, k, maxRetries) == 0
  {
    if k > 0 {
      NoTransportErrorNoSleep(replies, k - 1, maxRetries);
    }
  }

  /** When every attempt meets a transport error, the client sleeps between each two of them. */
  lemma {:induction false} AllTransportErrors(replies: seq<Reply>, k: nat, maxRetries: int)
    requires 1 <= k <= maxRetries <= |replies|
    requires forall j :: 0 <= j < k ==> replies[j] == TransportError
    ensures SleepsBefore(replies, k, maxRetries) == if k == maxRetries then k - 1 else k
  {
    if k > 1 {
      AllTransportErrors(replies, k - 1, maxRetries);
    }
  }

  /**
   * When all attempts fail, the sleeps number at most `max_retries - 1`;
   * exactly that many when every failure was a transport error, none when
   * every failure was an HTTP status other than `204`.
   */
  lemma FailedDeliverySleeps(maxRetries: int, replies: seq<Reply>)
    requires 1 <= maxRetries <= |replies|
    requires !Deliver(maxRetries, replies).delivered
    ensures Deliver(maxRetries, replies).sleeps <= maxRetries - 1
    ensures (forall j :: 0 <= j < maxRetries ==> replies[j] == TransportError) ==>
              Deliver(maxRetries, replies).sleeps == maxRetries - 1
    ensures (forall j :: 0 <= j < maxRetries ==> replies[j].Status?) ==>
              Deliver(maxRetries, replies).sleeps == 0
  {
    SleepsBounded(replies, maxRetries, maxRetries);
    if forall j :: 0 <= j < maxRetries ==> replies[j] == TransportError {
      AllTransportErrors(replies, maxRetries, maxRetries);
    }
    if forall j :: 0 <= j < maxRetries ==> replies[j].Status? {
      NoTransportErrorNoSleep(replies, maxRetries, maxRetries);
    }
  }

  /** Two `500` replies and then `204`: delivered on the third attempt, without sleeping. */
  lemma ServerErrorsThenSuccess()
    ensures Deliver(3, [Status(500), Status(500), Status(204)]) == Outcome(true, 3, 0)
  {
    var replies := [Status(500), Status(500), Status(204)];
    assert FirstAck(replies, 3) == 2;
  }

  /** Two transport errors and then `204`: delivered on the third attempt, after two sleeps. */
  lemma TransportErrorsThenSuccess()
    ensures Deliver(3, [TransportError, TransportError, Status(204)]) == Outcome(true, 3, 2)
  {
    var replies := [TransportError, TransportError, Status(204)];
    assert FirstAck(replies, 3) == 2;
  }
}
