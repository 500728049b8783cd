// What flushSingleDestination does for one destination, as functions of the
// writer's connection and the environment's answers: one attempt connects
// (or reuses the connection) and sends the batch; attempts are repeated,
// with a backoff wait between two of them, until one succeeds, the
// destination's retry ceiling is passed or the caller's context is
// cancelled.
module Retries {
  import opened Environment
  import opened Failover

  /** How one attempt ended. */
  datatype AttemptOutcome = Sent | ConnectFailed(err: ConnectError) | SendFailed

  /** One attempt: how it ended, the connection left, the environment left, the calls made. */
  datatype AttemptResult = AttemptResult(outcome: AttemptOutcome, conn: Option<Client>, env: Env, events: seq<Event>)

  /** Why a destination gave up on a batch. */
  datatype FlushError = RetriesExceeded(destination: string, maxRetries: nat) | Cancelled

  /**
   * The whole retry loop for one batch: the error returned (None for nil),
   * the connection and environment left, the calls made, the attempts that
   * did I/O, and how much each of the destination's counters grew.
   */
  datatype Delivery = Delivery(
    err: Option<FlushError>, conn: Option<Client>, env: Env, events: seq<Event>,
    attempts: nat, connectErrors: nat, sendErrors: nat, exceeded: nat)

  /**
   * One attempt: connect, then send the batch with the given settings. A
   * failed connection leaves no connection; a failed send closes and drops
   * the connection so that the next attempt reconnects; a successful send
   * keeps it.
   */
  function Attempt(conn: Option<Client>, servers: seq<string>, settings: seq<Setting>, env: Env): (r: AttemptResult)
    requires servers != []
    ensures r.outcome.Sent? <==> r.conn.Some?
  {
    var c := Connect(conn, servers, env);
    ConnectResult(conn, servers, env);
    if c.err.Some? then
      AttemptResult(ConnectFailed(c.err.value), c.conn, c.env, c.events)
    else
      var address := c.conn.value.address;
      if Outcome(c.env) then
        AttemptResult(Sent, c.conn, Consume(c.env), c.events + [Send(address, settings)])
      else
        AttemptResult(SendFailed, None, Consume(c.env), c.events + [Send(address, settings), Close(address)])
  }

  /**
   * How an attempt that reached the send ends: a successful one with the
   * batch sent, with the chosen settings, to the server it is connected
   * to; a failed one with that send and then the close of its connection.
   */
  lemma AttemptEvents(conn: Option<Client>, servers: seq<string>, settings: seq<Setting>, env: Env)
    requires servers != []
    ensures var r := Attempt(conn, servers, settings, env);
      (r.outcome.Sent? ==>
         |r.events| >= 1 && r.events[|r.events| - 1] == Send(r.conn.value.address, settings)) &&
      (r.outcome.SendFailed? ==>
         |r.events| >= 2 && r.events[|r.events| - 2].Send? && r.events[|r.events| - 2].settings == settings &&
         r.events[|r.events| - 1] == Close(r.events[|r.events| - 2].address))
  {
    ConnectResult(conn, servers, env);
  }

  /** The counters a failed attempt raises: (connect errors, send errors). */
  function Failures(outcome: AttemptOutcome): (r: (nat, nat))
    ensures r.0 + r.1 == if outcome.Sent? then 0 else 1
    ensures r.0 == 1 <==> outcome.ConnectFailed?
  {
    match outcome
    case Sent => (0, 0)
    case ConnectFailed(_) => (1, 0)
    case SendFailed => (0, 1)
  }

  /** d preceded by one failed attempt. */
  function After(a: AttemptResult, d: Delivery): Delivery {
    d.(events := a.events + d.events, attempts := d.attempts + 1,
       connectErrors := d.connectErrors + Failures(a.outcome).0,
       sendErrors := d.sendErrors + Failures(a.outcome).1)
  }

  /**
   * backoff.Retry around one attempt, after `made` calls of the operation,
   * with `waits` backoff waits left before the context is cancelled. The
   * operation first counts itself and gives up for good, without any I/O,
   * once the count passes a non-zero maxRetries; 0 means no ceiling.
   */
  function Retry(name: string, maxRetries: nat, servers: seq<string>, settings: seq<Setting>,
                 made: nat, waits: nat, conn: Option<Client>, env: Env): (d: Delivery)
    requires servers != []
    ensures d.attempts <= waits + 1
    decreases waits, 1
  {
    if maxRetries > 0 && made + 1 > maxRetries then
      Delivery(Some(RetriesExceeded(name, maxRetries)), conn, env, [], 0, 0, 0, 1)
    else
      Settle(name, maxRetries, servers, settings, made, waits, conn, env)
  }

  /**
   * Attempt number made + 1 and what backoff.Retry does with its result:
   * stop on success, stop when the context is cancelled during the wait,
   * and otherwise wait and try again.
   */
  function Settle(name: string, maxRetries: nat, servers: seq<string>, settings: seq<Setting>,
                  made: nat, waits: nat, conn: Option<Client>, env: Env): (d: Delivery)
    requires servers != []
    ensures 1 <= d.attempts <= waits + 1
    decreases waits, 0
  {
    var a := Attempt(conn, servers, settings, env);
    if a.outcome.Sent? then
      Delivery(None, a.conn, a.env, a.events, 1, 0, 0, 0)
    else if waits == 0 then
      Delivery(Some(Cancelled), a.conn, a.env, a.events, 1, Failures(a.outcome).0, Failures(a.outcome).1, 0)
    else
      After(a, Retry(name, maxRetries, servers, settings, made + 1, waits - 1, a.conn, a.env))
  }

  /** Below the ceiling, a failed attempt with a wait left is followed by the rest of the loop. */
  lemma RetryAfter(name: string, maxRetries: nat, servers: seq<string>, settings: seq<Setting>,
                   made: nat, waits: nat, conn: Option<Client>, env: Env)
    requires servers != [] && !(maxRetries > 0 && made + 1 > maxRetries) && waits > 0
    requires !Attempt(conn, servers, settings, env).outcome.Sent?
    ensures var a := Attempt(conn, servers, settings, env);
      Retry(name, maxRetries, servers, settings, made, waits, conn, env) ==
        After(a, Retry(name, maxRetries, servers, settings, made + 1, waits - 1, a.conn, a.env))
  {
  }

  /**
   * The attempt ceiling: with maxRetries = n > 0, at most n attempts do any
   * I/O, and the call gives up only after exactly n of them.
   */
  lemma {:induction false} RetryCeiling(name: string, maxRetries: nat, servers: seq<string>, settings: seq<Setting>,
                                        made: nat, waits: nat, conn: Option<Client>, env: Env)
    requires servers != []
    requires maxRetries == 0 || made <= maxRetries
    ensures var d := Retry(name, maxRetries, servers, settings, made, waits, conn, env);
      (maxRetries > 0 ==> made + d.attempts <= maxRetries) &&
      (d.exceeded == 1 ==> maxRetries > 0 && made + d.attempts == maxRetries)
    decreases waits
  {
    if !(maxRetries > 0 && made + 1 > maxRetries) {
      var a := Attempt(conn, servers, settings, env);
      if !a.outcome.Sent? && waits > 0 {
        RetryCeiling(name, maxRetries, servers, settings, made + 1, waits - 1, a.conn, a.env);
        RetryAfter(name, maxRetries, servers, settings, made, waits, conn, env);
      }
    }
  }

  /** The loop returns nil, the cancellation, or the max-retries error naming this destination and its ceiling. */
  lemma {:induction false} RetryErrorKinds(name: string, maxRetries: nat, servers: seq<string>, settings: seq<Setting>,
                                           made: nat, waits: nat, conn: Option<Client>, env: Env)
    requires servers != []
    ensures var d := Retry(name, maxRetries, servers, settings, made, waits, conn, env);
      d.err == None || d.err == Some(Cancelled) || d.err == Some(RetriesExceeded(name, maxRetries))
    decreases waits
  {
    if !(maxRetries > 0 && made + 1 > maxRetries) {
      var a := Attempt(conn, servers, settings, env);
      if !a.outcome.Sent? && waits > 0 {
        RetryErrorKinds(name, maxRetries, servers, settings, made + 1, waits - 1, a.conn, a.env);
        RetryAfter(name, maxRetries, servers, settings, made, waits, conn, env);
      }
    }
  }

  /**
   * Below the ceiling, a failed attempt is retried as long as backoff waits
   * remain, under any ceiling: a loop ends cancelled only after one attempt
   * per completed wait plus the first, all of them within the ceiling.
   */
  lemma {:induction false} RetryCancelled(name: string, maxRetries: nat, servers: seq<string>, settings: seq<Setting>,
                                          made: nat, waits: nat, conn: Option<Client>, env: Env)
    requires servers != []
    ensures var d := Retry(name, maxRetries, servers, settings, made, waits, conn, env);
      d.err == Some(Cancelled) ==> d.attempts == waits + 1 && (maxRetries == 0 || made + waits + 1 <= maxRetries)
    decreases waits
  {
    if !(maxRetries > 0 && made + 1 > maxRetries) {
      var a := Attempt(conn, servers, settings, env);
      if !a.outcome.Sent? && waits > 0 {
        RetryCancelled(name, maxRetries, servers, settings, made + 1, waits - 1, a.conn, a.env);
        RetryAfter(name, maxRetries, servers, settings, made, waits, conn, env);
      }
    }
  }

  /**
   * The exhaustion counter grows at most once, and exactly when the retry
   * error is returned.
   */
  lemma {:induction false} RetryExhaustion(name: string, maxRetries: nat, servers: seq<string>, settings: seq<Setting>,
                                           made: nat, waits: nat, conn: Option<Client>, env: Env)
    requires servers != []
    ensures var d := Retry(name, maxRetries, servers, settings, made, waits, conn, env);
      d.exceeded <= 1 && (d.exceeded == 1 <==> d.err == Some(RetriesExceeded(name, maxRetries)))
    decreases waits
  {
    if !(maxRetries > 0 && made + 1 > maxRetries) {
      var a := Attempt(conn, servers, settings, env);
      if !a.outcome.Sent? && waits > 0 {
        RetryExhaustion(name, maxRetries, servers, settings, made + 1, waits - 1, a.conn, a.env);
        RetryAfter(name, maxRetries, servers, settings, made, waits, conn, env);
      }
    }
  }

  /**
   * Without a ceiling (maxRetries = 0) the loop never gives up on its own:
   * it ends by delivering or by cancellation, and when cancelled it has
   * tried once more than the number of waits the context allowed.
   */
  lemma {:induction false} RetryUnbounded(name: string, servers: seq<string>, settings: seq<Setting>,
                                          made: nat, waits: nat, conn: Option<Client>, env: Env)
    requires servers != []
    ensures var d := Retry(name, 0, servers, settings, made, waits, conn, env);
      d.exceeded == 0 &&
      (d.err == None || d.err == Some(Cancelled)) &&
      (d.err == Some(Cancelled) ==> d.attempts == waits + 1)
    decreases waits
  {
    var a := Attempt(conn, servers, settings, env);
    if !a.outcome.Sent? && waits > 0 {
      RetryUnbounded(name, servers, settings, made + 1, waits - 1, a.conn, a.env);
    }
  }

  /**
   * Every attempt that did I/O either delivered (at most once, as the last)
   * or raised exactly one error counter.
   */
  lemma {:induction false} RetryAccounting(name: string, maxRetries: nat, servers: seq<string>, settings: seq<Setting>,
                                           made: nat, waits: nat, conn: Option<Client>, env: Env)
    requires servers != []
    ensures var d := Retry(name, maxRetries, servers, settings, made, waits, conn, env);
      d.attempts == d.connectErrors + d.sendErrors + (if d.err == None then 1 else 0)
    decreases waits
  {
    if !(maxRetries > 0 && made + 1 > maxRetries) {
      var a := Attempt(conn, servers, settings, env);
      if !a.outcome.Sent? && waits > 0 {
        RetryAccounting(name, maxRetries, servers, settings, made + 1, waits - 1, a.conn, a.env);
        RetryAfter(name, maxRetries, servers, settings, made, waits, conn, env);
      }
    }
  }

  /**
   * The call returns nil exactly when it leaves a live connection: a
   * failed attempt never leaves one behind.
   */
  lemma {:induction false} RetryKeepsConnectionOnlyOnSuccess(name: string, maxRetries: nat, servers: seq<string>, settings: seq<Setting>,
                                                             made: nat, waits: nat, conn: Option<Client>, env: Env)
    requires servers != []
    requires made > 0 ==> conn == None
    requires maxRetries == 0 || made <= maxRetries
    ensures var d := Retry(name, maxRetries, servers, settings, made, waits, conn, env);
      d.err == None <==> d.conn.Some?
    decreases waits
  {
    if !(maxRetries > 0 && made + 1 > maxRetries) {
      var a := Attempt(conn, servers, settings, env);
      if !a.outcome.Sent? && waits > 0 {
        RetryKeepsConnectionOnlyOnSuccess(name, maxRetries, servers, settings, made + 1, waits - 1, a.conn, a.env);
      }
    }
  }

  /** An attempt against servers that never answer fails to connect, and they still never answer. */
  lemma SilentAttempt(conn: Option<Client>, servers: seq<string>, settings: seq<Setting>, env: Env)
    requires servers != [] && env.outcomes == []
    ensures var a := Attempt(conn, servers, settings, env);
      a.outcome.ConnectFailed? && a.env.outcomes == []
  {
    var env' := if conn.Some? then Consume(env) else env;
    SilentServersNeverConnect(servers, NextPerm(env', |servers|), DrawPerm(env'), None);
    ConnectResult(conn, servers, env);
  }

  /** Servers that never answer never get the batch. */
  lemma {:induction false} SilentNeverDelivers(name: string, maxRetries: nat, servers: seq<string>, settings: seq<Setting>,
                                               made: nat, waits: nat, conn: Option<Client>, env: Env)
    requires servers != [] && env.outcomes == []
    ensures Retry(name, maxRetries, servers, settings, made, waits, conn, env).err != None
    decreases waits
  {
    if !(maxRetries > 0 && made + 1 > maxRetries) {
      var a := Attempt(conn, servers, settings, env);
      SilentAttempt(conn, servers, settings, env);
      if waits > 0 {
        SilentNeverDelivers(name, maxRetries, servers, settings, made + 1, waits - 1, a.conn, a.env);
        RetryAfter(name, maxRetries, servers, settings, made, waits, conn, env);
      }
    }
  }

  /**
   * A destination with a ceiling of n whose servers never answer, given a
   * context that lasts for n backoff waits or more: all n attempts are
   * made, and then the max-retries error is returned.
   */
  lemma SilentDestinationUsesWholeCeiling(name: string, maxRetries: nat, servers: seq<string>, settings: seq<Setting>,
                                          waits: nat, conn: Option<Client>, env: Env)
    requires servers != [] && env.outcomes == []
    requires maxRetries > 0 && waits >= maxRetries
    ensures var d := Retry(name, maxRetries, servers, settings, 0, waits, conn, env);
      d.err == Some(RetriesExceeded(name, maxRetries)) && d.attempts == maxRetries && d.exceeded == 1
  {
    SilentNeverDelivers(name, maxRetries, servers, settings, 0, waits, conn, env);
    RetryCancelled(name, maxRetries, servers, settings, 0, waits, conn, env);
    RetryErrorKinds(name, maxRetries, servers, settings, 0, waits, conn, env);
    RetryExhaustion(name, maxRetries, servers, settings, 0, waits, conn, env);
    RetryCeiling(name, maxRetries, servers, settings, 0, waits, conn, env);
  }

  /**
   * A destination with maxRetries = 1 whose servers never answer: one
   * attempt, one connect error, then the retry error, provided the context
   * lasts for one backoff wait.
   */
  lemma FailingDestinationGivesUpAfterOne(name: string, servers: seq<string>, settings: seq<Setting>, waits: nat)
    requires servers != [] && waits > 0
    ensures var d := Retry(name, 1, servers, settings, 0, waits, None, Env([], []));
      d.err == Some(RetriesExceeded(name, 1)) && d.attempts == 1 && d.connectErrors == 1 &&
      d.sendErrors == 0 && d.exceeded == 1 && d.conn == None
  {
    var env := Env([], []);
    SilentServersNeverConnect(servers, Identity(|servers|), env, None);
    assert Connect(None, servers, env).conn == None;
    ConnectResult(None, servers, env);
    var a := Attempt(None, servers, settings, env);
    assert a.outcome.ConnectFailed?;
    var rest := Retry(name, 1, servers, settings, 1, waits - 1, a.conn, a.env);
    assert rest.err == Some(RetriesExceeded(name, 1)) && rest.attempts == 0 && rest.exceeded == 1;
  }
}
