// The world a destination writer talks to, reduced to what decides its
// control flow: the success or failure of each network call (dial, ping,
// insert), the permutations drawn from the random source, the cancellation
// of the caller's context, and a log of the calls made.
module Environment {

  datatype Option<T> = None | Some(value: T)

  /** A ClickHouse query setting, as ch.Setting carries it. */
  datatype Setting = Setting(key: string, value: string, important: bool)

  /** A live client connection to one server. */
  datatype Client = Client(address: string)

  /** One network call, as the server side would observe it. */
  datatype Event =
    | Dial(address: string)
    | Ping(address: string)
    | Close(address: string)
    | Send(address: string, settings: seq<Setting>)

  /**
   * What the network and the random source will answer: `outcomes` holds
   * the results of the next network calls in the order they are made (a
   * call made once the script is exhausted fails), `perms` the next results
   * of rand.Perm (once exhausted, servers are tried in listed order).
   */
  datatype Env = Env(outcomes: seq<bool>, perms: seq<seq<nat>>)

  /**
   * The caller's context, shared by the goroutines of a flush: waits(k) is
   * how many backoff waits the goroutine of destination k completes before
   * it sees the context cancelled. Goroutines dial, send and sleep for
   * different times, so the counts may differ from one destination to the
   * next.
   */
  datatype Context = Context(waits: nat -> nat)

  /** Result of the next network call. */
  function Outcome(e: Env): bool {
    |e.outcomes| > 0 && e.outcomes[0]
  }

  /** The environment once the next network call has been made. */
  function Consume(e: Env): (r: Env)
    ensures r.perms == e.perms
    ensures |r.outcomes| == if |e.outcomes| > 0 then |e.outcomes| - 1 else 0
  {
    if |e.outcomes| > 0 then e.(outcomes := e.outcomes[1..]) else e
  }

  /** p lists every index of a sequence of length n exactly once. */
  predicate IsPermutation(p: seq<nat>, n: nat) {
    |p| == n &&
    (forall i :: 0 <= i < n ==> p[i] < n) &&
    (forall i, j :: 0 <= i < j < n ==> p[i] != p[j])
  }

  function Identity(n: nat): (p: seq<nat>)
    ensures IsPermutation(p, n)
    ensures forall i :: 0 <= i < n ==> p[i] == i
  {
    seq(n, i => i)
  }

  /**
   * rand.Perm(n): the next scripted permutation. rand.Perm only ever
   * returns a permutation of 0..n-1, so a scripted entry that is not one
   * stands for the identity, as does an exhausted script.
   */
  function NextPerm(e: Env, n: nat): (p: seq<nat>)
    ensures IsPermutation(p, n)
  {
    if |e.perms| > 0 && IsPermutation(e.perms[0], n) then e.perms[0] else Identity(n)
  }

  /** The environment once rand.Perm has been called. */
  function DrawPerm(e: Env): (r: Env)
    ensures r.outcomes == e.outcomes
  {
    if |e.perms| > 0 then e.(perms := e.perms[1..]) else e
  }

  /**
   * The servers of one destination as seen by its writer. Every call takes
   * its result from the script and is appended to the log.
   */
  class Network {
    var env: Env
    var events: seq<Event>

    constructor (env: Env)
      ensures this.env == env && events == []
    {
      this.env := env;
      events := [];
    }

    /** One network call: its result is the next outcome of the script. */
    method Call(e: Event) returns (ok: bool)
      modifies this
      ensures ok == Outcome(old(env))
      ensures env == Consume(old(env))
      ensures events == old(events) + [e]
    {
      ok := Outcome(env);
      env := Consume(env);
      events := events + [e];
    }

    /** Closing a connection always succeeds and is logged. */
    method CloseClient(c: Client)
      modifies this
      ensures env == old(env)
      ensures events == old(events) + [Close(c.address)]
    {
      events := events + [Close(c.address)];
    }

    /** rand.Perm(n) */
    method Perm(n: nat) returns (p: seq<nat>)
      modifies this
      ensures p == NextPerm(old(env), n)
      ensures env == DrawPerm(old(env)) && events == old(events)
    {
      p := NextPerm(env, n);
      env := DrawPerm(env);
    }
  }
}
