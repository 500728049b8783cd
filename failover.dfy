// What connectDestination does, as functions of the writer's current
// connection, its server list and the environment's answers: reuse a
// healthy connection, otherwise walk a random permutation of the servers and
// keep the first one that both dials and answers a ping.
module Failover {
  import opened Environment

  /** Why a connection attempt to one server failed. */
  datatype ConnectError = DialFailed(server: string) | PingFailed(server: string)

  /**
   * The outcome of connecting: the writer's connection afterwards, the error
   * returned (None for nil), the server indexes dialled in order, what is
   * left of the environment, and the network calls made.
   */
  datatype Connection = Connection(conn: Option<Client>, err: Option<ConnectError>, tried: seq<nat>, env: Env, events: seq<Event>)

  predicate IndexesFit(perm: seq<nat>, n: nat) {
    forall i :: 0 <= i < |perm| ==> perm[i] < n
  }

  /** r preceded by the given dialled indexes and network calls. */
  function Prefixed(tried: seq<nat>, events: seq<Event>, r: Connection): Connection {
    r.(tried := tried + r.tried, events := events + r.events)
  }

  /**
   * The failover loop over the servers still to try, in permutation order;
   * lastErr is the error of the latest failed server.
   */
  function TryServers(servers: seq<string>, perm: seq<nat>, env: Env, lastErr: Option<ConnectError>): (r: Connection)
    requires IndexesFit(perm, |servers|)
    ensures |r.tried| <= |perm|
    ensures r.conn.Some? ==> r.err == None
    decreases |perm|
  {
    if perm == [] then Connection(None, lastErr, [], env, [])
    else
      var address := servers[perm[0]];
      if !Outcome(env) then
        Prefixed([perm[0]], [Dial(address)],
                 TryServers(servers, perm[1..], Consume(env), Some(DialFailed(address))))
      else if !Outcome(Consume(env)) then
        Prefixed([perm[0]], [Dial(address), Ping(address), Close(address)],
                 TryServers(servers, perm[1..], Consume(Consume(env)), Some(PingFailed(address))))
      else
        Connection(Some(Client(address)), None, [perm[0]], Consume(Consume(env)), [Dial(address), Ping(address)])
  }

  /** connectDestination, starting from the writer's connection conn. */
  function Connect(conn: Option<Client>, servers: seq<string>, env: Env): (r: Connection)
    ensures |r.tried| <= |servers|
    ensures r.conn.Some? ==> r.err == None
  {
    if conn.Some? && Outcome(env) then
      Connection(conn, None, [], Consume(env), [Ping(conn.value.address)])
    else
      var env' := if conn.Some? then Consume(env) else env;
      var closed := if conn.Some? then [Ping(conn.value.address), Close(conn.value.address)] else [];
      Prefixed([], closed, TryServers(servers, NextPerm(env', |servers|), DrawPerm(env'), None))
  }

  /**
   * The loop dials the servers in permutation order and stops at the first
   * that connects: the dialled indexes are a prefix of the permutation, and
   * all of it when nothing connected.
   */
  lemma {:induction false} TryServersOrder(servers: seq<string>, perm: seq<nat>, env: Env, lastErr: Option<ConnectError>)
    requires IndexesFit(perm, |servers|)
    ensures var r := TryServers(servers, perm, env, lastErr);
      |r.tried| <= |perm| && r.tried == perm[..|r.tried|] && (r.conn.None? ==> r.tried == perm)
    decreases |perm|
  {
    if perm != [] {
      var address := servers[perm[0]];
      if !Outcome(env) {
        TryServersOrder(servers, perm[1..], Consume(env), Some(DialFailed(address)));
        TriedPrefix(perm, TryServers(servers, perm[1..], Consume(env), Some(DialFailed(address))).tried);
      } else if !Outcome(Consume(env)) {
        TryServersOrder(servers, perm[1..], Consume(Consume(env)), Some(PingFailed(address)));
        TriedPrefix(perm, TryServers(servers, perm[1..], Consume(Consume(env)), Some(PingFailed(address))).tried);
      }
    }
  }

  /**
   * Once connected, the connection is to the server dialled last and the
   * call returns nil.
   */
  lemma {:induction false} TryServersConnectsLast(servers: seq<string>, perm: seq<nat>, env: Env, lastErr: Option<ConnectError>)
    requires IndexesFit(perm, |servers|)
    ensures var r := TryServers(servers, perm, env, lastErr);
      r.conn.Some? ==>
        |r.tried| > 0 && r.tried[|r.tried| - 1] < |servers| && r.conn.value == Client(servers[r.tried[|r.tried| - 1]]) && r.err == None
    decreases |perm|
  {
    if perm != [] {
      var address := servers[perm[0]];
      if !Outcome(env) {
        TryServersConnectsLast(servers, perm[1..], Consume(env), Some(DialFailed(address)));
      } else if !Outcome(Consume(env)) {
        TryServersConnectsLast(servers, perm[1..], Consume(Consume(env)), Some(PingFailed(address)));
      }
    }
  }

  /**
   * The connection is to the first server of the permutation that both
   * dials and answers: the servers dialled before it, tried alone on the
   * same answers, connect nothing.
   */
  lemma {:induction false} TryServersFirst(servers: seq<string>, perm: seq<nat>, env: Env, lastErr: Option<ConnectError>)
    requires IndexesFit(perm, |servers|)
    ensures var r := TryServers(servers, perm, env, lastErr);
      r.conn.Some? ==> 1 <= |r.tried| <= |perm| && TryServers(servers, perm[..|r.tried| - 1], env, lastErr).conn.None?
    decreases |perm|
  {
    if perm != [] {
      var address := servers[perm[0]];
      var r := TryServers(servers, perm, env, lastErr);
      if !Outcome(env) {
        var rest := TryServers(servers, perm[1..], Consume(env), Some(DialFailed(address)));
        TryServersFirst(servers, perm[1..], Consume(env), Some(DialFailed(address)));
        if rest.conn.Some? {
          assert |r.tried| == |rest.tried| + 1;
          PrefixTail(perm, |rest.tried|);
        }
      } else if !Outcome(Consume(env)) {
        var rest := TryServers(servers, perm[1..], Consume(Consume(env)), Some(PingFailed(address)));
        TryServersFirst(servers, perm[1..], Consume(Consume(env)), Some(PingFailed(address)));
        if rest.conn.Some? {
          assert |r.tried| == |rest.tried| + 1;
          PrefixTail(perm, |rest.tried|);
        }
      }
    }
  }

  /** The prefix of length m of perm starts with perm's first index, followed by the prefix of length m - 1 of the rest. */
  lemma PrefixTail(perm: seq<nat>, m: nat)
    requires 1 <= m <= |perm|
    ensures perm[..m][0] == perm[0] && perm[..m][1..] == perm[1..][..m - 1]
  {
  }

  /** The first index followed by a prefix of the rest is a prefix of the whole. */
  lemma TriedPrefix(perm: seq<nat>, t: seq<nat>)
    requires perm != [] && |t| <= |perm| - 1 && t == perm[1..][..|t|]
    ensures [perm[0]] + t == perm[..|t| + 1]
  {
  }

  /**
   * When no server connects, the error returned is the one of the last
   * server of the permutation; with no server at all, it is the error
   * carried in (nil on entry).
   */
  lemma {:induction false} TryServersLastError(servers: seq<string>, perm: seq<nat>, env: Env, lastErr: Option<ConnectError>)
    requires IndexesFit(perm, |servers|)
    ensures var r := TryServers(servers, perm, env, lastErr);
      (perm == [] ==> r.conn == None && r.err == lastErr && r.events == []) &&
      (perm != [] && r.conn.None? ==> r.err.Some? && r.err.value.server == servers[perm[|perm| - 1]])
    decreases |perm|
  {
    if perm != [] {
      var address := servers[perm[0]];
      if !Outcome(env) {
        TryServersLastError(servers, perm[1..], Consume(env), Some(DialFailed(address)));
      } else if !Outcome(Consume(env)) {
        TryServersLastError(servers, perm[1..], Consume(Consume(env)), Some(PingFailed(address)));
      }
    }
  }

  /**
   * A server becomes the connection only after it both dialled and answered
   * a ping: the last two calls of a successful failover are exactly those.
   */
  lemma {:induction false} TryServersConnectsAfterPing(servers: seq<string>, perm: seq<nat>, env: Env, lastErr: Option<ConnectError>)
    requires IndexesFit(perm, |servers|)
    ensures var r := TryServers(servers, perm, env, lastErr);
      r.conn.Some? ==> |r.events| >= 2 && r.events[|r.events| - 2..] == [Dial(r.conn.value.address), Ping(r.conn.value.address)]
    decreases |perm|
  {
    if perm != [] {
      var address := servers[perm[0]];
      if !Outcome(env) {
        TryServersConnectsAfterPing(servers, perm[1..], Consume(env), Some(DialFailed(address)));
      } else if !Outcome(Consume(env)) {
        TryServersConnectsAfterPing(servers, perm[1..], Consume(Consume(env)), Some(PingFailed(address)));
      }
    }
  }

  /** The loop consumes outcomes from the front of the script only: what is left is a suffix of it. */
  lemma {:induction false} TryServersConsumesFront(servers: seq<string>, perm: seq<nat>, env: Env, lastErr: Option<ConnectError>)
    requires IndexesFit(perm, |servers|)
    ensures var r := TryServers(servers, perm, env, lastErr);
      |r.env.outcomes| <= |env.outcomes| && r.env.outcomes == env.outcomes[|env.outcomes| - |r.env.outcomes|..]
    decreases |perm|
  {
    if perm != [] {
      var address := servers[perm[0]];
      if !Outcome(env) {
        TryServersConsumesFront(servers, perm[1..], Consume(env), Some(DialFailed(address)));
      } else if !Outcome(Consume(env)) {
        TryServersConsumesFront(servers, perm[1..], Consume(Consume(env)), Some(PingFailed(address)));
      }
    }
  }

  /**
   * A server is kept only after its dial and its ping both succeeded: the
   * last two outcomes the loop consumed from the script were successes.
   */
  lemma {:induction false} TryServersConnectsOnSuccesses(servers: seq<string>, perm: seq<nat>, env: Env, lastErr: Option<ConnectError>)
    requires IndexesFit(perm, |servers|)
    ensures var r := TryServers(servers, perm, env, lastErr);
      var used := |env.outcomes| - |r.env.outcomes|;
      r.conn.Some? ==> 2 <= used <= |env.outcomes| && env.outcomes[used - 2] && env.outcomes[used - 1]
    decreases |perm|
  {
    if perm != [] {
      var address := servers[perm[0]];
      if !Outcome(env) {
        var e1 := Consume(env);
        TryServersConnectsOnSuccesses(servers, perm[1..], e1, Some(DialFailed(address)));
        if env.outcomes != [] {
          assert e1.outcomes == env.outcomes[1..];
        }
      } else if !Outcome(Consume(env)) {
        var e2 := Consume(Consume(env));
        TryServersConnectsOnSuccesses(servers, perm[1..], e2, Some(PingFailed(address)));
        if |env.outcomes| >= 2 {
          assert e2.outcomes == env.outcomes[2..];
        }
      }
    }
  }

  /** The loop draws no permutation: only connectDestination itself does. */
  lemma {:induction false} TryServersKeepsPerms(servers: seq<string>, perm: seq<nat>, env: Env, lastErr: Option<ConnectError>)
    requires IndexesFit(perm, |servers|)
    ensures TryServers(servers, perm, env, lastErr).env.perms == env.perms
    decreases |perm|
  {
    if perm != [] {
      var address := servers[perm[0]];
      if !Outcome(env) {
        TryServersKeepsPerms(servers, perm[1..], Consume(env), Some(DialFailed(address)));
      } else if !Outcome(Consume(env)) {
        TryServersKeepsPerms(servers, perm[1..], Consume(Consume(env)), Some(PingFailed(address)));
      }
    }
  }

  /**
   * A healthy connection is reused: one ping, no dial, no permutation
   * drawn, and the call returns nil.
   */
  lemma ConnectReusesHealthy(conn: Option<Client>, servers: seq<string>, env: Env)
    requires conn.Some? && Outcome(env)
    ensures var r := Connect(conn, servers, env);
      r.conn == conn && r.err == None && r.tried == [] &&
      r.events == [Ping(conn.value.address)] && r.env.perms == env.perms
  {
  }

  /**
   * What a failover over the permutation perm, on the answers env,
   * achieves: each server index is dialled at most once, in permutation
   * order; the result is either a connection to the last server dialled and
   * nil, the servers dialled before it connecting nothing on the same
   * answers, or no connection, every server dialled and the last server's
   * error (nil when there is no server at all).
   */
  ghost predicate FailedOver(servers: seq<string>, perm: seq<nat>, env: Env, conn: Option<Client>, err: Option<ConnectError>, tried: seq<nat>) {
    |tried| <= |perm| && tried == perm[..|tried|] &&
    (forall i :: 0 <= i < |tried| ==> tried[i] < |servers|) &&
    (forall i, j :: 0 <= i < j < |tried| ==> tried[i] != tried[j]) &&
    (conn.Some? ==> |tried| > 0 && err == None && conn.value == Client(servers[tried[|tried| - 1]]) &&
                    TryServers(servers, tried[..|tried| - 1], env, None).conn.None?) &&
    (conn.None? ==> tried == perm &&
                    (servers == [] ==> err == None) &&
                    (servers != [] && |perm| > 0 ==> err.Some? && err.value.server == servers[perm[|perm| - 1]]))
  }

  /** Without a healthy connection, connecting fails over along one fresh permutation. */
  lemma ConnectFailsOver(conn: Option<Client>, servers: seq<string>, env: Env)
    requires !(conn.Some? && Outcome(env))
    ensures var r := Connect(conn, servers, env);
      var env' := if conn.Some? then Consume(env) else env;
      FailedOver(servers, NextPerm(env', |servers|), DrawPerm(env'), r.conn, r.err, r.tried)
  {
    var env' := if conn.Some? then Consume(env) else env;
    var perm := NextPerm(env', |servers|);
    var t := TryServers(servers, perm, DrawPerm(env'), None);
    var r := Connect(conn, servers, env);
    assert r.conn == t.conn && r.err == t.err && r.tried == t.tried;
    FailoverFromStart(servers, perm, DrawPerm(env'));
  }

  /** The failover loop run over a whole permutation, with no error yet. */
  lemma FailoverFromStart(servers: seq<string>, perm: seq<nat>, env: Env)
    requires IsPermutation(perm, |servers|)
    ensures var t := TryServers(servers, perm, env, None);
      FailedOver(servers, perm, env, t.conn, t.err, t.tried)
  {
    var t := TryServers(servers, perm, env, None);
    TryServersOrder(servers, perm, env, None);
    TryServersConnectsLast(servers, perm, env, None);
    TryServersLastError(servers, perm, env, None);
    TryServersFirst(servers, perm, env, None);
    PrefixOfPermutation(perm, |servers|, t.tried);
    if t.conn.Some? {
      assert t.tried[..|t.tried| - 1] == perm[..|t.tried| - 1];
    }
  }

  /** A prefix of a permutation repeats no index. */
  lemma PrefixOfPermutation(perm: seq<nat>, n: nat, tried: seq<nat>)
    requires IsPermutation(perm, n)
    requires |tried| <= |perm| && tried == perm[..|tried|]
    ensures forall i :: 0 <= i < |tried| ==> tried[i] < n
    ensures forall i, j :: 0 <= i < j < |tried| ==> tried[i] != tried[j]
  {
  }

  /**
   * An unhealthy connection is pinged, closed and dropped before the
   * failover; the permutation is drawn only then, once per call.
   */
  lemma ConnectDropsUnhealthy(conn: Option<Client>, servers: seq<string>, env: Env)
    requires conn.Some? && !Outcome(env)
    ensures var r := Connect(conn, servers, env);
      |r.events| >= 2 && r.events[..2] == [Ping(conn.value.address), Close(conn.value.address)] &&
      r.env.perms == DrawPerm(env).perms
  {
    var perm := NextPerm(Consume(env), |servers|);
    TryServersKeepsPerms(servers, perm, DrawPerm(Consume(env)), None);
  }

  /** When every network call fails, no server connects. */
  lemma {:induction false} SilentServersNeverConnect(servers: seq<string>, perm: seq<nat>, env: Env, lastErr: Option<ConnectError>)
    requires IndexesFit(perm, |servers|)
    requires env.outcomes == []
    ensures var r := TryServers(servers, perm, env, lastErr);
      r.conn == None && r.env.outcomes == []
    decreases |perm|
  {
    if perm != [] {
      SilentServersNeverConnect(servers, perm[1..], Consume(env), Some(DialFailed(servers[perm[0]])));
    }
  }

  /**
   * With at least one server, connecting returns nil exactly when it leaves
   * a connection behind. With none and no connection, it returns nil and
   * still leaves none.
   */
  lemma ConnectResult(conn: Option<Client>, servers: seq<string>, env: Env)
    ensures var r := Connect(conn, servers, env);
      (servers != [] ==> (r.err.None? <==> r.conn.Some?)) &&
      (servers == [] && conn.None? ==> r.err == None && r.conn == None)
  {
    if !(conn.Some? && Outcome(env)) {
      ConnectFailsOver(conn, servers, env);
    }
  }

  /**
   * Two servers that both answer: the first of the permutation is kept and
   * the second is never dialled.
   */
  lemma FirstHealthyServerWins(a: string, b: string)
    ensures var r := Connect(None, [a, b], Env([true, true, true, true], []));
      r.conn == Some(Client(a)) && r.tried == [0] && r.events == [Dial(a), Ping(a)]
  {
  }

  /**
   * Three servers listed in order, the first two refusing the dial: the
   * third is connected, and a later call whose ping succeeds reuses it
   * without dialling.
   */
  lemma ThirdServerScenario(a: string, b: string, c: string)
    ensures var r := Connect(None, [a, b, c], Env([false, false, true, true, true], []));
      r.conn == Some(Client(c)) && r.err == None && r.tried == [0, 1, 2] &&
      r.events == [Dial(a), Dial(b), Dial(c), Ping(c)] && r.env == Env([true], [])
    ensures var r := Connect(Some(Client(c)), [a, b, c], Env([true], []));
      r.conn == Some(Client(c)) && r.events == [Ping(c)]
  {
    var s := [a, b, c];
    var env := Env([false, false, true, true, true], []);
    var e1 := Env([false, true, true, true], []);
    var e2 := Env([true, true, true], []);
    var e4 := Env([true], []);
    assert Consume(env) == e1 && Consume(e1) == e2 && Consume(Consume(e2)) == e4;
    assert Identity(3) == [0, 1, 2];
    assert [0, 1, 2][1..] == [1, 2] && [1, 2][1..] == [2];
    var t2 := TryServers(s, [2], e2, Some(DialFailed(b)));
    assert t2 == Connection(Some(Client(c)), None, [2], e4, [Dial(c), Ping(c)]);
    var t1 := TryServers(s, [1, 2], e1, Some(DialFailed(a)));
    assert t1 == Prefixed([1], [Dial(b)], t2);
    var t0 := TryServers(s, [0, 1, 2], env, None);
    assert t0 == Prefixed([0], [Dial(a)], t1);
  }
}
