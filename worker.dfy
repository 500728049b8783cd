// A worker of the ClickHouse exporter: it owns a batch of flows and one
// writer per destination, decides when to flush, sends every flushed batch
// to each destination with that destination's retry policy, and reports its
// load to the worker pool.
module Worker {
  import opened Environment
  import opened Root
  import opened Policy
  import opened Failover
  import opened Retries

  /** The batch of flows a worker fills and sends, reduced to its count. */
  class FlowBatch {
    var count: nat
    var finalized: bool

    constructor (count: nat)
      ensures this.count == count && !finalized
    {
      this.count := count;
      finalized := false;
    }

    /**
     * Seals the flow being built into the batch before it is measured.
     * count already includes that flow: it is what FlowCount() returns
     * once Finalize has run, so sealing leaves it unchanged.
     */
    method Finalize()
      modifies this
      ensures count == old(count) && finalized
    {
      finalized := true;
    }

    method Clear()
      modifies this
      ensures count == 0 && !finalized
    {
      count := 0;
      finalized := false;
    }
  }

  /** The write handler of one destination: its settings and its connection. */
  class DestinationWriter {
    const name: string
    const servers: seq<string>
    const config: Configuration
    const maxRetries: nat
    const asyncSettings: seq<Setting>
    var conn: Option<Client>

    constructor (dest: DestinationConfig)
      ensures name == dest.name && servers == dest.db.servers && config == dest.config
      ensures maxRetries == dest.db.maxRetries && asyncSettings == AsyncSettings(dest.config)
      ensures conn == None
    {
      name := dest.name;
      servers := dest.db.servers;
      config := dest.config;
      maxRetries := dest.db.maxRetries;
      asyncSettings := AsyncSettings(dest.config);
      conn := None;
    }
  }

  /**
   * The writer w and its network net are where the retry loop d left them,
   * the calls of d following the calls logged before.
   */
  predicate Ended(w: DestinationWriter, net: Network, before: seq<Event>, d: Delivery)
    reads w, net
  {
    w.conn == d.conn && net.env == d.env && net.events == before + d.events
  }

  /** The error counters e once the retry loop d of destination name has added its connect and send errors. */
  function Charged(e: map<(string, Phase), nat>, name: string, d: Delivery): map<(string, Phase), nat> {
    Bump(Bump(e, (name, ConnectPhase), d.connectErrors), (name, SendPhase), d.sendErrors)
  }

  /** The error counters e after one attempt with outcome o at destination name. */
  function ChargedOnce(e: map<(string, Phase), nat>, name: string, o: AttemptOutcome): map<(string, Phase), nat> {
    Bump(Bump(e, (name, ConnectPhase), Failures(o).0), (name, SendPhase), Failures(o).1)
  }

  /** Charging a failed attempt, then the rest of the loop, charges the whole loop. */
  lemma ChargedAfter(e: map<(string, Phase), nat>, name: string, a: AttemptResult, d: Delivery)
    ensures Charged(ChargedOnce(e, name, a.outcome), name, d) == Charged(e, name, After(a, d))
  {
  }

  /** Where the retry loop of one destination starts from. */
  datatype Start = Start(name: string, maxRetries: nat, servers: seq<string>, settings: seq<Setting>,
                         conn: Option<Client>, env: Env, events: seq<Event>)

  /** What the retry loop from s ends with, when the context allows waits backoff waits. */
  function Deliver(s: Start, waits: nat): Delivery
    requires s.servers != []
  {
    Retry(s.name, s.maxRetries, s.servers, s.settings, 0, waits, s.conn, s.env)
  }

  /** What a destination's writer and network hold: the connection, the scripted environment, the calls made so far. */
  datatype Side = Side(conn: Option<Client>, env: Env, events: seq<Event>)

  /** What the writer w and its network net hold now. */
  function SideOf(w: DestinationWriter, net: Network): Side
    reads w, net
  {
    Side(w.conn, net.env, net.events)
  }

  /** Where the retry loop from s starts. */
  function Initial(s: Start): Side {
    Side(s.conn, s.env, s.events)
  }

  /** Where the retry loop d, started from s, leaves its destination. */
  function Final(s: Start, d: Delivery): Side {
    Side(d.conn, d.env, s.events + d.events)
  }

  /**
   * The destinations of starts once the first |ds| of them have run their
   * retry loops ds and the others have not started theirs.
   */
  function Progress(starts: seq<Start>, ds: seq<Delivery>): seq<Side>
    requires |ds| <= |starts|
  {
    seq(|starts|, i requires 0 <= i < |starts| => if i < |ds| then Final(starts[i], ds[i]) else Initial(starts[i]))
  }

  /** The destination at |ds| has not started, and running its loop d changes it alone. */
  lemma ProgressStep(starts: seq<Start>, ds: seq<Delivery>, d: Delivery)
    requires |ds| < |starts|
    ensures Progress(starts, ds)[|ds|] == Initial(starts[|ds|])
    ensures Progress(starts, ds + [d]) == Progress(starts, ds)[|ds| := Final(starts[|ds|], d)]
  {
  }

  /** What the retry loops of the first n destinations end with, each given its own backoff waits under ctx. */
  function Deliveries(starts: seq<Start>, ctx: Context, n: nat): (r: seq<Delivery>)
    requires n <= |starts| && forall i :: 0 <= i < |starts| ==> starts[i].servers != []
    ensures |r| == n
  {
    if n == 0 then [] else Deliveries(starts, ctx, n - 1) + [Deliver(starts[n - 1], ctx.waits(n - 1))]
  }

  /** One more destination's retry loop extends the deliveries by it. */
  lemma DeliveriesNext(starts: seq<Start>, ctx: Context, k: nat)
    requires k < |starts| && forall i :: 0 <= i < |starts| ==> starts[i].servers != []
    ensures Deliveries(starts, ctx, k + 1) == Deliveries(starts, ctx, k) + [Deliver(starts[k], ctx.waits(k))]
  {
  }

  /** The i-th of the deliveries is the retry loop from the i-th start. */
  lemma {:induction false} DeliveriesAt(starts: seq<Start>, ctx: Context, n: nat, i: nat)
    requires n <= |starts| && forall j :: 0 <= j < |starts| ==> starts[j].servers != []
    requires i < n
    ensures Deliveries(starts, ctx, n)[i] == Deliver(starts[i], ctx.waits(i))
  {
    if i < n - 1 {
      DeliveriesAt(starts, ctx, n - 1, i);
    }
  }

  /** The error counters e after the retry loops ds of the first |ds| destinations of starts. */
  function ChargedAll(e: map<(string, Phase), nat>, starts: seq<Start>, ds: seq<Delivery>): map<(string, Phase), nat>
    requires |ds| <= |starts|
  {
    if ds == [] then e
    else Charged(ChargedAll(e, starts, ds[..|ds| - 1]), starts[|ds| - 1].name, ds[|ds| - 1])
  }

  /** The exhaustion counters x after the retry loops ds of the first |ds| destinations of starts. */
  function ExceededAll(x: map<string, nat>, starts: seq<Start>, ds: seq<Delivery>): map<string, nat>
    requires |ds| <= |starts|
  {
    if ds == [] then x
    else Bump(ExceededAll(x, starts, ds[..|ds| - 1]), starts[|ds| - 1].name, ds[|ds| - 1].exceeded)
  }

  /** Charging one more retry loop d charges it after the ones before. */
  lemma ChargedAllStep(e: map<(string, Phase), nat>, starts: seq<Start>, ds: seq<Delivery>, d: Delivery)
    requires |ds| < |starts|
    ensures ChargedAll(e, starts, ds + [d]) == Charged(ChargedAll(e, starts, ds), starts[|ds|].name, d)
  {
  }

  /** Counting the exhaustion of one more retry loop d counts it after the ones before. */
  lemma ExceededAllStep(x: map<string, nat>, starts: seq<Start>, ds: seq<Delivery>, d: Delivery)
    requires |ds| < |starts|
    ensures ExceededAll(x, starts, ds + [d]) == Bump(ExceededAll(x, starts, ds), starts[|ds|].name, d.exceeded)
  {
  }

  /**
   * Destinations with distinct names count their errors independently:
   * each one's connect and send counters grew by what its own retry loop
   * counted.
   */
  lemma {:induction false} ChargedAllCounts(e: map<(string, Phase), nat>, starts: seq<Start>, ds: seq<Delivery>)
    requires |ds| <= |starts|
    requires forall i, j :: 0 <= i < j < |ds| ==> starts[i].name != starts[j].name
    ensures forall i :: 0 <= i < |ds| ==>
              Count(ChargedAll(e, starts, ds), (starts[i].name, ConnectPhase)) ==
                Count(e, (starts[i].name, ConnectPhase)) + ds[i].connectErrors &&
              Count(ChargedAll(e, starts, ds), (starts[i].name, SendPhase)) ==
                Count(e, (starts[i].name, SendPhase)) + ds[i].sendErrors
  {
    if ds != [] {
      var p, n, last := ds[..|ds| - 1], starts[|ds| - 1].name, ds[|ds| - 1];
      ChargedAllCounts(e, starts, p);
      ChargedAllElsewhere(e, starts, p, (n, ConnectPhase));
      ChargedAllElsewhere(e, starts, p, (n, SendPhase));
      forall i | 0 <= i < |ds|
        ensures Count(ChargedAll(e, starts, ds), (starts[i].name, ConnectPhase)) ==
                  Count(e, (starts[i].name, ConnectPhase)) + ds[i].connectErrors
        ensures Count(ChargedAll(e, starts, ds), (starts[i].name, SendPhase)) ==
                  Count(e, (starts[i].name, SendPhase)) + ds[i].sendErrors
      {
        ChargedCount(ChargedAll(e, starts, p), n, last, (starts[i].name, ConnectPhase));
        ChargedCount(ChargedAll(e, starts, p), n, last, (starts[i].name, SendPhase));
        if i < |p| {
          assert ds[i] == p[i];
        }
      }
    }
  }

  /** What charging one retry loop does to any one error counter. */
  lemma ChargedCount(e: map<(string, Phase), nat>, name: string, d: Delivery, k: (string, Phase))
    ensures Count(Charged(e, name, d), k) ==
      Count(e, k) + (if k == (name, ConnectPhase) then d.connectErrors else if k == (name, SendPhase) then d.sendErrors else 0)
  {
  }

  /** A label of no destination among the first |ds| is not charged. */
  lemma {:induction false} ChargedAllElsewhere(e: map<(string, Phase), nat>, starts: seq<Start>, ds: seq<Delivery>, k: (string, Phase))
    requires |ds| <= |starts|
    requires forall i :: 0 <= i < |ds| ==> k.0 != starts[i].name
    ensures Count(ChargedAll(e, starts, ds), k) == Count(e, k)
  {
    if ds != [] {
      ChargedAllElsewhere(e, starts, ds[..|ds| - 1], k);
    }
  }

  /**
   * Destinations with distinct names count their exhaustion independently:
   * each one's counter grew by what its own retry loop counted.
   */
  lemma {:induction false} ExceededAllCounts(x: map<string, nat>, starts: seq<Start>, ds: seq<Delivery>)
    requires |ds| <= |starts|
    requires forall i, j :: 0 <= i < j < |ds| ==> starts[i].name != starts[j].name
    ensures forall i :: 0 <= i < |ds| ==>
              Count(ExceededAll(x, starts, ds), starts[i].name) == Count(x, starts[i].name) + ds[i].exceeded
  {
    if ds != [] {
      ExceededAllCounts(x, starts, ds[..|ds| - 1]);
      ExceededAllElsewhere(x, starts, ds[..|ds| - 1], starts[|ds| - 1].name);
    }
  }

  /** The counter of no destination among the first |ds| does not move. */
  lemma {:induction false} ExceededAllElsewhere(x: map<string, nat>, starts: seq<Start>, ds: seq<Delivery>, k: string)
    requires |ds| <= |starts|
    requires forall i :: 0 <= i < |ds| ==> k != starts[i].name
    ensures Count(ExceededAll(x, starts, ds), k) == Count(x, k)
  {
    if ds != [] {
      ExceededAllElsewhere(x, starts, ds[..|ds| - 1], k);
    }
  }

  /** The names of the writers ws, in order. */
  function Names(ws: seq<DestinationWriter>): seq<string> {
    Map(ws, (w: DestinationWriter) => w.name)
  }

  /** The writer w carries the settings NewWorker gives the writer of dest. */
  predicate WriterFor(w: DestinationWriter, dest: DestinationConfig) {
    w.name == dest.name && w.servers == dest.db.servers && w.config == dest.config &&
    w.maxRetries == dest.db.maxRetries && w.asyncSettings == AsyncSettings(dest.config)
  }

  class Worker {
    const c: Component
    const bf: FlowBatch
    var last: Timestamp
    const destWriters: seq<DestinationWriter>

    constructor (c: Component, bf: FlowBatch, destWriters: seq<DestinationWriter>)
      ensures this.c == c && this.bf == bf && this.destWriters == destWriters && last == ZeroTime
    {
      this.c := c;
      this.bf := bf;
      this.destWriters := destWriters;
      last := ZeroTime;
    }

    /**
     * One writer per destination, each its own object, with at least one
     * server (the configuration validator ensures it; with none, the send
     * would go through a nil connection).
     */
    predicate Valid() {
      c.divider > 0 &&
      |destWriters| == |c.destinations| &&
      Distinct(destWriters) &&
      (forall i :: 0 <= i < |destWriters| ==> destWriters[i].servers != [])
    }

    /** One network per destination writer, each its own object. */
    predicate NetworksFit(nets: seq<Network>) {
      |nets| == |destWriters| && Distinct(nets)
    }

    /**
     * starts describes, writer by writer, the retry loop a batch of count
     * flows runs: the writer's name, servers and ceiling, and the settings
     * it picks for that batch.
     */
    predicate Planned(starts: seq<Start>, count: nat) {
      c.divider > 0 && |starts| == |destWriters| &&
      forall i :: 0 <= i < |starts| ==>
        starts[i].name == destWriters[i].name && starts[i].servers == destWriters[i].servers &&
        starts[i].maxRetries == destWriters[i].maxRetries &&
        starts[i].settings == SettingsFor(count, destWriters[i].config, c.divider, destWriters[i].asyncSettings)
    }

    /** s describes the retry loop of writer k for a batch of count flows. */
    predicate PlannedAt(s: Start, k: nat, count: nat)
      requires k < |destWriters|
    {
      c.divider > 0 &&
      s.name == destWriters[k].name && s.servers == destWriters[k].servers && s.maxRetries == destWriters[k].maxRetries &&
      s.settings == SettingsFor(count, destWriters[k].config, c.divider, destWriters[k].asyncSettings) &&
      s.servers != []
    }

    /** What each destination's writer and network hold now. */
    ghost function Sides(nets: seq<Network>): seq<Side>
      requires |nets| == |destWriters|
      reads set i | 0 <= i < |destWriters| :: destWriters[i]
      reads set i | 0 <= i < |nets| :: nets[i]
    {
      seq(|destWriters|, i requires 0 <= i < |destWriters| && i < |nets| reads if 0 <= i < |nets| then {destWriters[i], nets[i]} else {} => SideOf(destWriters[i], nets[i]))
    }

    /** Where the retry loop of each writer starts when the batch holds count flows. */
    ghost function Starts(nets: seq<Network>, count: nat): (r: seq<Start>)
      requires c.divider > 0 && |nets| == |destWriters|
      reads set i | 0 <= i < |destWriters| :: destWriters[i]
      reads set i | 0 <= i < |nets| :: nets[i]
      ensures Planned(r, count)
      ensures Sides(nets) == Progress(r, [])
    {
      seq(|destWriters|, i requires 0 <= i < |destWriters| reads destWriters, nets =>
        var w := destWriters[i];
        Start(w.name, w.maxRetries, w.servers, SettingsFor(count, w.config, c.divider, w.asyncSettings),
              w.conn, nets[i].env, nets[i].events))
    }

    /**
     * FinalizeAndSend, at the instant now, with the flush finishing at
     * flushedAt: flush when the batch reached the primary's size threshold
     * or the primary's wait time has elapsed since the last flush, then
     * report the load; otherwise leave everything but the finalized batch
     * as it was and report OK.
     */
    method FinalizeAndSend(ctx: Context, nets: seq<Network>, now: int, flushedAt: int) returns (status: WorkerStatus)
      requires Valid() && NetworksFit(nets)
      modifies this, bf, c.metrics
      modifies destWriters, nets
      ensures status == Decide(old(bf.count), Since(now, old(last)), c.PrimaryConfig(), c.divider)
      ensures var starts := old(Starts(nets, bf.count));
        !ShouldFlush(old(bf.count), Since(now, old(last)), c.PrimaryConfig()) ==>
          last == old(last) && bf.count == old(bf.count) && bf.finalized && unchanged(c.metrics) &&
          Sides(nets) == Progress(starts, [])
      ensures var starts := old(Starts(nets, bf.count));
        ShouldFlush(old(bf.count), Since(now, old(last)), c.PrimaryConfig()) ==>
          last == At(flushedAt) &&
          c.metrics.waitTimes == old(c.metrics.waitTimes) + (if old(last).ZeroTime? then [] else [Since(now, old(last))]) &&
          c.metrics.overloaded == old(c.metrics.overloaded) + (if status == WorkerStatusOverloaded then 1 else 0) &&
          c.metrics.underloaded == old(c.metrics.underloaded) + (if status == WorkerStatusUnderloaded then 1 else 0) &&
          bf.count == 0 && !(old(bf.count) > 0 && bf.finalized) &&
          (old(bf.count) == 0 ==>
             c.metrics.errors == old(c.metrics.errors) && c.metrics.retriesExceeded == old(c.metrics.retriesExceeded) &&
             Sides(nets) == Progress(starts, [])) &&
          (old(bf.count) > 0 ==>
             var ds := Deliveries(starts, ctx, |starts|);
             c.metrics.errors == ChargedAll(old(c.metrics.errors), starts, ds) &&
             c.metrics.retriesExceeded == ExceededAll(old(c.metrics.retriesExceeded), starts, ds) &&
             Sides(nets) == Progress(starts, ds))
    {
      ghost var starts := Starts(nets, bf.count);
      bf.Finalize();
      var batchSize := bf.count;
      var waitTime := Since(now, last);
      var primary := c.PrimaryConfig();
      if batchSize >= primary.maximumBatchSize || waitTime >= primary.maximumWaitTime {
        status := FlushAndReport(ctx, nets, starts, waitTime, flushedAt);
      } else {
        status := WorkerStatusOK;
      }
    }

    /**
     * The flushing branch of FinalizeAndSend: record the wait since the
     * previous flush (there is none before the first), flush, note when the
     * flush finished, then count the worker as overloaded or underloaded as
     * Classify reads the size of the batch.
     */
    method FlushAndReport(ctx: Context, nets: seq<Network>, ghost starts: seq<Start>, waitTime: int, flushedAt: int)
      returns (status: WorkerStatus)
      requires Valid() && NetworksFit(nets)
      requires Planned(starts, bf.count) && Sides(nets) == Progress(starts, [])
      modifies this, bf, c.metrics
      modifies destWriters, nets
      ensures status == Classify(old(bf.count), c.PrimaryConfig(), c.divider)
      ensures last == At(flushedAt)
      ensures c.metrics.waitTimes == old(c.metrics.waitTimes) + (if old(last).ZeroTime? then [] else [waitTime])
      ensures c.metrics.overloaded == old(c.metrics.overloaded) + (if status == WorkerStatusOverloaded then 1 else 0)
      ensures c.metrics.underloaded == old(c.metrics.underloaded) + (if status == WorkerStatusUnderloaded then 1 else 0)
      ensures bf.count == 0 && !(old(bf.count) > 0 && bf.finalized)
      ensures old(bf.count) == 0 ==>
                c.metrics.errors == old(c.metrics.errors) && c.metrics.retriesExceeded == old(c.metrics.retriesExceeded) &&
                Sides(nets) == Progress(starts, [])
      ensures old(bf.count) > 0 ==>
                var ds := Deliveries(starts, ctx, |starts|);
                c.metrics.errors == ChargedAll(old(c.metrics.errors), starts, ds) &&
                c.metrics.retriesExceeded == ExceededAll(old(c.metrics.retriesExceeded), starts, ds) &&
                Sides(nets) == Progress(starts, ds)
    {
      var batchSize := bf.count;
      if last != ZeroTime {
        c.metrics.waitTimes := c.metrics.waitTimes + [waitTime];
      }
      Flush(ctx, nets, starts);
      status := Report(nets, batchSize, flushedAt);
    }

    /**
     * After a flush: note when it finished and count the worker as
     * overloaded or underloaded as Classify reads the size of the batch,
     * leaving the error counters and every destination as they are.
     */
    method Report(ghost nets: seq<Network>, batchSize: nat, flushedAt: int) returns (status: WorkerStatus)
      requires Valid() && NetworksFit(nets)
      modifies this, c.metrics
      ensures status == Classify(batchSize, c.PrimaryConfig(), c.divider)
      ensures last == At(flushedAt)
      ensures c.metrics.overloaded == old(c.metrics.overloaded) + (if status == WorkerStatusOverloaded then 1 else 0)
      ensures c.metrics.underloaded == old(c.metrics.underloaded) + (if status == WorkerStatusUnderloaded then 1 else 0)
      ensures c.metrics.waitTimes == old(c.metrics.waitTimes)
      ensures c.metrics.errors == old(c.metrics.errors) && c.metrics.retriesExceeded == old(c.metrics.retriesExceeded)
      ensures Sides(nets) == old(Sides(nets))
    {
      var primary := c.PrimaryConfig();
      last := At(flushedAt);
      if batchSize >= primary.maximumBatchSize {
        c.metrics.overloaded := c.metrics.overloaded + 1;
        status := WorkerStatusOverloaded;
      } else if batchSize <= primary.maximumBatchSize / c.divider {
        c.metrics.underloaded := c.metrics.underloaded + 1;
        status := WorkerStatusUnderloaded;
      } else {
        status := WorkerStatusOK;
      }
    }

    /**
     * Flush, with every writer where starts says: nothing to do for an
     * empty batch; otherwise send the batch to every destination, each
     * independently of the others' failures, then clear it whatever the
     * destinations answered.
     */
    method Flush(ctx: Context, nets: seq<Network>, ghost starts: seq<Start>)
      requires Valid() && NetworksFit(nets)
      requires Planned(starts, bf.count) && Sides(nets) == Progress(starts, [])
      modifies bf, c.metrics
      modifies destWriters, nets
      ensures c.metrics.waitTimes == old(c.metrics.waitTimes)
      ensures c.metrics.overloaded == old(c.metrics.overloaded) && c.metrics.underloaded == old(c.metrics.underloaded)
      ensures old(bf.count) == 0 ==>
                bf.count == 0 && bf.finalized == old(bf.finalized) &&
                c.metrics.errors == old(c.metrics.errors) && c.metrics.retriesExceeded == old(c.metrics.retriesExceeded) &&
                Sides(nets) == Progress(starts, [])
      ensures old(bf.count) > 0 ==>
                var ds := Deliveries(starts, ctx, |starts|);
                bf.count == 0 && !bf.finalized &&
                c.metrics.errors == ChargedAll(old(c.metrics.errors), starts, ds) &&
                c.metrics.retriesExceeded == ExceededAll(old(c.metrics.retriesExceeded), starts, ds) &&
                Sides(nets) == Progress(starts, ds)
    {
      if bf.count == 0 {
        return;
      }
      FlushAll(ctx, nets, starts);
      bf.Clear();
    }

    /**
     * The loop of Flush over the writers (the goroutines of its error
     * group, run one after the other): every destination runs its own
     * retry loop from where starts says, and the batch is not touched.
     */
    method FlushAll(ctx: Context, nets: seq<Network>, ghost starts: seq<Start>)
      requires NetworksFit(nets) && Distinct(destWriters) && forall i :: 0 <= i < |starts| ==> starts[i].servers != []
      requires Planned(starts, bf.count) && Sides(nets) == Progress(starts, [])
      modifies c.metrics
      modifies destWriters, nets
      ensures c.metrics.waitTimes == old(c.metrics.waitTimes)
      ensures c.metrics.overloaded == old(c.metrics.overloaded) && c.metrics.underloaded == old(c.metrics.underloaded)
      ensures var ds := Deliveries(starts, ctx, |starts|);
        c.metrics.errors == ChargedAll(old(c.metrics.errors), starts, ds) &&
        c.metrics.retriesExceeded == ExceededAll(old(c.metrics.retriesExceeded), starts, ds) &&
        Sides(nets) == Progress(starts, ds)
    {
      ghost var ds: seq<Delivery> := [];
      var k := 0;
      while k < |destWriters|
        invariant k <= |destWriters|
        invariant c.metrics.waitTimes == old(c.metrics.waitTimes)
        invariant c.metrics.overloaded == old(c.metrics.overloaded) && c.metrics.underloaded == old(c.metrics.underloaded)
        invariant ds == Deliveries(starts, ctx, k)
        invariant c.metrics.errors == ChargedAll(old(c.metrics.errors), starts, ds)
        invariant c.metrics.retriesExceeded == ExceededAll(old(c.metrics.retriesExceeded), starts, ds)
        invariant Sides(nets) == Progress(starts, ds)
      {
        ds := FlushNext(ctx, nets, k, starts, ds, old(c.metrics.errors), old(c.metrics.retriesExceeded));
        k := k + 1;
      }
    }

    /**
     * One turn of the loop of FlushAll: after the first k destinations have
     * run their retry loops ds, destination k runs its own, and the state
     * is that of the first k + 1 loops from the counters e and x.
     */
    method FlushNext(ctx: Context, nets: seq<Network>, k: nat, ghost starts: seq<Start>, ghost ds: seq<Delivery>,
                     ghost e: map<(string, Phase), nat>, ghost x: map<string, nat>) returns (ghost ds': seq<Delivery>)
      requires c.divider > 0 && NetworksFit(nets) && Distinct(destWriters) && k < |destWriters| == |starts|
      requires forall i :: 0 <= i < |starts| ==> starts[i].servers != []
      requires ds == Deliveries(starts, ctx, k)
      requires PlannedAt(starts[k], k, bf.count) && Sides(nets) == Progress(starts, ds)
      requires c.metrics.errors == ChargedAll(e, starts, ds) && c.metrics.retriesExceeded == ExceededAll(x, starts, ds)
      modifies destWriters[k], nets[k], c.metrics
      ensures ds' == Deliveries(starts, ctx, k + 1) && Sides(nets) == Progress(starts, ds')
      ensures c.metrics.errors == ChargedAll(e, starts, ds') && c.metrics.retriesExceeded == ExceededAll(x, starts, ds')
      ensures c.metrics.waitTimes == old(c.metrics.waitTimes)
      ensures c.metrics.overloaded == old(c.metrics.overloaded) && c.metrics.underloaded == old(c.metrics.underloaded)
    {
      DeliveriesNext(starts, ctx, k);
      ProgressStep(starts, ds, Deliver(starts[k], ctx.waits(k)));
      ghost var d := FlushDestination(ctx, nets, k, starts[k]);
      ChargedAllStep(e, starts, ds, d);
      ExceededAllStep(x, starts, ds, d);
      ds' := ds + [d];
    }

    /**
     * The goroutine Flush starts for destination k: flushSingleDestination
     * on its writer, whose retry loop runs from s and ends as Deliver says.
     */
    method FlushDestination(ctx: Context, nets: seq<Network>, k: nat, ghost s: Start) returns (ghost d: Delivery)
      requires c.divider > 0 && NetworksFit(nets) && Distinct(destWriters) && k < |destWriters|
      requires PlannedAt(s, k, bf.count) && Sides(nets)[k] == Initial(s)
      modifies destWriters[k], nets[k], c.metrics
      ensures d == Deliver(s, ctx.waits(k))
      ensures Sides(nets) == old(Sides(nets))[k := Final(s, d)] &&
        c.metrics.errors == Charged(old(c.metrics.errors), s.name, d) &&
        c.metrics.retriesExceeded == Bump(old(c.metrics.retriesExceeded), s.name, d.exceeded)
      ensures c.metrics.waitTimes == old(c.metrics.waitTimes)
      ensures c.metrics.overloaded == old(c.metrics.overloaded) && c.metrics.underloaded == old(c.metrics.underloaded)
    {
      DistinctApart(destWriters, k);
      DistinctApart(nets, k);
      d := Deliver(s, ctx.waits(k));
      var _ := FlushSingleDestination(ctx.waits(k), destWriters[k], nets[k]);
    }

    /**
     * flushSingleDestination: send the batch to one destination, in async
     * mode when the batch is small for that destination, retrying with
     * backoff until it is delivered, the attempt ceiling is passed (then the
     * exhaustion counter of the destination grows and the error is
     * permanent) or the context is cancelled, after the waits backoff waits
     * this goroutine completes before it sees the cancellation.
     */
    method FlushSingleDestination(waits: nat, dw: DestinationWriter, net: Network) returns (err: Option<FlushError>)
      requires c.divider > 0 && dw.servers != []
      modifies dw, net, c.metrics
      ensures var d := Retry(dw.name, dw.maxRetries, dw.servers, SettingsFor(bf.count, dw.config, c.divider, dw.asyncSettings),
                             0, waits, old(dw.conn), old(net.env));
        Ended(dw, net, old(net.events), d) && err == d.err &&
        c.metrics.errors == Charged(old(c.metrics.errors), dw.name, d) &&
        c.metrics.retriesExceeded == Bump(old(c.metrics.retriesExceeded), dw.name, d.exceeded)
      ensures c.metrics.waitTimes == old(c.metrics.waitTimes)
      ensures c.metrics.overloaded == old(c.metrics.overloaded) && c.metrics.underloaded == old(c.metrics.underloaded)
    {
      var settings: seq<Setting> := [];
      if bf.count <= dw.config.maximumBatchSize / c.divider {
        settings := dw.asyncSettings;
      }
      var maxAttempts: int := dw.maxRetries;
      if maxAttempts == 0 {
        maxAttempts := -1;
      }
      err := BackoffRetry(dw, net, settings, maxAttempts, 0, waits);
    }

    /**
     * backoff.Retry around the operation of flushSingleDestination, after
     * `attempts` calls of it, with `waits` backoff waits left before the
     * context is cancelled: the operation counts itself and gives up for
     * good past maxAttempts (-1 when there is no ceiling); otherwise it
     * connects and sends, and a failure is retried after one more wait.
     */
    method BackoffRetry(dw: DestinationWriter, net: Network, settings: seq<Setting>, maxAttempts: int, attempts: nat, waits: nat)
      returns (err: Option<FlushError>)
      requires dw.servers != []
      requires maxAttempts == if dw.maxRetries == 0 then -1 else dw.maxRetries
      modifies dw, net, c.metrics
      ensures var d := Retry(dw.name, dw.maxRetries, dw.servers, settings, attempts, waits, old(dw.conn), old(net.env));
        Ended(dw, net, old(net.events), d) && err == d.err &&
        c.metrics.errors == Charged(old(c.metrics.errors), dw.name, d) &&
        c.metrics.retriesExceeded == Bump(old(c.metrics.retriesExceeded), dw.name, d.exceeded)
      ensures c.metrics.waitTimes == old(c.metrics.waitTimes)
      ensures c.metrics.overloaded == old(c.metrics.overloaded) && c.metrics.underloaded == old(c.metrics.underloaded)
      decreases waits
    {
      var made := attempts + 1;
      if maxAttempts > 0 && made > maxAttempts {
        c.metrics.retriesExceeded := Bump(c.metrics.retriesExceeded, dw.name, 1);
        return Some(RetriesExceeded(dw.name, dw.maxRetries));
      }
      ghost var a := Attempt(dw.conn, dw.servers, settings, net.env);
      var outcome := SendOnce(dw, net, settings);
      if outcome.Sent? {
        return None;
      }
      if waits == 0 {
        return Some(Cancelled);
      }
      ghost var events := net.events;
      ghost var errors := c.metrics.errors;
      err := BackoffRetry(dw, net, settings, maxAttempts, made, waits - 1);
      AppendAssoc(old(net.events), events[|old(net.events)|..], net.events[|events|..]);
      ChargedAfter(old(c.metrics.errors), dw.name, a,
                   Retry(dw.name, dw.maxRetries, dw.servers, settings, made, waits - 1, a.conn, a.env));
    }

    /**
     * The operation retried by flushSingleDestination: connect, then send
     * the batch. A connect failure raises the destination's connect error
     * counter; a send failure raises its send error counter and closes and
     * drops the connection.
     */
    method SendOnce(dw: DestinationWriter, net: Network, settings: seq<Setting>) returns (outcome: AttemptOutcome)
      requires dw.servers != []
      modifies dw, net, c.metrics
      ensures var a := Attempt(old(dw.conn), dw.servers, settings, old(net.env));
        outcome == a.outcome && dw.conn == a.conn && net.env == a.env && net.events == old(net.events) + a.events
      ensures c.metrics.errors == ChargedOnce(old(c.metrics.errors), dw.name, outcome)
      ensures c.metrics.retriesExceeded == old(c.metrics.retriesExceeded) && c.metrics.waitTimes == old(c.metrics.waitTimes)
      ensures c.metrics.overloaded == old(c.metrics.overloaded) && c.metrics.underloaded == old(c.metrics.underloaded)
    {
      ConnectResult(dw.conn, dw.servers, net.env);
      var err := ConnectDestination(dw, net);
      if err.Some? {
        c.metrics.errors := Bump(c.metrics.errors, (dw.name, ConnectPhase), 1);
        return ConnectFailed(err.value);
      }
      var sent := net.Call(Send(dw.conn.value.address, settings));
      if !sent {
        c.metrics.errors := Bump(c.metrics.errors, (dw.name, SendPhase), 1);
        if dw.conn.Some? {
          net.CloseClient(dw.conn.value);
          dw.conn := None;
        }
        return SendFailed;
      }
      return Sent;
    }

    /**
     * connectDestination: reuse a healthy connection; otherwise drop it and
     * try the servers in the order of a fresh permutation, keeping the first
     * that dials and answers a ping.
     */
    method ConnectDestination(dw: DestinationWriter, net: Network) returns (err: Option<ConnectError>)
      modifies dw, net
      ensures var r := Connect(old(dw.conn), dw.servers, old(net.env));
        dw.conn == r.conn && err == r.err && net.env == r.env && net.events == old(net.events) + r.events
    {
      if dw.conn.Some? {
        var healthy := net.Call(Ping(dw.conn.value.address));
        if healthy {
          return None;
        }
        net.CloseClient(dw.conn.value);
        dw.conn := None;
      }
      var perm := net.Perm(|dw.servers|);
      err := TryServersInOrder(dw, net, perm);
    }

    /** The failover loop of connectDestination over the drawn permutation. */
    method TryServersInOrder(dw: DestinationWriter, net: Network, perm: seq<nat>) returns (err: Option<ConnectError>)
      requires dw.conn == None && IndexesFit(perm, |dw.servers|)
      modifies dw, net
      ensures var r := TryServers(dw.servers, perm, old(net.env), None);
        dw.conn == r.conn && err == r.err && net.env == r.env && net.events == old(net.events) + r.events
    {
      var lastErr: Option<ConnectError> := None;
      ghost var whole := TryServers(dw.servers, perm, net.env, None);
      ghost var done: seq<Event> := [];
      var k := 0;
      while k < |perm|
        invariant 0 <= k <= |perm| && dw.conn == None
        invariant net.events == old(net.events) + done
        invariant var r := TryServers(dw.servers, perm[k..], net.env, lastErr);
          whole.conn == r.conn && whole.err == r.err && whole.env == r.env && whole.events == done + r.events
      {
        var address := dw.servers[perm[k]];
        assert perm[k..][1..] == perm[k + 1..];
        var conn, err, evs := DialAndPing(net, address);
        if conn.Some? {
          dw.conn := conn;
          return None;
        }
        lastErr := err;
        AppendAssoc(done, evs, TryServers(dw.servers, perm[k + 1..], net.env, lastErr).events);
        done := done + evs;
        k := k + 1;
      }
      return lastErr;
    }

    /**
     * One server of the failover loop: dial it, ping the new connection and
     * close it when the ping fails. The result is the open connection, or
     * the error that becomes the loop's last error.
     */
    method DialAndPing(net: Network, address: string) returns (conn: Option<Client>, err: Option<ConnectError>, ghost evs: seq<Event>)
      modifies net
      ensures net.events == old(net.events) + evs
      ensures !Outcome(old(net.env)) ==>
                conn == None && err == Some(DialFailed(address)) && net.env == Consume(old(net.env)) && evs == [Dial(address)]
      ensures Outcome(old(net.env)) && !Outcome(Consume(old(net.env))) ==>
                conn == None && err == Some(PingFailed(address)) && net.env == Consume(Consume(old(net.env))) &&
                evs == [Dial(address), Ping(address), Close(address)]
      ensures Outcome(old(net.env)) && Outcome(Consume(old(net.env))) ==>
                conn == Some(Client(address)) && err == None && net.env == Consume(Consume(old(net.env))) &&
                evs == [Dial(address), Ping(address)]
    {
      var dialled := net.Call(Dial(address));
      if !dialled {
        return None, Some(DialFailed(address)), [Dial(address)];
      }
      var pinged := net.Call(Ping(address));
      if !pinged {
        net.CloseClient(Client(address));
        return None, Some(PingFailed(address)), [Dial(address), Ping(address), Close(address)];
      }
      return Some(Client(address)), None, [Dial(address), Ping(address)];
    }
  }

  /**
   * NewWorker: one writer per destination, in the same order, with the
   * destination's name, servers, configuration, retry ceiling and
   * asynchronous insert settings, and no connection yet.
   */
  method NewWorker(c: Component, bf: FlowBatch) returns (w: Worker)
    ensures fresh(w) && w.c == c && w.bf == bf && w.last == ZeroTime
    ensures |w.destWriters| == |c.destinations|
    ensures forall i :: 0 <= i < |c.destinations| ==>
              fresh(w.destWriters[i]) && WriterFor(w.destWriters[i], c.destinations[i]) && w.destWriters[i].conn == None
    ensures w.Valid() <==> c.divider > 0 && forall i :: 0 <= i < |c.destinations| ==> c.destinations[i].db.servers != []
    ensures Distinct(Names(w.destWriters)) && w.Valid() <==> c.divider > 0 && WellFormed(c.destinations)
  {
    var writers := NewWriters(c.destinations);
    w := new Worker(c, bf, writers);
    WritersWellFormed(writers, c.destinations);
  }

  /** The loop of NewWorker: a fresh writer per destination, appended in order. */
  method NewWriters(dests: seq<DestinationConfig>) returns (writers: seq<DestinationWriter>)
    ensures |writers| == |dests| && Distinct(writers)
    ensures forall i :: 0 <= i < |dests| ==> fresh(writers[i]) && WriterFor(writers[i], dests[i]) && writers[i].conn == None
  {
    writers := [];
    for k := 0 to |dests|
      invariant |writers| == k && Distinct(writers)
      invariant forall i :: 0 <= i < k ==> fresh(writers[i]) && WriterFor(writers[i], dests[i]) && writers[i].conn == None
    {
      var dw := new DestinationWriter(dests[k]);
      DistinctSnoc(writers, dw);
      writers := writers + [dw];
    }
  }

  /**
   * Writers built one per destination have unique names and a server each
   * exactly when the destinations are well formed.
   */
  lemma WritersWellFormed(ws: seq<DestinationWriter>, dests: seq<DestinationConfig>)
    requires |ws| == |dests|
    requires forall i :: 0 <= i < |ws| ==> ws[i].name == dests[i].name && ws[i].servers == dests[i].db.servers
    ensures (Distinct(Names(ws)) && forall i :: 0 <= i < |ws| ==> ws[i].servers != []) <==> WellFormed(dests)
  {
    assert Names(ws) == DestinationNames(dests);
  }

  lemma AppendAssoc<T>(x: seq<T>, y: seq<T>, z: seq<T>)
    ensures (x + y) + z == x + (y + z)
  {
  }
}
