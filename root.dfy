// The ClickHouse exporter component: its normalised list of destinations
// (the first one is the primary) and the metrics its workers update.
module Root {
  import opened Environment

  /**
   * The part of a destination's exporter configuration the write path reads:
   * the batch size that forces a flush and the longest wait between two
   * flushes, in nanoseconds (a time.Duration).
   */
  datatype Configuration = Configuration(maximumBatchSize: nat, maximumWaitTime: nat)

  /** The zero Configuration{} of the source. */
  const ZeroConfiguration := Configuration(0, 0)

  /**
   * The part of a clickhousedb component the write path reads: its candidate
   * server addresses and its retry ceiling (0 means no ceiling; the
   * configuration validator refuses negative values).
   */
  datatype Database = Database(servers: seq<string>, maxRetries: nat)

  /** A destination as the caller declares it. */
  datatype DestinationDependency = DestinationDependency(name: string, clickHouse: Database, config: Configuration)

  /** A destination as the component keeps it. */
  datatype DestinationConfig = DestinationConfig(name: string, db: Database, config: Configuration)

  /**
   * What the configuration validator guarantees of the destinations: their
   * names are unique and each has at least one server.
   */
  predicate WellFormed(destinations: seq<DestinationConfig>) {
    Distinct(DestinationNames(destinations)) &&
    (forall i :: 0 <= i < |destinations| ==> destinations[i].db.servers != [])
  }

  /** The names of the destinations, in order. */
  function DestinationNames(destinations: seq<DestinationConfig>): seq<string> {
    Map(destinations, (d: DestinationConfig) => d.name)
  }

  /** f applied to every element of s, in order. */
  function Map<A, B>(s: seq<A>, f: A -> B): (r: seq<B>)
    ensures |r| == |s| && forall i :: 0 <= i < |s| ==> r[i] == f(s[i])
  {
    if s == [] then [] else Map(s[..|s| - 1], f) + [f(s[|s| - 1])]
  }

  /** No element occurs twice in s. */
  predicate Distinct<T(==)>(s: seq<T>)
    decreases |s|
  {
    |s| == 0 || (s[|s| - 1] !in s[..|s| - 1] && Distinct(s[..|s| - 1]))
  }

  /** Distinct holds exactly when no two positions of s hold the same element. */
  lemma {:induction false} DistinctPairwise<T>(s: seq<T>)
    ensures Distinct(s) <==> forall i, j :: 0 <= i < j < |s| ==> s[i] != s[j]
  {
    if |s| > 0 {
      var p := s[..|s| - 1];
      DistinctPairwise(p);
      if Distinct(s) {
        forall i, j | 0 <= i < j < |s|
          ensures s[i] != s[j]
        {
          if j == |s| - 1 {
            assert s[i] == p[i];
          } else {
            assert s[i] == p[i] && s[j] == p[j];
          }
        }
      }
      if forall i, j :: 0 <= i < j < |s| ==> s[i] != s[j] {
        assert forall i :: 0 <= i < |p| ==> p[i] == s[i] && p[i] != s[|s| - 1];
      }
    }
  }

  /** In a sequence without repeats, the element at position k occurs at no other position. */
  lemma {:induction false} DistinctApart<T>(s: seq<T>, k: nat)
    requires Distinct(s) && k < |s|
    ensures forall i :: 0 <= i < |s| && i != k ==> s[i] != s[k]
  {
    DistinctPairwise(s);
    forall i | 0 <= i < |s| && i != k
      ensures s[i] != s[k]
    {
      if i < k {
        assert s[i] != s[k];
      } else {
        assert s[k] != s[i];
      }
    }
  }

  /** Appending an element the sequence does not hold keeps it without repeats. */
  lemma DistinctSnoc<T>(s: seq<T>, x: T)
    requires Distinct(s) && x !in s
    ensures Distinct(s + [x])
  {
  }

  /** The phase an error counter is labelled with. */
  datatype Phase = ConnectPhase | SendPhase

  /** Value of a counter of a labelled counter family (absent labels are zero). */
  function Count<K(!new)>(m: map<K, nat>, k: K): nat {
    if k in m then m[k] else 0
  }

  /** The counter family m with the counter of label k raised by n. */
  function Bump<K(!new)>(m: map<K, nat>, k: K, n: nat): (r: map<K, nat>)
    ensures Count(r, k) == Count(m, k) + n
    ensures forall j :: j != k ==> Count(r, j) == Count(m, j)
    ensures n == 0 ==> r == m
  {
    if n == 0 then m else m[k := Count(m, k) + n]
  }

  /**
   * The metrics the write path updates, as counters and observations only:
   * wait times before a flush, overloaded and underloaded flushes, errors by
   * (destination, phase) and retry exhaustions by destination.
   */
  class Metrics {
    ghost var waitTimes: seq<int>
    ghost var overloaded: nat
    ghost var underloaded: nat
    ghost var errors: map<(string, Phase), nat>
    ghost var retriesExceeded: map<string, nat>

    constructor ()
      ensures waitTimes == [] && overloaded == 0 && underloaded == 0
      ensures errors == map[] && retriesExceeded == map[]
    {
      waitTimes := [];
      overloaded, underloaded := 0, 0;
      errors := map[];
      retriesExceeded := map[];
    }
  }

  class Component {
    /** destinations[0] is the primary. */
    const destinations: seq<DestinationConfig>
    /** minimumBatchSizeDivider: a batch at most MaximumBatchSize/divider is small. */
    const divider: nat
    const metrics: Metrics

    constructor (destinations: seq<DestinationConfig>, divider: nat)
      requires divider > 0
      ensures this.destinations == destinations && this.divider == divider
      ensures fresh(metrics)
      ensures metrics.waitTimes == [] && metrics.overloaded == 0 && metrics.underloaded == 0
      ensures metrics.errors == map[] && metrics.retriesExceeded == map[]
    {
      this.destinations := destinations;
      this.divider := divider;
      metrics := new Metrics();
    }

    /** The configuration whose thresholds decide when any worker flushes. */
    function PrimaryConfig(): (r: Configuration)
      ensures |destinations| > 0 ==> r == destinations[0].config
      ensures |destinations| == 0 ==> r.maximumBatchSize == 0 && r.maximumWaitTime == 0
    {
      if |destinations| == 0 then ZeroConfiguration else destinations[0].config
    }
  }

  /**
   * New: one destination per dependency, in the same order, each copying
   * the name, the database and the configuration. It never fails.
   */
  method New(dependencies: seq<DestinationDependency>, divider: nat) returns (c: Component, err: Option<string>)
    requires divider > 0
    ensures err == None
    ensures fresh(c) && fresh(c.metrics) && c.divider == divider
    ensures |c.destinations| == |dependencies|
    ensures forall i :: 0 <= i < |dependencies| ==>
              c.destinations[i] == DestinationConfig(dependencies[i].name, dependencies[i].clickHouse, dependencies[i].config)
    ensures c.metrics.waitTimes == [] && c.metrics.overloaded == 0 && c.metrics.underloaded == 0
    ensures c.metrics.errors == map[] && c.metrics.retriesExceeded == map[]
  {
    var destinations: seq<DestinationConfig> := [];
    for k := 0 to |dependencies|
      invariant |destinations| == k
      invariant forall i :: 0 <= i < k ==>
                  destinations[i] == DestinationConfig(dependencies[i].name, dependencies[i].clickHouse, dependencies[i].config)
    {
      var dest := dependencies[k];
      destinations := destinations + [DestinationConfig(dest.name, dest.clickHouse, dest.config)];
    }
    c := new Component(destinations, divider);
    err := None;
  }
}
