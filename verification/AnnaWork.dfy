/** How queries become batches of work on cores: the partition, and the canonical order of each core's batches. */
module AnnaWork {
  import opened Commands

  type Work = multiset<(nat, nat)>   // (cluster, query)

  // ---- Work as multisets of pairs ---------------------------------------------------------------------------------

  /** Every query of the list visits the cluster. */
  function Visits(c: nat, queries: seq<nat>): (w: Work) {
    if queries == [] then multiset{} else Visits(c, queries[..|queries| - 1]) + multiset{(c, queries[|queries| - 1])}
  }

  /** The work of parallel lists of clusters and query sets. */
  function WorkOf(clusters: seq<nat>, sets: seq<seq<nat>>): (w: Work)
    requires |clusters| == |sets|
  {
    var n := |clusters|;
    if n == 0 then multiset{} else WorkOf(clusters[..n - 1], sets[..n - 1]) + Visits(clusters[n - 1], sets[n - 1])
  }

  /** What query i asks for: one visit per cluster it names, as often as it names it. */
  function Asks(i: nat, clusters: seq<nat>): (w: Work) {
    if clusters == [] then multiset{} else Asks(i, clusters[..|clusters| - 1]) + multiset{(clusters[|clusters| - 1], i)}
  }

  function AllAsks(queries: seq<seq<nat>>, n: nat): (w: Work)
    requires n <= |queries|
  {
    if n == 0 then multiset{} else AllAsks(queries, n - 1) + Asks(n - 1, queries[n - 1])
  }

  /** The buckets of the first k clusters. */
  function Buckets(now: seq<seq<nat>>, k: nat): (w: Work)
    requires k <= |now|
  {
    if k == 0 then multiset{} else Buckets(now, k - 1) + Visits(k - 1, now[k - 1])
  }

  lemma VisitsAppend(c: nat, s: seq<nat>, i: nat)
    ensures Visits(c, s + [i]) == Visits(c, s) + multiset{(c, i)}
  {
    assert (s + [i])[..|s|] == s;
  }

  lemma {:induction false} BucketsPush(now: seq<seq<nat>>, c: nat, i: nat, k: nat)
    requires c < |now| && k <= |now|
    ensures Buckets(now[c := now[c] + [i]], k) == Buckets(now, k) + (if c < k then multiset{(c, i)} else multiset{})
  {
    hide Visits;
    if k > 0 {
      BucketsPush(now, c, i, k - 1);
      VisitsAppend(c, now[c], i);
    }
  }

  lemma WorkAppend(clusters: seq<nat>, sets: seq<seq<nat>>, c: nat, s: seq<nat>)
    requires |clusters| == |sets|
    ensures WorkOf(clusters + [c], sets + [s]) == WorkOf(clusters, sets) + Visits(c, s)
  {
    assert (clusters + [c])[..|clusters|] == clusters && (sets + [s])[..|sets|] == sets;
  }

  // ---- The partition ----------------------------------------------------------------------------------------------

  lemma {:induction false} EmptyBuckets(now: seq<seq<nat>>, k: nat)
    requires k <= |now| && forall c :: 0 <= c < |now| ==> now[c] == []
    ensures Buckets(now, k) == multiset{}
  {
    if k > 0 { EmptyBuckets(now, k - 1); }
  }

  predicate Rising(s: seq<nat>) { forall i, j :: 0 <= i < j < |s| ==> s[i] <= s[j] }

  /** Every bucket lists queries from l up to r, in order. */
  ghost predicate Windowed(now: seq<seq<nat>>, l: nat, r: nat) {
    forall c :: 0 <= c < |now| ==> Rising(now[c]) && forall k :: 0 <= k < |now[c]| ==> l <= now[c][k] < r
  }

  lemma WiderWindow(now: seq<seq<nat>>, l: nat, r: nat)
    requires Windowed(now, l, r)
    ensures Windowed(now, l, r + 1)
  {}

  lemma PushWindowed(now: seq<seq<nat>>, c: nat, l: nat, i: nat)
    requires Windowed(now, l, i + 1) && c < |now| && l <= i
    ensures Windowed(now[c := now[c] + [i]], l, i + 1)
  {}

  /** The entry's queries belong to one batch, in order. */
  ghost predicate OneBatch(qs: seq<nat>, batch: nat)
    requires batch > 0
  {
    qs != [] && Rising(qs) && forall k :: 0 <= k < |qs| ==> qs[k] / batch == qs[0] / batch
  }

  /** Entries go batch by batch, and within a batch by cluster, each cluster at most once. */
  ghost predicate Grouped(clusters: seq<nat>, sets: seq<seq<nat>>, batch: nat)
    requires batch > 0 && |clusters| == |sets|
  {
    && (forall k :: 0 <= k < |sets| ==> OneBatch(sets[k], batch))
    && forall k, m :: 0 <= k < m < |sets| ==>
         sets[k][0] / batch < sets[m][0] / batch || (sets[k][0] / batch == sets[m][0] / batch && clusters[k] < clusters[m])
  }

  lemma SameBatch(x: nat, l: nat, b: nat, batch: nat)
    requires batch > 0 && l == b * batch && l <= x < l + batch
    ensures x / batch == b
  {
    var d := x / batch - b;
    assert d * batch == x - l - x % batch;
    assert (d >= 1 ==> d * batch >= batch) && (d <= -1 ==> d * batch <= 0 - batch);
  }

  /** Puts one query into the bucket of every cluster it names. */
  method BucketQuery(now0: seq<seq<nat>>, i: nat, clusters: seq<nat>, ghost l: nat) returns (now: seq<seq<nat>>)
    requires l <= i && Windowed(now0, l, i)
    requires forall k :: 0 <= k < |clusters| ==> clusters[k] < |now0|
    ensures |now| == |now0| && Buckets(now, |now|) == Buckets(now0, |now0|) + Asks(i, clusters)
    ensures Windowed(now, l, i + 1)
  {
    hide Buckets, Windowed;
    now := now0;
    WiderWindow(now0, l, i);
    var k := 0;
    while k < |clusters|
      invariant k <= |clusters| && |now| == |now0|
      invariant Buckets(now, |now|) == Buckets(now0, |now0|) + Asks(i, clusters[..k])
      invariant Windowed(now, l, i + 1)
    {
      assert clusters[..k + 1][..k] == clusters[..k];
      PushWindowed(now, clusters[k], l, i);
      BucketsPush(now, clusters[k], i, |now|);
      now := now[clusters[k] := now[clusters[k]] + [i]];
      k := k + 1;
    }
    assert clusters[..k] == clusters;
  }

  /** Puts the queries l up to r into one bucket per cluster. */
  method FillBuckets(queries: seq<seq<nat>>, l: nat, r: nat, clusterNum: nat) returns (now: seq<seq<nat>>)
    requires l <= r <= |queries| && forall i, k :: 0 <= i < |queries| && 0 <= k < |queries[i]| ==> queries[i][k] < clusterNum
    ensures |now| == clusterNum && AllAsks(queries, l) + Buckets(now, clusterNum) == AllAsks(queries, r) && Windowed(now, l, r)
  {
    hide Buckets, Asks;
    now := [];
    var c := 0;
    while c < clusterNum
      invariant c <= clusterNum && |now| == c && forall k :: 0 <= k < c ==> now[k] == []
    {
      now := now + [[]];
      c := c + 1;
    }
    EmptyBuckets(now, clusterNum);
    var i := l;
    while i < r
      invariant l <= i <= r && |now| == clusterNum && Windowed(now, l, i)
      invariant AllAsks(queries, l) + Buckets(now, clusterNum) == AllAsks(queries, i)
    {
      now := BucketQuery(now, i, queries[i], l);
      i := i + 1;
    }
  }

  /** Behind the old entries stand buckets of clusters below c, by cluster, each at most once. */
  ghost predicate Added(clusters0: seq<nat>, sets0: seq<seq<nat>>, clusters: seq<nat>, sets: seq<seq<nat>>, now: seq<seq<nat>>, c: nat) {
    && |clusters0| == |sets0| <= |sets| == |clusters| && clusters0 <= clusters && sets0 <= sets
    && (forall k :: |sets0| <= k < |sets| ==> clusters[k] < c && clusters[k] < |now| && sets[k] == now[clusters[k]])
    && (forall k, m :: |sets0| <= k < m < |sets| ==> clusters[k] < clusters[m])
  }

  /** Appends the non-empty buckets to the lists. */
  method Flush(now: seq<seq<nat>>, clusters0: seq<nat>, sets0: seq<seq<nat>>) returns (clusters: seq<nat>, sets: seq<seq<nat>>)
    requires |clusters0| == |sets0|
    requires forall k :: 0 <= k < |sets0| ==> sets0[k] != []
    ensures |clusters| == |sets| && (forall k :: 0 <= k < |sets| ==> sets[k] != [])
    ensures WorkOf(clusters, sets) == WorkOf(clusters0, sets0) + Buckets(now, |now|)
    ensures Added(clusters0, sets0, clusters, sets, now, |now|)
  {
    hide Visits, WorkOf;
    clusters, sets := clusters0, sets0;
    var c := 0;
    while c < |now|
      invariant c <= |now| && |clusters| == |sets| && forall k :: 0 <= k < |sets| ==> sets[k] != []
      invariant WorkOf(clusters, sets) == WorkOf(clusters0, sets0) + Buckets(now, c)
      invariant Added(clusters0, sets0, clusters, sets, now, c)
    {
      if now[c] != [] {
        WorkAppend(clusters, sets, c, now[c]);
        clusters, sets := clusters + [c], sets + [now[c]];
      } else {
        NoVisits(c, now[c]);
      }
      c := c + 1;
    }
  }

  /** Groups the queries batch by batch; every request of every query is in the lists exactly once. */
  method Group(queries: seq<seq<nat>>, batch: nat, clusterNum: nat) returns (clusters: seq<nat>, sets: seq<seq<nat>>)
    requires batch > 0
    requires forall i, k :: 0 <= i < |queries| && 0 <= k < |queries[i]| ==> queries[i][k] < clusterNum
    ensures |clusters| == |sets| && (forall k :: 0 <= k < |sets| ==> sets[k] != [])
    ensures WorkOf(clusters, sets) == AllAsks(queries, |queries|) && Grouped(clusters, sets, batch)
  {
    hide Visits, Asks, Buckets, Grouped, Added, Windowed;
    clusters, sets := [], [];
    NoneGrouped(batch);
    var l, r := 0, 0;
    ghost var b := 0;
    while r < |queries|
      invariant l == r <= |queries| && |clusters| == |sets| && forall k :: 0 <= k < |sets| ==> sets[k] != []
      invariant WorkOf(clusters, sets) == AllAsks(queries, r)
      invariant Grouped(clusters, sets, batch) && Before(sets, batch, b) && (l < |queries| ==> l == b * batch)
    {
      r := Min(l + batch, |queries|);
      var now := FillBuckets(queries, l, r, clusterNum);
      ghost var clusters0, sets0 := clusters, sets;
      clusters, sets := Flush(now, clusters, sets);
      GroupMore(clusters0, sets0, clusters, sets, now, batch, b, l, r);
      assert (b + 1) * batch == b * batch + batch;
      l, b := r, b + 1;
    }
  }

  /** All entries so far are of batches below b. */
  ghost predicate Before(sets: seq<seq<nat>>, batch: nat, b: nat)
    requires batch > 0
  {
    forall k :: 0 <= k < |sets| ==> sets[k] != [] && sets[k][0] / batch < b
  }

  lemma NoneGrouped(batch: nat)
    requires batch > 0
    ensures Grouped([], [], batch)
  {}

  lemma GroupMore(clusters0: seq<nat>, sets0: seq<seq<nat>>, clusters: seq<nat>, sets: seq<seq<nat>>, now: seq<seq<nat>>,
                  batch: nat, b: nat, l: nat, r: nat)
    requires batch > 0 && |clusters0| == |sets0| && Grouped(clusters0, sets0, batch) && Before(sets0, batch, b)
    requires Added(clusters0, sets0, clusters, sets, now, |now|) && Windowed(now, l, r) && l == b * batch && r <= l + batch
    requires forall k :: 0 <= k < |sets| ==> sets[k] != []
    ensures Grouped(clusters, sets, batch) && Before(sets, batch, b + 1)
  {
    forall k | 0 <= k < |sets|
      ensures OneBatch(sets[k], batch) && (if k < |sets0| then sets[k] == sets0[k] else sets[k][0] / batch == b)
    {
      if k < |sets0| {
        assert OneBatch(sets0[k], batch);
      } else {
        forall i | 0 <= i < |sets[k]| ensures sets[k][i] / batch == b { SameBatch(sets[k][i], l, b, batch); }
      }
    }
  }

  function CoreWork(clusters: seq<seq<nat>>, sets: seq<seq<seq<nat>>>, n: nat): (w: Work)
    requires n <= |clusters| == |sets| && forall k :: 0 <= k < |sets| ==> |clusters[k]| == |sets[k]|
  {
    if n == 0 then multiset{} else CoreWork(clusters, sets, n - 1) + WorkOf(clusters[n - 1], sets[n - 1])
  }

  lemma {:induction false} CoreWorkPush(clusters: seq<seq<nat>>, sets: seq<seq<seq<nat>>>, n: nat, k: nat, c: nat, s: seq<nat>)
    requires n <= |clusters| == |sets| && k < |sets| && forall k :: 0 <= k < |sets| ==> |clusters[k]| == |sets[k]|
    ensures CoreWork(clusters[k := clusters[k] + [c]], sets[k := sets[k] + [s]], n)
         == CoreWork(clusters, sets, n) + (if k < n then Visits(c, s) else multiset{})
  {
    hide WorkOf, Visits;
    if n > 0 {
      CoreWorkPush(clusters, sets, n - 1, k, c, s);
      WorkAppend(clusters[k], sets[k], c, s);
    }
  }

  lemma {:induction false} CoreWorkEmpty(clusters: seq<seq<nat>>, sets: seq<seq<seq<nat>>>, n: nat)
    requires n <= |clusters| == |sets| && forall k :: 0 <= k < |sets| ==> clusters[k] == [] && sets[k] == []
    ensures CoreWork(clusters, sets, n) == multiset{}
  {
    if n > 0 { CoreWorkEmpty(clusters, sets, n - 1); }
  }

  /** How many list entries the cores hold together. */
  function Entries(clusters: seq<seq<nat>>): (n: nat) {
    if clusters == [] then 0 else Entries(clusters[..|clusters| - 1]) + |clusters[|clusters| - 1]|
  }

  lemma {:induction false} EntriesPush(clusters: seq<seq<nat>>, k: nat, c: nat)
    requires k < |clusters|
    ensures Entries(clusters[k := clusters[k] + [c]]) == Entries(clusters) + 1
  {
    var n := |clusters| - 1;
    if k < n {
      assert clusters[k := clusters[k] + [c]][..n] == clusters[..n][k := clusters[k] + [c]];
      EntriesPush(clusters[..n], k, c);
    } else {
      assert clusters[k := clusters[k] + [c]][..n] == clusters[..n];
    }
  }

  lemma {:induction false} NoEntries(clusters: seq<seq<nat>>)
    requires forall k :: 0 <= k < |clusters| ==> clusters[k] == []
    ensures Entries(clusters) == 0
  {
    if clusters != [] { NoEntries(clusters[..|clusters| - 1]); }
  }

  lemma Turn(i: nat, n: nat)
    requires n > 0
    ensures i % n < n && (i < n ==> i % n == i)
  {}

  lemma NoWork(clusters: seq<nat>, sets: seq<seq<nat>>)
    requires |clusters| == |sets| == 0
    ensures WorkOf(clusters, sets) == multiset{}
  {}

  lemma PrefixWork(clusters: seq<nat>, sets: seq<seq<nat>>, i: nat)
    requires i < |clusters| == |sets|
    ensures WorkOf(clusters[..i + 1], sets[..i + 1]) == WorkOf(clusters[..i], sets[..i]) + Visits(clusters[i], sets[i])
  {
    assert clusters[..i + 1] == clusters[..i] + [clusters[i]] && sets[..i + 1] == sets[..i] + [sets[i]];
    WorkAppend(clusters[..i], sets[..i], clusters[i], sets[i]);
  }

  /** Of the first n entries, core k has number k and then every cores-th, in order. */
  ghost predicate DealtTo(clusters: seq<nat>, sets: seq<seq<nat>>, mine: seq<nat>, mySets: seq<seq<nat>>, k: nat, cores: nat, n: nat)
    requires n <= |clusters| == |sets|
  {
    && |mine| == |mySets| && (|mine| - 1) * cores + k < n <= |mine| * cores + k
    && forall p: nat :: p < |mine| ==> p * cores + k < n && mine[p] == clusters[p * cores + k] && mySets[p] == sets[p * cores + k]
  }

  ghost predicate Dealt(clusters: seq<nat>, sets: seq<seq<nat>>, coreClusters: seq<seq<nat>>, coreSets: seq<seq<seq<nat>>>,
                        cores: nat, n: nat)
    requires n <= |clusters| == |sets|
  {
    && |coreClusters| == |coreSets| == cores
    && forall k :: 0 <= k < cores ==> DealtTo(clusters, sets, coreClusters[k], coreSets[k], k, cores, n)
  }

  lemma NoneDealt(clusters: seq<nat>, sets: seq<seq<nat>>, coreClusters: seq<seq<nat>>, coreSets: seq<seq<seq<nat>>>, cores: nat)
    requires |clusters| == |sets| && |coreClusters| == |coreSets| == cores
    requires forall k :: 0 <= k < cores ==> coreClusters[k] == [] && coreSets[k] == []
    ensures Dealt(clusters, sets, coreClusters, coreSets, cores, 0)
  {}

  /** The next entry goes to the core whose turn it is. */
  lemma DealOne(clusters: seq<nat>, sets: seq<seq<nat>>, coreClusters: seq<seq<nat>>, coreSets: seq<seq<seq<nat>>>, cores: nat, i: nat)
    requires cores >= 1 && i < |clusters| == |sets| && Dealt(clusters, sets, coreClusters, coreSets, cores, i)
    ensures var k := i % cores;
      && k < cores
      && Dealt(clusters, sets, coreClusters[k := coreClusters[k] + [clusters[i]]], coreSets[k := coreSets[k] + [sets[i]]], cores, i + 1)
  {
    hide DealtTo;
    var k, q := i % cores, i / cores;
    assert i == q * cores + k;
    forall c | 0 <= c < cores
      ensures c != k ==> DealtTo(clusters, sets, coreClusters[c], coreSets[c], c, cores, i + 1)
      ensures c == k ==> DealtTo(clusters, sets, coreClusters[c] + [clusters[i]], coreSets[c] + [sets[i]], c, cores, i + 1)
    {
      DealStep(clusters, sets, coreClusters[c], coreSets[c], c, cores, q, k, i);
    }
  }

  lemma DealStep(clusters: seq<nat>, sets: seq<seq<nat>>, mine: seq<nat>, mySets: seq<seq<nat>>, c: nat, cores: nat, q: nat, k: nat, i: nat)
    requires i < |clusters| == |sets| && c < cores && k < cores && i == q * cores + k && DealtTo(clusters, sets, mine, mySets, c, cores, i)
    ensures c != k ==> DealtTo(clusters, sets, mine, mySets, c, cores, i + 1)
    ensures c == k ==> DealtTo(clusters, sets, mine + [clusters[i]], mySets + [sets[i]], c, cores, i + 1)
  {
    TurnOf(|mine|, c, q, k, cores, i);
  }

  /** The lists of a core are as long as the number of turns it has had. */
  lemma TurnOf(len: nat, c: nat, q: nat, k: nat, cores: nat, i: nat)
    requires c < cores && k < cores && i == q * cores + k && (len - 1) * cores + c < i <= len * cores + c
    ensures c == k ==> len == q
    ensures c != k ==> i + 1 <= len * cores + c
  {
    var d := len - q;
    assert len * cores == q * cores + d * cores && (len - 1) * cores == len * cores - cores;
    assert (d >= 1 ==> d * cores >= cores) && (d <= -1 ==> d * cores <= 0 - cores);
    assert d >= 2 ==> d * cores >= 2 * cores;
  }

  /** Deals the lists out to the cores in turn; nothing is lost or done twice, and a core gets work if there is enough. */
  method Deal(clusters: seq<nat>, sets: seq<seq<nat>>, cores: nat)
    returns (coreClusters: seq<seq<nat>>, coreSets: seq<seq<seq<nat>>>)
    requires |clusters| == |sets| && cores >= 1 && forall k :: 0 <= k < |sets| ==> sets[k] != []
    ensures |coreClusters| == |coreSets| == cores
    ensures forall k :: 0 <= k < cores ==> |coreClusters[k]| == |coreSets[k]| && forall s :: s in coreSets[k] ==> s != []
    ensures CoreWork(coreClusters, coreSets, cores) == WorkOf(clusters, sets)
    ensures Entries(coreClusters) == |clusters| && forall k :: 0 <= k < cores ==> (coreClusters[k] != [] <==> k < |clusters|)
    ensures Dealt(clusters, sets, coreClusters, coreSets, cores, |clusters|)
  {
    hide Visits, CoreWork, WorkOf, Entries, Dealt;
    coreClusters, coreSets := seq(cores, _ => []), seq(cores, _ => []);
    CoreWorkEmpty(coreClusters, coreSets, cores);
    NoWork(clusters[..0], sets[..0]);
    NoEntries(coreClusters);
    NoneDealt(clusters, sets, coreClusters, coreSets, cores);
    var i := 0;
    while i < |clusters|
      invariant i <= |clusters| && |coreClusters| == |coreSets| == cores
      invariant forall k :: 0 <= k < cores ==> |coreClusters[k]| == |coreSets[k]| && forall s :: s in coreSets[k] ==> s != []
      invariant CoreWork(coreClusters, coreSets, cores) == WorkOf(clusters[..i], sets[..i])
      invariant Entries(coreClusters) == i && forall k :: 0 <= k < cores ==> (coreClusters[k] != [] <==> k < i)
      invariant Dealt(clusters, sets, coreClusters, coreSets, cores, i)
    {
      var k := i % cores;
      Turn(i, cores);
      PrefixWork(clusters, sets, i);
      CoreWorkPush(coreClusters, coreSets, cores, k, clusters[i], sets[i]);
      EntriesPush(coreClusters, k, clusters[i]);
      DealOne(clusters, sets, coreClusters, coreSets, cores, i);
      coreClusters := coreClusters[k := coreClusters[k] + [clusters[i]]];
      coreSets := coreSets[k := coreSets[k] + [sets[i]]];
      i := i + 1;
    }
    assert clusters[..i] == clusters && sets[..i] == sets;
  }

  /** Work lists of all cores: together exactly what the queries ask for; core k has work exactly if there are more than k entries. */
  ghost predicate Partitioned(queries: seq<seq<nat>>, coreClusters: seq<seq<nat>>, coreSets: seq<seq<seq<nat>>>) {
    && |coreClusters| == |coreSets|
    && (forall k :: 0 <= k < |coreSets| ==> |coreClusters[k]| == |coreSets[k]| && forall s :: s in coreSets[k] ==> s != [])
    && (forall k :: 0 <= k < |coreClusters| ==> (coreClusters[k] != [] <==> k < Entries(coreClusters)))
    && CoreWork(coreClusters, coreSets, |coreClusters|) == AllAsks(queries, |queries|)
  }

  method Partition(queries: seq<seq<nat>>, batch: nat, clusterNum: nat, cores: nat)
    returns (coreClusters: seq<seq<nat>>, coreSets: seq<seq<seq<nat>>>)
    requires batch > 0 && cores >= 1
    requires forall i, k :: 0 <= i < |queries| && 0 <= k < |queries[i]| ==> queries[i][k] < clusterNum
    ensures |coreClusters| == cores && Partitioned(queries, coreClusters, coreSets)
    ensures exists clusters, sets ::
      && |clusters| == |sets| && Grouped(clusters, sets, batch) && WorkOf(clusters, sets) == AllAsks(queries, |queries|)
      && Dealt(clusters, sets, coreClusters, coreSets, cores, |clusters|)
  {
    hide CoreWork, WorkOf, AllAsks, Entries;
    var clusters, sets := Group(queries, batch, clusterNum);
    coreClusters, coreSets := Deal(clusters, sets, cores);
  }

  // ---- The canonical order of one core's batches ------------------------------------------------------------------

  /** Queries l up to r of the query set of list position k. */
  datatype Batch = Batch(k: nat, l: nat, r: nat)

  /** All batches from position k, query l on: slices of the batch size, a short one closing each set. */
  function From(sets: seq<seq<nat>>, b: nat, k: nat, l: nat): (s: seq<Batch>)
    requires b > 0
    decreases |sets| - k, if k < |sets| then |sets[k]| - l else 0
  {
    if k >= |sets| then []
    else
      var r := Min(l + b, |sets[k]|);
      [Batch(k, l, r)] + (if r >= |sets[k]| then From(sets, b, k + 1, 0) else From(sets, b, k, l + b))
  }

  predicate Within(sets: seq<seq<nat>>, batches: seq<Batch>) {
    forall x :: x in batches ==> x.k < |sets| && x.l <= x.r <= |sets[x.k]|
  }

  function BatchWork(clusters: seq<nat>, sets: seq<seq<nat>>, batches: seq<Batch>): (w: Work)
    requires |clusters| == |sets| && Within(sets, batches)
  {
    if batches == [] then multiset{}
    else
      var x := batches[0];
      assert x in batches;
      Visits(clusters[x.k], sets[x.k][x.l..x.r]) + BatchWork(clusters, sets, batches[1..])
  }

  lemma {:induction false} FromInRange(sets: seq<seq<nat>>, b: nat, k: nat, l: nat)
    requires b > 0 && (k < |sets| ==> l <= |sets[k]|)
    ensures Within(sets, From(sets, b, k, l))
    decreases |sets| - k, if k < |sets| then |sets[k]| - l else 0
  {
    if k < |sets| {
      if l + b >= |sets[k]| { FromInRange(sets, b, k + 1, 0); } else { FromInRange(sets, b, k, l + b); }
    }
  }

  lemma {:induction false} VisitsConcat(c: nat, s: seq<nat>, t: seq<nat>)
    ensures Visits(c, s + t) == Visits(c, s) + Visits(c, t)
  {
    if t == [] {
      assert s + t == s;
    } else {
      assert (s + t)[..|s + t| - 1] == s + t[..|t| - 1];
      VisitsConcat(c, s, t[..|t| - 1]);
    }
  }

  /** The work of list positions k and later. */
  function Later(clusters: seq<nat>, sets: seq<seq<nat>>, k: nat): (w: Work)
    requires |clusters| == |sets|
    decreases |sets| - k
  {
    if k >= |sets| then multiset{} else Visits(clusters[k], sets[k]) + Later(clusters, sets, k + 1)
  }

  /** The slices tile the rest of the set and every later set. */
  lemma {:induction false} SlicesTile(clusters: seq<nat>, sets: seq<seq<nat>>, b: nat, k: nat, l: nat)
    requires |clusters| == |sets| && b > 0 && k < |sets| && l <= |sets[k]|
    ensures Within(sets, From(sets, b, k, l))
    ensures BatchWork(clusters, sets, From(sets, b, k, l)) == Visits(clusters[k], sets[k][l..]) + Later(clusters, sets, k + 1)
    decreases |sets| - k, |sets[k]| - l
  {
    hide Visits, BatchWork, From, Within, Later;
    FromInRange(sets, b, k, l);
    FromUnfolds(clusters, sets, b, k, l);
    var r := Min(l + b, |sets[k]|);
    VisitsSplit(clusters[k], sets[k], l, r);
    if r < |sets[k]| {
      SlicesTile(clusters, sets, b, k, l + b);
    } else {
      NoVisits(clusters[k], sets[k][r..]);
      NextSet(clusters, sets, b, k + 1);
      if k + 1 < |sets| { SlicesTile(clusters, sets, b, k + 1, 0); }
    }
  }

  lemma VisitsSplit(c: nat, s: seq<nat>, l: nat, r: nat)
    requires l <= r <= |s|
    ensures Visits(c, s[l..]) == Visits(c, s[l..r]) + Visits(c, s[r..])
  {
    hide Visits;
    VisitsConcat(c, s[l..r], s[r..]);
    assert s[l..] == s[l..r] + s[r..];
  }

  lemma NextSet(clusters: seq<nat>, sets: seq<seq<nat>>, b: nat, k: nat)
    requires |clusters| == |sets| && b > 0
    ensures k < |sets| ==> Later(clusters, sets, k) == Visits(clusters[k], sets[k][0..]) + Later(clusters, sets, k + 1)
    ensures k >= |sets| ==> From(sets, b, k, 0) == [] && BatchWork(clusters, sets, []) == multiset{} == Later(clusters, sets, k)
  {
    if k < |sets| { assert sets[k][0..] == sets[k]; }
  }

  lemma FromUnfolds(clusters: seq<nat>, sets: seq<seq<nat>>, b: nat, k: nat, l: nat)
    requires |clusters| == |sets| && b > 0 && k < |sets| && l <= |sets[k]|
    requires Within(sets, From(sets, b, k, l))
    ensures var r := Min(l + b, |sets[k]|);
      var rest := if r >= |sets[k]| then From(sets, b, k + 1, 0) else From(sets, b, k, l + b);
      && Within(sets, rest)
      && BatchWork(clusters, sets, From(sets, b, k, l)) == Visits(clusters[k], sets[k][l..r]) + BatchWork(clusters, sets, rest)
  {
    hide Visits;
    var r := Min(l + b, |sets[k]|);
    var rest := if r >= |sets[k]| then From(sets, b, k + 1, 0) else From(sets, b, k, l + b);
    var all := From(sets, b, k, l);
    assert all == [Batch(k, l, r)] + rest;
    assert forall x :: x in rest ==> x in all;
    assert all[0] == Batch(k, l, r) && all[1..] == rest;
  }

  lemma NoVisits(c: nat, s: seq<nat>)
    requires s == []
    ensures Visits(c, s) == multiset{}
  {}

  lemma {:induction false} LaterIsRest(clusters: seq<nat>, sets: seq<seq<nat>>, k: nat)
    requires |clusters| == |sets| && k <= |sets|
    ensures WorkOf(clusters, sets) == WorkOf(clusters[..k], sets[..k]) + Later(clusters, sets, k)
    decreases |sets| - k
  {
    hide Visits;
    if k < |sets| {
      LaterIsRest(clusters, sets, k + 1);
      PrefixWork(clusters, sets, k);
    } else {
      assert clusters[..k] == clusters && sets[..k] == sets;
    }
  }

  /** A core's canonical batches together are exactly the core's work. */
  lemma CanonicalIsComplete(clusters: seq<nat>, sets: seq<seq<nat>>, b: nat)
    requires |clusters| == |sets| && b > 0
    ensures Within(sets, From(sets, b, 0, 0))
    ensures BatchWork(clusters, sets, From(sets, b, 0, 0)) == WorkOf(clusters, sets)
  {
    hide Visits;
    LaterIsRest(clusters, sets, 0);
    if |sets| > 0 {
      SlicesTile(clusters, sets, b, 0, 0);
      assert sets[0][0..] == sets[0];
    }
  }

  /** A position from which a slice starts: the beginning of a set, or inside it. */
  predicate Starts(sets: seq<seq<nat>>, k: nat, l: nat) { k >= |sets| || l == 0 || l < |sets[k]| }

  /** Neighbouring batches belong to the same or to the next list position. */
  lemma {:induction false} FromSteps(sets: seq<seq<nat>>, b: nat, k: nat, l: nat, i: nat)
    requires b > 0 && i < |From(sets, b, k, l)|
    ensures i == 0 ==> From(sets, b, k, l)[i].k == k
    ensures i > 0 ==> From(sets, b, k, l)[i].k - From(sets, b, k, l)[i - 1].k in {0, 1}
    decreases i
  {
    var next := if l + b >= |sets[k]| then (k + 1, 0) else (k, l + b);
    assert From(sets, b, k, l)[1..] == From(sets, b, next.0, next.1);
    if i > 0 { FromSteps(sets, b, next.0, next.1, i - 1); }
  }

  /** Only the last batch closes the last set. */
  lemma {:induction false} FromLast(sets: seq<seq<nat>>, b: nat, k: nat, l: nat, i: nat)
    requires b > 0 && Starts(sets, k, l) && i < |From(sets, b, k, l)|
    ensures var x := From(sets, b, k, l)[i];
      x.k < |sets| && (x.k == |sets| - 1 && x.r == |sets[x.k]| <==> i == |From(sets, b, k, l)| - 1)
    decreases i
  {
    var next := if l + b >= |sets[k]| then (k + 1, 0) else (k, l + b);
    var rest := From(sets, b, next.0, next.1);
    assert From(sets, b, k, l)[1..] == rest;
    assert next.0 < |sets| ==> rest != [];
    if i > 0 { FromLast(sets, b, next.0, next.1, i - 1); }
  }

  // ---- All cores together -----------------------------------------------------------------------------------------

  /** The work in the first n cores' lists of saved batches. */
  function SavedWork(clusters: seq<seq<nat>>, sets: seq<seq<seq<nat>>>, saved: seq<seq<Batch>>, n: nat): (w: Work)
    requires n <= |clusters| == |sets| == |saved|
    requires forall k :: 0 <= k < |sets| ==> |clusters[k]| == |sets[k]| && Within(sets[k], saved[k])
  {
    if n == 0 then multiset{} else SavedWork(clusters, sets, saved, n - 1) + BatchWork(clusters[n - 1], sets[n - 1], saved[n - 1])
  }

  /** The canonical batches of the first n cores are the work of their lists. */
  lemma {:induction false} CanonicalWork(clusters: seq<seq<nat>>, sets: seq<seq<seq<nat>>>, saved: seq<seq<Batch>>, b: nat, n: nat)
    requires b > 0 && n <= |clusters| == |sets| == |saved|
    requires forall k :: 0 <= k < |sets| ==> |clusters[k]| == |sets[k]| && Within(sets[k], saved[k])
    requires forall k :: 0 <= k < |sets| ==> saved[k] == From(sets[k], b, 0, 0)
    ensures SavedWork(clusters, sets, saved, n) == CoreWork(clusters, sets, n)
  {
    if n > 0 {
      CanonicalWork(clusters, sets, saved, b, n - 1);
      CanonicalIsComplete(clusters[n - 1], sets[n - 1], b);
    }
  }
}
