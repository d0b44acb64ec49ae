/** One accelerator core: a three-stage pipeline that takes its batches through in canonical order. */
module AnnaCoreImpl {
  import opened Commands
  import opened AnnaWork
  import opened AnnaFetch

  /** What the modules outside the core answer during one cycle. */
  datatype Signals = Signals(
    centroidsIn: bool, metadataIn: bool, vectorsIn: bool,   // all outstanding reads of that reader arrived
    scmReady: bool)

  /** Memory words of a cluster's metadata and vectors. */
  datatype Sizes = Sizes(centroid: nat, metadata: nat -> nat, vectors: nat -> nat)

  function Canon(sets: seq<seq<nat>>, b: nat): (s: seq<Batch>)
    requires b > 0
  {
    From(sets, b, 0, 0)
  }

  /** What has been issued and what is still to come make up the canonical order. */
  ghost predicate Order(sets: seq<seq<nat>>, b: nat, slice: nat, cursor: nat, issued: seq<Batch>) {
    b > 0 && slice <= |sets| && Starts(sets, slice, cursor) && Canon(sets, b) == issued + From(sets, b, slice, cursor)
  }

  /** A stage and the queries it works on. */
  datatype Stage = Stage(index: Option<nat>, l: nat, r: nat)

  /** The stage holds the batch at the given count, or is empty and level with the stage after it. */
  ghost predicate StageOk(issued: seq<Batch>, st: Stage, ahead: nat, behind: nat) {
    if st.index.None? then ahead == behind
    else ahead == behind + 1 && ahead <= |issued| && issued[ahead - 1] == Batch(st.index.value, st.l, st.r)
  }

  /** The three stages hold consecutive batches; what was given and saved are prefixes of what was issued. */
  ghost predicate Stages(issued: seq<Batch>, prefetched: nat, given: seq<Batch>, saved: seq<Batch>, cpm: Stage, efm: Stage, scm: Stage) {
    && |saved| <= |given| <= prefetched <= |issued| && given <= issued && saved <= issued
    && StageOk(issued, cpm, |issued|, prefetched) && StageOk(issued, efm, prefetched, |given|) && StageOk(issued, scm, |given|, |saved|)
  }

  /** What the core knows of its fetches: each cluster once, in list order; the awaited number is the last request's. */
  datatype Fetches = Fetches(last: Option<nat>, awaited: nat, submitted: nat, fetched: nat, requests: seq<nat>)

  ghost predicate FetchOk(clusters: seq<nat>, issued: seq<Batch>, prefetched: nat, free: bool, f: Fetches) {
    && prefetched <= |issued| && f.submitted <= |clusters| && f.requests == clusters[..f.submitted]
    && (if prefetched == 0 then f.last.None? && f.submitted == 0
        else f.last == Some(issued[prefetched - 1].k) && f.submitted == f.last.value + 1 && f.awaited == f.last.value
             && (free ==> f.fetched == f.awaited))
  }

  ghost predicate FinishedOk(sets: seq<seq<nat>>, b: nat, saved: seq<Batch>, finished: bool)
    requires b > 0
  {
    finished <==> Canon(sets, b) != [] && saved == Canon(sets, b)
  }

  // ---- What each stage keeps --------------------------------------------------------------------------------------

  /** Saving the batch of the last stage finishes the core exactly when it closes the last query set. */
  lemma SaveKeeps(sets: seq<seq<nat>>, b: nat, slice: nat, cursor: nat, issued: seq<Batch>, prefetched: nat,
                  given: seq<Batch>, saved: seq<Batch>, cpm: Stage, efm: Stage, scm: Stage, finished: bool)
    requires Order(sets, b, slice, cursor, issued) && Stages(issued, prefetched, given, saved, cpm, efm, scm)
    requires scm.index.Some? && FinishedOk(sets, b, saved, finished)
    ensures var x := Batch(scm.index.value, scm.l, scm.r);
      && x.k < |sets|
      && Stages(issued, prefetched, given, saved + [x], cpm, efm, scm.(index := None))
      && FinishedOk(sets, b, saved + [x], finished || (x.k + 1 == |sets| && x.r == |sets[x.k]|))
  {
    hide From;
    var x, i := Batch(scm.index.value, scm.l, scm.r), |saved|;
    var canon := Canon(sets, b);
    assert canon[i] == issued[i] == x;
    FromLast(sets, b, 0, 0, i);
    assert saved + [x] == canon[..i + 1];
    assert i + 1 == |canon| ==> saved + [x] == canon;
  }

  lemma ComputeKeeps(clusters: seq<nat>, issued: seq<Batch>, prefetched: nat, given: seq<Batch>, saved: seq<Batch>,
                     cpm: Stage, efm: Stage, scm: Stage, f: Fetches)
    requires Stages(issued, prefetched, given, saved, cpm, efm, scm) && FetchOk(clusters, issued, prefetched, false, f)
    requires efm.index.Some? && scm.index.None? && f.fetched == f.awaited
    ensures Stages(issued, prefetched, given + [Batch(efm.index.value, efm.l, efm.r)], saved, cpm, efm.(index := None), efm)
    ensures FetchOk(clusters, issued, prefetched, true, f)
  {}

  /** The list position of the next batch to fetch: that of the last, or the one after it. */
  lemma PrefetchSteps(sets: seq<seq<nat>>, b: nat, slice: nat, cursor: nat, issued: seq<Batch>, i: nat)
    requires Order(sets, b, slice, cursor, issued) && i < |issued|
    ensures issued[i].k < |sets| && (i == 0 ==> issued[i].k == 0)
    ensures i > 0 ==> issued[i].k == issued[i - 1].k || issued[i].k == issued[i - 1].k + 1
  {
    hide From;
    assert Canon(sets, b)[i] == issued[i];
    assert i > 0 ==> Canon(sets, b)[i - 1] == issued[i - 1];
    FromSteps(sets, b, 0, 0, i);
    FromLast(sets, b, 0, 0, i);
  }

  /** List position k is the last one requested or the one after it. */
  ghost predicate InTurn(clusters: seq<nat>, prefetched: nat, f: Fetches, k: nat) {
    && k < |clusters| && (prefetched == 0 ==> k == 0)
    && (prefetched > 0 ==> f.last.Some? && (f.last == Some(k) || k == f.last.value + 1))
  }

  /** What is known after asking for list position k. */
  ghost predicate Asked(clusters: seq<nat>, f: Fetches, g: Fetches, k: nat) {
    && k < |clusters| && g.last == Some(k)
    && if f.last == Some(k) then g == f
       else g.awaited == f.submitted && g.submitted == f.submitted + 1 && g.requests == f.requests + [clusters[k]]
  }

  /** The batch to prefetch follows the last one, whose fetches are all in. */
  lemma MayPrefetch(sets: seq<seq<nat>>, b: nat, slice: nat, cursor: nat, clusters: seq<nat>, issued: seq<Batch>, prefetched: nat,
                    given: seq<Batch>, saved: seq<Batch>, cpm: Stage, efm: Stage, scm: Stage, f: Fetches)
    requires Order(sets, b, slice, cursor, issued) && Stages(issued, prefetched, given, saved, cpm, efm, scm)
    requires FetchOk(clusters, issued, prefetched, true, f) && |clusters| == |sets| && cpm.index.Some?
    ensures cpm.index.value < |clusters| && InTurn(clusters, prefetched, f, cpm.index.value)
    ensures f.submitted > 0 ==> f.fetched == f.submitted - 1
  {
    hide Order;
    PrefetchSteps(sets, b, slice, cursor, issued, prefetched);
  }

  lemma PrefetchKeeps(clusters: seq<nat>, issued: seq<Batch>, prefetched: nat, given: seq<Batch>, saved: seq<Batch>,
                      cpm: Stage, efm: Stage, scm: Stage, f: Fetches, g: Fetches)
    requires Stages(issued, prefetched, given, saved, cpm, efm, scm) && FetchOk(clusters, issued, prefetched, true, f)
    requires cpm.index.Some? && efm.index.None?
    requires InTurn(clusters, prefetched, f, cpm.index.value) && Asked(clusters, f, g, cpm.index.value)
    ensures Stages(issued, prefetched + 1, given, saved, cpm.(index := None), cpm, scm)
    ensures FetchOk(clusters, issued, prefetched + 1, false, g)
  {
    var k := cpm.index.value;
    assert clusters[..k + 1] == clusters[..k] + [clusters[k]];
  }

  /** A fetch that completes cannot pass the awaited number, and cannot disturb it once reached. */
  lemma FetchTick(clusters: seq<nat>, issued: seq<Batch>, prefetched: nat, free: bool, f: Fetches, fetched: nat)
    requires FetchOk(clusters, issued, prefetched, free, f) && f.fetched <= fetched
    requires f.submitted > 0 ==> fetched <= f.submitted - 1
    ensures FetchOk(clusters, issued, prefetched, free, f.(fetched := fetched)) && (prefetched > 0 ==> fetched <= f.awaited)
  {}

  /** The next slice enters: what is issued grows by the head of what is to come. */
  lemma EnterKeeps(sets: seq<seq<nat>>, b: nat, slice: nat, cursor: nat, issued: seq<Batch>)
    requires Order(sets, b, slice, cursor, issued) && slice < |sets|
    ensures var r := Min(cursor + b, |sets[slice]|);
      if r == |sets[slice]| then Order(sets, b, slice + 1, 0, issued + [Batch(slice, cursor, r)])
      else Order(sets, b, slice, cursor + b, issued + [Batch(slice, cursor, r)])
  {
    var r := Min(cursor + b, |sets[slice]|);
    var rest := if r == |sets[slice]| then From(sets, b, slice + 1, 0) else From(sets, b, slice, cursor + b);
    assert From(sets, b, slice, cursor) == [Batch(slice, cursor, r)] + rest;
    assert issued + ([Batch(slice, cursor, r)] + rest) == issued + [Batch(slice, cursor, r)] + rest;
  }

  lemma EnterStages(issued: seq<Batch>, prefetched: nat, given: seq<Batch>, saved: seq<Batch>, cpm: Stage, efm: Stage, scm: Stage,
                    clusters: seq<nat>, free: bool, f: Fetches, x: Batch)
    requires Stages(issued, prefetched, given, saved, cpm, efm, scm) && cpm.index.None?
    requires FetchOk(clusters, issued, prefetched, free, f)
    ensures Stages(issued + [x], prefetched, given, saved, Stage(Some(x.k), x.l, x.r), efm, scm)
    ensures FetchOk(clusters, issued + [x], prefetched, free, f)
  {}

  class AnnaCore {
    const clusterList: seq<nat>
    const querySetList: seq<seq<nat>>
    const batchSize: nat
    const cpm: ClusterCodebookProcessingModule
    const efm: EncodedVectorFetchModule
    var cpmIndex: Option<nat>
    var efmIndex: Option<nat>
    var scmIndex: Option<nat>
    var preEfmIndex: Option<nat>
    var awaited: nat
    var slice: nat
    var sliceChanged: bool
    var sliceQueries: nat
    var nextL: nat
    var nextR: nat
    var processL: nat
    var processR: nat
    var savingL: nat
    var savingR: nat
    var finished: bool
    ghost var issued: seq<Batch>      // batches that entered the pipeline
    ghost var prefetched: nat         // how many of them went on to the fetch stage,
    ghost var given: seq<Batch>       // which were given to the similarity computation,
    ghost var saved: seq<Batch>       // and which were saved

    /** Where the next batch starts in its query set. */
    ghost function Cursor(): nat
      reads this
    {
      if sliceChanged then 0 else sliceQueries + batchSize
    }

    ghost function Known(): Fetches
      reads this, efm
    {
      Fetches(preEfmIndex, awaited, efm.submitted, efm.fetched, efm.requests)
    }

    ghost predicate Valid()
      reads this, cpm, efm
    {
      cpm.Valid() && Piped()
    }

    /** Everything but the codebook module. */
    ghost predicate Piped()
      reads this, efm
    {
      && |clusterList| == |querySetList| && efm.Valid()
      && Order(querySetList, batchSize, slice, Cursor(), issued)
      && Stages(issued, prefetched, given, saved,
                Stage(cpmIndex, nextL, nextR), Stage(efmIndex, processL, processR), Stage(scmIndex, savingL, savingR))
      && FetchOk(clusterList, issued, prefetched, efmIndex.None?, Known())
      && FinishedOk(querySetList, batchSize, saved, finished)
    }

    constructor (clusterList: seq<nat>, querySetList: seq<seq<nat>>, batchSize: nat)
      requires |clusterList| == |querySetList| && batchSize > 0
      ensures Valid() && fresh(cpm) && fresh(efm) && issued == [] && this.clusterList == clusterList
      ensures this.querySetList == querySetList && this.batchSize == batchSize
    {
      this.clusterList, this.querySetList, this.batchSize := clusterList, querySetList, batchSize;
      cpm := new ClusterCodebookProcessingModule();
      efm := new EncodedVectorFetchModule();
      cpmIndex, efmIndex, scmIndex, preEfmIndex := None, None, None, None;
      slice, sliceChanged, sliceQueries, awaited := 0, true, 0, 0;
      nextL, nextR, processL, processR, savingL, savingR := 0, 0, 0, 0, 0, 0;
      finished := false;
      issued, prefetched, given, saved := [], 0, [], [];
    }

    /** The computation is over: its batch is saved, and the last one finishes the core. */
    method Save(scmReady: bool)
      requires Valid()
      modifies this`scmIndex, this`finished, this`saved
      ensures Valid()
      ensures saved == if old(scmIndex).Some? && scmReady then old(saved) + [Batch(old(scmIndex).value, savingL, savingR)] else old(saved)
      ensures scmIndex == if scmReady then None else old(scmIndex)
    {
      hide Order, Stages, FetchOk, FinishedOk, EncodedVectorFetchModule.Valid, ClusterCodebookProcessingModule.Valid;
      if scmIndex.Some? && scmReady {
        SaveKeeps(querySetList, batchSize, slice, Cursor(), issued, prefetched, given, saved,
                  Stage(cpmIndex, nextL, nextR), Stage(efmIndex, processL, processR), Stage(scmIndex, savingL, savingR), finished);
        saved := saved + [Batch(scmIndex.value, savingL, savingR)];
        if scmIndex.value + 1 == |clusterList| && savingR == |querySetList[scmIndex.value]| { finished := true; }
        scmIndex := None;
      }
    }

    /** The awaited fetches are in and the computation is free. */
    method Compute(scmReady: bool)
      requires Valid()
      modifies this`scmIndex, this`efmIndex, this`savingL, this`savingR, this`given
      ensures Valid()
      ensures var may := old(efmIndex.Some? && scmIndex.None?) && efm.fetched == awaited && scmReady;
        && given == (if may then old(given) + [Batch(old(efmIndex).value, processL, processR)] else old(given))
        && efmIndex == (if may then None else old(efmIndex)) && scmIndex == if may then old(efmIndex) else old(scmIndex)
    {
      hide Order, Stages, FetchOk, FinishedOk, EncodedVectorFetchModule.Valid, ClusterCodebookProcessingModule.Valid;
      if efmIndex.Some? && scmIndex.None? && efm.fetched == awaited && scmReady {
        ComputeKeeps(clusterList, issued, prefetched, given, saved,
                     Stage(cpmIndex, nextL, nextR), Stage(efmIndex, processL, processR), Stage(scmIndex, savingL, savingR), Known());
        given := given + [Batch(efmIndex.value, processL, processR)];
        scmIndex := efmIndex;
        savingL, savingR := processL, processR;
        efmIndex := None;
      }
    }

    /** The centroids are computed and the fetch stage is free: fetch, unless the cluster is the one fetched last. */
    method Prefetch()
      requires Valid()
      modifies this`efmIndex, this`cpmIndex, this`preEfmIndex, this`awaited, this`processL, this`processR, this`prefetched,
        efm`metadataQueue, efm`submitted, efm`requests
      ensures Valid()
      ensures var may := old(cpmIndex.Some? && efmIndex.None? && efm.metadataQueue == []) && cpm.computed == cpm.submitted;
        && prefetched == (if may then old(prefetched) + 1 else old(prefetched))
        && cpmIndex == (if may then None else old(cpmIndex)) && efmIndex == if may then old(cpmIndex) else old(efmIndex)
    {
      hide Order, Stages, FetchOk, FinishedOk, EncodedVectorFetchModule.Valid, ClusterCodebookProcessingModule.Valid;
      var ready := cpm.IsFinished();
      if cpmIndex.Some? && efmIndex.None? && ready && efm.metadataQueue == [] { FetchNext(); }
    }

    /** Requests list position k's cluster unless it is the one requested last. */
    method Ask(k: nat)
      requires efm.Valid() && efm.metadataQueue == [] && k < |clusterList| && (efm.submitted > 0 ==> efm.fetched == efm.submitted - 1)
      modifies this`preEfmIndex, this`awaited, efm`metadataQueue, efm`submitted, efm`requests
      ensures efm.Valid() && Asked(clusterList, old(Known()), Known(), k)
    {
      hide EncodedVectorFetchModule.Valid;
      if Some(k) != preEfmIndex { awaited := efm.SubmitRequest(clusterList[k]); }
      preEfmIndex := Some(k);
    }

    method FetchNext()
      requires Piped() && cpmIndex.Some? && efmIndex.None? && efm.metadataQueue == []
      modifies this`efmIndex, this`cpmIndex, this`preEfmIndex, this`awaited, this`processL, this`processR, this`prefetched,
        efm`metadataQueue, efm`submitted, efm`requests
      ensures Piped() && prefetched == old(prefetched) + 1 && cpmIndex == None && efmIndex == old(cpmIndex)
    {
      hide Order, Stages, FetchOk, FinishedOk, InTurn, Asked, EncodedVectorFetchModule.Valid;
      var k := cpmIndex.value;
      ghost var f, first, second, third :=
        Known(), Stage(cpmIndex, nextL, nextR), Stage(efmIndex, processL, processR), Stage(scmIndex, savingL, savingR);
      MayPrefetch(querySetList, batchSize, slice, Cursor(), clusterList, issued, prefetched, given, saved, first, second, third, f);
      efmIndex := cpmIndex;
      processL, processR := nextL, nextR;
      cpmIndex := None;
      prefetched := prefetched + 1;
      Ask(k);
      PrefetchKeeps(clusterList, issued, prefetched - 1, given, saved, first, second, third, f, Known());
    }

    /** Takes the next slice of the current query set and moves the cursor past it. */
    method NextSlice()
      requires batchSize > 0 && slice < |querySetList|
      modifies this`slice, this`sliceChanged, this`sliceQueries, this`nextL, this`nextR
      ensures nextL == old(Cursor()) && nextR == Min(nextL + batchSize, |querySetList[old(slice)]|)
      ensures if nextR == |querySetList[old(slice)]| then slice == old(slice) + 1 && Cursor() == 0
        else slice == old(slice) && Cursor() == nextL + batchSize
    {
      var k := slice;
      if sliceChanged {
        nextL, sliceQueries, sliceChanged := 0, 0, false;
      } else {
        sliceQueries := sliceQueries + batchSize;
        nextL := sliceQueries;
      }
      nextR := Min(nextL + batchSize, |querySetList[k]|);
      if nextR == |querySetList[k]| {
        sliceChanged := true;
        slice := slice + 1;
      }
    }

    /** The first stage is free: the next slice of the current query set enters. */
    method Enter(centroid: nat -> nat)
      requires Valid()
      modifies this`cpmIndex, this`slice, this`sliceChanged, this`sliceQueries, this`nextL, this`nextR, this`issued, cpm`waitAddr, cpm`submitted
      ensures Valid()
      ensures var may := old(cpmIndex.None? && cpm.waitAddr == [] && slice < |clusterList|);
        issued == if may then old(issued) + [Batch(old(slice), old(Cursor()), nextR)] else old(issued)
    {
      hide Order, Stages, FetchOk, FinishedOk, EncodedVectorFetchModule.Valid, ClusterCodebookProcessingModule.Valid;
      var ready := cpm.IsReadySubmit();
      if cpmIndex.None? && ready && slice < |clusterList| {
        var k := slice;
        EnterNext();
        cpm.SubmitClusterRequest([centroid(clusterList[k])]);
      }
    }

    method EnterNext()
      requires Piped() && cpmIndex.None? && slice < |clusterList|
      modifies this`cpmIndex, this`slice, this`sliceChanged, this`sliceQueries, this`nextL, this`nextR, this`issued
      ensures Piped() && cpmIndex == Some(old(slice)) && issued == old(issued) + [Batch(old(slice), nextL, nextR)] && nextL == old(Cursor())
    {
      hide Order, Stages, FetchOk, FinishedOk, EncodedVectorFetchModule.Valid;
      var k := slice;
      EnterKeeps(querySetList, batchSize, slice, Cursor(), issued);
      ghost var before := Stage(cpmIndex, nextL, nextR);
      NextSlice();
      cpmIndex := Some(k);
      EnterStages(issued, prefetched, given, saved, before, Stage(efmIndex, processL, processR), Stage(scmIndex, savingL, savingR),
                  clusterList, efmIndex.None?, Known(), Batch(k, nextL, nextR));
      issued := issued + [Batch(k, nextL, nextR)];
    }

    /** The last two stages of a cycle. */
    method Finish(scmReady: bool)
      requires Valid()
      modifies this`scmIndex, this`efmIndex, this`savingL, this`savingR, this`given, this`finished, this`saved
      ensures Valid()
      ensures saved == if old(scmIndex).Some? && scmReady then old(saved) + [Batch(old(scmIndex).value, old(savingL), old(savingR))]
        else old(saved)
      ensures var computes := old(efmIndex).Some? && scmReady && efm.fetched == awaited;
        && given == (if computes then old(given) + [Batch(old(efmIndex).value, processL, processR)] else old(given))
        && efmIndex == if computes then None else old(efmIndex)
    {
      hide Piped, EncodedVectorFetchModule.Valid, ClusterCodebookProcessingModule.Valid;
      Save(scmReady);
      Compute(scmReady);
    }

    /** The first two. */
    method Begin(centroid: nat -> nat)
      requires Valid()
      modifies this`efmIndex, this`cpmIndex, this`preEfmIndex, this`awaited, this`processL, this`processR, this`prefetched, efm`metadataQueue
      modifies efm`submitted, efm`requests, this`slice, this`sliceChanged, this`sliceQueries, this`nextL, this`nextR, this`issued
      modifies cpm`waitAddr, cpm`submitted
      ensures Valid()
      ensures var fetches := old(cpmIndex.Some? && efmIndex.None? && efm.metadataQueue == []) && cpm.computed == old(cpm.submitted);
        var enters := (old(cpmIndex).None? || fetches) && old(cpm.waitAddr == [] && slice < |clusterList|);
        && prefetched == (if fetches then old(prefetched) + 1 else old(prefetched))
        && issued == if enters then old(issued) + [Batch(old(slice), old(Cursor()), nextR)] else old(issued)
    {
      hide Piped, EncodedVectorFetchModule.Valid, ClusterCodebookProcessingModule.Valid;
      Prefetch();
      Enter(centroid);
    }

    /** One cycle: modules first, then the stages from the last to the first. */
    method ClockTick(s: Signals, z: Sizes, centroid: nat -> nat)
      requires Valid()
      modifies this, cpm, efm
      ensures Valid()
      ensures saved == if old(scmIndex).Some? && s.scmReady then old(saved) + [Batch(old(scmIndex).value, old(savingL), old(savingR))]
        else old(saved)
      ensures var computes := old(efmIndex).Some? && s.scmReady && efm.fetched == old(awaited);
        var fetches := old(cpmIndex).Some? && (old(efmIndex).None? || computes) && cpm.computed == old(cpm.submitted)
          && (old(efm.metadataQueue) == [] || old(efm.WillStart(s.metadataIn)));
        var enters := (old(cpmIndex).None? || fetches) && old(cpm.StillWaiting(s.centroidsIn)) == [] && old(slice) < |clusterList|;
        && given == (if computes then old(given) + [Batch(old(efmIndex).value, old(processL), old(processR))] else old(given))
        && prefetched == (if fetches then old(prefetched) + 1 else old(prefetched))
        && issued == if enters then old(issued) + [Batch(old(slice), old(Cursor()), nextR)] else old(issued)
    {
      hide Piped, EncodedVectorFetchModule.Valid, ClusterCodebookProcessingModule.Valid;
      cpm.ClockTick(s.centroidsIn, z.centroid);
      TickFetch(s, z);
      Finish(s.scmReady);
      Begin(centroid);
    }

    /** While a batch waits, the vector fetches cannot pass the awaited number. */
    method TickFetch(s: Signals, z: Sizes)
      requires Valid()
      modifies efm
      ensures Valid() && (prefetched > 0 ==> efm.fetched <= awaited)
      ensures efm.metadataQueue == if old(efm.WillStart(s.metadataIn)) then [] else old(efm.metadataQueue)
    {
      hide Order, Stages, FetchOk, FinishedOk, EncodedVectorFetchModule.Valid, ClusterCodebookProcessingModule.Valid;
      ghost var f := Known();
      efm.ClockTick(s.metadataIn, s.vectorsIn, z.metadata, z.vectors);
      efm.CountersOrdered();
      FetchTick(clusterList, issued, prefetched, efmIndex.None?, f, efm.fetched);
    }

    /** At most three batches are under way, and they are consecutive in the canonical order. */
    lemma InFlight()
      requires Valid()
      ensures issued <= Canon(querySetList, batchSize) && saved <= given <= issued && |issued| <= |saved| + 3
      ensures finished <==> Canon(querySetList, batchSize) != [] && saved == Canon(querySetList, batchSize)
    {}

    /** A finished core has done exactly its share of the work; a core with an empty list never finishes. */
    lemma FinishedMeansDone()
      requires Valid()
      ensures finished ==> Within(querySetList, saved) && BatchWork(clusterList, querySetList, saved) == WorkOf(clusterList, querySetList)
      ensures clusterList == [] ==> !finished
    {
      CanonicalIsComplete(clusterList, querySetList, batchSize);
    }
  }

  // ---- All cores ----------------------------------------------------------------------------------------------------

  /** Core k works on the k-th lists. */
  ghost predicate Assigned(cores: seq<AnnaCore>, clusters: seq<seq<nat>>, sets: seq<seq<seq<nat>>>, b: nat)
    reads set k | 0 <= k < |cores| :: cores[k], set k | 0 <= k < |cores| :: cores[k].cpm, set k | 0 <= k < |cores| :: cores[k].efm
  {
    && |cores| == |clusters| == |sets|
    && forall k :: 0 <= k < |cores| ==>
         cores[k].Valid() && cores[k].clusterList == clusters[k] && cores[k].querySetList == sets[k] && cores[k].batchSize == b
  }

  /** End to end: once every core has finished, each (cluster, query) pair the queries ask for has been done exactly once. */
  lemma EndToEnd(queries: seq<seq<nat>>, clusters: seq<seq<nat>>, sets: seq<seq<seq<nat>>>, cores: seq<AnnaCore>, b: nat,
                 saved: seq<seq<Batch>>)
    requires Partitioned(queries, clusters, sets) && Assigned(cores, clusters, sets, b) && b > 0
    requires |saved| == |cores| && forall k :: 0 <= k < |cores| ==> cores[k].finished && saved[k] == cores[k].saved
    ensures forall k :: 0 <= k < |sets| ==> |clusters[k]| == |sets[k]| && Within(sets[k], saved[k])
    ensures SavedWork(clusters, sets, saved, |cores|) == AllAsks(queries, |queries|)
  {
    hide CoreWork, AllAsks, SavedWork, Entries, Within, BatchWork;
    forall k | 0 <= k < |cores| ensures saved[k] == From(sets[k], b, 0, 0) && Within(sets[k], saved[k]) {
      FinishedIsCanon(cores[k]);
      CanonicalIsComplete(clusters[k], sets[k], b);
    }
    CanonicalWork(clusters, sets, saved, b, |cores|);
  }

  lemma FinishedIsCanon(core: AnnaCore)
    requires core.Valid() && core.finished
    ensures core.batchSize > 0 && core.saved == From(core.querySetList, core.batchSize, 0, 0)
  {}

  /** With fewer list entries than cores, the first core without an entry has not finished, whatever has happened so far. */
  lemma SomeCoreNeverFinishes(queries: seq<seq<nat>>, clusters: seq<seq<nat>>, sets: seq<seq<seq<nat>>>, cores: seq<AnnaCore>, b: nat)
    requires Partitioned(queries, clusters, sets) && Assigned(cores, clusters, sets, b) && Entries(clusters) < |cores|
    ensures !cores[Entries(clusters)].finished
  {
    hide CoreWork, AllAsks, Entries;
    cores[Entries(clusters)].FinishedMeansDone();
  }
}
