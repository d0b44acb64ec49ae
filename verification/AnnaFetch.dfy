/** The fetch and codebook modules of one accelerator core, over readers seen as ready or busy. */
module AnnaFetch {
  import opened Commands
  import opened Counting

  /** A memory reader as its user sees it: nothing outstanding, and the last batch already reported. */
  datatype Reader = Reader(ready: bool, finished: bool)
  {
    predicate Ok() { finished ==> ready }
  }

  /** A cycle in which the reader may receive all it still waits for. */
  function Tick(r: Reader, done: bool): Reader { r.(ready := r.ready || done) }

  function Submit(r: Reader, words: nat): Reader { Reader(r.ready && words == 0, false) }

  predicate Reports(r: Reader) { r.ready && !r.finished }

  function Reset(r: Reader): Reader { if Reports(r) then r.(finished := true) else r }

  // ---- The fetch module -------------------------------------------------------------------------------------------

  class EncodedVectorFetchModule {
    var metadata: Reader
    var vector: Reader
    var metadataQueue: seq<nat>
    var vectorQueue: seq<nat>
    var clusterQueue: seq<nat>
    var fetched: nat
    var submitted: nat
    var fetching: nat
    ghost var requests: seq<nat>   // clusters in the order they were submitted
    ghost var vectors: seq<nat>    // clusters in the order their vectors were asked for

    /** Requests whose metadata has been asked for. */
    ghost function Started(): int
      reads this
    {
      submitted - |metadataQueue|
    }

    ghost predicate MetadataOk()
      reads this
    {
      && metadata.Ok() && |metadataQueue| <= 1 && submitted == |requests| == fetching + Bit(!metadata.finished) + |metadataQueue|
      && metadataQueue == requests[Started()..]
      && clusterQueue == (if Started() == 0 then [] else [requests[Started() - 1]])
    }

    /** Vectors asked for or about to be; those about to be find the vector reader idle and the counters one apart. */
    ghost predicate VectorsOk()
      reads this
    {
      && vector.Ok() && |vectors| == fetched + Bit(!vector.finished)
      && |vectors| + |vectorQueue| == (if Started() <= 0 then 0 else Started() - 1) <= |requests|
      && vectors + vectorQueue == requests[..|vectors| + |vectorQueue|]
      && (metadataQueue != [] && Started() > 0 ==> vector.finished && vectorQueue == [])
      && (vectorQueue != [] ==> |vectorQueue| == 1 && vector.finished && fetched == fetching - 1)
    }

    /**
     * Every request is counted once: queued, its metadata on the way, or fetched. The newest started request waits in
     * the cluster queue; the vectors of all older ones have been asked for, in order; and a queued request means
     * that those vectors have all arrived.
     */
    ghost predicate Valid()
      reads this
    {
      MetadataOk() && VectorsOk() && vectorQueue == []
    }

    constructor ()
      ensures Valid() && submitted == 0 && requests == []
    {
      metadata, vector := Reader(true, true), Reader(true, true);
      metadataQueue, vectorQueue, clusterQueue := [], [], [];
      fetched, submitted, fetching := 0, 0, 0;
      requests, vectors := [], [];
    }

    /** The counters never cross, and at most two fetches lie between the metadata's and the vectors'. */
    lemma CountersOrdered()
      requires Valid()
      ensures fetched <= fetching <= submitted && fetching - fetched <= 2
      ensures submitted > 0 ==> fetched <= submitted - 1
    {}

    /** A queued request will be started in the next cycle: all earlier metadata is in. */
    ghost predicate WillStart(done: bool)
      reads this
    {
      submitted > 0 && fetching + Bit(Reports(Tick(metadata, done))) == submitted - 1 && Tick(metadata, done).ready
    }

    /** Asks for the metadata of the queued request; the request before it is superseded. */
    method StartQueued(words: nat -> nat)
      requires Valid() && metadata.ready && metadata.finished && submitted > 0 && fetching == submitted - 1
      modifies this`metadata, this`metadataQueue, this`vectorQueue, this`clusterQueue
      ensures MetadataOk() && VectorsOk()
      ensures metadataQueue == [] && clusterQueue == old(metadataQueue) && vectorQueue == old(clusterQueue)
    {
      AskMetadata(words);
      assert metadataQueue == [requests[submitted - 1]];
      vectorQueue, clusterQueue, metadataQueue := vectorQueue + clusterQueue, metadataQueue, [];
      assert requests[Started()..] == [] && clusterQueue == [requests[Started() - 1]];
    }

    method AskMetadata(words: nat -> nat)
      requires metadata.Ok()
      modifies this`metadata
      ensures metadata.Ok() && (metadataQueue != [] ==> !metadata.finished) && (metadataQueue == [] ==> metadata == old(metadata))
    {
      var i := 0;
      while i < |metadataQueue|
        invariant i <= |metadataQueue| && metadata.Ok() && (i > 0 ==> !metadata.finished) && (i == 0 ==> metadata == old(metadata))
      {
        metadata := Submit(metadata, words(metadataQueue[i]));
        i := i + 1;
      }
    }

    method MetadataReport(done: bool)
      requires Valid()
      modifies this`metadata, this`fetching
      ensures Valid() && (metadata.ready ==> metadata.finished) && metadata.ready == Tick(old(metadata), done).ready
      ensures fetching == old(fetching) + Bit(Reports(Tick(old(metadata), done)))
    {
      metadata := Tick(metadata, done);
      if Reports(metadata) {
        metadata := Reset(metadata);
        fetching := fetching + 1;
      }
    }

    method MetadataTick(done: bool, words: nat -> nat)
      requires Valid()
      modifies this`metadata, this`metadataQueue, this`vectorQueue, this`clusterQueue, this`fetching
      ensures MetadataOk() && VectorsOk() && fetching == old(fetching) + Bit(Reports(Tick(old(metadata), done)))
      ensures if old(WillStart(done))
        then metadataQueue == [] && clusterQueue == old(metadataQueue) && vectorQueue == old(clusterQueue)
        else metadataQueue == old(metadataQueue) && clusterQueue == old(clusterQueue) && vectorQueue == []
    {
      MetadataReport(done);
      if submitted > 0 && fetching == submitted - 1 && metadata.ready { StartQueued(words); }
    }

    method VectorTick(done: bool, words: nat -> nat)
      requires MetadataOk() && VectorsOk()
      modifies this`vector, this`vectorQueue, this`vectors, this`fetched
      ensures Valid() && fetched == old(fetched) + Bit(Reports(Tick(old(vector), done))) && vectors == old(vectors) + old(vectorQueue)
    {
      vector := Tick(vector, done);
      if Reports(vector) { fetched := fetched + 1; }
      vector := Reset(vector);
      if fetching > 0 && fetched == fetching - 1 && vector.ready { AskVectors(words); }
    }

    /** Asks for the vectors of the superseded request, if there is one. */
    method AskVectors(words: nat -> nat)
      requires vector.Ok() && |vectorQueue| <= 1
      modifies this`vector, this`vectorQueue, this`vectors
      ensures vector.Ok() && vectorQueue == [] && vectors == old(vectors) + old(vectorQueue)
      ensures vector.finished == (old(vector.finished) && old(vectorQueue) == [])
    {
      var i := 0;
      while i < |vectorQueue|
        modifies this`vector, this`vectors
        invariant i <= |vectorQueue| && vector.Ok() && vectors == old(vectors) + vectorQueue[..i]
        invariant vector.finished == (old(vector.finished) && i == 0)
      {
        vector := Submit(vector, words(vectorQueue[i]));
        vectors := vectors + [vectorQueue[i]];
        i := i + 1;
      }
      vectorQueue := [];
    }

    method ClockTick(metadataDone: bool, vectorDone: bool, metadataWords: nat -> nat, vectorWords: nat -> nat)
      requires Valid()
      modifies this
      ensures Valid() && submitted == old(submitted) && requests == old(requests)
      ensures fetching == old(fetching) + Bit(Reports(Tick(old(metadata), metadataDone)))
      ensures fetched == old(fetched) + Bit(Reports(Tick(old(vector), vectorDone)))
      ensures metadataQueue == if old(WillStart(metadataDone)) then [] else old(metadataQueue)
      ensures vectors == if old(WillStart(metadataDone)) then old(vectors) + old(clusterQueue) else old(vectors)
    {
      MetadataTick(metadataDone, metadataWords);
      VectorTick(vectorDone, vectorWords);
    }

    /**
     * A request for one cluster; the core waits until as many vector fetches are in as the number returned. The accounting
     * survives exactly when all earlier vectors are in, which the core sees to.
     */
    method SubmitRequest(cluster: nat) returns (number: nat)
      requires Valid() && metadataQueue == []
      modifies this`metadataQueue, this`submitted, this`requests
      ensures number == old(submitted) == submitted - 1 && requests == old(requests) + [cluster] && metadataQueue == [cluster]
      ensures MetadataOk() && (Valid() <==> (old(submitted) > 0 ==> fetched == old(submitted) - 1))
    {
      metadataQueue := metadataQueue + [cluster];
      requests := requests + [cluster];
      submitted := submitted + 1;
      number := submitted - 1;
    }
  }

  // ---- The codebook module ----------------------------------------------------------------------------------------

  const N_CU: nat := 128
  const COMPUTING_CYCLE_NUM: nat := (36 * 256 * 384 + 127) / 128
  const COMPUTING_INVALID_NUM: nat := 0xFFFF_FFFF_FFFF_FFFF

  class ClusterCodebookProcessingModule {
    var reader: Reader
    var computingRemind: nat
    var waitAddr: seq<nat>
    ghost var submitted: nat
    ghost var computed: nat
    ghost var group: nat       // centroids being read or computed
    ghost var spent: nat       // cycles the group has been computed for

    ghost predicate Valid()
      reads this
    {
      && reader.Ok() && (computingRemind <= COMPUTING_CYCLE_NUM || computingRemind == COMPUTING_INVALID_NUM)
      && submitted == computed + group + |waitAddr| && (group == 0 <==> computingRemind == 0) && group <= 128
      && spent == (if Computing() then 27648 - computingRemind else 0)
    }

    ghost predicate Computing()
      reads this
    {
      0 < computingRemind <= 27648
    }

    /** The centroids that wait after the next cycle: a free module takes up to 128 at once. */
    ghost function StillWaiting(done: bool): seq<nat>
      reads this
    {
      if group == 0 && Tick(reader, done).ready then waitAddr[Min(128, |waitAddr|)..] else waitAddr
    }

    constructor ()
      ensures Valid() && submitted == 0
    {
      reader, computingRemind, waitAddr := Reader(true, true), 0, [];
      submitted, computed, group, spent := 0, 0, 0, 0;
    }

    /** Counts down a computation; otherwise starts one when its reads are in, or starts reading the next group. */
    method ClockTick(done: bool, words: nat)
      requires Valid()
      modifies this
      ensures Valid() && submitted == old(submitted) && old(computed) <= computed
      ensures old(Computing()) && old(spent) < 27647 ==> group == old(group) && computed == old(computed) && spent == old(spent) + 1
      ensures old(Computing()) && old(spent) == 27647 ==> group == 0 && computed == old(computed) + old(group)
      ensures !old(Computing()) && old(group) > 0 ==> group == old(group)
      ensures !old(Computing()) && old(group) > 0 ==> Computing() == Tick(old(reader), done).ready
      ensures old(group) == 0 ==> group == (if Tick(old(reader), done).ready then Min(128, |old(waitAddr)|) else 0)
      ensures old(group) == 0 ==> !Computing()
      ensures waitAddr == old(StillWaiting(done))
    {
      reader := Tick(reader, done);
      if computingRemind <= COMPUTING_CYCLE_NUM && computingRemind > 0 {
        computingRemind, spent := computingRemind - 1, spent + 1;
        if computingRemind == 0 { computed, group, spent := computed + group, 0, 0; }
        return;
      }
      reader := Reset(reader);
      if reader.ready {
        if computingRemind == COMPUTING_INVALID_NUM {
          computingRemind := COMPUTING_CYCLE_NUM;
        } else if waitAddr != [] {
          var i := 0;
          while i < N_CU && waitAddr != []
            modifies this`reader, this`waitAddr, this`group
            invariant i == group <= N_CU && reader.Ok()
            invariant i <= |old(waitAddr)| && waitAddr == old(waitAddr)[i..] && (i == 0 ==> waitAddr != [])
          {
            reader := Submit(reader, words);
            waitAddr := waitAddr[1..];
            group := group + 1;
            i := i + 1;
          }
          computingRemind := COMPUTING_INVALID_NUM;
        }
      }
    }

    method IsReadySubmit() returns (b: bool)
      requires Valid()
      ensures b <==> waitAddr == []
    {
      b := waitAddr == [];
    }

    /** Finished exactly when everything ever submitted has been read and computed. */
    method IsFinished() returns (b: bool)
      requires Valid()
      ensures b <==> computed == submitted
    {
      b := waitAddr == [] && computingRemind == 0;
    }

    method SubmitClusterRequest(addrs: seq<nat>)
      requires Valid()
      modifies this`waitAddr, this`submitted
      ensures Valid() && waitAddr == old(waitAddr) + addrs && submitted == old(submitted) + |addrs|
    {
      var i := 0;
      while i < |addrs|
        invariant i <= |addrs| && waitAddr == old(waitAddr) + addrs[..i] && submitted == old(submitted) + i && Valid()
      {
        waitAddr := waitAddr + [addrs[i]];
        submitted := submitted + 1;
        i := i + 1;
      }
    }
  }
}
