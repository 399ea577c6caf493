/**
 * `DeficitCollector.collect_until_fulfilled`: keep a buffer of search
 * candidates, and while the job's authoritative count is short of the
 * requested number, submit the next contiguous chunk of the buffer for
 * extraction, refilling the buffer from the session when it runs dry.
 *
 * The job count read at the top of each iteration and the session's
 * continuation pages are oracles: `counts(k)` is what the `k`-th read finds
 * (`None` when the job row is missing), `source(k, n)` is what the `k`-th call
 * of `get_more_results` asking for `n` items answers.  The extractor is the
 * consumer of the submitted chunks; its effect reaches the loop only through
 * later count reads.
 */
module DeficitCollector {
  import opened Wrappers
  import opened Slices
  import opened SearchApi
  import opened SearchEngine

  /** Why the loop ended. */
  datatype Stop =
    | TargetMet                    // the deficit read at the top of an iteration was not positive
    | PullCap                      // the buffer ran dry with `max_total_pull` already consumed
    | SessionExhausted             // a refill came back empty
    | Raised(error: EngineError)   // `get_more_results` raised

  /**
   * The loop's final state, the chunks it handed to the extractor, in order,
   * and what each iteration that took a chunk first added to the buffer.
   */
  datatype Outcome = Outcome(stop: Stop, buffer: seq<Item>, resultIndex: nat, totalConsumed: nat,
                             chunks: seq<seq<Item>>, refills: seq<seq<Item>>, calls: nat)

  /** The requested number minus the count read; a missing job counts as 0. */
  function Deficit(numResults: int, count: Option<int>): int {
    numResults - count.GetOr(0)
  }

  /** How many items a refill asks for. */
  function FetchSize(maxChunkSize: int, deficit: int, overfetch: nat): (r: int)
    ensures r <= 2 * maxChunkSize
    ensures maxChunkSize >= 5 ==> r >= 10
  {
    Min(maxChunkSize * 2, Max(10, deficit * overfetch))
  }

  /** How many items the next chunk takes at most. */
  function ChunkSize(maxChunkSize: int, deficit: int, overfetch: nat): (r: int)
    ensures r <= maxChunkSize
    ensures maxChunkSize >= 1 ==> r >= 1
    ensures maxChunkSize >= 1 && deficit * overfetch <= maxChunkSize ==> r == Max(1, deficit * overfetch)
  {
    Min(maxChunkSize, Max(1, deficit * overfetch))
  }

  /** The chunks laid end to end. */
  function Flatten(chunks: seq<seq<Item>>): seq<Item> {
    if chunks == [] then [] else Flatten(chunks[..|chunks| - 1]) + chunks[|chunks| - 1]
  }

  /** Where chunk `j` starts in the flattened sequence. */
  function ChunkStart(chunks: seq<seq<Item>>, j: nat): nat
    requires j <= |chunks|
  {
    |Flatten(chunks[..j])|
  }

  /** The source never answers with more items than it was asked for, as `get_more_results`' slice guarantees. */
  ghost predicate HonoursSize(source: (nat, int) -> Result<seq<Item>, EngineError>) {
    forall k: nat, n: int :: source(k, n).Ok? ==> |source(k, n).value| <= n
  }

  /** Chunk `j` starts where chunk `j - 1` ends. */
  lemma StartStep(chunks: seq<seq<Item>>, j: nat)
    requires j < |chunks|
    ensures Flatten(chunks[..j + 1]) == Flatten(chunks[..j]) + chunks[j]
    ensures ChunkStart(chunks, j + 1) == ChunkStart(chunks, j) + |chunks[j]|
  {
    assert chunks[..j + 1][..j] == chunks[..j];
  }

  /** The first `k` chunks flatten to a prefix of all of them. */
  lemma {:induction false} FlattenPrefix(chunks: seq<seq<Item>>, k: nat)
    requires k <= |chunks|
    ensures Flatten(chunks[..k]) <= Flatten(chunks)
    decreases |chunks| - k
  {
    if k < |chunks| {
      FlattenPrefix(chunks, k + 1);
      StartStep(chunks, k);
    } else {
      assert chunks[..k] == chunks;
    }
  }

  /**
   * Chunks whose concatenation is a prefix of the buffer are its consecutive
   * slices: chunk `j` is the buffer from `ChunkStart(j)` on, and the next
   * chunk starts where it ends, so no buffer position is submitted twice.
   */
  lemma ChunksAreSlices(chunks: seq<seq<Item>>, buffer: seq<Item>, n: nat)
    requires n <= |buffer| && Flatten(chunks) == buffer[..n]
    ensures forall j :: 0 <= j < |chunks| ==>
              ChunkStart(chunks, j) + |chunks[j]| <= n &&
              chunks[j] == buffer[ChunkStart(chunks, j)..ChunkStart(chunks, j) + |chunks[j]|]
    ensures forall j :: 0 <= j < |chunks| ==> ChunkStart(chunks, j) + |chunks[j]| == ChunkStart(chunks, j + 1)
  {
    forall j | 0 <= j < |chunks|
      ensures ChunkStart(chunks, j) + |chunks[j]| <= n
      ensures chunks[j] == buffer[ChunkStart(chunks, j)..ChunkStart(chunks, j) + |chunks[j]|]
      ensures ChunkStart(chunks, j) + |chunks[j]| == ChunkStart(chunks, j + 1)
    {
      StartStep(chunks, j);
      FlattenPrefix(chunks, j + 1);
      var start := ChunkStart(chunks, j);
      var upto := Flatten(chunks[..j + 1]);
      assert |upto| == start + |chunks[j]|;
      forall k | 0 <= k < |chunks[j]| ensures chunks[j][k] == buffer[start + k] {
        assert upto[start + k] == chunks[j][k];
        assert Flatten(chunks)[start + k] == buffer[start + k];
      }
    }
  }

  /** Laying one more chunk down extends the flattened sequence by it. */
  lemma FlattenAppend(chunks: seq<seq<Item>>, chunk: seq<Item>)
    ensures Flatten(chunks + [chunk]) == Flatten(chunks) + chunk
  {
    assert (chunks + [chunk])[..|chunks|] == chunks;
  }

  /** Taking the next chunk from a buffer with something left extends the flattened chunks along the buffer. */
  lemma TakeChunk(results: seq<Item>, resultIndex: nat, chunks: seq<seq<Item>>, size: int)
    requires resultIndex < |results| && size >= 1
    requires Flatten(chunks) == results[..resultIndex]
    ensures var chunk := PySlice(results, resultIndex, resultIndex + size);
            1 <= |chunk| == Min(size, |results| - resultIndex) && resultIndex + |chunk| <= |results| &&
            Flatten(chunks + [chunk]) == results[..resultIndex + |chunk|]
  {
    var chunk := PySlice(results, resultIndex, resultIndex + size);
    ForwardSlice(results, resultIndex, resultIndex + size);
    assert chunk == results[resultIndex..resultIndex + |chunk|];
    FlattenAppend(chunks, chunk);
    assert results[..resultIndex] + chunk == results[..resultIndex + |chunk|];
  }

  /** How many of the iterations recorded in `refills` called the source: those whose refill added something. */
  function Calls(refills: seq<seq<Item>>): (n: nat)
    ensures n <= |refills|
  {
    if refills == [] then 0
    else Calls(refills[..|refills| - 1]) + (if refills[|refills| - 1] != [] then 1 else 0)
  }

  /** The collector's inputs, gathered for the statements about its iterations. */
  datatype Job = Job(numResults: int, counts: nat -> Option<int>, source: (nat, int) -> Result<seq<Item>, EngineError>,
                     overfetch: nat, maxTotalPull: int, maxChunkSize: int)

  /**
   * Iteration `j` took chunk `j`, after adding `refills[j]` to the buffer:
   * the deficit read for it was positive; it refilled exactly when the chunks
   * before it had used up the buffer, and only below the pull cap, with the
   * reply of the next call of the source for that iteration's fetch size; and
   * the chunk is the slice from where the last one ended, as long as the chunk
   * size or as what the buffer then held.
   */
  ghost predicate Iteration(job: Job, initial: seq<Item>, chunks: seq<seq<Item>>, refills: seq<seq<Item>>, j: nat)
    requires j < |chunks| == |refills|
  {
    var deficit := Deficit(job.numResults, job.counts(j));
    var start := ChunkStart(chunks, j);
    var before := |initial| + |Flatten(refills[..j])|;
    && deficit > 0
    && (refills[j] != [] <==> start == before)
    && (refills[j] != [] ==>
          start < job.maxTotalPull &&
          job.source(Calls(refills[..j]), FetchSize(job.maxChunkSize, deficit, job.overfetch)) == Ok(refills[j]))
    && 1 <= |chunks[j]| == Min(ChunkSize(job.maxChunkSize, deficit, job.overfetch), before + |refills[j]| - start)
  }

  ghost predicate Iterations(job: Job, initial: seq<Item>, chunks: seq<seq<Item>>, refills: seq<seq<Item>>)
    requires |chunks| == |refills|
  {
    forall j :: 0 <= j < |chunks| ==> Iteration(job, initial, chunks, refills, j)
  }

  /** One more iteration, stated at the end of the ones before it, extends the record. */
  lemma IterationsSnoc(job: Job, initial: seq<Item>, chunks: seq<seq<Item>>, refills: seq<seq<Item>>,
                       chunk: seq<Item>, added: seq<Item>)
    requires |chunks| == |refills| && Iterations(job, initial, chunks, refills)
    requires Deficit(job.numResults, job.counts(|chunks|)) > 0
    requires added != [] <==> |Flatten(chunks)| == |initial| + |Flatten(refills)|
    requires added != [] ==>
               |Flatten(chunks)| < job.maxTotalPull &&
               job.source(Calls(refills), FetchSize(job.maxChunkSize, Deficit(job.numResults, job.counts(|chunks|)), job.overfetch))
                 == Ok(added)
    requires 1 <= |chunk| == Min(ChunkSize(job.maxChunkSize, Deficit(job.numResults, job.counts(|chunks|)), job.overfetch),
                                 |initial| + |Flatten(refills)| + |added| - |Flatten(chunks)|)
    ensures Iterations(job, initial, chunks + [chunk], refills + [added])
    ensures Calls(refills + [added]) == Calls(refills) + (if added != [] then 1 else 0)
  {
    var cs := chunks + [chunk];
    var fs := refills + [added];
    assert fs[..|refills|] == refills;
    assert cs[..|chunks|] == chunks;
    forall j | 0 <= j < |cs| ensures Iteration(job, initial, cs, fs, j) {
      assert cs[..j] == chunks[..j] && fs[..j] == refills[..j];
      if j < |chunks| {
        assert Iteration(job, initial, chunks, refills, j);
        assert cs[j] == chunks[j] && fs[j] == refills[j];
      }
    }
  }

  /** `TakeStepAt`, with the extended buffer and the chunk cut from it given names. */
  lemma TakeStep(job: Job, initial: seq<Item>, results: seq<Item>, resultIndex: nat,
                 chunks: seq<seq<Item>>, refills: seq<seq<Item>>, added: seq<Item>,
                 extended: seq<Item>, chunk: seq<Item>)
    requires |refills| == |chunks| && results == initial + Flatten(refills)
    requires resultIndex <= |results| && Flatten(chunks) == results[..resultIndex]
    requires Iterations(job, initial, chunks, refills)
    requires job.maxChunkSize >= 1 && Deficit(job.numResults, job.counts(|chunks|)) > 0
    requires added != [] <==> resultIndex == |results|
    requires added != [] ==>
               resultIndex < job.maxTotalPull &&
               job.source(Calls(refills), FetchSize(job.maxChunkSize, Deficit(job.numResults, job.counts(|chunks|)), job.overfetch))
                 == Ok(added)
    requires extended == results + added
    requires chunk == PySlice(extended, resultIndex,
                              resultIndex + ChunkSize(job.maxChunkSize, Deficit(job.numResults, job.counts(|chunks|)), job.overfetch))
    ensures extended == initial + Flatten(refills + [added])
    ensures 1 <= |chunk| && resultIndex + |chunk| <= |extended|
    ensures Flatten(chunks + [chunk]) == extended[..resultIndex + |chunk|]
    ensures Iterations(job, initial, chunks + [chunk], refills + [added])
    ensures Calls(refills + [added]) == Calls(refills) + (if added != [] then 1 else 0)
  {
    TakeStepAt(job, initial, results, resultIndex, chunks, refills, added);
  }

  /**
   * One iteration past the stop checks: `added` is what the refill put in
   * the buffer (nothing when the buffer was not used up), and the chunk is
   * cut from the buffer so extended.  The record of the iterations grows by
   * this one, and the chunks stay the buffer's consecutive prefix.
   */
  lemma TakeStepAt(job: Job, initial: seq<Item>, results: seq<Item>, resultIndex: nat,
                   chunks: seq<seq<Item>>, refills: seq<seq<Item>>, added: seq<Item>)
    requires |refills| == |chunks| && results == initial + Flatten(refills)
    requires resultIndex <= |results| && Flatten(chunks) == results[..resultIndex]
    requires Iterations(job, initial, chunks, refills)
    requires job.maxChunkSize >= 1 && Deficit(job.numResults, job.counts(|chunks|)) > 0
    requires added != [] <==> resultIndex == |results|
    requires added != [] ==>
               resultIndex < job.maxTotalPull &&
               job.source(Calls(refills), FetchSize(job.maxChunkSize, Deficit(job.numResults, job.counts(|chunks|)), job.overfetch))
                 == Ok(added)
    ensures var extended := results + added;
            var chunk := PySlice(extended, resultIndex,
                                 resultIndex + ChunkSize(job.maxChunkSize, Deficit(job.numResults, job.counts(|chunks|)), job.overfetch));
            && extended == initial + Flatten(refills + [added])
            && 1 <= |chunk| && resultIndex + |chunk| <= |extended|
            && Flatten(chunks + [chunk]) == extended[..resultIndex + |chunk|]
            && Iterations(job, initial, chunks + [chunk], refills + [added])
            && Calls(refills + [added]) == Calls(refills) + (if added != [] then 1 else 0)
  {
    var extended := results + added;
    var size := ChunkSize(job.maxChunkSize, Deficit(job.numResults, job.counts(|chunks|)), job.overfetch);
    FlattenAppend(refills, added);
    TakeChunk(extended, resultIndex, chunks, size);
    IterationsSnoc(job, initial, chunks, refills, PySlice(extended, resultIndex, resultIndex + size), added);
  }

  /** With `max_chunk_size` 0 a chunk takes nothing, so a non-empty buffer is never consumed and the loop spins. */
  lemma ZeroChunkTakesNothing(deficit: int, overfetch: nat, buffer: seq<Item>, resultIndex: nat)
    requires resultIndex <= |buffer|
    ensures PySlice(buffer, resultIndex, resultIndex + ChunkSize(0, deficit, overfetch)) == []
  {
  }

  /**
   * `collect_until_fulfilled`.  `overfetch` is the factor by which the
   * deficit is scaled, a whole number here; the source's default is 2.
   *
   * The buffer is the initial results followed by the refills, each the
   * reply of the next call of the source, made only when the buffer was used
   * up and the pull cap not reached; every chunk is the slice of the buffer
   * where the last one ended, as long as its chunk size allows or the buffer
   * holds (`Iterations`).  The loop ends on a met target (before any call when
   * the job is already complete), on the pull cap, or on a refill that came
   * back empty or raised, each with the condition that caused it.
   */
  method CollectUntilFulfilled(numResults: int, initial: seq<Item>, counts: nat -> Option<int>,
                               source: (nat, int) -> Result<seq<Item>, EngineError>,
                               overfetch: nat, maxTotalPull: int, maxChunkSize: int)
    returns (out: Outcome)
    requires maxChunkSize >= 1
    ensures |out.refills| == |out.chunks|
    ensures out.buffer == initial + Flatten(out.refills)
    ensures out.resultIndex == out.totalConsumed <= |out.buffer|
    ensures Flatten(out.chunks) == out.buffer[..out.resultIndex]
    ensures Iterations(Job(numResults, counts, source, overfetch, maxTotalPull, maxChunkSize), initial, out.chunks, out.refills)
    ensures out.calls == Calls(out.refills) + (if out.stop == SessionExhausted || out.stop.Raised? then 1 else 0)
    ensures out.stop == TargetMet <==> Deficit(numResults, counts(|out.chunks|)) <= 0
    ensures out.stop == PullCap ==> out.resultIndex == |out.buffer| && out.totalConsumed >= maxTotalPull
    ensures (out.stop == SessionExhausted || out.stop.Raised?) ==>
              out.resultIndex == |out.buffer| && out.totalConsumed < maxTotalPull
    ensures out.stop == SessionExhausted ==>
              source(Calls(out.refills), FetchSize(maxChunkSize, Deficit(numResults, counts(|out.chunks|)), overfetch)) == Ok([])
    ensures out.stop.Raised? ==>
              source(Calls(out.refills), FetchSize(maxChunkSize, Deficit(numResults, counts(|out.chunks|)), overfetch))
                == Err(out.stop.error)
    ensures Deficit(numResults, counts(0)) <= 0 ==> out.stop == TargetMet && out.buffer == initial && out.calls == 0
    ensures HonoursSize(source) ==> |out.buffer| <= Max(|initial|, maxTotalPull - 1 + 2 * maxChunkSize)
  {
    ghost var job := Job(numResults, counts, source, overfetch, maxTotalPull, maxChunkSize);
    var results := initial;
    var resultIndex: nat := 0;
    var totalConsumed: nat := 0;
    var chunks: seq<seq<Item>> := [];
    var refills: seq<seq<Item>> := [];
    var calls: nat := 0;
    while true
      invariant |refills| == |chunks| && results == initial + Flatten(refills)
      invariant resultIndex == totalConsumed <= |results|
      invariant Flatten(chunks) == results[..resultIndex]
      invariant Iterations(job, initial, chunks, refills)
      invariant calls == Calls(refills)
      invariant Deficit(numResults, counts(0)) <= 0 ==> chunks == []
      invariant HonoursSize(source) ==> |results| <= Max(|initial|, maxTotalPull - 1 + 2 * maxChunkSize)
      decreases Max(0, maxTotalPull - totalConsumed), |results| - resultIndex
    {
      var deficit := Deficit(numResults, counts(|chunks|));
      if deficit <= 0 {
        return Outcome(TargetMet, results, resultIndex, totalConsumed, chunks, refills, calls);
      }
      var added := [];
      if resultIndex >= |results| {
        if totalConsumed >= maxTotalPull {
          return Outcome(PullCap, results, resultIndex, totalConsumed, chunks, refills, calls);
        }
        var more := source(calls, FetchSize(maxChunkSize, deficit, overfetch));
        if more.Err? {
          return Outcome(Raised(more.error), results, resultIndex, totalConsumed, chunks, refills, calls + 1);
        }
        if more.value == [] {
          return Outcome(SessionExhausted, results, resultIndex, totalConsumed, chunks, refills, calls + 1);
        }
        added := more.value;
        calls := calls + 1;
      }
      var extended := results + added;
      var size := ChunkSize(maxChunkSize, deficit, overfetch);
      var chunk := PySlice(extended, resultIndex, resultIndex + size);
      TakeStep(job, initial, results, resultIndex, chunks, refills, added, extended, chunk);
      results := extended;
      chunks := chunks + [chunk];
      refills := refills + [added];
      resultIndex := resultIndex + |chunk|;
      totalConsumed := totalConsumed + |chunk|;
    }
  }
}
