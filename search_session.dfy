/**
 * `SearchSession`: the per-prompt state of the search engine.  It owns an
 * append-only buffer of results, a cursor per query counting how many of that
 * query's results have been walked, a sticky exhaustion flag and the offset
 * where the last page ended.  Timestamps are not modelled.
 */
module SearchSession {
  import opened Slices
  import opened SearchApi

  /** The custom-search hard limit: a query whose cursor reached it is not asked again. */
  const CursorLimit: int := 100

  /** The part of a session that a growth pass reads and writes. */
  datatype State = State(results: seq<Item>, positions: map<string, int>, exhausted: bool, apiCalls: nat)

  /** The state of a session just created for `queries`. */
  function Initial(queries: seq<string>): (st: State)
    ensures st.results == [] && !st.exhausted
    ensures forall q :: q in queries <==> q in st.positions
    ensures forall q :: q in st.positions ==> st.positions[q] == 0
  {
    State([], map q | q in queries :: 0, false, 0)
  }

  /** Every query has a cursor. */
  predicate Tracks(st: State, queries: seq<string>) {
    forall q :: q in queries ==> q in st.positions
  }

  /** The links present in a list of results, `existing_links`. */
  function Links(items: seq<Item>): set<string> {
    set i | 0 <= i < |items| :: items[i].link
  }

  /** No two results share a link. */
  predicate DistinctLinks(items: seq<Item>) {
    forall a, b :: 0 <= a < b < |items| ==> items[a].link != items[b].link
  }

  /** The items of `batch` whose link is not in `existing`, in batch order. */
  function Unseen(batch: seq<Item>, existing: set<string>): (r: seq<Item>)
    ensures |r| <= |batch|
    ensures forall i :: 0 <= i < |r| ==> r[i].link !in existing
    ensures forall i :: 0 <= i < |r| ==> r[i] in batch
  {
    if batch == [] then []
    else (if batch[0].link in existing then [] else [batch[0]]) + Unseen(batch[1..], existing)
  }

  lemma RestDistinct(batch: seq<Item>)
    requires batch != [] && DistinctLinks(batch)
    ensures DistinctLinks(batch[1..])
  {
    var rest := batch[1..];
    forall a, b | 0 <= a < b < |rest| ensures rest[a].link != rest[b].link {
      assert rest[a] == batch[a + 1] && rest[b] == batch[b + 1];
    }
  }

  /** In a batch with distinct links, no later item shares the first item's link. */
  lemma LaterLinksDiffer(batch: seq<Item>, x: Item)
    requires batch != [] && DistinctLinks(batch) && x in batch[1..]
    ensures x.link != batch[0].link
  {
    var j :| 0 <= j < |batch[1..]| && batch[1..][j] == x;
    assert batch[j + 1] == x;
  }

  lemma ConsDistinct(x: Item, tail: seq<Item>)
    requires DistinctLinks(tail) && forall k :: 0 <= k < |tail| ==> tail[k].link != x.link
    ensures DistinctLinks([x] + tail)
  {
    var xs := [x] + tail;
    forall a, b | 0 <= a < b < |xs| ensures xs[a].link != xs[b].link {
      assert xs[b] == tail[b - 1];
      if a > 0 {
        assert xs[a] == tail[a - 1];
      }
    }
  }

  /** Filtering a batch with distinct links gives distinct links. */
  lemma {:induction false} UnseenDistinct(batch: seq<Item>, existing: set<string>)
    requires DistinctLinks(batch)
    ensures DistinctLinks(Unseen(batch, existing))
  {
    if batch != [] {
      var rest := batch[1..];
      RestDistinct(batch);
      UnseenDistinct(rest, existing);
      var tail := Unseen(rest, existing);
      forall k | 0 <= k < |tail| ensures tail[k].link != batch[0].link {
        LaterLinksDiffer(batch, tail[k]);
      }
      if batch[0].link !in existing {
        ConsDistinct(batch[0], tail);
      } else {
        assert Unseen(batch, existing) == tail;
      }
    }
  }

  /** Filtering keeps every item whose link is new. */
  lemma {:induction false} UnseenKeeps(batch: seq<Item>, existing: set<string>)
    ensures forall i :: 0 <= i < |batch| && batch[i].link !in existing ==> batch[i] in Unseen(batch, existing)
  {
    if batch != [] {
      var rest := batch[1..];
      UnseenKeeps(rest, existing);
      forall i | 0 <= i < |batch| && batch[i].link !in existing ensures batch[i] in Unseen(batch, existing) {
        if i > 0 {
          assert rest[i - 1] == batch[i];
        }
      }
    }
  }

  /** `add_results`: extend the buffer, advance the query's cursor by the raw fetched count, count the call. */
  function AddedTo(st: State, items: seq<Item>, query: string, fetchedCount: int): State
    requires query in st.positions
  {
    st.(results := st.results + items,
        positions := st.positions[query := st.positions[query] + fetchedCount],
        apiCalls := st.apiCalls + 1)
  }

  /** `needs_more_results`. */
  predicate NeedsMore(st: State, requiredCount: int) {
    |st.results| < requiredCount && !st.exhausted
  }

  /** An exhausted session never needs more results, whatever is asked for. */
  lemma ExhaustedNeedsNothing(st: State, requiredCount: int)
    requires st.exhausted
    ensures !NeedsMore(st, requiredCount)
  {
  }

  class Session {
    const sessionId: string
    const originalPrompt: string
    const queries: seq<string>
    var results: seq<Item>
    var queryPositions: map<string, int>
    var isExhausted: bool
    var lastReturnedOffset: int
    var totalApiCalls: nat

    /** Every query has a cursor, as the constructor sets up and nothing removes. */
    ghost predicate Valid()
      reads this
    {
      Tracks(Snapshot(), queries)
    }

    function Snapshot(): State
      reads this
    {
      State(results, queryPositions, isExhausted, totalApiCalls)
    }

    /** `SearchSession.__init__`: empty buffer, every query's cursor at 0. */
    constructor (sessionId: string, originalPrompt: string, queries: seq<string>)
      ensures this.sessionId == sessionId && this.originalPrompt == originalPrompt && this.queries == queries
      ensures Snapshot() == Initial(queries)
      ensures lastReturnedOffset == 0
      ensures Valid()
    {
      this.sessionId := sessionId;
      this.originalPrompt := originalPrompt;
      this.queries := queries;
      results := [];
      queryPositions := map q | q in queries :: 0;
      isExhausted := false;
      lastReturnedOffset := 0;
      totalApiCalls := 0;
    }

    /** `add_results`; the source raises `KeyError` for a query without a cursor. */
    method AddResults(newResults: seq<Item>, query: string, fetchedCount: int)
      requires query in queryPositions
      modifies this
      ensures Snapshot() == AddedTo(old(Snapshot()), newResults, query, fetchedCount)
      ensures lastReturnedOffset == old(lastReturnedOffset)
    {
      results := results + newResults;
      queryPositions := queryPositions[query := queryPositions[query] + fetchedCount];
      totalApiCalls := totalApiCalls + 1;
    }

    /** `get_results`: `results[offset:offset+limit]`. */
    function GetResults(offset: int, limit: int): (r: seq<Item>)
      reads this
      ensures |r| <= |results|
      ensures 0 <= offset && 0 <= limit ==>
                |r| == Max(0, Min(limit, |results| - offset)) &&
                forall k :: 0 <= k < |r| ==> r[k] == results[offset + k]
    {
      SliceLength(results, offset, offset + limit);
      if 0 <= offset && 0 <= limit then
        ForwardSlice(results, offset, offset + limit);
        PySlice(results, offset, offset + limit)
      else
        PySlice(results, offset, offset + limit)
    }

    /** `needs_more_results`. */
    predicate NeedsMoreResults(requiredCount: int)
      reads this
    {
      NeedsMore(Snapshot(), requiredCount)
    }
  }
}
