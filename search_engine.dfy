/**
 * `SearchEngine`: the session table and the two paginated entry points.  A
 * first request for a prompt plans queries, creates the session, stores it
 * and over-fetches; every page request then tops the buffer up when it is
 * short, slices the page out of the buffer and records where it ended.
 *
 * The engine's collaborators are fields fixed at construction: the search
 * endpoint, the planner (the language model's reply to the planning prompt),
 * the regular-expression stages of the location extractor and the digest
 * that turns a session's base string into its id.  The current date is a
 * parameter of `SearchWithOffset`.
 */
module SearchEngine {
  import opened Wrappers
  import opened Slices
  import opened Location
  import opened SearchApi
  import opened SearchSession
  import opened Growth

  /** The `pagination` block of a page. */
  datatype Pagination = Pagination(offset: int, resultsReturned: nat, totalResultsAvailable: nat,
                                   hasMore: bool, nextOffset: Option<int>)

  /** One page of results with the session and query information returned beside it. */
  datatype Page = Page(results: seq<Item>, pagination: Pagination, sessionId: string, isExhausted: bool,
                       originalPrompt: string, queries: seq<string>, queryPositions: map<string, int>)

  datatype EngineError =
    | SessionNotFound            // `ValueError("Session not found or expired")`
    | SearchFailed(error: SearchError)

  /** The results of the page at `offset` of size `n`. */
  function Window(st: State, offset: int, n: int): seq<Item> {
    PySlice(st.results, offset, offset + n)
  }

  /** The pagination block for the page at `offset` of size `n`. */
  function PaginationAt(st: State, offset: int, n: int): Pagination {
    var returned := |Window(st, offset, n)|;
    var hasMore := offset + returned < |st.results| || !st.exhausted;
    Pagination(offset, returned, |st.results|, hasMore, if hasMore then Some(offset + returned) else None)
  }

  /**
   * For a page with non-negative offset and size: it holds the buffer's
   * results from the offset on, as many as asked for or as remain; a next
   * offset is offered exactly when more may follow, and it is where the page
   * ended; no more follows only when the session is exhausted and the page
   * reached the end of the buffer; a page that ends inside the buffer is full
   * and has more.
   */
  lemma PaginationMeaning(st: State, offset: int, n: int)
    requires 0 <= offset && 0 <= n
    ensures var w := Window(st, offset, n);
            |w| == Max(0, Min(n, |st.results| - offset)) &&
            forall k :: 0 <= k < |w| ==> w[k] == st.results[offset + k]
    ensures var p := PaginationAt(st, offset, n);
            p.resultsReturned == |Window(st, offset, n)| && p.totalResultsAvailable == |st.results| &&
            (p.nextOffset.Some? <==> p.hasMore) &&
            (p.hasMore ==> p.nextOffset == Some(offset + p.resultsReturned)) &&
            (!p.hasMore <==> st.exhausted && offset + p.resultsReturned >= |st.results|) &&
            (offset + n < |st.results| ==> p.hasMore && p.resultsReturned == n)
  {
    ForwardSlice(st.results, offset, offset + n);
  }

  /**
   * Asking for the next page where the previous one ended, after the buffer
   * grew, continues the buffer without a gap or an overlap; with distinct
   * links in the buffer, the two pages share no link.
   */
  lemma ContinuationContiguous(s1: State, s2: State, offset: int, n: int, m: int)
    requires s1.results <= s2.results
    requires 0 <= offset && 0 <= n && 0 <= m
    ensures var p1 := Window(s1, offset, n);
            var p2 := Window(s2, offset + |p1|, m);
            forall k :: 0 <= k < |p1| + |p2| ==> (p1 + p2)[k] == s2.results[offset + k]
    ensures var p1 := Window(s1, offset, n);
            var p2 := Window(s2, offset + |p1|, m);
            DistinctLinks(s2.results) ==> forall x, y :: 0 <= x < |p1| && 0 <= y < |p2| ==> p1[x].link != p2[y].link
  {
    var p1 := Window(s1, offset, n);
    var p2 := Window(s2, offset + |p1|, m);
    WindowRun(s1, s2, offset, n);
    WindowRun(s2, s2, offset + |p1|, m);
    RunsJoin(s2.results, offset, p1, p2);
    if DistinctLinks(s2.results) {
      RunsDisjoint(s2.results, offset, p1, p2);
    }
  }

  /** A window of `s` read off a buffer `t` that extends it: the run of `t` from the offset. */
  lemma WindowRun(s: State, t: State, offset: nat, n: nat)
    requires s.results <= t.results
    ensures var w := Window(s, offset, n);
            (|w| > 0 ==> offset + |w| <= |t.results|) &&
            forall k :: 0 <= k < |w| ==> w[k] == t.results[offset + k]
  {
    ForwardSlice(s.results, offset, offset + n);
  }

  /** Two runs read from a buffer one after the other read it without a gap. */
  lemma RunsJoin(xs: seq<Item>, offset: nat, p1: seq<Item>, p2: seq<Item>)
    requires |p1| > 0 ==> offset + |p1| <= |xs|
    requires |p2| > 0 ==> offset + |p1| + |p2| <= |xs|
    requires forall k :: 0 <= k < |p1| ==> p1[k] == xs[offset + k]
    requires forall k :: 0 <= k < |p2| ==> p2[k] == xs[offset + |p1| + k]
    ensures forall k :: 0 <= k < |p1| + |p2| ==> (p1 + p2)[k] == xs[offset + k]
  {
    forall k | 0 <= k < |p1| + |p2| ensures (p1 + p2)[k] == xs[offset + k] {
      if k < |p1| {
        assert (p1 + p2)[k] == p1[k];
      } else {
        var j := k - |p1|;
        assert (p1 + p2)[k] == p2[j] == xs[offset + |p1| + j];
      }
    }
  }

  /** ... and, when the buffer's links are distinct, share no link. */
  lemma RunsDisjoint(xs: seq<Item>, offset: nat, p1: seq<Item>, p2: seq<Item>)
    requires |p1| > 0 ==> offset + |p1| <= |xs|
    requires |p2| > 0 ==> offset + |p1| + |p2| <= |xs|
    requires forall k :: 0 <= k < |p1| ==> p1[k] == xs[offset + k]
    requires forall k :: 0 <= k < |p2| ==> p2[k] == xs[offset + |p1| + k]
    requires DistinctLinks(xs)
    ensures forall x, y :: 0 <= x < |p1| && 0 <= y < |p2| ==> p1[x].link != p2[y].link
  {
    forall x, y | 0 <= x < |p1| && 0 <= y < |p2| ensures p1[x].link != p2[y].link {
      assert p1[x] == xs[offset + x] && p2[y] == xs[offset + |p1| + y];
    }
  }

  /** The page request on an existing session: top up when short, by ten more than required. */
  function Serve(st: State, queries: seq<string>, offset: int, n: int, b: Backend): Pass
    requires Tracks(st, queries)
  {
    if NeedsMore(st, offset + n) then Fetch(st, queries, offset + n + 10, b) else Pass(st, None, [])
  }

  /** The first fetch of a session just created for `queries`. */
  function FirstFetch(queries: seq<string>, target: int, b: Backend): (p: Pass)
    ensures Tracks(p.state, queries)
  {
    FetchExtends(Initial(queries), queries, target, b);
    Fetch(Initial(queries), queries, target, b)
  }

  /** A new session: over-fetch for the first page, then carry on as `Resume` says. */
  function Opening(queries: seq<string>, offset: int, n: int, b: Backend): Pass {
    Resume(FirstFetch(queries, offset + n + 10, b), queries, offset, n, b)
  }

  lemma OpeningResumes(queries: seq<string>, offset: int, n: int, b: Backend, first: Pass)
    requires first == FirstFetch(queries, offset + n + 10, b)
    ensures Opening(queries, offset, n, b) == Resume(first, queries, offset, n, b)
  {
  }

  /** After the first fetch: its failure is the answer, otherwise the same top-up as any page request. */
  function Resume(first: Pass, queries: seq<string>, offset: int, n: int, b: Backend): Pass
    requires Tracks(first.state, queries)
  {
    if first.error.Some? then first else Serve(first.state, queries, offset, n, b)
  }

  /** Whatever a page request fetched, the buffer only grew and the session stayed tracked. */
  lemma ServeExtends(st: State, queries: seq<string>, offset: int, n: int, b: Backend)
    requires Tracks(st, queries)
    ensures Extends(st, Serve(st, queries, offset, n, b).state)
    ensures Tracks(Serve(st, queries, offset, n, b).state, queries)
    ensures st.exhausted ==> Serve(st, queries, offset, n, b) == Pass(st, None, [])
  {
    FetchExtends(st, queries, offset + n + 10, b);
  }

  /**
   * A page request that did not fail leaves the buffer able to fill the
   * page unless the session is exhausted: either the page is full or the
   * session has been marked exhausted.
   */
  lemma ServeFillsPage(st: State, queries: seq<string>, offset: int, n: int, b: Backend)
    requires Tracks(st, queries) && 0 <= offset && 0 <= n
    requires Serve(st, queries, offset, n, b).error.None?
    ensures var out := Serve(st, queries, offset, n, b).state;
            |Window(out, offset, n)| == n || out.exhausted ||
            (|out.results| < offset + n && |out.results| > |st.results|)
  {
    var out := Serve(st, queries, offset, n, b).state;
    if NeedsMore(st, offset + n) {
      FetchExhaustion(st, queries, offset + n + 10, b);
      FetchExtends(st, queries, offset + n + 10, b);
      assert |st.results| <= |out.results| && (out.exhausted || |out.results| != |st.results|);
    }
    WindowFull(out, offset, n);
  }

  /** A buffer that reaches the end of the window fills it. */
  lemma WindowFull(st: State, offset: int, n: int)
    requires 0 <= offset && 0 <= n
    ensures |st.results| >= offset + n ==> |Window(st, offset, n)| == n
  {
    ForwardSlice(st.results, offset, offset + n);
  }

  /**
   * How a page request ended: the session holds the state the fetches left;
   * a failure is reported and leaves the served offset alone; otherwise the
   * page is returned and the served offset moves to where the page ended.
   */
  predicate Answered(out: Pass, now: State, page: Page, servedBefore: int, servedNow: int, offset: int,
                     r: Result<Page, EngineError>) {
    && now == out.state
    && (out.error.Some? ==> r == Err(SearchFailed(out.error.value)) && servedNow == servedBefore)
    && (out.error.None? ==> r == Ok(page) && servedNow == offset + page.pagination.resultsReturned)
  }

  /** The string `generate_session_id` digests: user, prompt and date joined by underscores. */
  function SessionBase(userId: string, prompt: string, today: string): string {
    userId + "_" + prompt + "_" + today
  }

  /** Two different users with different prompts can land on the same session on the same day. */
  lemma SessionBasesCollide(today: string)
    ensures SessionBase("a_b", "c", today) == SessionBase("a", "b_c", today)
  {
    assert SessionBase("a_b", "c", today) == "a_b_c_" + today;
    assert SessionBase("a", "b_c", today) == "a_b_c_" + today;
  }

  class Engine {
    const aggregatorDomains: seq<string>
    const http: Request -> HttpReply
    const planner: (string, seq<string>) -> string
    const stages: string -> StageMatches
    const digest: string -> string
    var sessions: map<string, Session>

    /** Every stored session is keyed by its own id and keeps a cursor for each of its queries. */
    ghost predicate Valid()
      reads this, sessions.Values
    {
      forall id :: id in sessions ==> sessions[id].sessionId == id && sessions[id].Valid()
    }

    constructor (http: Request -> HttpReply, planner: (string, seq<string>) -> string,
                 stages: string -> StageMatches, digest: string -> string)
      ensures this.http == http && this.planner == planner && this.stages == stages && this.digest == digest
      ensures aggregatorDomains == AggregatorDomains
      ensures sessions == map[]
      ensures Valid()
    {
      aggregatorDomains := AggregatorDomains;
      this.http := http;
      this.planner := planner;
      this.stages := stages;
      this.digest := digest;
      sessions := map[];
    }

    /** `generate_session_id`. */
    function GenerateSessionId(userId: string, prompt: string, today: string): string {
      digest(SessionBase(userId, prompt, today))
    }

    /** What a pass for a session of `prompt` calls with: the endpoint, the prompt's locations, the domains. */
    function BackendFor(prompt: string): Backend {
      Backend(http, ExtractedLocations(stages(prompt)), aggregatorDomains)
    }

    /** `fetch_more_results`: the query loop, then the exhaustion check; a failed call propagates. */
    method FetchMoreResults(session: Session, targetCount: int) returns (err: Option<SearchError>)
      requires session.Valid()
      modifies session
      ensures session.Valid()
      ensures var out := Fetch(old(session.Snapshot()), session.queries, targetCount, BackendFor(session.originalPrompt));
              session.Snapshot() == out.state && err == out.error
      ensures session.lastReturnedOffset == old(session.lastReturnedOffset)
    {
      var currentCount := |session.results|;
      if currentCount >= targetCount || session.isExhausted {
        return None;
      }
      var needed := targetCount - currentCount;
      var inferredLocations := ExtractLocations(stages(session.originalPrompt));
      ghost var b := BackendFor(session.originalPrompt);
      ghost var full := PassFrom(session.Snapshot(), session.queries, 0, needed, b);
      var i := 0;
      while i < |session.queries|
        invariant 0 <= i <= |session.queries|
        invariant session.Valid()
        invariant session.lastReturnedOffset == old(session.lastReturnedOffset)
        invariant PassFrom(session.Snapshot(), session.queries, i, needed, b).state == full.state
        invariant PassFrom(session.Snapshot(), session.queries, i, needed, b).error == full.error
      {
        if needed <= 0 {
          break;
        }
        var failure;
        needed, failure := FetchFromQuery(session, session.queries[i], needed, inferredLocations, b);
        if failure.Some? {
          return failure;
        }
        i := i + 1;
      }
      if |session.results| == currentCount {
        session.isExhausted := true;
      }
      return None;
    }

    /** One turn of the query loop of `fetch_more_results`, for a query with a cursor. */
    method FetchFromQuery(session: Session, query: string, needed: int, inferredLocations: seq<string>,
                          ghost b: Backend)
      returns (stillNeeded: int, err: Option<SearchError>)
      requires query in session.queryPositions
      requires b == Backend(http, inferredLocations, aggregatorDomains)
      modifies session
      ensures var v := VisitQuery(old(session.Snapshot()), query, needed, b);
              session.Snapshot() == v.state && stillNeeded == v.needed && err == v.error
      ensures session.lastReturnedOffset == old(session.lastReturnedOffset)
    {
      ghost var st := session.Snapshot();
      stillNeeded := needed;
      var currentPosition := session.queryPositions[query];
      if currentPosition >= CursorLimit {
        return stillNeeded, None;
      }
      var batchSize := Min(10, needed);
      var r := CallGoogleSearchApi(query, currentPosition + 1, batchSize, inferredLocations, aggregatorDomains, http);
      ghost var request := SearchRequest(query, currentPosition + 1, batchSize, inferredLocations, aggregatorDomains);
      VisitUnfolds(st, query, needed, b);
      assert VisitQuery(st, query, needed, b) == Absorb(st, query, needed, request, r);
      if r.Err? {
        return stillNeeded, Some(r.error);
      }
      var newResults := r.value;
      if newResults == [] {
        return stillNeeded, None;
      }
      var filteredResults := Unseen(newResults, Links(session.results));
      session.AddResults(filteredResults, query, |newResults|);
      stillNeeded := needed - |filteredResults|;
      err := None;
    }

    /** The page a session's state yields at `offset`, with the session and query information. */
    function PageFrom(s: Session, offset: int, n: int): Page
      reads s
    {
      Page(Window(s.Snapshot(), offset, n), PaginationAt(s.Snapshot(), offset, n), s.sessionId,
           s.isExhausted, s.originalPrompt, s.queries, s.queryPositions)
    }

    /**
     * The tail the two entry points share: top the session up when it cannot
     * fill the page, slice the page and record where it ended.
     */
    method ServePage(session: Session, offset: int, numResults: int) returns (r: Result<Page, EngineError>)
      requires session.Valid()
      modifies session
      ensures session.Valid()
      ensures Answered(Serve(old(session.Snapshot()), session.queries, offset, numResults, BackendFor(session.originalPrompt)),
                       session.Snapshot(), PageFrom(session, offset, numResults),
                       old(session.lastReturnedOffset), session.lastReturnedOffset, offset, r)
    {
      var requiredTotal := offset + numResults;
      if session.NeedsMoreResults(requiredTotal) {
        var err := FetchMoreResults(session, requiredTotal + 10);
        if err.Some? {
          return Err(SearchFailed(err.value));
        }
      }
      var sliced := session.GetResults(offset, numResults);
      session.lastReturnedOffset := offset + |sliced|;
      r := Ok(PageFrom(session, offset, numResults));
    }

    /**
     * The first-request branch of `search_with_offset`, up to the session:
     * plan the queries from the prompt and its locations and store the new
     * session under its id.
     */
    method CreateSession(sessionId: string, prompt: string) returns (session: Session)
      requires Valid() && sessionId !in sessions
      modifies this
      ensures Valid() && fresh(session) && session.Valid()
      ensures sessions == old(sessions)[sessionId := session]
      ensures session.sessionId == sessionId && session.originalPrompt == prompt
      ensures session.queries == PlannedQueries(planner(prompt, ExtractedLocations(stages(prompt))))
      ensures session.Snapshot() == Initial(session.queries) && session.lastReturnedOffset == 0
    {
      var inferredLocations := ExtractLocations(stages(prompt));
      var queries := PromptToQueries(planner(prompt, inferredLocations));
      session := new Session(sessionId, prompt, queries);
      sessions := sessions[sessionId := session];
    }

    /** The over-fetch a new session starts with. */
    method FetchFirst(session: Session, targetCount: int) returns (err: Option<SearchError>, ghost first: Pass)
      requires session.Valid() && session.Snapshot() == Initial(session.queries)
      modifies session
      ensures session.Valid() && session.lastReturnedOffset == old(session.lastReturnedOffset)
      ensures first == FirstFetch(session.queries, targetCount, BackendFor(session.originalPrompt))
      ensures session.Snapshot() == first.state && err == first.error
    {
      err := FetchMoreResults(session, targetCount);
      first := FirstFetch(session.queries, targetCount, BackendFor(session.originalPrompt));
    }

    /** The rest of the first request: report the first fetch's failure, or serve the page. */
    method ServeOpened(session: Session, err: Option<SearchError>, ghost first: Pass, offset: int, numResults: int)
      returns (r: Result<Page, EngineError>)
      requires session.Valid() && session.lastReturnedOffset == 0
      requires session.Snapshot() == first.state && err == first.error
      modifies session
      ensures session.Valid()
      ensures Answered(Resume(first, session.queries, offset, numResults, BackendFor(session.originalPrompt)),
                       session.Snapshot(), PageFrom(session, offset, numResults), 0, session.lastReturnedOffset, offset, r)
    {
      if err.Some? {
        return Err(SearchFailed(err.value));
      }
      r := ServePage(session, offset, numResults);
    }

    /** The first fetch and the first page of a session just created. */
    method FirstRequest(session: Session, offset: int, numResults: int) returns (r: Result<Page, EngineError>)
      requires session.Valid() && session.Snapshot() == Initial(session.queries) && session.lastReturnedOffset == 0
      modifies session
      ensures session.Valid()
      ensures Answered(Opening(session.queries, offset, numResults, BackendFor(session.originalPrompt)),
                       session.Snapshot(), PageFrom(session, offset, numResults), 0, session.lastReturnedOffset, offset, r)
    {
      var err, first := FetchFirst(session, offset + numResults + 10);
      OpeningResumes(session.queries, offset, numResults, BackendFor(session.originalPrompt), first);
      r := ServeOpened(session, err, first, offset, numResults);
    }

    /** Sessions stored under different ids are different objects. */
    lemma OthersApart(id: string)
      requires Valid() && id in sessions
      ensures forall other :: other in sessions && other != id ==> sessions[other] != sessions[id]
    {
      forall other | other in sessions && other != id ensures sessions[other] != sessions[id] {
        assert sessions[other].sessionId == other;
      }
    }

    /** The whole first request for a prompt. */
    method OpenSession(sessionId: string, prompt: string, offset: int, numResults: int)
      returns (session: Session, r: Result<Page, EngineError>)
      requires Valid() && sessionId !in sessions
      modifies this
      ensures Valid() && fresh(session)
      ensures sessions == old(sessions)[sessionId := session]
      ensures session.sessionId == sessionId && session.originalPrompt == prompt
      ensures session.queries == PlannedQueries(planner(prompt, ExtractedLocations(stages(prompt))))
      ensures Answered(Opening(session.queries, offset, numResults, BackendFor(session.originalPrompt)),
                       session.Snapshot(), PageFrom(session, offset, numResults), 0, session.lastReturnedOffset, offset, r)
    {
      session := CreateSession(sessionId, prompt);
      r := FirstRequest(session, offset, numResults);
    }

    /**
     * `search_with_offset`: find or create the prompt's session for today,
     * top it up and return the page at `offset`.  A new session is stored
     * before its first fetch, so a failure leaves it in place with whatever
     * was fetched.
     */
    method SearchWithOffset(prompt: string, userId: string, today: string, offset: int, numResults: int)
      returns (r: Result<Page, EngineError>)
      requires Valid()
      modifies this, sessions.Values
      ensures Valid()
      ensures var id := GenerateSessionId(userId, prompt, today);
              id in sessions && sessions == old(sessions)[id := sessions[id]]
      ensures var id := GenerateSessionId(userId, prompt, today);
              var s := sessions[id];
              id in old(sessions) ==>
                s == old(sessions[id]) &&
                Answered(Serve(old(s.Snapshot()), s.queries, offset, numResults, BackendFor(s.originalPrompt)),
                         s.Snapshot(), PageFrom(s, offset, numResults), old(s.lastReturnedOffset), s.lastReturnedOffset,
                         offset, r)
      ensures var id := GenerateSessionId(userId, prompt, today);
              var s := sessions[id];
              id !in old(sessions) ==>
                fresh(s) && s.originalPrompt == prompt &&
                s.queries == PlannedQueries(planner(prompt, ExtractedLocations(stages(prompt)))) &&
                Answered(Opening(s.queries, offset, numResults, BackendFor(prompt)),
                         s.Snapshot(), PageFrom(s, offset, numResults), 0, s.lastReturnedOffset, offset, r)
      ensures forall other :: other in old(sessions) && other != GenerateSessionId(userId, prompt, today) ==>
                unchanged(old(sessions)[other])
    {
      var sessionId := GenerateSessionId(userId, prompt, today);
      if sessionId in sessions {
        var session := sessions[sessionId];
        OthersApart(sessionId);
        r := ServePage(session, offset, numResults);
      } else {
        var session;
        session, r := OpenSession(sessionId, prompt, offset, numResults);
      }
    }

    /**
     * `get_more_results`: the page after the last one served for a known
     * session, topping the buffer up first when it is short.
     */
    method GetMoreResults(sessionId: string, numResults: int) returns (r: Result<Page, EngineError>)
      requires Valid()
      modifies sessions.Values
      ensures Valid()
      ensures sessionId !in sessions ==> r == Err(SessionNotFound)
      ensures sessionId in sessions ==>
                var s := sessions[sessionId];
                Answered(Serve(old(s.Snapshot()), s.queries, old(s.lastReturnedOffset), numResults, BackendFor(s.originalPrompt)),
                         s.Snapshot(), PageFrom(s, old(s.lastReturnedOffset), numResults),
                         old(s.lastReturnedOffset), s.lastReturnedOffset, old(s.lastReturnedOffset), r)
      ensures sessions == old(sessions)
      ensures forall other :: other in sessions && other != sessionId ==> unchanged(sessions[other])
    {
      if sessionId !in sessions {
        return Err(SessionNotFound);
      }
      var session := sessions[sessionId];
      OthersApart(sessionId);
      r := ServePage(session, session.lastReturnedOffset, numResults);
    }
  }
}
