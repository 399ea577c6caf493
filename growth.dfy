/**
 * The growth pass of `fetch_more_results`, as functions on a session's
 * `State`: the queries are visited in order, each asked for its next batch
 * starting after its cursor, the batch is filtered against the links already
 * held, and the pass stops once enough new results were added.  A pass that
 * added nothing marks the session exhausted; a failed call ends the pass and
 * keeps whatever was added before it.
 */
module Growth {
  import opened Wrappers
  import opened Slices
  import opened SearchApi
  import opened SearchSession

  /** The fixed inputs of a pass: the search endpoint, the inferred locations, the excluded domains. */
  datatype Backend = Backend(http: Request -> HttpReply, locations: seq<string>, domains: seq<string>)

  /** What visiting one query did: the new state, what is still needed, a failure, the request sent if any. */
  datatype Visit = Visit(state: State, needed: int, error: Option<SearchError>, request: Option<Request>)

  /** The result of a pass: the new state, the failure that ended it if any, and the requests sent in order. */
  datatype Pass = Pass(state: State, error: Option<SearchError>, requests: seq<Request>)

  /** The body of the query loop for one query whose cursor exists and with `needed > 0`. */
  function VisitQuery(st: State, query: string, needed: int, b: Backend): (v: Visit)
    requires query in st.positions
    ensures v.state.positions.Keys == st.positions.Keys
  {
    var position := st.positions[query];
    if position >= CursorLimit then Visit(st, needed, None, None)
    else
      var request := SearchRequest(query, position + 1, Min(10, needed), b.locations, b.domains);
      Absorb(st, query, needed, request, SearchOutcome(b.http(request), position + 1))
  }

  /** A visit below the limit is the outcome of exactly one request, for the next batch of at most `needed`. */
  lemma VisitUnfolds(st: State, query: string, needed: int, b: Backend)
    requires query in st.positions && st.positions[query] < CursorLimit
    ensures var request := SearchRequest(query, st.positions[query] + 1, Min(10, needed), b.locations, b.domains);
            VisitQuery(st, query, needed, b) ==
              Absorb(st, query, needed, request, SearchOutcome(b.http(request), st.positions[query] + 1))
  {
  }

  /**
   * The outcome of the call for `query`: a failure ends the visit with the
   * state untouched, an empty batch is skipped, and otherwise the unseen items
   * are added and the cursor moves by the whole batch's size.
   */
  function Absorb(st: State, query: string, needed: int, request: Request,
                  outcome: Result<seq<Item>, SearchError>): (v: Visit)
    requires query in st.positions
    ensures v.state.positions.Keys == st.positions.Keys
  {
    match outcome
    case Err(e) => Visit(st, needed, Some(e), Some(request))
    case Ok(batch) =>
      if batch == [] then Visit(st, needed, None, Some(request))
      else
        var added := Unseen(batch, Links(st.results));
        Visit(AddedTo(st, added, query, |batch|), needed - |added|, None, Some(request))
  }

  /** The query loop from the `i`-th query on, with `needed` results still wanted. */
  function PassFrom(st: State, queries: seq<string>, i: nat, needed: int, b: Backend): Pass
    requires i <= |queries| && Tracks(st, queries)
    decreases |queries| - i, 1
  {
    if i == |queries| || needed <= 0 then Pass(st, None, [])
    else PassOn(queries, i, VisitQuery(st, queries[i], needed, b), b)
  }

  /** The rest of the loop once the `i`-th query was visited: a failure ends it, otherwise it goes on. */
  function PassOn(queries: seq<string>, i: nat, v: Visit, b: Backend): Pass
    requires i < |queries| && Tracks(v.state, queries)
    decreases |queries| - i, 0
  {
    var sent := if v.request.Some? then [v.request.value] else [];
    if v.error.Some? then Pass(v.state, v.error, sent)
    else
      var rest := PassFrom(v.state, queries, i + 1, v.needed, b);
      Pass(rest.state, rest.error, sent + rest.requests)
  }

  /** `fetch_more_results(session, target)`. */
  function Fetch(st: State, queries: seq<string>, target: int, b: Backend): Pass
    requires Tracks(st, queries)
  {
    if |st.results| >= target || st.exhausted then Pass(st, None, [])
    else
      var pass := PassFrom(st, queries, 0, target - |st.results|, b);
      if pass.error.None? && |pass.state.results| == |st.results| then
        pass.(state := pass.state.(exhausted := true))
      else pass
  }

  // ---------------------------------------------------------------------------
  // What a pass may change

  /**
   * `s1` grew from `s0`: old results kept as a prefix, every added result's
   * link new, the same queries tracked, cursors never moving back and cursors
   * at the limit not moving at all.
   */
  predicate Extends(s0: State, s1: State) {
    && s0.results <= s1.results
    && (forall k :: |s0.results| <= k < |s1.results| ==> s1.results[k].link !in Links(s0.results))
    && s1.positions.Keys == s0.positions.Keys
    && (forall q :: q in s0.positions ==> s0.positions[q] <= s1.positions[q])
    && (forall q :: q in s0.positions && s0.positions[q] >= CursorLimit ==> s1.positions[q] == s0.positions[q])
    && s0.apiCalls <= s1.apiCalls
  }

  lemma LinksGrow(xs: seq<Item>, ys: seq<Item>)
    requires xs <= ys
    ensures Links(xs) <= Links(ys)
  {
    forall x | x in Links(xs) ensures x in Links(ys) {
      var i :| 0 <= i < |xs| && xs[i].link == x;
      assert ys[i] == xs[i];
    }
  }

  lemma ExtendsTrans(s0: State, s1: State, s2: State)
    requires Extends(s0, s1) && Extends(s1, s2)
    ensures Extends(s0, s2)
  {
    LinksGrow(s0.results, s1.results);
    forall k | |s0.results| <= k < |s2.results| ensures s2.results[k].link !in Links(s0.results) {
      if k < |s1.results| {
        assert s2.results[k] == s1.results[k];
      }
    }
  }

  lemma AbsorbExtends(st: State, query: string, needed: int, request: Request,
                       outcome: Result<seq<Item>, SearchError>)
    requires query in st.positions && st.positions[query] < CursorLimit
    ensures var v := Absorb(st, query, needed, request, outcome);
            Extends(st, v.state) && v.state.exhausted == st.exhausted && (v.error.Some? ==> v.state == st)
  {
    var v := Absorb(st, query, needed, request, outcome);
    var n := |st.results|;
    forall k | n <= k < |v.state.results| ensures v.state.results[k].link !in Links(st.results) {
      var tail := v.state.results[n..];
      assert v.state.results[k] == tail[k - n];
    }
  }

  lemma VisitExtends(st: State, query: string, needed: int, b: Backend)
    requires query in st.positions
    ensures var v := VisitQuery(st, query, needed, b);
            Extends(st, v.state) && v.state.exhausted == st.exhausted && (v.error.Some? ==> v.state == st)
  {
    var position := st.positions[query];
    if position < CursorLimit {
      var request := SearchRequest(query, position + 1, Min(10, needed), b.locations, b.domains);
      AbsorbExtends(st, query, needed, request, SearchOutcome(b.http(request), position + 1));
      assert VisitQuery(st, query, needed, b) == Absorb(st, query, needed, request, SearchOutcome(b.http(request), position + 1));
    }
  }

  /** A pass only grows the state. */
  lemma {:induction false} PassExtends(st: State, queries: seq<string>, i: nat, needed: int, b: Backend)
    requires i <= |queries| && Tracks(st, queries)
    ensures Extends(st, PassFrom(st, queries, i, needed, b).state)
    decreases |queries| - i, 1
  {
    if i < |queries| && needed > 0 {
      VisitExtends(st, queries[i], needed, b);
      PassOnExtends(st, queries, i, VisitQuery(st, queries[i], needed, b), b);
    }
  }

  lemma {:induction false} PassOnExtends(st: State, queries: seq<string>, i: nat, v: Visit, b: Backend)
    requires i < |queries| && Tracks(v.state, queries) && Extends(st, v.state)
    ensures Extends(st, PassOn(queries, i, v, b).state)
    decreases |queries| - i, 0
  {
    if v.error.None? {
      PassExtends(v.state, queries, i + 1, v.needed, b);
      ExtendsTrans(st, v.state, PassFrom(v.state, queries, i + 1, v.needed, b).state);
    }
  }

  /** A pass leaves the exhaustion flag alone. */
  lemma {:induction false} PassKeepsFlag(st: State, queries: seq<string>, i: nat, needed: int, b: Backend)
    requires i <= |queries| && Tracks(st, queries)
    ensures PassFrom(st, queries, i, needed, b).state.exhausted == st.exhausted
    decreases |queries| - i, 1
  {
    if i < |queries| && needed > 0 {
      VisitExtends(st, queries[i], needed, b);
      PassOnKeepsFlag(queries, i, VisitQuery(st, queries[i], needed, b), b);
    }
  }

  lemma {:induction false} PassOnKeepsFlag(queries: seq<string>, i: nat, v: Visit, b: Backend)
    requires i < |queries| && Tracks(v.state, queries)
    ensures PassOn(queries, i, v, b).state.exhausted == v.state.exhausted
    decreases |queries| - i, 0
  {
    if v.error.None? {
      PassKeepsFlag(v.state, queries, i + 1, v.needed, b);
    }
  }

  /**
   * `fetch_more_results` keeps every result already held, in place, adds only
   * results with new links, never moves a cursor back or one that reached the
   * limit, and never clears the exhaustion flag.
   */
  lemma FetchExtends(st: State, queries: seq<string>, target: int, b: Backend)
    requires Tracks(st, queries)
    ensures Extends(st, Fetch(st, queries, target, b).state)
    ensures st.exhausted ==> Fetch(st, queries, target, b).state.exhausted
    ensures Tracks(Fetch(st, queries, target, b).state, queries)
  {
    if |st.results| < target && !st.exhausted {
      var pass := PassFrom(st, queries, 0, target - |st.results|, b);
      PassExtends(st, queries, 0, target - |st.results|, b);
      PassKeepsFlag(st, queries, 0, target - |st.results|, b);
      ExtendsMarked(st, pass.state);
    }
  }

  /** Setting the exhaustion flag changes nothing `Extends` looks at. */
  lemma ExtendsMarked(s0: State, s1: State)
    requires Extends(s0, s1)
    ensures Extends(s0, s1.(exhausted := true))
  {
    assert s1.(exhausted := true).results == s1.results;
    assert s1.(exhausted := true).positions == s1.positions;
  }

  /**
   * When the flag is set: a request already satisfied or a session already
   * exhausted sends nothing and changes nothing; otherwise, a pass that ended
   * without failure marks the session exhausted exactly when it added nothing,
   * and a failed pass keeps its partial results and leaves the flag unset.
   */
  lemma FetchExhaustion(st: State, queries: seq<string>, target: int, b: Backend)
    requires Tracks(st, queries)
    ensures |st.results| >= target || st.exhausted ==> Fetch(st, queries, target, b) == Pass(st, None, [])
    ensures |st.results| < target && !st.exhausted ==>
              var out := Fetch(st, queries, target, b);
              (out.error.None? ==> (out.state.exhausted <==> |out.state.results| == |st.results|)) &&
              (out.error.Some? ==> !out.state.exhausted &&
                                   out.state == PassFrom(st, queries, 0, target - |st.results|, b).state)
  {
    if |st.results| < target && !st.exhausted {
      PassKeepsFlag(st, queries, 0, target - |st.results|, b);
    }
  }

  // ---------------------------------------------------------------------------
  // No duplicate links

  /** The endpoint never repeats a link within one page. */
  ghost predicate DistinctReplies(b: Backend) {
    forall req :: DistinctPage(b.http(req))
  }

  predicate DistinctPage(reply: HttpReply) {
    reply.Response? ==> DistinctRawLinks(reply.items)
  }

  predicate DistinctRawLinks(items: seq<RawItem>) {
    forall x, y :: 0 <= x < y < |items| ==> items[x].link.GetOr("") != items[y].link.GetOr("")
  }

  lemma AppendDistinct(xs: seq<Item>, ys: seq<Item>)
    requires DistinctLinks(xs) && DistinctLinks(ys)
    requires forall k :: 0 <= k < |ys| ==> ys[k].link !in Links(xs)
    ensures DistinctLinks(xs + ys)
  {
    var zs := xs + ys;
    forall x, y | 0 <= x < y < |zs| ensures zs[x].link != zs[y].link {
      if y >= |xs| && x < |xs| {
        assert zs[x].link in Links(xs);
        assert zs[y] == ys[y - |xs|];
      } else if x >= |xs| {
        assert zs[x] == ys[x - |xs|] && zs[y] == ys[y - |xs|];
      }
    }
  }

  lemma NormalizedDistinct(items: seq<RawItem>, startIndex: int)
    requires DistinctRawLinks(items)
    ensures DistinctLinks(NormalizeItems(items, startIndex))
  {
    var batch := NormalizeItems(items, startIndex);
    forall x, y | 0 <= x < y < |batch| ensures batch[x].link != batch[y].link {
      assert batch[x].link == items[x].link.GetOr("");
      assert batch[y].link == items[y].link.GetOr("");
    }
  }

  lemma AbsorbDistinct(st: State, query: string, needed: int, request: Request,
                        outcome: Result<seq<Item>, SearchError>)
    requires query in st.positions
    requires DistinctLinks(st.results) && (outcome.Ok? ==> DistinctLinks(outcome.value))
    ensures DistinctLinks(Absorb(st, query, needed, request, outcome).state.results)
  {
    if outcome.Ok? && outcome.value != [] {
      UnseenDistinct(outcome.value, Links(st.results));
      AppendDistinct(st.results, Unseen(outcome.value, Links(st.results)));
    }
  }

  lemma OutcomeDistinct(reply: HttpReply, startIndex: int)
    requires DistinctPage(reply)
    ensures SearchOutcome(reply, startIndex).Ok? ==> DistinctLinks(SearchOutcome(reply, startIndex).value)
  {
    if reply.Response? && reply.status == 200 {
      NormalizedDistinct(reply.items, startIndex);
    }
  }

  lemma VisitDistinct(st: State, query: string, needed: int, b: Backend)
    requires query in st.positions
    requires DistinctLinks(st.results) && DistinctReplies(b)
    ensures DistinctLinks(VisitQuery(st, query, needed, b).state.results)
  {
    var position := st.positions[query];
    if position < CursorLimit {
      var request := SearchRequest(query, position + 1, Min(10, needed), b.locations, b.domains);
      var reply := b.http(request);
      assert DistinctPage(reply);
      OutcomeDistinct(reply, position + 1);
      AbsorbDistinct(st, query, needed, request, SearchOutcome(reply, position + 1));
      assert VisitQuery(st, query, needed, b) == Absorb(st, query, needed, request, SearchOutcome(reply, position + 1));
    }
  }

  lemma {:induction false} PassDistinct(st: State, queries: seq<string>, i: nat, needed: int, b: Backend)
    requires i <= |queries| && Tracks(st, queries)
    requires DistinctLinks(st.results) && DistinctReplies(b)
    ensures DistinctLinks(PassFrom(st, queries, i, needed, b).state.results)
    decreases |queries| - i, 1
  {
    if i < |queries| && needed > 0 {
      VisitDistinct(st, queries[i], needed, b);
      PassOnDistinct(queries, i, VisitQuery(st, queries[i], needed, b), b);
    }
  }

  lemma {:induction false} PassOnDistinct(queries: seq<string>, i: nat, v: Visit, b: Backend)
    requires i < |queries| && Tracks(v.state, queries)
    requires DistinctLinks(v.state.results) && DistinctReplies(b)
    ensures DistinctLinks(PassOn(queries, i, v, b).state.results)
    decreases |queries| - i, 0
  {
    if v.error.None? {
      PassDistinct(v.state, queries, i + 1, v.needed, b);
    }
  }

  /** If no page repeats a link, the session's results never hold the same link twice. */
  lemma FetchDistinct(st: State, queries: seq<string>, target: int, b: Backend)
    requires Tracks(st, queries)
    requires DistinctLinks(st.results) && DistinctReplies(b)
    ensures DistinctLinks(Fetch(st, queries, target, b).state.results)
  {
    if |st.results| < target && !st.exhausted {
      PassDistinct(st, queries, 0, target - |st.results|, b);
    }
  }

  /**
   * The filter only compares against links held before the batch: a page that
   * lists the same link twice puts both copies into the session.
   */
  lemma RepeatedLinkKept()
    ensures var raw := RawItem(None, Some("https://a.example"), None, None);
            var b := Backend(req => Response(200, [raw, raw]), [], []);
            var out := Fetch(Initial(["q"]), ["q"], 2, b);
            |out.state.results| == 2 && out.state.results[0].link == out.state.results[1].link
  {
    var raw := RawItem(None, Some("https://a.example"), None, None);
    var b := Backend(req => Response(200, [raw, raw]), [], []);
    var st := Initial(["q"]);
    assert "q" in st.positions && st.positions["q"] == 0;
    var request := SearchRequest("q", 1, 2, [], []);
    VisitUnfolds(st, "q", 2, b);
    var batch := NormalizeItems([raw, raw], 1);
    assert SearchOutcome(b.http(request), 1) == Ok(batch);
    var v := VisitQuery(st, "q", 2, b);
    assert v == Absorb(st, "q", 2, request, Ok(batch));
    assert Links(st.results) == {};
    assert Unseen(batch, {}) == batch;
    assert v.state.results == batch && v.needed == 0 && v.error.None?;
    assert PassFrom(v.state, ["q"], 1, 0, b).state == v.state;
    assert PassFrom(st, ["q"], 0, 2, b).state == v.state;
    assert Fetch(st, ["q"], 2, b).state == v.state;
  }

  // ---------------------------------------------------------------------------
  // Cursors, requests and how much a pass adds

  /** The endpoint never returns more items than the page size it was asked for. */
  ghost predicate HonoursPageSize(b: Backend) {
    forall req :: b.http(req).Response? ==> |b.http(req).items| <= req.num
  }

  /** Every cursor lies between 0 and the furthest a single batch can carry it past the limit. */
  predicate CursorsWithin(st: State) {
    forall q :: q in st.positions ==> 0 <= st.positions[q] <= CursorLimit + 9
  }

  /** The requests of a pass: at most one per query, each for 1 to 10 results starting at 1 to 100. */
  predicate SaneRequests(requests: seq<Request>) {
    forall r :: r in requests ==> 1 <= r.num <= 10 && 1 <= r.start <= CursorLimit
  }

  lemma SaneAppend(xs: seq<Request>, ys: seq<Request>)
    requires SaneRequests(xs) && SaneRequests(ys)
    ensures SaneRequests(xs + ys)
  {
  }

  /**
   * What one visit keeps: cursors within bounds, the results grown by exactly
   * the drop in `needed`, which stays non-negative, and a sane request if any.
   */
  predicate VisitWithin(st: State, needed: int, v: Visit) {
    && CursorsWithin(v.state)
    && 0 <= v.needed && |v.state.results| - |st.results| == needed - v.needed
    && (v.request.Some? ==> 1 <= v.request.value.num <= 10 && 1 <= v.request.value.start <= CursorLimit)
  }

  lemma AbsorbBounds(st: State, query: string, needed: int, request: Request,
                     outcome: Result<seq<Item>, SearchError>)
    requires query in st.positions && 0 <= st.positions[query] < CursorLimit && CursorsWithin(st)
    requires 1 <= request.num <= 10 && 1 <= request.start <= CursorLimit
    requires needed > 0 && (outcome.Ok? ==> |outcome.value| <= Min(10, needed))
    ensures VisitWithin(st, needed, Absorb(st, query, needed, request, outcome))
  {
    if outcome.Ok? && outcome.value != [] {
      var v := Absorb(st, query, needed, request, outcome);
      var added := Unseen(outcome.value, Links(st.results));
      assert v.state.positions == st.positions[query := st.positions[query] + |outcome.value|];
      assert |v.state.results| == |st.results| + |added|;
    }
  }

  /** A successful call returns no more items than the request asked for. */
  lemma OutcomeWithinPage(b: Backend, request: Request, startIndex: int)
    requires HonoursPageSize(b)
    ensures SearchOutcome(b.http(request), startIndex).Ok? ==>
              |SearchOutcome(b.http(request), startIndex).value| <= request.num
  {
    var reply := b.http(request);
    if SearchOutcome(reply, startIndex).Ok? {
      assert |SearchOutcome(reply, startIndex).value| == |reply.items|;
    }
  }

  lemma VisitBounds(st: State, query: string, needed: int, b: Backend)
    requires query in st.positions && needed > 0
    requires CursorsWithin(st) && HonoursPageSize(b)
    ensures VisitWithin(st, needed, VisitQuery(st, query, needed, b))
  {
    if st.positions[query] < CursorLimit {
      VisitBelowLimit(st, query, needed, b);
    }
  }

  /** Below the limit the single request asks for at most ten results, and the backend returns no more. */
  lemma VisitBelowLimit(st: State, query: string, needed: int, b: Backend)
    requires query in st.positions && needed > 0 && st.positions[query] < CursorLimit
    requires CursorsWithin(st) && HonoursPageSize(b)
    ensures VisitWithin(st, needed, VisitQuery(st, query, needed, b))
  {
    var position := st.positions[query];
    var request := SearchRequest(query, position + 1, Min(10, needed), b.locations, b.domains);
    var outcome := SearchOutcome(b.http(request), position + 1);
    assert outcome.Ok? ==> |outcome.value| <= request.num by {
      OutcomeWithinPage(b, request, position + 1);
    }
    VisitIsAbsorb(st, query, needed, b, request, outcome);
  }

  /** The visit below the limit is the absorbed outcome of its request, so it inherits its bounds. */
  lemma VisitIsAbsorb(st: State, query: string, needed: int, b: Backend,
                      request: Request, outcome: Result<seq<Item>, SearchError>)
    requires query in st.positions && 0 <= st.positions[query] < CursorLimit && CursorsWithin(st)
    requires request == SearchRequest(query, st.positions[query] + 1, Min(10, needed), b.locations, b.domains)
    requires outcome == SearchOutcome(b.http(request), st.positions[query] + 1)
    requires needed > 0 && (outcome.Ok? ==> |outcome.value| <= request.num)
    ensures VisitWithin(st, needed, VisitQuery(st, query, needed, b))
  {
    AbsorbBounds(st, query, needed, request, outcome);
    VisitUnfolds(st, query, needed, b);
  }

  /**
   * A pass over cursors within bounds keeps them within bounds (a cursor below
   * the limit can pass it by up to 9), sends at most one sane request per
   * remaining query, and adds at most the number of results still needed.
   */
  lemma {:induction false} PassBounds(st: State, queries: seq<string>, i: nat, needed: int, b: Backend)
    requires i <= |queries| && Tracks(st, queries)
    requires CursorsWithin(st) && HonoursPageSize(b)
    ensures var out := PassFrom(st, queries, i, needed, b);
            CursorsWithin(out.state) &&
            |out.requests| <= |queries| - i && SaneRequests(out.requests) &&
            |out.state.results| <= |st.results| + Max(0, needed)
    decreases |queries| - i, 1
  {
    if i < |queries| && needed > 0 {
      VisitBounds(st, queries[i], needed, b);
      PassOnBounds(st, needed, queries, i, VisitQuery(st, queries[i], needed, b), b);
    }
  }

  lemma {:induction false} PassOnBounds(st: State, needed: int, queries: seq<string>, i: nat, v: Visit, b: Backend)
    requires i < |queries| && Tracks(v.state, queries)
    requires VisitWithin(st, needed, v) && HonoursPageSize(b)
    ensures var out := PassOn(queries, i, v, b);
            CursorsWithin(out.state) &&
            |out.requests| <= |queries| - i && SaneRequests(out.requests) &&
            |out.state.results| <= |st.results| + Max(0, needed)
    decreases |queries| - i, 0
  {
    var sent := if v.request.Some? then [v.request.value] else [];
    if v.error.None? {
      var rest := PassFrom(v.state, queries, i + 1, v.needed, b);
      PassBounds(v.state, queries, i + 1, v.needed, b);
      SaneAppend(sent, rest.requests);
    }
  }

  /**
   * When the endpoint honours the page size, `fetch_more_results` never grows
   * the buffer past the target it was given, keeps every cursor at most 109,
   * and sends at most one request per query.
   */
  lemma FetchBounds(st: State, queries: seq<string>, target: int, b: Backend)
    requires Tracks(st, queries) && CursorsWithin(st) && HonoursPageSize(b)
    ensures var out := Fetch(st, queries, target, b);
            CursorsWithin(out.state) &&
            |out.requests| <= |queries| && SaneRequests(out.requests) &&
            |out.state.results| <= Max(|st.results|, target)
  {
    if |st.results| < target && !st.exhausted {
      PassBounds(st, queries, 0, target - |st.results|, b);
    }
  }

  /** A cursor at 95 asks for 10 more and lands at 105, past the limit. */
  lemma CursorCanPassLimit()
    ensures var raw := RawItem(None, None, None, None);
            var b := Backend(req => Response(200, seq(10, k => raw)), [], []);
            var st := State([], map["q" := 95], false, 0);
            Fetch(st, ["q"], 10, b).state.positions["q"] == 105
  {
    var raw := RawItem(None, None, None, None);
    var b := Backend(req => Response(200, seq(10, k => raw)), [], []);
    var st := State([], map["q" := 95], false, 0);
    var v := VisitQuery(st, "q", 10, b);
    assert |NormalizeItems(seq(10, k => raw), 96)| == 10;
    assert v.state.positions["q"] == 105;
  }
}
