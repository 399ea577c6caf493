/**
 * The request side of the search engine: turning planner output into
 * queries, decorating a query with locations and exclusions, and the call to
 * the custom-search HTTP endpoint with its clamp, rank labelling and error
 * mapping.  The endpoint itself is a function from request to reply.
 */
module SearchApi {
  import opened Wrappers
  import opened Text
  import opened Slices

  // ---------------------------------------------------------------------------
  // Query text

  /** The aggregator sites `build_query` excludes; the engine holds them as its `aggregatorDomains`. */
  const AggregatorDomains: seq<string> := [
    "justdial.com", "sulekha.com", "indiamart.com", "yellowpages.", "yelp.",
    "tripadvisor.", "zomato.com", "clutch.co", "g2.com", "capterra",
    "goodfirms", "topdevelopers", "serchen.com", "reddit.com"
  ]

  const ExclusionTerms: string := " -\"Top\" -\"Best\" -\"List of\""

  function SiteExclusions(domains: seq<string>): (r: seq<string>)
    ensures |r| == |domains|
    ensures forall i :: 0 <= i < |domains| ==> r[i] == "-site:" + domains[i]
  {
    if domains == [] then [] else ["-site:" + domains[0]] + SiteExclusions(domains[1..])
  }

  /** `" ".join(f"-site:{d}" for d in aggregator_domains)`. */
  function ExcludedSites(domains: seq<string>): string {
    Join(SiteExclusions(domains), " ")
  }

  function Quoted(locations: seq<string>): (r: seq<string>)
    ensures |r| == |locations|
    ensures forall i :: 0 <= i < |locations| ==> r[i] == "\"" + locations[i] + "\""
  {
    if locations == [] then [] else ["\"" + locations[0] + "\""] + Quoted(locations[1..])
  }

  /** `location_terms`: empty without locations, else a space and the quoted locations. */
  function LocationTerms(locations: seq<string>): string {
    if locations == [] then "" else " " + Join(Quoted(locations), " ")
  }

  /** The exclusions that end every query: `excluded_sites` then `exclusion_terms`. */
  function Exclusions(domains: seq<string>): string {
    ExcludedSites(domains) + ExclusionTerms
  }

  /** `build_query`, excluding the sites in `domains`. */
  function BuildQuery(query: string, locations: seq<string>, domains: seq<string>): string {
    Strip(query + LocationTerms(locations) + " " + Exclusions(domains))
  }

  /** The decoration `build_query` puts after the query. */
  function Decoration(locations: seq<string>, domains: seq<string>): string {
    LocationTerms(locations) + " " + Exclusions(domains)
  }

  /** Every built query ends with the site exclusions and the listicle exclusions. */
  lemma BuildQuerySuffix(query: string, locations: seq<string>, domains: seq<string>)
    requires domains != []
    ensures |Exclusions(domains)| <= |BuildQuery(query, locations, domains)|
    ensures var r := BuildQuery(query, locations, domains);
            r[|r| - |Exclusions(domains)|..] == Exclusions(domains)
  {
    var tailPart := Exclusions(domains);
    var front := query + LocationTerms(locations) + " ";
    TailEnds(domains);
    EndsWith(front, tailPart);
    StripKeepsSuffix(front + tailPart, tailPart);
    assert BuildQuery(query, locations, domains) == Strip(front + tailPart);
  }

  /** A query with no surrounding whitespace is kept verbatim at the front of the built query. */
  lemma BuildQueryPrefix(query: string, locations: seq<string>, domains: seq<string>)
    requires query == Strip(query) && query != ""
    ensures BuildQuery(query, locations, domains) == query + Decoration(locations, domains)
  {
    var x := query + LocationTerms(locations) + " " + Exclusions(domains);
    assert x == query + Decoration(locations, domains);
    assert x[0] == query[0];
    ExclusionsLast(domains);
    assert x[|x| - 1] == Exclusions(domains)[|Exclusions(domains)| - 1];
    TrimUnchanged(x, IsSpace);
  }

  lemma TailEnds(domains: seq<string>)
    requires domains != []
    ensures var t := Exclusions(domains);
            t != [] && !IsSpace(t[0]) && !IsSpace(t[|t| - 1])
  {
    ExclusionTermsEnd();
    JoinFirst(SiteExclusions(domains), " ");
  }

  lemma ExclusionsLast(domains: seq<string>)
    ensures Exclusions(domains) != [] && Exclusions(domains)[|Exclusions(domains)| - 1] == '"'
  {
    ExclusionTermsEnd();
  }

  lemma ExclusionTermsEnd()
    ensures ExclusionTerms != [] && ExclusionTerms[|ExclusionTerms| - 1] == '"'
  {
  }

  /** Stripping keeps a suffix that neither starts nor ends with whitespace. */
  lemma EndsWith(front: string, t: string)
    ensures (front + t)[|front + t| - |t|..] == t
  {
  }

  lemma StripKeepsSuffix(x: string, t: string)
    requires t != [] && !IsSpace(t[0]) && !IsSpace(t[|t| - 1])
    requires |t| <= |x| && x[|x| - |t|..] == t
    ensures |t| <= |Strip(x)| && Strip(x)[|Strip(x)| - |t|..] == t
  {
    var lo := LeftCut(x, IsSpace);
    var hi := RightCut(x, lo, IsSpace);
    assert x[|x| - |t|] == t[0];
    assert x[|x| - 1] == t[|t| - 1];
    assert hi == |x|;
    assert lo <= |x| - |t|;
    assert Strip(x) == x[lo..];
  }

  /** A join starts with its first part. */
  lemma JoinFirst(parts: seq<string>, sep: string)
    requires parts != []
    ensures |parts[0]| <= |Join(parts, sep)| && Join(parts, sep)[..|parts[0]|] == parts[0]
  {
  }

  /** Every excluded domain appears in the built query as `-site:` and the domain. */
  lemma BuildQueryExcludesEach(query: string, locations: seq<string>, domains: seq<string>, i: nat)
    requires i < |domains|
    ensures exists j: nat :: OccursAt(BuildQuery(query, locations, domains), "-site:" + domains[i], j)
  {
    BuildQuerySuffix(query, locations, domains);
    var r := BuildQuery(query, locations, domains);
    var sites := ExcludedSites(domains);
    var p := "-site:" + domains[i];
    JoinContainsEach(SiteExclusions(domains), " ", i);
    var j: nat :| OccursAt(sites, SiteExclusions(domains)[i], j);
    OccursBefore(sites, ExclusionTerms, p, j);
    var front := r[..|r| - |Exclusions(domains)|];
    assert r == front + Exclusions(domains);
    OccursAfter(front, Exclusions(domains), p, j);
  }

  /** Every inferred location appears in double quotes, whatever whitespace surrounds the query. */
  lemma BuildQueryQuotesEach(query: string, locations: seq<string>, domains: seq<string>, i: nat)
    requires i < |locations|
    ensures exists j: nat :: OccursAt(BuildQuery(query, locations, domains), "\"" + locations[i] + "\"", j)
  {
    var p := "\"" + locations[i] + "\"";
    var x := query + Decoration(locations, domains);
    assert x == query + LocationTerms(locations) + " " + Exclusions(domains);
    assert BuildQuery(query, locations, domains) == Strip(x);
    DecorationQuotesEach(locations, domains, i);
    var j: nat :| OccursAt(Decoration(locations, domains), p, j);
    OccursAfter(query, Decoration(locations, domains), p, j);
    StripKeepsInner(x, p, |query| + j);
  }

  lemma DecorationQuotesEach(locations: seq<string>, domains: seq<string>, i: nat)
    requires i < |locations|
    ensures exists j: nat :: OccursAt(Decoration(locations, domains), "\"" + locations[i] + "\"", j)
  {
    var joined := Join(Quoted(locations), " ");
    var p := "\"" + locations[i] + "\"";
    JoinContainsEach(Quoted(locations), " ", i);
    var j: nat :| OccursAt(joined, Quoted(locations)[i], j);
    var rest := " " + Exclusions(domains);
    assert Decoration(locations, domains) == " " + (joined + rest);
    OccursBefore(joined, rest, p, j);
    OccursAfter(" ", joined + rest, p, j);
  }

  // ---------------------------------------------------------------------------
  // Planner output to queries

  predicate IsDoubleQuote(c: char) {
    c == '"'
  }

  predicate IsSingleQuote(c: char) {
    c == '\''
  }

  /** `x.strip().strip('"').strip("'")`. */
  function CleanEntry(x: string): string {
    Trim(Trim(Strip(x), IsDoubleQuote), IsSingleQuote)
  }

  /** `[clean(x) for x in xs if x.strip()]`. */
  function CleanNonBlank(xs: seq<string>): seq<string>
    decreases |xs|
  {
    if xs == [] then []
    else
      var init := CleanNonBlank(xs[..|xs| - 1]);
      var x := xs[|xs| - 1];
      if Strip(x) != "" then init + [CleanEntry(x)] else init
  }

  /** The comma-separated parts of every raw line, in order. */
  function LineParts(rawLines: seq<string>): seq<string>
    decreases |rawLines|
  {
    if rawLines == [] then []
    else LineParts(rawLines[..|rawLines| - 1]) + CleanNonBlank(Split(rawLines[|rawLines| - 1], ','))
  }

  /** The entries longer than five characters, in order. */
  function LongEnough(xs: seq<string>): (r: seq<string>)
    ensures forall i :: 0 <= i < |r| ==> |r[i]| > 5
    ensures |r| <= |xs|
  {
    if xs == [] then []
    else (if |xs[0]| > 5 then [xs[0]] else []) + LongEnough(xs[1..])
  }

  const MaxQueries: nat := 5

  function RawLines(outputText: string): seq<string> {
    CleanNonBlank(Split(Strip(outputText), '\n'))
  }

  /** The queries `prompt_to_queries` returns for the planner's output text. */
  function PlannedQueries(outputText: string): seq<string> {
    var queries := LongEnough(LineParts(RawLines(outputText)));
    if |queries| <= MaxQueries then queries else queries[..MaxQueries]
  }

  lemma {:induction false} CleanNonBlankNoSeparator(xs: seq<string>, c: char)
    requires forall i :: 0 <= i < |xs| ==> c !in xs[i]
    ensures forall i :: 0 <= i < |CleanNonBlank(xs)| ==> c !in CleanNonBlank(xs)[i]
    decreases |xs|
  {
    if xs != [] {
      var init := xs[..|xs| - 1];
      CleanNonBlankNoSeparator(init, c);
      CleanEntrySubstring(xs[|xs| - 1], c);
    }
  }

  lemma CleanEntrySubstring(x: string, c: char)
    requires c !in x
    ensures c !in CleanEntry(x)
  {
    TrimAvoids(x, IsSpace, c);
    TrimAvoids(Strip(x), IsDoubleQuote, c);
    TrimAvoids(Trim(Strip(x), IsDoubleQuote), IsSingleQuote, c);
  }

  lemma {:induction false} LinePartsNoSeparators(rawLines: seq<string>)
    ensures forall i :: 0 <= i < |LineParts(rawLines)| ==> ',' !in LineParts(rawLines)[i]
    decreases |rawLines|
  {
    if rawLines != [] {
      LinePartsNoSeparators(rawLines[..|rawLines| - 1]);
      CleanNonBlankNoSeparator(Split(rawLines[|rawLines| - 1], ','), ',');
    }
  }

  /** Every planned query is longer than five characters, has no comma or newline, and there are at most five. */
  lemma PlannedQueriesShape(outputText: string)
    ensures |PlannedQueries(outputText)| <= MaxQueries
    ensures forall i :: 0 <= i < |PlannedQueries(outputText)| ==>
              |PlannedQueries(outputText)[i]| > 5 && ',' !in PlannedQueries(outputText)[i] && '\n' !in PlannedQueries(outputText)[i]
  {
    var lines := Split(Strip(outputText), '\n');
    CleanNonBlankNoSeparator(lines, '\n');
    var raw := RawLines(outputText);
    LinePartsNoNewline(raw);
    LinePartsNoSeparators(raw);
    var parts := LineParts(raw);
    LongEnoughSub(parts);
    var r := PlannedQueries(outputText);
    forall i | 0 <= i < |r| ensures ',' !in r[i] && '\n' !in r[i] {
      assert r[i] in LongEnough(parts);
      var k :| 0 <= k < |parts| && parts[k] == r[i];
    }
  }

  lemma {:induction false} LongEnoughSub(xs: seq<string>)
    ensures forall x :: x in LongEnough(xs) ==> x in xs
  {
    if xs != [] {
      LongEnoughSub(xs[1..]);
    }
  }

  lemma {:induction false} LinePartsNoNewline(rawLines: seq<string>)
    requires forall i :: 0 <= i < |rawLines| ==> '\n' !in rawLines[i]
    ensures forall i :: 0 <= i < |LineParts(rawLines)| ==> '\n' !in LineParts(rawLines)[i]
    decreases |rawLines|
  {
    if rawLines != [] {
      var last := rawLines[|rawLines| - 1];
      LinePartsNoNewline(rawLines[..|rawLines| - 1]);
      var parts := Split(last, ',');
      forall i | 0 <= i < |parts| ensures '\n' !in parts[i] {
        SplitPartsFrom(last, ',', '\n');
      }
      CleanNonBlankNoSeparator(parts, '\n');
    }
  }

  /** Splitting introduces no character the input lacks. */
  lemma {:induction false} SplitPartsFrom(s: string, sep: char, c: char)
    requires c !in s
    ensures forall i :: 0 <= i < |Split(s, sep)| ==> c !in Split(s, sep)[i]
  {
    if s != [] {
      SplitPartsFrom(s[1..], sep, c);
    }
  }

  /** An entry the cleaning leaves alone: no surrounding whitespace or quotes. */
  predicate IsCleanQuery(q: string) {
    && |q| > 5
    && ',' !in q && '\n' !in q
    && !IsSpace(q[0]) && !IsSpace(q[|q| - 1])
    && !IsDoubleQuote(q[0]) && !IsDoubleQuote(q[|q| - 1])
    && !IsSingleQuote(q[0]) && !IsSingleQuote(q[|q| - 1])
  }

  lemma CleanEntryOfClean(q: string)
    requires IsCleanQuery(q)
    ensures Strip(q) == q && CleanEntry(q) == q
  {
    TrimUnchanged(q, IsSpace);
    TrimUnchanged(q, IsDoubleQuote);
    TrimUnchanged(q, IsSingleQuote);
  }

  lemma {:induction false} CleanNonBlankOfClean(qs: seq<string>)
    requires forall i :: 0 <= i < |qs| ==> IsCleanQuery(qs[i])
    ensures CleanNonBlank(qs) == qs
    decreases |qs|
  {
    if qs != [] {
      CleanNonBlankOfClean(qs[..|qs| - 1]);
      CleanEntryOfClean(qs[|qs| - 1]);
      assert qs[..|qs| - 1] + [qs[|qs| - 1]] == qs;
    }
  }

  lemma {:induction false} LongEnoughOfLong(qs: seq<string>)
    requires forall i :: 0 <= i < |qs| ==> |qs[i]| > 5
    ensures LongEnough(qs) == qs
  {
    if qs != [] {
      LongEnoughOfLong(qs[1..]);
    }
  }

  /**
   * Planner output written as up to five clean queries joined by commas on
   * one line parses back to exactly those queries.
   */
  lemma PlannedQueriesRoundTrip(qs: seq<string>)
    requires 1 <= |qs| <= MaxQueries
    requires forall i :: 0 <= i < |qs| ==> IsCleanQuery(qs[i])
    ensures PlannedQueries(Join(qs, [','])) == qs
  {
    PartsOfCleanJoin(qs);
    LongEnoughOfLong(qs);
  }

  /** Clean queries joined by commas come back as the line parts, unchanged. */
  lemma PartsOfCleanJoin(qs: seq<string>)
    requires 1 <= |qs|
    requires forall i :: 0 <= i < |qs| ==> IsCleanQuery(qs[i])
    ensures LineParts(RawLines(Join(qs, [',']))) == qs
  {
    var text := Join(qs, [',']);
    CleanJoinIsOneLine(qs);
    LinePartsOfOne(text);
    SplitJoin(qs, ',');
    CleanNonBlankOfClean(qs);
  }

  /** Clean queries joined by commas make one raw line. */
  lemma CleanJoinIsOneLine(qs: seq<string>)
    requires 1 <= |qs|
    requires forall i :: 0 <= i < |qs| ==> IsCleanQuery(qs[i])
    ensures RawLines(Join(qs, [','])) == [Join(qs, [','])]
  {
    var text := Join(qs, [',']);
    CleanJoinEnds(qs);
    CleanJoinOneLine(qs);
    OneCleanLine(text);
  }

  lemma CleanJoinEnds(qs: seq<string>)
    requires 1 <= |qs|
    requires forall i :: 0 <= i < |qs| ==> IsCleanQuery(qs[i])
    ensures var text := Join(qs, [',']);
            text != [] &&
            !IsSpace(text[0]) && !IsSpace(text[|text| - 1]) &&
            !IsDoubleQuote(text[0]) && !IsDoubleQuote(text[|text| - 1]) &&
            !IsSingleQuote(text[0]) && !IsSingleQuote(text[|text| - 1])
  {
    assert IsCleanQuery(qs[0]) && IsCleanQuery(qs[|qs| - 1]);
    assert forall i :: 0 <= i < |qs| ==> qs[i] != [] by {
      forall i | 0 <= i < |qs| ensures qs[i] != [] {
        assert IsCleanQuery(qs[i]);
      }
    }
    JoinEnds(qs, [',']);
  }

  lemma CleanJoinOneLine(qs: seq<string>)
    requires forall i :: 0 <= i < |qs| ==> IsCleanQuery(qs[i])
    ensures '\n' !in Join(qs, [','])
  {
    assert forall i :: 0 <= i < |qs| ==> '\n' !in qs[i] by {
      forall i | 0 <= i < |qs| ensures '\n' !in qs[i] {
        assert IsCleanQuery(qs[i]);
      }
    }
    JoinAvoids(qs, [','], '\n');
  }

  lemma LinePartsOfOne(line: string)
    ensures LineParts([line]) == CleanNonBlank(Split(line, ','))
  {
    assert [line][..0] == [];
  }

  /** Text without newlines or surrounding whitespace and quotes is one raw line, itself. */
  lemma OneCleanLine(text: string)
    requires text != [] && '\n' !in text
    requires !IsSpace(text[0]) && !IsSpace(text[|text| - 1])
    requires !IsDoubleQuote(text[0]) && !IsDoubleQuote(text[|text| - 1])
    requires !IsSingleQuote(text[0]) && !IsSingleQuote(text[|text| - 1])
    ensures RawLines(text) == [text]
  {
    TrimUnchanged(text, IsSpace);
    SplitNoSeparator(text, '\n');
    TrimUnchanged(text, IsDoubleQuote);
    TrimUnchanged(text, IsSingleQuote);
    assert CleanEntry(text) == text;
    assert CleanNonBlank([text]) == CleanNonBlank([]) + [CleanEntry(text)];
  }

  /** A join of non-empty parts starts with the first part's first character and ends with the last part's last. */
  lemma {:induction false} JoinEnds(parts: seq<string>, sep: string)
    requires |parts| >= 1
    requires forall i :: 0 <= i < |parts| ==> parts[i] != []
    ensures Join(parts, sep) != []
    ensures Join(parts, sep)[0] == parts[0][0]
    ensures Join(parts, sep)[|Join(parts, sep)| - 1] == parts[|parts| - 1][|parts[|parts| - 1]| - 1]
  {
    if |parts| > 1 {
      JoinEnds(parts[1..], sep);
    }
  }

  lemma {:induction false} JoinAvoids(parts: seq<string>, sep: string, c: char)
    requires c !in sep
    requires forall i :: 0 <= i < |parts| ==> c !in parts[i]
    ensures c !in Join(parts, sep)
  {
    if |parts| > 1 {
      JoinAvoids(parts[1..], sep, c);
    }
  }

  /** `prompt_to_queries` after the planner call: the line loop extending `queries`, then filter and cap. */
  method PromptToQueries(outputText: string) returns (queries: seq<string>)
    ensures queries == PlannedQueries(outputText)
  {
    var rawLines := RawLines(outputText);
    var collected: seq<string> := [];
    var i := 0;
    while i < |rawLines|
      invariant 0 <= i <= |rawLines|
      invariant collected == LineParts(rawLines[..i])
    {
      assert rawLines[..i + 1][..i] == rawLines[..i];
      var parts := CleanNonBlank(Split(rawLines[i], ','));
      collected := collected + parts;
      i := i + 1;
    }
    assert rawLines[..|rawLines|] == rawLines;
    queries := LongEnough(collected);
    if |queries| > MaxQueries {
      queries := queries[..MaxQueries];
    }
  }

  // ---------------------------------------------------------------------------
  // The HTTP call

  /** What the endpoint is asked for: the built query, a 1-based start, a page size. */
  datatype Request = Request(q: string, start: int, num: int)

  /** One raw result item; a missing field reads as "". */
  datatype RawItem = RawItem(title: Option<string>, link: Option<string>, snippet: Option<string>, displayLink: Option<string>)

  /** What the endpoint answers: a status with the `items` of a decoded body, or a transport failure. */
  datatype HttpReply =
    | Response(status: int, items: seq<RawItem>)
    | UndecodableBody(detail: string)   // status 200, a JSON content type, a body that does not decode
    | TimedOut
    | ClientFailure(detail: string)     // an aiohttp client error, a non-JSON content type included

  /** `GoogleSearchError`, by cause. */
  datatype SearchError =
    | Throttled(status: int)
    | ServiceError(status: int)
    | RequestTimedOut
    | Unavailable(detail: string)
    | Unexpected(detail: string)

  /** The error text the source raises. */
  function ErrorMessage(e: SearchError): string {
    match e
    case Throttled(status) => "CSE HTTP " + IntToString(status)
    case ServiceError(status) => "Search service error " + IntToString(status)
    case RequestTimedOut => "Search request timed out"
    case Unavailable(detail) => "Search service unavailable: " + detail
    case Unexpected(detail) => "Unexpected search error " + detail
  }

  /** A normalised search result. */
  datatype Item = Item(title: string, link: string, snippet: string, source: string, rank: int)

  /** `max(1, min(10, results_to_fetch))`. */
  function SafeNum(resultsToFetch: int): (n: int)
    ensures 1 <= n <= 10
    ensures 1 <= resultsToFetch <= 10 ==> n == resultsToFetch
  {
    Max(1, Min(10, resultsToFetch))
  }

  /** The request `call_google_search_api` sends. */
  function SearchRequest(query: string, startIndex: int, resultsToFetch: int, locations: seq<string>,
                         domains: seq<string>): Request {
    Request(BuildQuery(query, locations, domains), startIndex, SafeNum(resultsToFetch))
  }

  function NormalizeItem(item: RawItem, rank: int): Item {
    Item(item.title.GetOr(""), item.link.GetOr(""), item.snippet.GetOr(""), item.displayLink.GetOr(""), rank)
  }

  /** The normalised items of a page starting at `startIndex`: rank `startIndex + i` for the i-th. */
  function NormalizeItems(items: seq<RawItem>, startIndex: int): (r: seq<Item>)
    ensures |r| == |items|
    ensures forall i :: 0 <= i < |items| ==> r[i] == NormalizeItem(items[i], startIndex + i)
    decreases |items|
  {
    if items == [] then []
    else NormalizeItems(items[..|items| - 1], startIndex) + [NormalizeItem(items[|items| - 1], startIndex + |items| - 1)]
  }

  /** The outcome of one call to the endpoint. */
  function SearchOutcome(reply: HttpReply, startIndex: int): Result<seq<Item>, SearchError> {
    match reply
    case Response(status, items) =>
      if status == 200 then Ok(NormalizeItems(items, startIndex))
      else if status == 403 || status == 429 then Err(Throttled(status))
      else Err(ServiceError(status))
    case UndecodableBody(detail) => Err(Unexpected(detail))
    case TimedOut => Err(RequestTimedOut)
    case ClientFailure(detail) => Err(Unavailable(detail))
  }

  /**
   * A successful call returns one item per raw item, ranked consecutively
   * from the start index, and only a 200 reply succeeds; a 403 or 429 is
   * reported as throttling and every other status as a service error.
   */
  lemma SearchOutcomeCases(reply: HttpReply, startIndex: int)
    ensures SearchOutcome(reply, startIndex).Ok? <==> reply.Response? && reply.status == 200
    ensures SearchOutcome(reply, startIndex).Ok? ==>
              |SearchOutcome(reply, startIndex).value| == |reply.items| &&
              forall i :: 0 <= i < |reply.items| ==>
                SearchOutcome(reply, startIndex).value[i].rank == startIndex + i &&
                SearchOutcome(reply, startIndex).value[i].link == reply.items[i].link.GetOr("")
    ensures reply.Response? && reply.status != 200 ==>
              SearchOutcome(reply, startIndex) ==
                Err(if reply.status in {403, 429} then Throttled(reply.status) else ServiceError(reply.status))
  {
  }

  /** `call_google_search_api`: build and send the request, then map the reply. */
  method CallGoogleSearchApi(query: string, startIndex: int, resultsToFetch: int, locations: seq<string>,
                             domains: seq<string>, http: Request -> HttpReply)
    returns (r: Result<seq<Item>, SearchError>)
    ensures r == SearchOutcome(http(SearchRequest(query, startIndex, resultsToFetch, locations, domains)), startIndex)
  {
    var modifiedQuery := BuildQuery(query, locations, domains);
    var safeNum := Max(1, Min(10, resultsToFetch));
    var reply := http(Request(modifiedQuery, startIndex, safeNum));
    match reply {
      case Response(status, items) =>
        if status == 200 {
          var normalized := NormalizeResults(items, startIndex);
          r := Ok(normalized);
        } else if status == 403 || status == 429 {
          r := Err(Throttled(status));
        } else {
          r := Err(ServiceError(status));
        }
      case UndecodableBody(detail) => r := Err(Unexpected(detail));
      case TimedOut => r := Err(RequestTimedOut);
      case ClientFailure(detail) => r := Err(Unavailable(detail));
    }
  }

  /** The `enumerate(items)` loop of `call_google_search_api`. */
  method NormalizeResults(items: seq<RawItem>, startIndex: int) returns (normalized: seq<Item>)
    ensures normalized == NormalizeItems(items, startIndex)
  {
    normalized := [];
    var index := 0;
    while index < |items|
      invariant 0 <= index <= |items|
      invariant normalized == NormalizeItems(items[..index], startIndex)
    {
      assert items[..index + 1][..index] == items[..index];
      normalized := normalized + [NormalizeItem(items[index], startIndex + index)];
      index := index + 1;
    }
    assert items[..|items|] == items;
  }
}
