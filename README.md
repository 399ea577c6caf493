# Lead-generation core, modelled in Dafny

This project models the core of a lead-generation service. The service turns a
user's prompt into web-search queries and pages through the search results.
It feeds those results, chunk by chunk, to a contact extractor until a job's
quota is met. It also formats e-mail conversations and replies for a language
model, and scores how ready a tenant's knowledge base is.

One Dafny module per source component:

| module | file | source |
|---|---|---|
| `Wrappers` | `wrappers.dfy` | `Option` and `Result` |
| `Text` | `text.dfy` | the Python `str` operations the core relies on (`strip`, `lower`, `upper`, `split`, `join`, `splitlines`, `\s+` collapsing) |
| `Slices` | `slices.dfy` | Python slicing `s[a:b]`, negative bounds included |
| `ContactUtils` | `contact_utils.dfy` | `app/utils.py` |
| `Location` | `location.dfy` | `app/services/location.py` |
| `SearchApi` | `search_api.dfy` | query building, planner-output parsing and the search-API call in `app/services/search_engine.py` |
| `SearchSession` | `search_session.dfy` | the `SearchSession` class |
| `Growth` | `growth.dfy` | `fetch_more_results`, as a function of the session state |
| `SearchEngine` | `search_engine.dfy` | the `SearchEngine` class: sessions, paging, `search_with_offset`, `get_more_results` |
| `DeficitCollector` | `deficit_collector.dfy` | `app/services/deficit_collector.py` |
| `EmailFormatter` | `email_formatter.dfy` | `app/services/email_reply/email_formatter.py` and `count_tokens` |
| `ResponseParser` | `response_parser.dfy` | `app/services/email_reply/response_parser.py` |
| `ReplyHtml` | `reply_html.dfy` | `app/helper/reply_html.py` |
| `BrandWrapper` | `brand_wrapper.dfy` | `app/helper/reply_brand_wrapper.py` |
| `Readiness` | `readiness.dfy` | `app/services/readiness.py` (`aspect_scores` and the final pass of `collect_texts`) |

Code that works step by step keeps that form:
- a session and the engine are classes whose methods update fields;
- each loop is a `method` with a `while` loop, proved against a specification function.

Pure code becomes functions with lemmas about them. Each oracle is a parameter of the model:
- the HTTP endpoint;
- the language-model planner and summariser;
- the tokenizer;
- the location regexes' matches;
- the job-count reads;
- the session's continuation pages;
- the autolinker;
- the readiness regex search and signal counts.

## Model

| member | source | states |
|---|---|---|
| ContactUtils.FindEmptyFields | app/utils.py:11-16 | the loop returns the qualified keys of the falsy entries, in dictionary order |
| ContactUtils.EmptyFieldsExact | app/utils.py:11-16 | a name is reported exactly when some entry with that key is falsy, qualified by the parent when there is one |
| ContactUtils.EmptyFieldsLength | app/utils.py:11-16 | at most one name per entry |
| ContactUtils.MergeData | app/utils.py:18-22 | fills the old dictionary in place: a key whose old value is missing or falsy takes the new value; returns the same object |
| ContactUtils.MergedFields | app/utils.py:18-22 | a merge keeps every old key, adds the new ones, never overwrites a truthy value, and fills a missing or falsy one |
| ContactUtils.MergeIdempotent | app/utils.py:18-22 | repeating a merge with the same new dictionary changes nothing |
| ContactUtils.DigitsAndPlus | app/utils.py:28 | only digits and `+` survive, and the result is no longer than the input |
| ContactUtils.CleanEach | app/utils.py:27-33 | the loop builds the list of cleaned numbers, in input order |
| ContactUtils.Distinct | app/utils.py:35 | the deduplicated list has the same members, each once, and is no longer |
| ContactUtils.CleanPhoneNumbers | app/utils.py:24-35 | the output holds exactly the cleaned numbers, without duplicates, and no more than the inputs |
| ContactUtils.CleanedLength | app/utils.py:27-33 | at most one number per input |
| ContactUtils.CleanedWellFormed | app/utils.py:30-32 | every output is an optional `+` and 8 to 15 digits; an unprefixed output has 8 or 9 digits |
| ContactUtils.CleanedExact | app/utils.py:27-33 | an input contributes exactly when its digit-and-plus projection fits the pattern, with `+` prepended to unprefixed numbers of 10 or more digits |
| Location.CommaCandidates | app/services/location.py:31-32 | each comma match `A, B` contributes `A B` |
| Location.NormalizeShape | app/services/location.py:40 | a normalised location has only single spaces as whitespace and no space or comma at either end |
| Location.FirstWithKey | app/services/location.py:41-47 | finds the first item with a given case-folded key |
| Location.DedupeKeys | app/services/location.py:41-47 | deduplication loses no case-folded key |
| Location.DedupeDistinct | app/services/location.py:41-47 | no two kept items share a case-folded key |
| Location.DedupeFirstOccurrences | app/services/location.py:41-47 | each kept item is the first input item with its key, and kept items keep input order |
| Location.DedupeMembers | app/services/location.py:41-47 | every kept item is an input item |
| Location.ExtractedLocations | app/services/location.py:8-49 | the result has at most 5 locations, distinct ignoring case, each normalised |
| Location.ExtractLocations | app/services/location.py:8-49 | the stage loops, normalisation, deduplication and cap compute `ExtractedLocations` |
| Location.CollectCandidates | app/services/location.py:16-37 | the four stage loops append the candidates in stage order |
| Location.AppendHinted | app/services/location.py:17-22 | the hinted loop appends each fragment stripped of hint words and with whitespace collapsed, if non-empty |
| Location.AppendQuoted | app/services/location.py:25-28 | the quoted loop appends each quoted group holding an ASCII letter, stripped |
| Location.AppendCommaPairs | app/services/location.py:31-32 | the comma loop appends one `A B` per match |
| Location.DedupeCaseInsensitive | app/services/location.py:41-47 | the `seen_lower` loop keeps exactly the first item of each case-folded key |
| SearchApi.SiteExclusions | app/services/search_engine.py:113 | one `-site:` term per domain, in order |
| SearchApi.Quoted | app/services/search_engine.py:117 | each location in double quotes, in order |
| SearchApi.BuildQuerySuffix | app/services/search_engine.py:103-121 | every built query ends with the site exclusions followed by `-"Top" -"Best" -"List of"` |
| SearchApi.BuildQueryPrefix | app/services/search_engine.py:120 | a query with no surrounding whitespace is kept verbatim at the front |
| SearchApi.BuildQueryExcludesEach | app/services/search_engine.py:107-113 | every aggregator domain appears as `-site:domain` |
| SearchApi.BuildQueryQuotesEach | app/services/search_engine.py:115-120 | every inferred location appears in double quotes, for any query, including one that keeps surrounding whitespace after the planner's quote stripping |
| SearchApi.LongEnough | app/services/search_engine.py:99 | the filter keeps only entries longer than five characters |
| SearchApi.PlannedQueriesShape | app/services/search_engine.py:91-99 | at most 5 queries, each longer than five characters, none with a comma or a newline |
| SearchApi.PlannedQueriesRoundTrip | app/services/search_engine.py:91-99 | parsing 1 to 5 clean queries joined by commas gives them back |
| SearchApi.PromptToQueries | app/services/search_engine.py:91-101 | the line loop, filter and cap compute `PlannedQueries` of the planner's text |
| SearchApi.SafeNum | app/services/search_engine.py:135 | the page size is clamped to 1..10 and kept when already within it |
| SearchApi.NormalizeItems | app/services/search_engine.py:155-163 | one item per raw item, ranked `start_index + i` |
| SearchApi.SearchOutcomeCases | app/services/search_engine.py:144-193 | only a 200 reply succeeds, with consecutive ranks and the raw links; 403 and 429 raise the throttling error, other statuses the service error |
| SearchApi.CallGoogleSearchApi | app/services/search_engine.py:123-193 | sends the built query with the clamped size and maps the reply as `SearchOutcome` says |
| SearchApi.NormalizeResults | app/services/search_engine.py:155-164 | the enumerate loop computes `NormalizeItems` |
| SearchSession.Initial | app/services/search_engine.py:19-29 | a new session has no results, is not exhausted, and has a cursor at 0 for exactly its queries |
| SearchSession.Unseen | app/services/search_engine.py:226-227 | the filtered batch holds only batch items whose link was not held before |
| SearchSession.UnseenDistinct | app/services/search_engine.py:226-227 | filtering a batch with distinct links gives distinct links |
| SearchSession.UnseenKeeps | app/services/search_engine.py:226-227 | filtering keeps every item whose link is new |
| SearchSession.ExhaustedNeedsNothing | app/services/search_engine.py:41-42 | an exhausted session never needs more results |
| SearchSession.Session.AddResults | app/services/search_engine.py:31-35 | extends the buffer, advances the query's cursor by the raw count, counts the call |
| SearchSession.Session.GetResults | app/services/search_engine.py:37-39 | the slice at `offset` holds at most `limit` results, read from the buffer in order |
| Growth.VisitQuery | app/services/search_engine.py:206-230 | one turn of the query loop keeps the set of tracked queries |
| Growth.VisitUnfolds | app/services/search_engine.py:210-221 | below the limit, a turn sends exactly one request, for the next batch of at most `needed` starting after the cursor |
| Growth.Absorb | app/services/search_engine.py:223-230 | absorbing the call's outcome keeps the set of tracked queries |
| Growth.AbsorbExtends | app/services/search_engine.py:223-230 | absorbing an outcome only grows the state |
| Growth.VisitExtends | app/services/search_engine.py:206-230 | a turn only grows the state |
| Growth.PassExtends | app/services/search_engine.py:206-230 | the query loop only grows the state |
| Growth.PassKeepsFlag | app/services/search_engine.py:206-230 | the query loop leaves the exhaustion flag alone |
| Growth.FetchExtends | app/services/search_engine.py:195-233 | old results stay in place, added results have new links, cursors never move back and never move once at the limit, the flag is never cleared |
| Growth.FetchExhaustion | app/services/search_engine.py:199-233 | a satisfied or exhausted session is left alone; a pass that did not fail sets the flag exactly when it added nothing; a failed pass keeps its partial results and leaves the flag unset |
| Growth.AppendDistinct | app/services/search_engine.py:226-229 | appending items with new and distinct links keeps links distinct |
| Growth.NormalizedDistinct | app/services/search_engine.py:155-163 | normalising keeps the raw links, so distinct raw links stay distinct |
| Growth.AbsorbDistinct | app/services/search_engine.py:226-229 | absorbing a page with distinct links keeps the buffer's links distinct |
| Growth.VisitDistinct | app/services/search_engine.py:206-230 | a turn keeps the buffer's links distinct when no page repeats a link |
| Growth.PassDistinct | app/services/search_engine.py:206-230 | the query loop keeps the buffer's links distinct |
| Growth.FetchDistinct | app/services/search_engine.py:195-233 | if no page repeats a link, the session never holds a link twice |
| Growth.RepeatedLinkKept | app/services/search_engine.py:226-229 | a page that lists the same link twice puts both copies in the session |
| Growth.AbsorbBounds | app/services/search_engine.py:223-230 | absorbing a batch of at most `min(10, needed)` keeps cursors within bounds and lowers `needed` by exactly what was added |
| Growth.OutcomeWithinPage | app/services/search_engine.py:135 | a successful call returns no more items than the clamped page size |
| Growth.VisitBelowLimit | app/services/search_engine.py:210-230 | below the cursor limit, with an endpoint that honours the page size, a turn keeps cursors within bounds |
| Growth.VisitBounds | app/services/search_engine.py:206-230 | a turn keeps cursors within bounds, sends a sane request, and adds what it takes off `needed` |
| Growth.PassBounds | app/services/search_engine.py:206-230 | the loop keeps cursors within bounds, sends at most one sane request per remaining query, and adds at most what is needed |
| Growth.FetchBounds | app/services/search_engine.py:195-233 | `fetch_more_results` never grows the buffer past the target, keeps every cursor at most 109, and sends at most one request per query |
| Growth.CursorCanPassLimit | app/services/search_engine.py:211-218 | a cursor at 95 asks for 10 and lands at 105, past the limit of 100 |
| SearchEngine.PaginationMeaning | app/services/search_engine.py:266-278 | a page is the buffer from the offset on, as many as asked or as remain; `has_more` and `next_offset` agree, the next offset is where the page ended, and no more follows only when the session is exhausted and the page reached the end |
| SearchEngine.ContinuationContiguous | app/services/search_engine.py:299-306 | the next page, read where the last ended after the buffer grew, continues it without gap or overlap; with distinct links, the two pages share none |
| SearchEngine.WindowFull | app/services/search_engine.py:266 | a buffer reaching the end of the window fills it |
| SearchEngine.FirstFetch | app/services/search_engine.py:257-258 | the first fetch of a new session keeps every query tracked |
| SearchEngine.OpeningResumes | app/services/search_engine.py:254-264 | a new session's first request is its over-fetch followed by the ordinary top-up |
| SearchEngine.ServeExtends | app/services/search_engine.py:262-264 | a page request only grows the state, and leaves an exhausted session untouched |
| SearchEngine.ServeFillsPage | app/services/search_engine.py:262-266 | after a request that did not fail, the page is full or the session is exhausted |
| SearchEngine.SessionBasesCollide | app/services/search_engine.py:57-59 | two different user and prompt pairs digest the same string on the same day |
| SearchEngine.Engine.FetchMoreResults | app/services/search_engine.py:195-233 | the method leaves the session in the state `Fetch` computes and returns its failure |
| SearchEngine.Engine.FetchFromQuery | app/services/search_engine.py:206-230 | one turn of the loop leaves the session as `VisitQuery` says |
| SearchEngine.Engine.ServePage | app/services/search_engine.py:260-278 | tops up a short session by ten more than required, then returns the page and moves the served offset, or reports the failure |
| SearchEngine.Engine.CreateSession | app/services/search_engine.py:254-257 | plans the queries from the prompt and its extracted locations and stores a fresh session under its id |
| SearchEngine.Engine.FetchFirst | app/services/search_engine.py:258 | the over-fetch of a new session leaves the state `FirstFetch` computes |
| SearchEngine.Engine.ServeOpened | app/services/search_engine.py:260-278 | after the first fetch, reports its failure or serves the page |
| SearchEngine.Engine.FirstRequest | app/services/search_engine.py:258-278 | the first request of a new session answers as `Opening` says |
| SearchEngine.Engine.OpenSession | app/services/search_engine.py:254-278 | creates, stores and serves a new session, as `Opening` says |
| SearchEngine.Engine.SearchWithOffset | app/services/search_engine.py:249-292 | reuses today's session for the user and prompt or creates it, and answers the page at `offset`; every other stored session stays as it was |
| SearchEngine.Engine.GetMoreResults | app/services/search_engine.py:294-330 | an unknown session is an error; otherwise the page after the last one served, topped up first when short; the stored sessions and every other session stay as they were |
| DeficitCollector.FetchSize | app/services/deficit_collector.py:53 | a refill asks for at most twice the chunk size, and at least 10 when the chunk size is 5 or more |
| DeficitCollector.ChunkSize | app/services/deficit_collector.py:62 | a chunk takes between 1 and `max_chunk_size`, the scaled deficit when that fits |
| DeficitCollector.FlattenPrefix | app/services/deficit_collector.py:63-65 | the first chunks flatten to a prefix of all of them |
| DeficitCollector.ChunksAreSlices | app/services/deficit_collector.py:63-65 | the chunks are consecutive slices of the buffer: no position is submitted twice and none is skipped |
| DeficitCollector.TakeChunk | app/services/deficit_collector.py:62-65 | a chunk cut from a non-empty rest of the buffer takes `chunk_size` items or all that is left, at least one, and extends the submitted prefix |
| DeficitCollector.IterationsSnoc | app/services/deficit_collector.py:41-65 | one more iteration, with a positive deficit, a refill exactly when the buffer was used up and below the pull cap, and a chunk as long as its size or the buffer allows, extends the record of iterations |
| DeficitCollector.TakeStepAt | app/services/deficit_collector.py:49-65 | one pass past the stop checks appends the refill to the buffer, cuts the next chunk where the last ended, and extends the record of iterations and the count of calls |
| DeficitCollector.ZeroChunkTakesNothing | app/services/deficit_collector.py:62-63 | with `max_chunk_size` 0 a chunk is empty |
| DeficitCollector.CollectUntilFulfilled | app/services/deficit_collector.py:17-90 | the buffer is the initial results followed by the source's replies, one per call, each asked for that iteration's fetch size and only when the buffer was used up below the pull cap; each chunk is the next slice, as long as its size or the buffer allows, taken while the deficit was positive; no call is made when the job is already complete; the loop stops on a met target, the pull cap, an empty refill or a raised error, each with its condition |
| EmailFormatter.OrElse | app/services/email_reply/email_formatter.py:35-36 | Python `x or y` on an optional string |
| EmailFormatter.FormatEmail | app/services/email_reply/email_formatter.py:27-40 | the sender is the first address or empty, the name is present only for `Name <addr>` senders, content is empty only when text and html are, direction is lower-case |
| EmailFormatter.RecipientsRoundTrip | app/services/email_reply/email_formatter.py:34 | the recipients can be read back by splitting at spaces when no address holds one |
| EmailFormatter.SingleShowsContent | app/services/email_reply/email_formatter.py:200-214 | the rendered email holds the content whole, between the header and the closing rule |
| EmailFormatter.SingleShowsDirection | app/services/email_reply/email_formatter.py:201-206 | the first line reads `INBOUND` exactly for inbound email |
| EmailFormatter.Truncated | app/services/email_reply/email_formatter.py:217-276 | only subject and content change; no room gives the fixed notice and a subject cut to 50 plus `...`; content that fits is kept; otherwise the cut content |
| EmailFormatter.TruncateEmailContentAsWritten | app/services/email_reply/email_formatter.py:217-276 | the code as written cuts with a room of `available - 20`, negative when fewer than 20 tokens are available |
| EmailFormatter.TruncateEmailContent | app/services/email_reply/email_formatter.py:217-276 | with the room clamped at 0, the kept tokens never exceed the available tokens |
| EmailFormatter.CutWithinRoom | app/services/email_reply/email_formatter.py:253-259 | for a room of 0 or more, the cut keeps a head of 3/5 and a tail of 1/5 of it, never more than the room |
| EmailFormatter.CutOverBudget | app/services/email_reply/email_formatter.py:253-257 | with 1 token available and 100 content tokens, the head keeps 89 tokens |
| EmailFormatter.Costs | app/services/email_reply/email_formatter.py:66-67 | the token cost of each rendered email |
| EmailFormatter.Greedy | app/services/email_reply/email_formatter.py:65-74 | the newest-first pass decides once for every older email |
| EmailFormatter.Chosen | app/services/email_reply/email_formatter.py:70-74 | the kept or the summarised emails, in order, are among the emails |
| EmailFormatter.ChosenPartition | app/services/email_reply/email_formatter.py:69-74 | every older email is kept or summarised, never both |
| EmailFormatter.GreedyBudget | app/services/email_reply/email_formatter.py:65-74 | the pass spends exactly the costs it keeps and stays within a budget it started within |
| EmailFormatter.NoEarlyStop | app/services/email_reply/email_formatter.py:69-74 | an email that does not fit is skipped, and an older one that fits is still kept |
| EmailFormatter.Rendered | app/services/email_reply/email_formatter.py:66 | one rendering per email |
| EmailFormatter.SummaryPart | app/services/email_reply/email_formatter.py:76-84 | a summary is asked for only when emails were left out and more than 50 tokens remain after a margin of 100, and is placed only when it is not empty |
| EmailFormatter.Annotated | app/services/email_reply/email_formatter.py:91-98 | the parts joined by newlines, with the note in front exactly when emails are missing and no part holds `SUMMARY:` |
| EmailFormatter.PackedStep | app/services/email_reply/email_formatter.py:66-74 | one turn of the pass inserts a fitting email in front and adds its cost, or sets it aside |
| EmailFormatter.PackOlder | app/services/email_reply/email_formatter.py:58-74 | the loop returns the kept emails in chronological order before the latest, their total, their count and the set-aside emails, as `Greedy` decides |
| EmailFormatter.ChainText | app/services/email_reply/email_formatter.py:91-98 | the join and the note compute `Annotated` |
| EmailFormatter.PrependSummary | app/services/email_reply/email_formatter.py:76-84 | the summary, when there is one, goes first and its tokens are added |
| EmailFormatter.FormatChainForLlm | app/services/email_reply/email_formatter.py:43-100 | an empty chain gives `("", 0)`; a fitting latest email comes last behind the kept older ones and an optional summary; otherwise the latest email alone, cut down by `truncate_email_content` as written |
| EmailFormatter.PackingMeaning | app/services/email_reply/email_formatter.py:57-74 | the latest and the kept emails fit the budget together, every older email is kept or summarised, and between 1 and all emails are shown |
| ResponseParser.FindLabel | app/services/email_reply/response_parser.py:7 | finds the first case-insensitive occurrence of a label at or after a position |
| ResponseParser.ValueEnd | app/services/email_reply/response_parser.py:7 | the lazy group ends at the first end marker after its start |
| ResponseParser.ValueStart | app/services/email_reply/response_parser.py:7 | `\s*` skips exactly the whitespace after the label |
| ResponseParser.StripTwice | app/services/email_reply/response_parser.py:9 | stripping twice is stripping once |
| ResponseParser.LineFieldIsOneLine | app/services/email_reply/response_parser.py:7-9 | the subject and the date hold no newline |
| ResponseParser.ReplyStopsAre | app/services/email_reply/response_parser.py:11-15 | the reply stops at the date label or the reasoning label |
| ResponseParser.StopsAtFirstStop | app/services/email_reply/response_parser.py:11-17 | the reply runs up to the first stop label after its start |
| ResponseParser.StripDropsFinalNewline | app/services/email_reply/response_parser.py:23-27 | a final newline, which `$` may stop before, changes nothing once stripped |
| ResponseParser.ReasoningToEnd | app/services/email_reply/response_parser.py:23-27 | the reasoning runs from its label to the end of the text, across lines |
| ResponseParser.ParseEmailResponse | app/services/email_reply/response_parser.py:4-29 | a field is present only when its label occurs; the reply and the reasoning are present exactly when their label does not end the text |
| ResponseParser.ParsedValuesClean | app/services/email_reply/response_parser.py:4-29 | every value is stripped, and the subject and the date are single lines |
| ResponseParser.FieldStripped | app/services/email_reply/response_parser.py:9 | a found value is stripped |
| ResponseParser.FieldAnywhere | app/services/email_reply/response_parser.py:11-27 | a field that may span lines is found exactly when its first label does not end the text |
| ReplyHtml.EscapeChar | app/helper/reply_html.py:7-8 | each character escapes to itself or to an entity free of markup; only `&` and markup change |
| ReplyHtml.EscapedHasNoMarkup | app/helper/reply_html.py:7-8 | escaped text holds no `<`, `>`, `"` or `'` |
| ReplyHtml.UnescapeEscape | app/helper/reply_html.py:7-8 | escaping loses nothing: decoding the entities gives back the text |
| ReplyHtml.BulletItem | app/helper/reply_html.py:36-37 | the item is the line's suffix after the marker and its whitespace, and does not start with whitespace |
| ReplyHtml.BulletLineShape | app/helper/reply_html.py:36 | a line yields an item exactly when the bullet pattern matches it |
| ReplyHtml.Flush | app/helper/reply_html.py:29-33 | a flush leaves the pending list empty |
| ReplyHtml.BlocksFollowLines | app/helper/reply_html.py:35-45 | paragraphs come from the paragraph lines in order, items from the bullet lines in order, each run of bullets makes one list, each blank line one break |
| ReplyHtml.BulletsShareOneList | app/helper/reply_html.py:35-45 | a bullet line after a bullet line opens no new list |
| ReplyHtml.Render | app/helper/reply_html.py:32-43 | only a break renders to the empty string |
| ReplyHtml.RenderAll | app/helper/reply_html.py:32-43 | one string per block, each its rendering |
| ReplyHtml.Content | app/helper/reply_html.py:46-55 | the blocks left after collapsing hold no break |
| ReplyHtml.CollapseDropsBreaks | app/helper/reply_html.py:46-55 | dropping the empty strings is rendering the blocks without their breaks |
| ReplyHtml.BlankReplyIsEmptyPage | app/helper/reply_html.py:23-79 | a missing or blank reply gives the page with nothing in it |
| ReplyHtml.EscapeKeepsSpace | app/helper/reply_html.py:24 | escaping leaves whitespace alone |
| ReplyHtml.FlushList | app/helper/reply_html.py:29-33 | the flush on the loop's lists matches `Flush` on the blocks |
| ReplyHtml.ScanLines | app/helper/reply_html.py:35-45 | the line loop and final flush produce the rendered `Blocks` of the lines |
| ReplyHtml.DropEmpty | app/helper/reply_html.py:47-55 | the `prev_empty` loop keeps exactly the non-empty blocks, in order |
| ReplyHtml.BlankHasNoLines | app/helper/reply_html.py:23-27 | a missing or all-whitespace reply leaves no lines to render |
| ReplyHtml.NoLinesIsEmptyPage | app/helper/reply_html.py:45-79 | with no lines, the page is the template around empty content |
| ReplyHtml.TextToHtmlReply | app/helper/reply_html.py:15-79 | the page around the rendered non-break blocks of the escaped, stripped lines |
| BrandWrapper.BestText | app/helper/reply_brand_wrapper.py:4-6 | dark text exactly on a white background in any letter case, white text otherwise |
| BrandWrapper.BestTextIgnoresCase | app/helper/reply_brand_wrapper.py:6 | the contrast choice ignores the letter case of the background |
| BrandWrapper.Colors | app/helper/reply_brand_wrapper.py:9-13 | primary, accent and background come from the brand list in that order, with defaults `#111111`, the primary and `#FFFFFF` |
| BrandWrapper.PaletteContrast | app/helper/reply_brand_wrapper.py:9-13 | the text colour contrasts with the background, the muted colour follows it, and without a third brand colour the page is dark on white |
| BrandWrapper.PaletteFromBrandOrDefaults | app/helper/reply_brand_wrapper.py:9-11 | every colour is a brand colour or a fixed default |
| BrandWrapper.LogoOnlyWhenGiven | app/helper/reply_brand_wrapper.py:29 | the logo appears exactly for a non-empty URL, escaped so that it cannot close `src`, and decodes back to the URL |
| BrandWrapper.FooterOnlyWhenShown | app/helper/reply_brand_wrapper.py:37 | the footer row appears exactly when asked for, in the muted colour |
| BrandWrapper.TailHoldsFooter | app/helper/reply_brand_wrapper.py:34-42 | the footer row sits right after the body cell's closing tags |
| Readiness.Index | app/services/readiness.py:8-11 | each aspect has its place in `ASPECTS` |
| Readiness.IndexOfAt | app/services/readiness.py:8-11 | each aspect is listed once |
| Readiness.Bucket | app/services/readiness.py:137-146 | an aspect's texts are exactly the texts filed under it: those hitting one of its patterns, or every text hitting none for ABOUT |
| Readiness.EveryTextLands | app/services/readiness.py:138-146 | every text is filed under at least one aspect |
| Readiness.SizeScore | app/services/readiness.py:161 | the size score is 1 from 32 words, 2 from 317, 3 from 3163, 4 from 31623, 5 from 316228 |
| Readiness.SizeScoreMonotone | app/services/readiness.py:161 | more words never lower the size score |
| Readiness.StructureScore | app/services/readiness.py:162 | at most 5; 0 exactly when no signal is present; 5 exactly when all are |
| Readiness.SpecificityScore | app/services/readiness.py:163 | at most 5; 0 exactly when no signal passes its threshold; at least 2 past 800 words |
| Readiness.Detail | app/services/readiness.py:164 | the detail is the nearest whole number to a third of the total, capped at 5 |
| Readiness.AspectDetail | app/services/readiness.py:161-164 | a present aspect's detail is at most 5 |
| Readiness.ScoreOf | app/services/readiness.py:148-177 | an aspect is missing exactly when no text was filed; otherwise it is scored from its joined texts |
| Readiness.PresentIffFiled | app/services/readiness.py:148-152 | an aspect is present exactly when some text was filed under it |
| Readiness.AspectScores | app/services/readiness.py:136-178 | every aspect gets the entry `ScoreOf` gives its filed texts |
| Readiness.ScoreAll | app/services/readiness.py:148-177 | the scoring loop gives one entry per aspect |
| Readiness.ScoreAspect | app/services/readiness.py:150-177 | the loop body scores one aspect |
| Readiness.FileTexts | app/services/readiness.py:137-146 | the filing loop leaves each aspect's list as `Bucket` says |
| Readiness.FiledIsInAspect | app/services/readiness.py:141-146 | a text goes to the aspects it hits, or to ABOUT when it hits none |
| Readiness.FileText | app/services/readiness.py:139-146 | one pass files the text under every aspect it hits, or under ABOUT |
| Readiness.FileUnderHits | app/services/readiness.py:141-144 | the pattern loop appends the text where it hits and reports whether it hit anywhere |
| Readiness.ShoutedNeverMatches | app/services/readiness.py:139-142 | a pattern written with capitals never matches a lower-cased text |
| Readiness.CapitalPatternsAreDead | app/services/readiness.py:15-24 | the capitalised keyword patterns never match, since texts are lower-cased first |
| Readiness.Sanitised | app/services/readiness.py:123-131 | the sanitised texts are non-empty and stripped |
| Readiness.SanitisedKeeps | app/services/readiness.py:123-131 | every text that is not blank survives, stripped |
| Readiness.SanitiseIdempotent | app/services/readiness.py:123-131 | a second pass changes nothing |
| Readiness.Sanitise | app/services/readiness.py:124-131 | the loop computes `Sanitised` |
| Text.StripKeepsInner | app/services/search_engine.py:120 | the final `.strip()` keeps every occurrence of a piece that neither starts nor ends with whitespace |
| Text.Strip | app/helper/reply_html.py:24 | `str.strip()` leaves no whitespace at either end and is no longer than its input |
| Text.StripEmptyIffBlank | app/helper/reply_html.py:38 | a string strips to empty exactly when it is all whitespace |
| Text.LowerHasNoUpper | app/services/readiness.py:139 | lower-cased text holds no capital letter |
| Text.Upper | app/helper/reply_brand_wrapper.py:6 | `str.upper()` maps each character on its own and keeps the length |
| Text.Lower | app/services/location.py:44 | `str.lower()` maps each character on its own |
| Text.CollapseSpace | app/services/location.py:40 | the collapsed text is no longer, keeps a leading space exactly when the text began with whitespace, and holds only single spaces as whitespace |
| Text.Split | app/services/search_engine.py:95 | `split` gives at least one part, none holding the separator |
| Text.SplitJoin | app/services/search_engine.py:92-95 | splitting a join undoes it when no part holds the separator |
| Text.SplitLines | app/helper/reply_html.py:27 | `splitlines` gives no line for empty text, and no line holds a boundary |
| Slices.SliceBound | app/services/search_engine.py:39 | Python's resolution of a slice bound, negative bounds included |
| Slices.ForwardSlice | app/services/search_engine.py:39 | a slice with `0 <= a <= b` is the run of `s` from `a`, as long as `b - a` or as what remains after `a` |
| Slices.TailSlice | app/services/email_reply/email_formatter.py:259 | `s[-k:]` is the last `k` elements, or all of `s` |

## Left out

- Logging, timestamps (`created_at`, `last_accessed`) and the HTTP session setup are not modelled.
- Network calls, the database, the language models and the tokenizer are parameters.
- `extract_clean_text` (`app/utils.py`) depends on an HTML parser and is not modelled.
- `get_email_chain`, `collect_texts` and `hygiene_signals` are database queries and are not modelled. The final sanitising pass of `collect_texts` is modelled.
- `create_email_summary` and `generate_llm_summary` call a language model. Together they are the `summarize` parameter.
- `combine` and `compute_and_store` are not modelled: floating-point weights and a database write.
- Readiness regexes: which patterns match a text, and the six signal counts, are parameters. The model fixes that every text is lower-cased before the search.
- Readiness.CapitalPatternsAreDead: holds only for a search that matches through one of the literal words of the pattern; regular-expression matching itself is not modelled.
- Readiness.SizeScore: `log10` is replaced by the exact integer thresholds it crosses; the floating-point rounding of `log10` near those thresholds is not modelled.
- Readiness.Detail: `round(total / 3)` is `(total + 1) / 3`, which is exact because a whole number over 3 never ends in one half.
- Location regexes: the stages' matches are parameters. The model covers what the code does with them.
- ContactUtils.DigitsAndPlus: ASCII digits only. Python's `\d` also matches the other Unicode decimal digits, so a number written in, say, Devanagari digits is kept by the source and dropped by the model.
- ContactUtils.CleanPhoneNumbers: inherits the ASCII-only digit class of `DigitsAndPlus`.
- Text.Lower, Text.Upper: ASCII letters only; other characters are unchanged, with no Unicode case folding.
- ReplyHtml.TextToHtmlReply: the autolinker is a parameter; its two regex substitutions are not modelled.
- `text_to_html_reply`'s `link_color` only reaches the autolinker, so it is part of that parameter.
- DeficitCollector.CollectUntilFulfilled: requires `max_chunk_size >= 1`. With 0 the source loops forever on a non-empty buffer, as `ZeroChunkTakesNothing` shows.
- DeficitCollector.CollectUntilFulfilled: the overfetch factor is a whole number, not a float.
- DeficitCollector.CollectUntilFulfilled: the extractor call is not modelled; its effect reaches the loop only through the count read at the top of the next iteration, which is the `counts` parameter. An exception raised by the extractor, or by a count read, ends the source's loop, and the model has no stop for it.
- DeficitCollector.CollectUntilFulfilled: the count reads before and after each extraction are not modelled; they only feed the log.
- EmailFormatter.CutWithinRoom: the 0.6 and 0.2 factors are exact fractions 3/5 and 1/5, truncated toward zero like `int()`.
- `MAX_EMAIL_CHAIN_TOKENS` is not modelled; `max_tokens` is always a parameter.
- BrandWrapper.WrapReplyBody: positions within the whole branded page are not stated. The colour choice, the logo, the footer row and the footer's place after the body cell each have a lemma.
- SearchEngine.Engine.SearchWithOffset: the session id is the digest of the user, prompt and date string; the MD5 digest itself is a parameter. `SessionBasesCollide` shows the underscores make the string ambiguous.
- SearchSession.Session.GetResults: the source does not validate negative offsets or sizes; the model keeps Python's slicing for them.
- Growth.FetchBounds: bounds hold only for an endpoint that returns no more items than asked for. A cursor below 100 can pass 100 by up to 9 (`CursorCanPassLimit`).

## Findings

| source | as written | input that shows it | evidently intended | confidence | as-written member | corrected member |
|---|---|---|---|---|---|---|
| app/services/email_reply/email_formatter.py:253-257 | with 1 to 18 tokens available, `available_tokens - 20` is -2 or less, `int()` rounds the head size toward zero to a negative number, and `encoded[:start]` keeps all but a few tokens | 100 content tokens and 1 token available: the head keeps 89 tokens | the truncated content stays within the available tokens | not executed | EmailFormatter.CutOverBudget | EmailFormatter.TruncateEmailContent |
