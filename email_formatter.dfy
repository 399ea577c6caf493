/**
 * The email-chain formatter of the reply generator: database rows become
 * email records, records become prompt text, and a chain is packed into a
 * token budget newest-first, with older emails that do not fit handed to a
 * summariser and an over-long latest email cut to a head and a tail.
 *
 * The tokenizer is a pair of uninterpreted functions (`count_tokens` is the
 * length of `encode`), and the summariser is an oracle from the emails left
 * out and the tokens left for a summary to its text.
 */
module EmailFormatter {
  import opened Wrappers
  import opened Slices
  import opened Text

  /** The columns of an email row that `format_email` reads; timestamps are their ISO strings. */
  datatype EmailRow = EmailRow(
    id: string, senders: seq<string>, to: seq<string>, cc: seq<string>, bcc: seq<string>,
    subject: Option<string>, text: Option<string>, html: Option<string>,
    sentAt: Option<string>, receivedAt: Option<string>, createdAt: string,
    direction: string, providerMessageId: Option<string>)

  /** The dictionary `format_email` builds. */
  datatype Email = Email(
    id: string, sender: string, senderName: string, recipients: string, subject: string,
    content: string, timestamp: string, direction: string, providerMessageId: Option<string>)

  datatype Tokenizer = Tokenizer(encode: string -> seq<int>, decode: seq<int> -> string)

  /** `count_tokens`: the length of the encoding. */
  function CountTokens(tok: Tokenizer, s: string): nat {
    |tok.encode(s)|
  }

  /** Python's `x or y` on an optional string: `None` and `""` both fall through. */
  function OrElse(x: Option<string>, y: string): (r: string)
    ensures r == y || (x.Some? && r == x.value && r != "")
  {
    if x.Some? && x.value != "" then x.value else y
  }

  /** The display name before `<` in a `Name <address>` sender, or `""` when there is no `<`. */
  function SenderName(senders: seq<string>): string {
    if senders != [] && '<' in senders[0] then Strip(Split(senders[0], '<')[0]) else ""
  }

  /** `format_email`. */
  function FormatEmail(row: EmailRow): (e: Email)
    ensures e.sender == if row.senders == [] then "" else row.senders[0]
    ensures e.senderName != "" ==> row.senders != [] && '<' in e.sender && '<' !in e.senderName
    ensures e.content == "" <==> OrElse(row.text, "") == "" && OrElse(row.html, "") == ""
    ensures forall c :: c in e.direction ==> !IsUpper(c)
  {
    LowerHasNoUpper(row.direction);
    if row.senders != [] && '<' in row.senders[0] then
      TrimAvoids(Split(row.senders[0], '<')[0], IsSpace, '<');
      EmailOf(row)
    else EmailOf(row)
  }

  function EmailOf(row: EmailRow): Email {
    Email(
      row.id,
      if row.senders == [] then "" else row.senders[0],
      SenderName(row.senders),
      Join(row.to + row.cc + row.bcc, " "),
      OrElse(row.subject, ""),
      OrElse(row.text, OrElse(row.html, "")),
      if row.sentAt.Some? then row.sentAt.value else if row.receivedAt.Some? then row.receivedAt.value else row.createdAt,
      Lower(row.direction),
      row.providerMessageId)
  }

  /** The recipient list can be read back from `recipients` when no address holds a space. */
  lemma RecipientsRoundTrip(row: EmailRow)
    requires row.to + row.cc + row.bcc != []
    requires forall a :: a in row.to + row.cc + row.bcc ==> ' ' !in a
    ensures Split(FormatEmail(row).recipients, ' ') == row.to + row.cc + row.bcc
  {
    var all := row.to + row.cc + row.bcc;
    forall i | 0 <= i < |all| ensures ' ' !in all[i] {
      assert all[i] in all;
    }
    SplitJoin(all, ' ');
  }

  function DirectionLabel(e: Email): string {
    if e.direction == "inbound" then "INBOUND" else "OUTBOUND"
  }

  function SingleHead(e: Email): string {
    "\n    " + DirectionLabel(e) + HeadFields(e)
  }

  function HeadFields(e: Email): string {
    "\n    FROM: " + e.senderName + " <" + e.sender + ">\n    TO: " + e.recipients
    + "\n    DATE: " + e.timestamp + "\n    SUBJECT: " + e.subject + "\n\n    "
  }

  const SingleTail: string := "\n    ---\n    "

  /** `format_single_email`: the header block, the content, the closing rule. */
  function FormatSingleEmail(e: Email): string {
    SingleHead(e) + e.content + SingleTail
  }

  /** The rendered email shows the content whole, right after the header. */
  lemma SingleShowsContent(e: Email)
    ensures OccursAt(FormatSingleEmail(e), e.content, |SingleHead(e)|)
    ensures FormatSingleEmail(e)[|SingleHead(e)|..|FormatSingleEmail(e)| - |SingleTail|] == e.content
  {
    var s := FormatSingleEmail(e);
    assert s[|SingleHead(e)|..|SingleHead(e)| + |e.content|] == e.content;
  }

  /** The first line reads `INBOUND` exactly for inbound email. */
  lemma SingleShowsDirection(e: Email)
    ensures OccursAt(FormatSingleEmail(e), "INBOUND\n", 5) <==> e.direction == "inbound"
  {
    var s := FormatSingleEmail(e);
    var lead := "\n    " + DirectionLabel(e);
    var after := HeadFields(e) + e.content + SingleTail;
    assert s == lead + after;
    assert after[0] == '\n';
    if e.direction == "inbound" {
      assert s[5..13] == "INBOUND\n";
    } else {
      assert s[5] == 'O';
    }
  }

  /** The metadata block `truncate_email_content` measures; its label carries a trailing space. */
  function Metadata(e: Email): string {
    "\n    " + (if e.direction == "inbound" then "INBOUND " else "OUTBOUND ") + "\n    FROM: " + e.senderName + " <"
    + e.sender + ">\n    TO: " + e.recipients + "\n    DATE: " + e.timestamp + "\n    SUBJECT: " + e.subject
    + "\n\n    ---\n    "
  }

  /** `int(x * k)` for the scales 0.6 = 3/5 and 0.2 = 1/5: the quotient rounded toward zero. */
  function Scaled(x: int, num: nat): int {
    if x >= 0 then x * num / 5 else -((-x) * num / 5)
  }

  /** The tokens a cut keeps: a head and a tail of the encoding. */
  datatype Cut = Cut(head: seq<int>, tail: seq<int>)

  /** Lines 254-259 for a given room: a head of 3/5 of it and, when positive, a tail of 1/5 of it. */
  function CutFor(encoded: seq<int>, room: int): Cut {
    var startTokens := Scaled(room, 3);
    var endTokens := Scaled(room, 1);
    Cut(PySlice(encoded, 0, startTokens), if endTokens > 0 then PySlice(encoded, -endTokens, |encoded|) else [])
  }

  /** The content a cut leaves, with its marker line. */
  function CutContent(cut: Cut, tok: Tokenizer): string {
    var startContent := tok.decode(cut.head);
    var endContent := if cut.tail != [] then tok.decode(cut.tail) else "";
    if endContent != "" then startContent + "\n\n[... Content truncated ...]\n\n" + endContent
    else startContent + "\n\n[... Content truncated for length ...]"
  }

  /** The tokens left for content once the metadata and a margin of 50 are paid for. */
  function Available(e: Email, maxTokens: int, tok: Tokenizer): int {
    maxTokens - CountTokens(tok, Metadata(e)) - 50
  }

  /**
   * `truncate_email_content`, on a copy of the email.  `clampRoom` chooses
   * between the room of the code as written, `available - 20`, and the same
   * room clamped at 0.
   */
  function Truncated(e: Email, maxTokens: int, tok: Tokenizer, clampRoom: bool): (r: Email)
    ensures r.(subject := e.subject, content := e.content) == e
    ensures Available(e, maxTokens, tok) <= 0 ==>
              r.content == "[Content truncated due to length]" &&
              r.subject == (if |e.subject| > 50 then e.subject[..50] + "..." else e.subject)
    ensures Available(e, maxTokens, tok) > 0 ==> r.subject == e.subject
    ensures Available(e, maxTokens, tok) > 0 && CountTokens(tok, e.content) <= Available(e, maxTokens, tok) ==> r == e
    ensures Available(e, maxTokens, tok) > 0 && CountTokens(tok, e.content) > Available(e, maxTokens, tok) ==>
              var room := Available(e, maxTokens, tok) - 20;
              r.content == CutContent(CutFor(tok.encode(e.content), if clampRoom then Max(0, room) else room), tok)
  {
    var available := Available(e, maxTokens, tok);
    if available <= 0 then
      e.(subject := if |e.subject| > 50 then e.subject[..50] + "..." else e.subject,
         content := "[Content truncated due to length]")
    else if CountTokens(tok, e.content) <= available then e
    else
      var encoded := tok.encode(e.content);
      var room := if clampRoom then Max(0, available - 20) else available - 20;
      if |encoded| > available - 20 then e.(content := CutContent(CutFor(encoded, room), tok))
      else e.(content := tok.decode(PySlice(encoded, 0, available - 20)) + "\n\n[... Content truncated for length ...]")
  }

  /** `truncate_email_content` as written. */
  function TruncateEmailContentAsWritten(e: Email, maxTokens: int, tok: Tokenizer): (r: Email)
    ensures Available(e, maxTokens, tok) > 0 && CountTokens(tok, e.content) > Available(e, maxTokens, tok) ==>
              r.content == CutContent(CutFor(tok.encode(e.content), Available(e, maxTokens, tok) - 20), tok)
  {
    Truncated(e, maxTokens, tok, false)
  }

  /**
   * `truncate_email_content` with its room clamped at 0: the corrected cut,
   * which never keeps more tokens than are available.
   */
  function TruncateEmailContent(e: Email, maxTokens: int, tok: Tokenizer): (r: Email)
    ensures Available(e, maxTokens, tok) > 0 && CountTokens(tok, e.content) > Available(e, maxTokens, tok) ==>
              var cut := CutFor(tok.encode(e.content), Max(0, Available(e, maxTokens, tok) - 20));
              r.content == CutContent(cut, tok) &&
              |cut.head| + |cut.tail| <= Available(e, maxTokens, tok)
  {
    var available := Available(e, maxTokens, tok);
    if available > 0 then
      CutWithinRoom(tok.encode(e.content), Max(0, available - 20));
      Truncated(e, maxTokens, tok, true)
    else Truncated(e, maxTokens, tok, true)
  }

  /**
   * For a room that is not negative, the cut keeps a prefix of 3/5 of the
   * room and a suffix of 1/5 of it (both clipped to the encoding), so it never
   * keeps more tokens than the room.
   */
  lemma CutWithinRoom(encoded: seq<int>, room: int)
    requires room >= 0
    ensures var cut := CutFor(encoded, room);
            && cut.head == encoded[..Min(room * 3 / 5, |encoded|)]
            && cut.tail == encoded[|encoded| - Min(room / 5, |encoded|)..]
            && |cut.head| + |cut.tail| <= room
  {
    var cut := CutFor(encoded, room);
    ForwardSlice(encoded, 0, room * 3 / 5);
    assert cut.head == encoded[..Min(room * 3 / 5, |encoded|)];
    if room / 5 > 0 {
      TailSlice(encoded, room / 5);
    }
  }

  /**
   * With 1 to 18 tokens available the room is -2 or less, `int()` rounds the
   * head size toward zero to a negative number, and `encoded[:start]` then
   * keeps all but a few tokens: for 100 content tokens and 1 available, 89
   * tokens are kept.
   */
  lemma CutOverBudget(encoded: seq<int>)
    requires |encoded| == 100
    ensures |CutFor(encoded, 1 - 20).head| == 89
    ensures CutFor(encoded, 1 - 20).tail == []
  {
    assert Scaled(-19, 3) == -11;
  }

  /** The token costs of the rendered emails. */
  function Costs(emails: seq<Email>, tok: Tokenizer): (c: seq<nat>)
    ensures |c| == |emails|
    ensures forall i :: 0 <= i < |emails| ==> c[i] == CountTokens(tok, FormatSingleEmail(emails[i]))
  {
    seq(|emails|, i requires 0 <= i < |emails| => CountTokens(tok, FormatSingleEmail(emails[i])))
  }

  /** The running total and, per email from `k` on, whether the newest-first pass kept it. */
  datatype Packing = Packing(total: int, keep: seq<bool>)

  /**
   * The pass over the older emails, newest first: the email at `k` is kept
   * when it fits in what the later ones left of the budget.
   */
  function Greedy(costs: seq<nat>, k: nat, total: int, maxTokens: int): (p: Packing)
    requires k <= |costs|
    ensures |p.keep| == |costs| - k
    decreases |costs| - k
  {
    if k == |costs| then Packing(total, [])
    else
      var later := Greedy(costs, k + 1, total, maxTokens);
      if later.total + costs[k] <= maxTokens then Packing(later.total + costs[k], [true] + later.keep)
      else Packing(later.total, [false] + later.keep)
  }

  /** The items whose flag is `want`, in order. */
  function Chosen<T>(items: seq<T>, flags: seq<bool>, want: bool): (r: seq<T>)
    requires |items| == |flags|
    ensures |r| <= |items|
    ensures forall x :: x in r ==> x in items
  {
    if items == [] then []
    else (if flags[0] == want then [items[0]] else []) + Chosen(items[1..], flags[1..], want)
  }

  /** Every item is chosen one way or the other. */
  lemma {:induction false} ChosenPartition<T>(items: seq<T>, flags: seq<bool>)
    requires |items| == |flags|
    ensures |Chosen(items, flags, true)| + |Chosen(items, flags, false)| == |items|
  {
    if items != [] {
      ChosenPartition(items[1..], flags[1..]);
    }
  }

  /** The costs of the kept emails, added up. */
  function KeptSum(costs: seq<nat>, keep: seq<bool>): int
    requires |costs| == |keep|
  {
    if costs == [] then 0 else (if keep[0] then costs[0] else 0) + KeptSum(costs[1..], keep[1..])
  }

  /** The pass spends exactly the costs it keeps, and never goes over a budget it started within. */
  lemma {:induction false} GreedyBudget(costs: seq<nat>, k: nat, total: int, maxTokens: int)
    requires k <= |costs|
    ensures var p := Greedy(costs, k, total, maxTokens);
            p.total == total + KeptSum(costs[k..], p.keep) &&
            (total <= maxTokens ==> p.total <= maxTokens)
    decreases |costs| - k
  {
    if k < |costs| {
      GreedyBudget(costs, k + 1, total, maxTokens);
      assert costs[k..][1..] == costs[k + 1..];
    }
  }

  /**
   * The pass does not stop at the first email that does not fit: with 1 of
   * 5 tokens spent, a newer email of 9 is skipped and an older one of 2 is
   * still kept.
   */
  lemma NoEarlyStop()
    ensures Greedy([2, 9], 0, 1, 5) == Packing(3, [true, false])
  {
    assert Greedy([2, 9], 2, 1, 5) == Packing(1, []);
    assert Greedy([2, 9], 1, 1, 5) == Packing(1, [false]);
  }

  /** The rendered emails, in order. */
  function Rendered(emails: seq<Email>): (r: seq<string>)
    ensures |r| == |emails|
  {
    if emails == [] then [] else [FormatSingleEmail(emails[0])] + Rendered(emails[1..])
  }

  /** The summary line, when one is asked for (emails left out, more than 50 tokens to spare) and comes back non-empty. */
  function SummaryPart(dropped: seq<Email>, total: int, maxTokens: int, summarize: (seq<Email>, int) -> string): (r: seq<string>)
    ensures |r| <= 1
    ensures r != [] ==> dropped != [] && maxTokens - total - 100 > 50 && r == [summarize(dropped, maxTokens - total - 100)]
    ensures dropped != [] && maxTokens - total - 100 > 50 && summarize(dropped, maxTokens - total - 100) != "" ==> r != []
  {
    if dropped != [] && maxTokens - total - 100 > 50 && summarize(dropped, maxTokens - total - 100) != "" then
      [summarize(dropped, maxTokens - total - 100)]
    else []
  }

  predicate MentionsSummary(parts: seq<string>) {
    exists i :: 0 <= i < |parts| && Contains(parts[i], "SUMMARY:")
  }

  function Note(included: int, total: int): string {
    "\n[NOTE: Showing " + IntToString(included) + " most recent emails out of " + IntToString(total)
    + " total emails in this conversation]\n"
  }

  /** The joined parts, behind the note when emails are missing and no summary stands in for them. */
  function Annotated(parts: seq<string>, included: int, total: int): (r: string)
    ensures !(included < total && !MentionsSummary(parts)) ==> r == Join(parts, "\n")
    ensures included < total && !MentionsSummary(parts) ==>
              |Note(included, total)| <= |r| && r[..|Note(included, total)|] == Note(included, total) &&
              r[|Note(included, total)|..] == Join(parts, "\n")
  {
    if included < total && !MentionsSummary(parts) then Note(included, total) + Join(parts, "\n")
    else Join(parts, "\n")
  }

  /** One step of the newest-first pass, seen on the kept and dropped lists. */
  lemma ChosenStep<T>(items: seq<T>, flags: seq<bool>, k: nat, b: bool, rest: seq<bool>)
    requires k < |items| && |items| - k == |rest| + 1 && flags == [b] + rest
    ensures Chosen(items[k..], flags, true) == (if b then [items[k]] else []) + Chosen(items[k + 1..], rest, true)
    ensures Chosen(items[k..], flags, false) == (if b then [] else [items[k]]) + Chosen(items[k + 1..], rest, false)
  {
    assert items[k..][1..] == items[k + 1..];
    assert flags[1..] == rest;
  }

  lemma RenderedCons(e: Email, emails: seq<Email>)
    ensures Rendered([e] + emails) == [FormatSingleEmail(e)] + Rendered(emails)
  {
    assert ([e] + emails)[1..] == emails;
  }

  /** One step of the newest-first pass, on the total and on the kept and dropped lists. */
  lemma PackStep(remaining: seq<Email>, costs: seq<nat>, k: nat, latestTokens: int, maxTokens: int, tok: Tokenizer)
    requires costs == Costs(remaining, tok) && k < |remaining|
    ensures var later := Greedy(costs, k + 1, latestTokens, maxTokens);
            var now := Greedy(costs, k, latestTokens, maxTokens);
            var f := FormatSingleEmail(remaining[k]);
            var fits := later.total + CountTokens(tok, f) <= maxTokens;
            && now.total == (if fits then later.total + CountTokens(tok, f) else later.total)
            && Rendered(Chosen(remaining[k..], now.keep, true)) ==
                 (if fits then [f] else []) + Rendered(Chosen(remaining[k + 1..], later.keep, true))
            && Chosen(remaining[k..], now.keep, false) ==
                 (if fits then [] else [remaining[k]]) + Chosen(remaining[k + 1..], later.keep, false)
            && |Chosen(remaining[k..], now.keep, true)| ==
                 (if fits then 1 else 0) + |Chosen(remaining[k + 1..], later.keep, true)|
  {
    var later := Greedy(costs, k + 1, latestTokens, maxTokens);
    var f := FormatSingleEmail(remaining[k]);
    var fits := later.total + CountTokens(tok, f) <= maxTokens;
    ChosenStep(remaining, Greedy(costs, k, latestTokens, maxTokens).keep, k, fits, later.keep);
    if fits {
      RenderedCons(remaining[k], Chosen(remaining[k + 1..], later.keep, true));
    } else {
      assert Chosen(remaining[k..], Greedy(costs, k, latestTokens, maxTokens).keep, true) ==
             Chosen(remaining[k + 1..], later.keep, true);
    }
  }

  /** The pass's variables once the emails from `k` on have been considered. */
  ghost predicate Packed(remaining: seq<Email>, k: nat, latestFormatted: string, latestTokens: int, maxTokens: int,
                         tok: Tokenizer, formattedChain: seq<string>, totalTokens: int, included: nat,
                         emailsToSummarize: seq<Email>)
    requires k <= |remaining|
  {
    var p := Greedy(Costs(remaining, tok), k, latestTokens, maxTokens);
    && totalTokens == p.total
    && formattedChain == Rendered(Chosen(remaining[k..], p.keep, true)) + [latestFormatted]
    && emailsToSummarize == Chosen(remaining[k..], p.keep, false)
    && included == 1 + |Chosen(remaining[k..], p.keep, true)|
  }

  /** Considering the email at `k` keeps it when it fits and sets it aside otherwise. */
  lemma PackedStep(remaining: seq<Email>, k: nat, latestFormatted: string, latestTokens: int, maxTokens: int,
                   tok: Tokenizer, formattedChain: seq<string>, totalTokens: int, included: nat,
                   emailsToSummarize: seq<Email>, f: string, t: int)
    requires k < |remaining|
    requires Packed(remaining, k + 1, latestFormatted, latestTokens, maxTokens, tok,
                    formattedChain, totalTokens, included, emailsToSummarize)
    requires f == FormatSingleEmail(remaining[k]) && t == CountTokens(tok, f)
    ensures totalTokens + t <= maxTokens ==>
              Packed(remaining, k, latestFormatted, latestTokens, maxTokens, tok,
                     [f] + formattedChain, totalTokens + t, included + 1, emailsToSummarize)
    ensures totalTokens + t > maxTokens ==>
              Packed(remaining, k, latestFormatted, latestTokens, maxTokens, tok,
                     formattedChain, totalTokens, included, [remaining[k]] + emailsToSummarize)
  {
    PackStep(remaining, Costs(remaining, tok), k, latestTokens, maxTokens, tok);
  }

  /**
   * The newest-first pass of `format_chain_for_llm` over the emails before
   * the latest, starting from the latest email's rendering and cost.
   */
  method PackOlder(remaining: seq<Email>, latestFormatted: string, latestTokens: int, maxTokens: int, tok: Tokenizer)
    returns (formattedChain: seq<string>, totalTokens: int, included: nat, emailsToSummarize: seq<Email>)
    ensures var p := Greedy(Costs(remaining, tok), 0, latestTokens, maxTokens);
            && totalTokens == p.total
            && formattedChain == Rendered(Chosen(remaining, p.keep, true)) + [latestFormatted]
            && emailsToSummarize == Chosen(remaining, p.keep, false)
            && included == 1 + |Chosen(remaining, p.keep, true)|
  {
    formattedChain := [latestFormatted];
    totalTokens := latestTokens;
    included := 1;
    emailsToSummarize := [];
    var k := |remaining|;
    while k > 0
      invariant 0 <= k <= |remaining|
      invariant Packed(remaining, k, latestFormatted, latestTokens, maxTokens, tok,
                       formattedChain, totalTokens, included, emailsToSummarize)
    {
      k := k - 1;
      var email := remaining[k];
      var emailFormatted := FormatSingleEmail(email);
      var emailTokens := CountTokens(tok, emailFormatted);
      PackedStep(remaining, k, latestFormatted, latestTokens, maxTokens, tok,
                 formattedChain, totalTokens, included, emailsToSummarize, emailFormatted, emailTokens);
      if totalTokens + emailTokens <= maxTokens {
        formattedChain := [emailFormatted] + formattedChain;
        totalTokens := totalTokens + emailTokens;
        included := included + 1;
      } else {
        emailsToSummarize := [email] + emailsToSummarize;
      }
    }
    assert remaining[0..] == remaining;
  }

  /** The last step of `format_chain_for_llm`: join the parts and put the note in front when it is due. */
  method ChainText(formattedChain: seq<string>, included: int, totalEmails: int) returns (text: string)
    ensures text == Annotated(formattedChain, included, totalEmails)
  {
    text := Join(formattedChain, "\n");
    if included < totalEmails && !MentionsSummary(formattedChain) {
      text := Note(included, totalEmails) + text;
    }
  }

  /** The summary step of `format_chain_for_llm`: ask for a summary of what was left out when there is room, and put it first. */
  method PrependSummary(formattedChain: seq<string>, totalTokens: int, emailsToSummarize: seq<Email>, maxTokens: int,
                        tok: Tokenizer, summarize: (seq<Email>, int) -> string)
    returns (parts: seq<string>, total: int)
    ensures parts == SummaryPart(emailsToSummarize, totalTokens, maxTokens, summarize) + formattedChain
    ensures total == totalTokens + (if parts == formattedChain then 0 else CountTokens(tok, parts[0]))
  {
    parts, total := formattedChain, totalTokens;
    if emailsToSummarize != [] {
      var summaryTokensAvailable := maxTokens - totalTokens - 100;
      if summaryTokensAvailable > 50 {
        var summary := summarize(emailsToSummarize, summaryTokensAvailable);
        if summary != "" {
          parts := [summary] + parts;
          total := total + CountTokens(tok, summary);
        }
      }
    }
  }

  /**
   * `format_chain_for_llm`.  An empty chain gives `("", 0)`.  When the latest
   * email fits, the older ones are packed newest first as `Greedy` says and
   * stay in chronological order behind an optional summary; otherwise the
   * latest email alone is shown, cut down by `truncate_email_content` as
   * written.
   */
  method FormatChainForLlm(chain: seq<Email>, maxTokens: int, tok: Tokenizer,
                           summarize: (seq<Email>, int) -> string)
    returns (text: string, included: nat)
    ensures chain == [] ==> text == "" && included == 0
    ensures chain != [] ==>
              var latest := chain[|chain| - 1];
              var older := chain[..|chain| - 1];
              var latestTokens := CountTokens(tok, FormatSingleEmail(latest));
              var p := Greedy(Costs(older, tok), 0, latestTokens, maxTokens);
              (latestTokens <= maxTokens ==>
                 included == 1 + |Chosen(older, p.keep, true)| &&
                 text == Annotated(SummaryPart(Chosen(older, p.keep, false), p.total, maxTokens, summarize)
                                   + Rendered(Chosen(older, p.keep, true)) + [FormatSingleEmail(latest)],
                                   included, |chain|)) &&
              (latestTokens > maxTokens ==>
                 included == 1 &&
                 text == Annotated([FormatSingleEmail(TruncateEmailContentAsWritten(latest, maxTokens, tok))], 1, |chain|))
  {
    if chain == [] {
      return "", 0;
    }
    var formattedChain: seq<string>;
    var latest := chain[|chain| - 1];
    var latestFormatted := FormatSingleEmail(latest);
    var latestTokens := CountTokens(tok, latestFormatted);
    if latestTokens <= maxTokens {
      var totalTokens, emailsToSummarize;
      formattedChain, totalTokens, included, emailsToSummarize :=
        PackOlder(chain[..|chain| - 1], latestFormatted, latestTokens, maxTokens, tok);
      ghost var kept := formattedChain;
      formattedChain, totalTokens := PrependSummary(formattedChain, totalTokens, emailsToSummarize, maxTokens, tok, summarize);
      ghost var older := chain[..|chain| - 1];
      ghost var p := Greedy(Costs(older, tok), 0, latestTokens, maxTokens);
      assert kept == Rendered(Chosen(older, p.keep, true)) + [latestFormatted];
      assert formattedChain == SummaryPart(Chosen(older, p.keep, false), p.total, maxTokens, summarize) + kept;
      assert formattedChain == SummaryPart(Chosen(older, p.keep, false), p.total, maxTokens, summarize)
                               + Rendered(Chosen(older, p.keep, true)) + [latestFormatted];
    } else {
      var truncatedEmail := TruncateEmailContentAsWritten(latest, maxTokens, tok);
      formattedChain := [FormatSingleEmail(truncatedEmail)];
      included := 1;
    }
    text := ChainText(formattedChain, included, |chain|);
  }

  /**
   * What the packing promises: the latest email and the older ones kept fit
   * the budget together, every older email is either kept or handed to the
   * summariser, and a non-empty chain shows between 1 and all of its emails.
   */
  lemma PackingMeaning(chain: seq<Email>, maxTokens: int, tok: Tokenizer)
    requires chain != []
    requires CountTokens(tok, FormatSingleEmail(chain[|chain| - 1])) <= maxTokens
    ensures var older := chain[..|chain| - 1];
            var latestTokens := CountTokens(tok, FormatSingleEmail(chain[|chain| - 1]));
            var p := Greedy(Costs(older, tok), 0, latestTokens, maxTokens);
            && latestTokens + KeptSum(Costs(older, tok), p.keep) == p.total <= maxTokens
            && |Chosen(older, p.keep, true)| + |Chosen(older, p.keep, false)| == |older|
            && 1 <= 1 + |Chosen(older, p.keep, true)| <= |chain|
  {
    var older := chain[..|chain| - 1];
    var latestTokens := CountTokens(tok, FormatSingleEmail(chain[|chain| - 1]));
    var costs := Costs(older, tok);
    GreedyBudget(costs, 0, latestTokens, maxTokens);
    assert costs[0..] == costs;
    ChosenPartition(older, Greedy(costs, 0, latestTokens, maxTokens).keep);
  }
}
