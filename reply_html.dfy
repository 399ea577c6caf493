/**
 * `text_to_html_reply`: a plain-text reply becomes simple HTML.  The text is
 * escaped and stripped, split into lines, and each line is classified: a
 * bullet line joins the pending list, a blank line closes the list and leaves
 * a paragraph break, any other line closes the list and becomes a paragraph.
 * Empty blocks are then dropped and the rest are placed in a fixed page.
 *
 * `autolink` (turning URLs and e-mail addresses into anchors in the link
 * colour) is a parameter of the model: its regular expressions are not.
 */
module ReplyHtml {
  import opened Wrappers
  import opened Text

  // ---------------------------------------------------------------------------
  // Escaping

  /** The characters that can open or close a tag or an attribute value. */
  predicate IsMarkup(c: char) {
    c == '<' || c == '>' || c == '"' || c == '\''
  }

  /** The entity `html.escape(..., quote=True)` writes for one character. */
  function EscapeChar(c: char): (r: string)
    ensures |r| >= 1
    ensures forall d :: d in r ==> !IsMarkup(d)
    ensures c != '&' && !IsMarkup(c) <==> r == [c]
  {
    if c == '&' then "&amp;"
    else if c == '<' then "&lt;"
    else if c == '>' then "&gt;"
    else if c == '"' then "&quot;"
    else if c == '\'' then "&#x27;"
    else [c]
  }

  /** `escape(s)`: `html.escape(s, quote=True)`. */
  function Escape(s: string): string {
    if s == [] then [] else EscapeChar(s[0]) + Escape(s[1..])
  }

  /** The decoder of exactly the five entities `Escape` writes. */
  function Unescape(s: string): string
    decreases |s|
  {
    if s == [] then []
    else if "&amp;" <= s then "&" + Unescape(s[5..])
    else if "&lt;" <= s then "<" + Unescape(s[4..])
    else if "&gt;" <= s then ">" + Unescape(s[4..])
    else if "&quot;" <= s then "\"" + Unescape(s[6..])
    else if "&#x27;" <= s then "'" + Unescape(s[6..])
    else [s[0]] + Unescape(s[1..])
  }

  /** Escaped text holds no raw `<`, `>`, `"` or `'`. */
  lemma {:induction false} EscapedHasNoMarkup(s: string)
    ensures forall c :: c in Escape(s) ==> !IsMarkup(c)
  {
    if s != [] {
      EscapedHasNoMarkup(s[1..]);
      assert Escape(s) == EscapeChar(s[0]) + Escape(s[1..]);
    }
  }

  /** Decoding reads the entity of one character back as that character, and goes on after it. */
  lemma UnescapeOne(c: char, rest: string)
    ensures Unescape(EscapeChar(c) + rest) == [c] + Unescape(rest)
  {
    var entity := EscapeChar(c);
    var e := entity + rest;
    assert entity <= e && e[|entity|..] == rest;
    if c == '<' {
      assert e[1] == 'l' && e[2] == 't';
    } else if c == '>' {
      assert e[1] == 'g';
    } else if c == '"' {
      assert e[1] == 'q';
    } else if c == '\'' {
      assert e[1] == '#';
    } else if c != '&' {
      assert e[0] == c;
    }
  }

  /** Escaping loses nothing: the entities decode back to the original text. */
  lemma {:induction false} UnescapeEscape(s: string)
    ensures Unescape(Escape(s)) == s
  {
    if s != [] {
      UnescapeEscape(s[1..]);
      UnescapeOne(s[0], Escape(s[1..]));
      assert [s[0]] + s[1..] == s;
    }
  }

  // ---------------------------------------------------------------------------
  // Lines and blocks

  /** `text or ""`. */
  function OrEmpty(text: Option<string>): string {
    match text
    case None => ""
    case Some(t) => t
  }

  /** The lines the loop walks: the escaped, stripped text split at line boundaries. */
  function Lines(text: Option<string>): seq<string> {
    SplitLines(Strip(Escape(OrEmpty(text))))
  }

  predicate IsMarker(c: char) {
    c == '-' || c == '*' || c == '\U{2022}'
  }

  /**
   * The list item of a bullet line: `^\s*([-*•])\s+` matches and is removed.
   * `None` for a line the pattern does not match.
   */
  function BulletItem(ln: string): (r: Option<string>)
    ensures r.Some? ==> |r.value| + 2 <= |ln| && r.value == ln[|ln| - |r.value|..]
    ensures r.Some? && r.value != [] ==> !IsSpace(r.value[0])
  {
    var k := LeftCut(ln, IsSpace);
    if k + 1 < |ln| && IsMarker(ln[k]) && IsSpace(ln[k + 1]) then
      var rest := ln[k + 1..];
      assert TrimLeft(rest, IsSpace) == ln[k + 1 + LeftCut(rest, IsSpace)..];
      Some(TrimLeft(rest, IsSpace))
    else
      None
  }

  /** `^\s*([-*•])\s+` matches `ln` with its marker at index `k`. */
  predicate BulletAt(ln: string, k: int) {
    0 <= k && k + 1 < |ln| && IsMarker(ln[k]) && IsSpace(ln[k + 1]) &&
    forall i :: 0 <= i < k ==> IsSpace(ln[i])
  }

  /** A line yields an item exactly when the bullet pattern matches it somewhere. */
  lemma BulletLineShape(ln: string)
    ensures BulletItem(ln).Some? <==> exists k :: BulletAt(ln, k)
  {
    var c := LeftCut(ln, IsSpace);
    if BulletItem(ln).Some? {
      assert BulletAt(ln, c);
    } else {
      forall k | BulletAt(ln, k) ensures false {
      }
    }
  }

  predicate IsBlank(ln: string) {
    Strip(ln) == ""
  }

  /** A line that becomes a paragraph of its own. */
  predicate IsParagraph(ln: string) {
    BulletItem(ln).None? && !IsBlank(ln)
  }

  /** What the loop appends to `blocks`, before it is rendered. */
  datatype Block =
    | List(items: seq<string>)   // one `<ul>` holding the pending bullet items
    | Para(line: string)         // one `<p>` holding a line
    | Break                      // the empty block a blank line leaves

  /** The loop's state: the blocks so far and the pending list `ul`. */
  datatype Scan = Scan(blocks: seq<Block>, ul: seq<string>)

  /** `flush_ul`: a non-empty pending list becomes one block and the list empties. */
  function Flush(st: Scan): (r: Scan)
    ensures r.ul == []
  {
    if st.ul == [] then st else Scan(st.blocks + [List(st.ul)], [])
  }

  /** One iteration of the line loop. */
  function Step(st: Scan, ln: string): Scan {
    match BulletItem(ln)
    case Some(item) => Scan(st.blocks, st.ul + [item])
    case None =>
      if IsBlank(ln) then Scan(Flush(st).blocks + [Break], [])
      else Scan(Flush(st).blocks + [Para(ln)], [])
  }

  /** The blocks the loop ends with when it starts in `st` and walks `lines`, the final flush included. */
  function Run(st: Scan, lines: seq<string>): seq<Block>
    decreases |lines|
  {
    if lines == [] then Flush(st).blocks else Run(Step(st, lines[0]), lines[1..])
  }

  function Blocks(lines: seq<string>): seq<Block> {
    Run(Scan([], []), lines)
  }

  // ---------------------------------------------------------------------------
  // What the blocks hold, read from the left

  /** The lines of the paragraph blocks, in order. */
  function Paras(bs: seq<Block>): seq<string> {
    if bs == [] then []
    else Paras(bs[..|bs| - 1]) + (if bs[|bs| - 1].Para? then [bs[|bs| - 1].line] else [])
  }

  /** The items of the list blocks, laid end to end. */
  function Items(bs: seq<Block>): seq<string> {
    if bs == [] then []
    else Items(bs[..|bs| - 1]) + (if bs[|bs| - 1].List? then bs[|bs| - 1].items else [])
  }

  function ListCount(bs: seq<Block>): nat {
    if bs == [] then 0
    else ListCount(bs[..|bs| - 1]) + (if bs[|bs| - 1].List? then 1 else 0)
  }

  function BreakCount(bs: seq<Block>): nat {
    if bs == [] then 0
    else BreakCount(bs[..|bs| - 1]) + (if bs[|bs| - 1].Break? then 1 else 0)
  }

  // ... and what the lines hold, read from the front

  function ParagraphLines(lines: seq<string>): seq<string> {
    if lines == [] then []
    else (if IsParagraph(lines[0]) then [lines[0]] else []) + ParagraphLines(lines[1..])
  }

  function BulletItems(lines: seq<string>): seq<string> {
    if lines == [] then []
    else
      var item := BulletItem(lines[0]);
      (if item.Some? then [item.value] else []) + BulletItems(lines[1..])
  }

  function BlankCount(lines: seq<string>): nat {
    if lines == [] then 0
    else (if BulletItem(lines[0]).None? && IsBlank(lines[0]) then 1 else 0) + BlankCount(lines[1..])
  }

  /** The number of maximal runs of bullet lines; `inRun` says whether the line before was a bullet. */
  function BulletRuns(lines: seq<string>, inRun: bool): nat {
    if lines == [] then 0
    else if BulletItem(lines[0]).Some? then (if inRun then 0 else 1) + BulletRuns(lines[1..], true)
    else BulletRuns(lines[1..], false)
  }

  /** The four tallies of a block sequence. */
  predicate Tallies(bs: seq<Block>, paras: seq<string>, items: seq<string>, lists: nat, breaks: nat) {
    Paras(bs) == paras && Items(bs) == items && ListCount(bs) == lists && BreakCount(bs) == breaks
  }

  lemma TallySnoc(bs: seq<Block>, b: Block)
    ensures Tallies(bs + [b],
                    Paras(bs) + (if b.Para? then [b.line] else []),
                    Items(bs) + (if b.List? then b.items else []),
                    ListCount(bs) + (if b.List? then 1 else 0),
                    BreakCount(bs) + (if b.Break? then 1 else 0))
  {
    assert (bs + [b])[..|bs|] == bs;
  }

  lemma FlushTally(st: Scan)
    ensures Tallies(Flush(st).blocks, Paras(st.blocks), Items(st.blocks) + st.ul,
                    ListCount(st.blocks) + (if st.ul != [] then 1 else 0), BreakCount(st.blocks))
  {
    if st.ul != [] {
      TallySnoc(st.blocks, List(st.ul));
    }
  }

  /** A bullet line extends the pending list; any other line flushes it and adds one block. */
  lemma StepShape(st: Scan, ln: string)
    ensures BulletItem(ln).Some? ==> Step(st, ln) == Scan(st.blocks, st.ul + [BulletItem(ln).value])
    ensures BulletItem(ln).None? ==>
              Step(st, ln) == Scan(Flush(st).blocks + [if IsBlank(ln) then Break else Para(ln)], [])
  {
  }

  lemma StepParas(st: Scan, ln: string)
    ensures Paras(Step(st, ln).blocks) == Paras(st.blocks) + (if IsParagraph(ln) then [ln] else [])
  {
    StepShape(st, ln);
    if BulletItem(ln).None? {
      FlushTally(st);
      TallySnoc(Flush(st).blocks, if IsBlank(ln) then Break else Para(ln));
    }
  }

  lemma StepItems(st: Scan, ln: string)
    ensures Items(Step(st, ln).blocks) + Step(st, ln).ul
              == Items(st.blocks) + st.ul + (if BulletItem(ln).Some? then [BulletItem(ln).value] else [])
  {
    StepShape(st, ln);
    if BulletItem(ln).None? {
      FlushTally(st);
      TallySnoc(Flush(st).blocks, if IsBlank(ln) then Break else Para(ln));
    }
  }

  lemma StepLists(st: Scan, ln: string)
    ensures Step(st, ln).ul != [] <==> BulletItem(ln).Some?
    ensures ListCount(Step(st, ln).blocks) + (if Step(st, ln).ul != [] then 1 else 0)
              == ListCount(st.blocks) + (if st.ul != [] then 1 else 0)
                 + (if BulletItem(ln).Some? && st.ul == [] then 1 else 0)
  {
    StepShape(st, ln);
    if BulletItem(ln).None? {
      FlushTally(st);
      TallySnoc(Flush(st).blocks, if IsBlank(ln) then Break else Para(ln));
    }
  }

  lemma StepBreaks(st: Scan, ln: string)
    ensures BreakCount(Step(st, ln).blocks)
              == BreakCount(st.blocks) + (if BulletItem(ln).None? && IsBlank(ln) then 1 else 0)
  {
    StepShape(st, ln);
    if BulletItem(ln).None? {
      FlushTally(st);
      TallySnoc(Flush(st).blocks, if IsBlank(ln) then Break else Para(ln));
    }
  }

  /** Concatenation regrouped around a prefix that grew by `x`. */
  lemma Regroup<T>(u: seq<T>, v: seq<T>, x: seq<T>, y: seq<T>)
    requires u == v + x
    ensures u + y == v + (x + y)
  {
  }

  /** Walking the lines from `st` adds the paragraph lines, in order, to the paragraphs. */
  lemma {:induction false} RunParas(st: Scan, lines: seq<string>)
    ensures Paras(Run(st, lines)) == Paras(st.blocks) + ParagraphLines(lines)
    decreases |lines|
  {
    if lines == [] {
      FlushTally(st);
    } else {
      var ln, rest := lines[0], lines[1..];
      var next := Step(st, ln);
      StepParas(st, ln);
      RunParas(next, rest);
      Regroup(Paras(next.blocks), Paras(st.blocks), if IsParagraph(ln) then [ln] else [], ParagraphLines(rest));
    }
  }

  /** ... adds the items of the bullet lines, in order, after the pending ones. */
  lemma {:induction false} RunItems(st: Scan, lines: seq<string>)
    ensures Items(Run(st, lines)) == Items(st.blocks) + st.ul + BulletItems(lines)
    decreases |lines|
  {
    if lines == [] {
      FlushTally(st);
    } else {
      var ln, rest := lines[0], lines[1..];
      var next := Step(st, ln);
      StepItems(st, ln);
      RunItems(next, rest);
      Regroup(Items(next.blocks) + next.ul, Items(st.blocks) + st.ul,
              if BulletItem(ln).Some? then [BulletItem(ln).value] else [], BulletItems(rest));
    }
  }

  /** ... closes each maximal run of bullet lines, the pending one included, into exactly one list. */
  lemma {:induction false} RunLists(st: Scan, lines: seq<string>)
    ensures ListCount(Run(st, lines))
              == ListCount(st.blocks) + (if st.ul != [] then 1 else 0) + BulletRuns(lines, st.ul != [])
    decreases |lines|
  {
    if lines == [] {
      FlushTally(st);
    } else {
      var ln, rest := lines[0], lines[1..];
      StepLists(st, ln);
      RunLists(Step(st, ln), rest);
    }
  }

  /** ... and leaves one break per blank line. */
  lemma {:induction false} RunBreaks(st: Scan, lines: seq<string>)
    ensures BreakCount(Run(st, lines)) == BreakCount(st.blocks) + BlankCount(lines)
    decreases |lines|
  {
    if lines == [] {
      FlushTally(st);
    } else {
      var ln, rest := lines[0], lines[1..];
      StepBreaks(st, ln);
      RunBreaks(Step(st, ln), rest);
    }
  }

  /**
   * The blocks of a reply follow its lines: paragraphs come from the
   * paragraph lines in order, list items from the bullet lines in order,
   * each maximal run of bullets becomes exactly one list, and each blank
   * line leaves one break.
   */
  lemma BlocksFollowLines(lines: seq<string>)
    ensures Paras(Blocks(lines)) == ParagraphLines(lines)
    ensures Items(Blocks(lines)) == BulletItems(lines)
    ensures ListCount(Blocks(lines)) == BulletRuns(lines, false)
    ensures BreakCount(Blocks(lines)) == BlankCount(lines)
  {
    var start := Scan([], []);
    RunParas(start, lines);
    RunItems(start, lines);
    RunLists(start, lines);
    RunBreaks(start, lines);
  }

  /** A bullet line directly after another bullet line opens no new list. */
  lemma {:induction false} BulletsShareOneList(a: string, b: string, rest: seq<string>)
    requires BulletItem(a).Some? && BulletItem(b).Some?
    ensures ListCount(Blocks([a, b] + rest)) == ListCount(Blocks([a] + rest))
  {
    BlocksFollowLines([a, b] + rest);
    BlocksFollowLines([a] + rest);
    assert ([a, b] + rest)[1..] == [b] + rest;
    assert ([a] + rest)[1..] == rest;
    assert ([b] + rest)[1..] == rest;
    if rest == [] {
    } else {
      assert BulletRuns([b] + rest, true) == BulletRuns(rest, true);
    }
  }

  // ---------------------------------------------------------------------------
  // Rendering

  function ListItemHtml(li: string, autolink: string -> string): string {
    "<li>" + autolink(Strip(li)) + "</li>"
  }

  /** `"".join(f"<li>...</li>" for li in ul)`. */
  function ListItemsHtml(ul: seq<string>, autolink: string -> string): string {
    if ul == [] then "" else ListItemHtml(ul[0], autolink) + ListItemsHtml(ul[1..], autolink)
  }

  /** The string the source appends for a block; only a break is empty. */
  function Render(b: Block, autolink: string -> string): (r: string)
    ensures r == "" <==> b.Break?
  {
    match b
    case List(items) => "<ul>" + ListItemsHtml(items, autolink) + "</ul>"
    case Para(line) => "<p>" + autolink(Strip(line)) + "</p>"
    case Break => ""
  }

  function RenderAll(bs: seq<Block>, autolink: string -> string): (r: seq<string>)
    ensures |r| == |bs|
    ensures forall k :: 0 <= k < |bs| ==> r[k] == Render(bs[k], autolink)
  {
    seq(|bs|, k requires 0 <= k < |bs| => Render(bs[k], autolink))
  }

  /** The blocks with the breaks removed. */
  function Content(bs: seq<Block>): (r: seq<Block>)
    ensures forall k :: 0 <= k < |r| ==> !r[k].Break?
  {
    if bs == [] then []
    else Content(bs[..|bs| - 1]) + (if bs[|bs| - 1].Break? then [] else [bs[|bs| - 1]])
  }

  /** The strings kept by the collapse loop: every non-empty one, in order. */
  function NonEmpty(ss: seq<string>): seq<string> {
    if ss == [] then []
    else NonEmpty(ss[..|ss| - 1]) + (if ss[|ss| - 1] == "" then [] else [ss[|ss| - 1]])
  }

  /** Dropping the empty strings of the rendered blocks is rendering the blocks without their breaks. */
  lemma {:induction false} CollapseDropsBreaks(bs: seq<Block>, autolink: string -> string)
    ensures NonEmpty(RenderAll(bs, autolink)) == RenderAll(Content(bs), autolink)
  {
    if bs != [] {
      var n := |bs| - 1;
      var all := RenderAll(bs, autolink);
      var last := if bs[n].Break? then [] else [bs[n]];
      CollapseDropsBreaks(bs[..n], autolink);
      RenderAllPrefix(bs, n, autolink);
      RenderAllAppend(Content(bs[..n]), last, autolink);
      calc {
        NonEmpty(all);
        NonEmpty(all[..n]) + (if all[n] == "" then [] else [all[n]]);
        RenderAll(Content(bs[..n]), autolink) + (if all[n] == "" then [] else [all[n]]);
        { assert RenderAll(last, autolink) == (if all[n] == "" then [] else [all[n]]); }
        RenderAll(Content(bs[..n]), autolink) + RenderAll(last, autolink);
        RenderAll(Content(bs), autolink);
      }
    }
  }

  lemma RenderAllPrefix(bs: seq<Block>, n: nat, autolink: string -> string)
    requires n <= |bs|
    ensures RenderAll(bs, autolink)[..n] == RenderAll(bs[..n], autolink)
  {
  }

  lemma RenderAllAppend(xs: seq<Block>, ys: seq<Block>, autolink: string -> string)
    ensures RenderAll(xs + ys, autolink) == RenderAll(xs, autolink) + RenderAll(ys, autolink)
  {
  }

  /** The fixed page, with the font stack and the joined blocks in place. */
  function Page(fontStack: string, body: string): string {
    PageOpen + fontStack + PageStyle + body + PageClose
  }

  const PageOpen: string := @"<!doctype html>
<html>
  <head>
    <meta name=""x-apple-disable-message-reformatting"">
    <meta name=""color-scheme"" content=""light dark"">
    <meta name=""supported-color-schemes"" content=""light dark"">
    <title></title>
  </head>
  <body style=""margin:0;padding:0;background:#FFFFFF;"">
    <table role=""presentation"" cellpadding=""0"" cellspacing=""0"" border=""0"" style=""width:100%;table-layout:fixed;background:#FFFFFF;"">
      <tr><td align=""center"">
        <table role=""presentation"" cellpadding=""0"" cellspacing=""0"" border=""0"" style=""width:100%;max-width:640px;margin:0 auto;background:#FFFFFF;"">
          <tr>
            <td style=""font-family:"

  const PageStyle: string := @";color:#111111;font-size:16px;line-height:1.6;padding:16px 20px;"">
              "

  const PageClose: string := @"
            </td>
          </tr>
        </table>
      </td></tr>
    </table>
  </body>
</html>"

  /** The reply's HTML as a function of its text: the page around the non-break blocks of its lines. */
  function ReplyHtml(text: Option<string>, autolink: string -> string, fontStack: string): string {
    Page(fontStack, Join(RenderAll(Content(Blocks(Lines(text))), autolink), ""))
  }

  /** Missing or blank text yields the page with nothing in it. */
  lemma {:induction false} BlankReplyIsEmptyPage(text: Option<string>, autolink: string -> string, fontStack: string)
    requires forall c :: c in OrEmpty(text) ==> IsSpace(c)
    ensures ReplyHtml(text, autolink, fontStack) == Page(fontStack, "")
  {
    BlankHasNoLines(text);
    NoLinesIsEmptyPage(text, autolink, fontStack);
  }

  lemma BlankHasNoLines(text: Option<string>)
    requires forall c :: c in OrEmpty(text) ==> IsSpace(c)
    ensures Lines(text) == []
  {
    var s := OrEmpty(text);
    EscapeKeepsSpace(s);
    StripEmptyIffBlank(Escape(s));
  }

  lemma NoLinesIsEmptyPage(text: Option<string>, autolink: string -> string, fontStack: string)
    requires Lines(text) == []
    ensures ReplyHtml(text, autolink, fontStack) == Page(fontStack, "")
  {
    assert Blocks([]) == [];
    assert Content([]) == [];
    assert RenderAll([], autolink) == [];
  }

  lemma {:induction false} EscapeKeepsSpace(s: string)
    requires forall c :: c in s ==> IsSpace(c)
    ensures Escape(s) == s
  {
    if s != [] {
      EscapeKeepsSpace(s[1..]);
      assert s[0] in s;
      assert [s[0]] + s[1..] == s;
    }
  }

  // ---------------------------------------------------------------------------
  // The procedure

  /** `flush_ul`, on the loop's lists; `shape` is the block sequence `blocks` renders. */
  method FlushList(blocks: seq<string>, ul: seq<string>, ghost shape: seq<Block>, autolink: string -> string)
    returns (blocks': seq<string>, ul': seq<string>, ghost shape': seq<Block>)
    requires blocks == RenderAll(shape, autolink)
    ensures Scan(shape', ul') == Flush(Scan(shape, ul))
    ensures blocks' == RenderAll(shape', autolink)
  {
    blocks', ul', shape' := blocks, ul, shape;
    if ul != [] {
      blocks' := blocks + [Render(List(ul), autolink)];
      shape' := shape + [List(ul)];
      ul' := [];
    }
  }

  /** The line loop of `text_to_html_reply` with its final flush: the blocks of `lines`, rendered. */
  method ScanLines(lines: seq<string>, autolink: string -> string)
    returns (blocks: seq<string>, ghost shape: seq<Block>)
    ensures shape == Blocks(lines)
    ensures blocks == RenderAll(shape, autolink)
  {
    blocks := [];
    var ul: seq<string> := [];
    shape := [];
    var i := 0;
    while i < |lines|
      invariant 0 <= i <= |lines|
      invariant blocks == RenderAll(shape, autolink)
      invariant Run(Scan(shape, ul), lines[i..]) == Blocks(lines)
    {
      var ln := lines[i];
      assert lines[i..][0] == ln && lines[i..][1..] == lines[i + 1..];
      var item := BulletItem(ln);
      if item.Some? {
        ul := ul + [item.value];
      } else if Strip(ln) == "" {
        blocks, ul, shape := FlushList(blocks, ul, shape, autolink);
        blocks := blocks + [""];
        shape := shape + [Break];
      } else {
        blocks, ul, shape := FlushList(blocks, ul, shape, autolink);
        blocks := blocks + ["<p>" + autolink(Strip(ln)) + "</p>"];
        shape := shape + [Para(ln)];
      }
      i := i + 1;
    }
    blocks, ul, shape := FlushList(blocks, ul, shape, autolink);
  }

  /** The `prev_empty` loop: every empty block is skipped, so only the non-empty ones remain, in order. */
  method DropEmpty(blocks: seq<string>) returns (htmlBlocks: seq<string>)
    ensures htmlBlocks == NonEmpty(blocks)
  {
    htmlBlocks := [];
    var prevEmpty := false;
    var j := 0;
    while j < |blocks|
      invariant 0 <= j <= |blocks|
      invariant htmlBlocks == NonEmpty(blocks[..j])
    {
      assert blocks[..j + 1][..j] == blocks[..j];
      var b := blocks[j];
      var isEmpty := b == "";
      if isEmpty && prevEmpty {
        j := j + 1;
        continue;
      }
      prevEmpty := isEmpty;
      if !isEmpty {
        htmlBlocks := htmlBlocks + [b];
      }
      j := j + 1;
    }
    assert blocks[..j] == blocks;
  }

  /** `text_to_html_reply`. */
  method TextToHtmlReply(text: Option<string>, autolink: string -> string, fontStack: string)
    returns (html: string)
    ensures html == ReplyHtml(text, autolink, fontStack)
  {
    var lines := Lines(text);
    var blocks, shape := ScanLines(lines, autolink);
    var htmlBlocks := DropEmpty(blocks);
    CollapseDropsBreaks(shape, autolink);
    assert htmlBlocks == RenderAll(Content(Blocks(lines)), autolink);
    html := Page(fontStack, Join(htmlBlocks, ""));
  }
}
