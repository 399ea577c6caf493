/**
 * `wrap_reply_body`: the branded e-mail page around a reply's HTML.  The
 * colours come from the tenant's brand list with fixed defaults, the text
 * colour is chosen for contrast with the background, and the logo and the
 * footer row are optional.
 */
module BrandWrapper {
  import opened Wrappers
  import opened Text
  import ReplyHtml

  const Ink: string := "#111111"
  const White: string := "#FFFFFF"
  const MutedOnLight: string := "#666666"
  const MutedOnDark: string := "#CCCCCC"

  /** `_best_text`: dark text on a white background (in any letter case), white text otherwise. */
  function BestText(bgHex: string): (r: string)
    ensures r == Ink <==> Upper(bgHex) == White
    ensures r == Ink || r == White
  {
    if Upper(bgHex) == White then Ink else White
  }

  lemma {:induction false} UpperOfLower(s: string)
    ensures Upper(Lower(s)) == Upper(s)
  {
    if s != [] {
      UpperOfLower(s[1..]);
      assert Lower(s) == [LowerChar(s[0])] + Lower(s[1..]);
    }
  }

  /** The contrast choice ignores the letter case of the background. */
  lemma BestTextIgnoresCase(bgHex: string)
    ensures BestText(Lower(bgHex)) == BestText(bgHex)
  {
    UpperOfLower(bgHex);
  }

  /** The colours the page uses. */
  datatype Palette = Palette(primary: string, accent: string, background: string, text: string, muted: string)

  /** The colour selection at the top of `wrap_reply_body`. */
  function Colors(brandColors: seq<string>): (p: Palette)
    ensures |brandColors| >= 1 ==> p.primary == brandColors[0]
    ensures brandColors == [] ==> p.primary == Ink
    ensures |brandColors| >= 2 ==> p.accent == brandColors[1]
    ensures |brandColors| < 2 ==> p.accent == p.primary
    ensures |brandColors| >= 3 ==> p.background == brandColors[2]
    ensures |brandColors| < 3 ==> p.background == White
  {
    var primary := if |brandColors| > 0 then brandColors[0] else Ink;
    var accent := if |brandColors| > 1 then brandColors[1] else primary;
    var background := if |brandColors| > 2 then brandColors[2] else White;
    var text := BestText(background);
    var muted := if text == Ink then MutedOnLight else MutedOnDark;
    Palette(primary, accent, background, text, muted)
  }

  /**
   * The text colour contrasts with the background and the muted colour
   * follows the text colour; without a third brand colour the page is dark
   * text on white.
   */
  lemma PaletteContrast(brandColors: seq<string>)
    ensures var p := Colors(brandColors);
            (p.text == Ink <==> Upper(p.background) == White) &&
            (p.text == Ink || p.text == White) &&
            (p.muted == MutedOnLight <==> p.text == Ink) &&
            (p.muted == MutedOnLight || p.muted == MutedOnDark) &&
            (|brandColors| < 3 ==> p.text == Ink && p.muted == MutedOnLight)
  {
    assert Ink[1] != White[1];
    assert MutedOnLight[1] != MutedOnDark[1];
    if |brandColors| < 3 {
      assert Upper(White) == White;
    }
  }

  /** Every colour of the page is a brand colour or one of the fixed defaults. */
  lemma PaletteFromBrandOrDefaults(brandColors: seq<string>)
    ensures var p := Colors(brandColors);
            (p.primary in brandColors || p.primary == Ink) &&
            (p.accent in brandColors || p.accent == Ink) &&
            (p.background in brandColors || p.background == White)
  {
  }

  /** `if logo_url`: a present, non-empty URL. */
  predicate Truthy(s: Option<string>) {
    s.Some? && s.value != ""
  }

  /** The logo cell's content: an `<img>` with the escaped URL, or nothing. */
  function LogoPart(logoUrl: Option<string>): string {
    if Truthy(logoUrl) then
      "<img src=\"" + ReplyHtml.Escape(logoUrl.value)
        + "\" alt=\"Logo\" style=\"max-width:140px;height:auto;border:0;display:block;\">"
    else ""
  }

  /** The footer row, or nothing. */
  function FooterPart(fontStack: string, muted: string, showFooter: bool): string {
    if showFooter then
      "<tr><td style='font-family:" + fontStack + ";color:" + muted
        + ";font-size:12px;line-height:1.6;padding:12px 20px 24px;'></td></tr>"
    else ""
  }

  /**
   * The logo appears exactly when the URL is truthy, with its value escaped
   * so that it cannot close the `src` attribute, and decoding the attribute
   * gives back the URL.
   */
  lemma LogoOnlyWhenGiven(logoUrl: Option<string>)
    ensures LogoPart(logoUrl) != "" <==> Truthy(logoUrl)
    ensures Truthy(logoUrl) ==>
              var src := ReplyHtml.Escape(logoUrl.value);
              OccursAt(LogoPart(logoUrl), src, 10) &&
              (forall c :: c in src ==> !ReplyHtml.IsMarkup(c)) &&
              ReplyHtml.Unescape(src) == logoUrl.value
  {
    if Truthy(logoUrl) {
      var src := ReplyHtml.Escape(logoUrl.value);
      var tag := LogoPart(logoUrl);
      assert tag[10..10 + |src|] == src;
      ReplyHtml.EscapedHasNoMarkup(logoUrl.value);
      ReplyHtml.UnescapeEscape(logoUrl.value);
    }
  }

  /** The footer row appears exactly when it is asked for, in the muted colour. */
  lemma FooterOnlyWhenShown(fontStack: string, muted: string, showFooter: bool)
    ensures FooterPart(fontStack, muted, showFooter) != "" <==> showFooter
    ensures showFooter ==> OccursAt(FooterPart(fontStack, muted, showFooter), muted, 27 + |fontStack| + 7)
  {
    if showFooter {
      var row := FooterPart(fontStack, muted, showFooter);
      var at := 27 + |fontStack| + 7;
      assert row[at..at + |muted|] == muted;
    }
  }

  /** `wrap_reply_body`. */
  function WrapReplyBody(innerHtml: string, logoUrl: Option<string>, fontStack: string,
                         brandColors: seq<string>, showFooter: bool): string
  {
    var p := Colors(brandColors);
    HeadUpTo(p.background) + LogoPart(logoUrl) + BodyCellOpen(fontStack, p.text, p.accent)
      + innerHtml + PageTail(fontStack, p.muted, showFooter)
  }

  /** The logo cell's end and the start of the body cell, in the text colour with the accent rule on top. */
  function BodyCellOpen(fontStack: string, text: string, accent: string): string {
    @"
            </td>
          </tr>
          <tr>
            <td style=""font-family:" + fontStack + ";color:" + text
      + ";font-size:16px;line-height:1.6;padding:16px 20px;border-top:3px solid " + accent + @";"">
              "
  }

  /** The body cell's end, the optional footer row and the closing tags. */
  function PageTail(fontStack: string, muted: string, showFooter: bool): string {
    @"
            </td>
          </tr>
          " + FooterPart(fontStack, muted, showFooter) + @"
        </table>
      </td></tr>
    </table>
  </body>
</html>"
  }

  /** The footer row sits after the body cell's closing tags. */
  lemma TailHoldsFooter(fontStack: string, muted: string, showFooter: bool)
    ensures OccursAt(PageTail(fontStack, muted, showFooter), FooterPart(fontStack, muted, showFooter), 45)
  {
    var f := FooterPart(fontStack, muted, showFooter);
    assert PageTail(fontStack, muted, showFooter)[45..45 + |f|] == f;
  }

  /** The page up to the logo cell, with the background colour in its three places. */
  function HeadUpTo(background: string): string {
    @"<!doctype html>
<html>
  <head>
    <meta name=""x-apple-disable-message-reformatting"">
    <meta name=""color-scheme"" content=""light dark"">
    <meta name=""supported-color-schemes"" content=""light dark"">
    <title></title>
  </head>
  <body style=""margin:0;padding:0;background:" + background + @";"">
    <table role=""presentation"" cellpadding=""0"" cellspacing=""0"" border=""0"" style=""width:100%;table-layout:fixed;background:" + background + @";"">
      <tr><td align=""center"">
        <table role=""presentation"" cellpadding=""0"" cellspacing=""0"" border=""0"" style=""width:100%;max-width:640px;margin:0 auto;background:" + background + @";"">
          <tr>
            <td style=""padding:12px 20px;text-align:left;"">
              "
  }
}
