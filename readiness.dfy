/**
 * `GenericReadiness`: how well a tenant's collected texts cover the eleven
 * aspects of a company's knowledge.  Every text goes to each aspect one of
 * whose keyword patterns matches its lower-cased form, or to ABOUT when
 * none does; every aspect is then scored from integer signals of its texts.
 *
 * The regular-expression search is a parameter `search(pattern, text)`, and
 * so are the six signal counts taken from an aspect's joined texts.  A
 * pattern carries its regular expression and its needles: the literal
 * pieces one of which every match of the expression contains.
 */
module Readiness {
  import opened Text

  datatype Aspect =
    | About | ValueProp | Features | Pricing | Integrations | Onboarding
    | Security | Support | CaseStudies | Implementation | Legal

  /** `ASPECTS`, in the order the scores are built. */
  const Aspects: seq<Aspect> :=
    [About, ValueProp, Features, Pricing, Integrations, Onboarding,
     Security, Support, CaseStudies, Implementation, Legal]

  /** Where an aspect sits in `Aspects`. */
  function Index(a: Aspect): (k: nat)
    ensures k < |Aspects| && Aspects[k] == a
  {
    match a
    case About => 0
    case ValueProp => 1
    case Features => 2
    case Pricing => 3
    case Integrations => 4
    case Onboarding => 5
    case Security => 6
    case Support => 7
    case CaseStudies => 8
    case Implementation => 9
    case Legal => 10
  }

  /** Each aspect is listed once. */
  lemma IndexOfAt(j: nat)
    requires j < |Aspects|
    ensures Index(Aspects[j]) == j
  {
  }

  datatype Pattern = Pattern(regex: string, needles: seq<string>)

  /** `ASPECT_KEYWORDS`. */
  function Keywords(a: Aspect): seq<Pattern> {
    match a
    case About => [
      Pattern(@"\bmission\b", ["mission"]), Pattern(@"\bvision\b", ["vision"]),
      Pattern(@"\bvalues?\b", ["value"]), Pattern(@"\babout (us|company)\b", ["about us", "about company"])]
    case ValueProp => [
      Pattern(@"\busp\b", ["usp"]), Pattern(@"\bvalue prop", ["value prop"]),
      Pattern(@"\bdifferentiator", ["differentiator"]), Pattern(@"\bwhy (us|choose)\b", ["why us", "why choose"]),
      Pattern(@"\bICP\b", ["ICP"])]
    case Features => [
      Pattern(@"\bfeature(s)?\b", ["feature"]), Pattern(@"\bcapabilit(y|ies)\b", ["capability", "capabilities"]),
      Pattern(@"\bmodule(s)?\b", ["module"])]
    case Pricing => [
      Pattern(@"\bpricing\b", ["pricing"]), Pattern(@"\bplan(s)?\b", ["plan"]),
      Pattern(@"₹|\$|€|USD|INR", ["₹", "$", "€", "USD", "INR"]),
      Pattern(@"\bper (month|year)", ["per month", "per year"])]
    case Integrations => [
      Pattern(@"\bintegration(s)?\b", ["integration"]), Pattern(@"\bAPI\b", ["API"]),
      Pattern(@"\bwebhook(s)?\b", ["webhook"])]
    case Onboarding => [
      Pattern(@"\bonboarding\b", ["onboarding"]), Pattern(@"\bgetting started\b", ["getting started"]),
      Pattern(@"\bsetup\b", ["setup"]), Pattern(@"\bchecklist\b", ["checklist"])]
    case Security => [
      Pattern(@"\bsecurity\b", ["security"]), Pattern(@"\bprivacy\b", ["privacy"]),
      Pattern(@"\bSOC 2\b", ["SOC 2"]), Pattern(@"\bISO 27001\b", ["ISO 27001"]),
      Pattern(@"\bGDPR\b", ["GDPR"]), Pattern(@"\bSLA\b", ["SLA"])]
    case Support => [
      Pattern(@"\bFAQ\b", ["FAQ"]), Pattern(@"\btroubleshoot", ["troubleshoot"]),
      Pattern(@"\bhelp\b", ["help"]), Pattern(@"\bsupport\b", ["support"])]
    case CaseStudies => [
      Pattern(@"\bcase stud(y|ies)\b", ["case study", "case studies"]),
      Pattern(@"\btestimonial(s)?\b", ["testimonial"]),
      Pattern(@"\bsuccess stor(y|ies)\b", ["success story", "success stories"])]
    case Implementation => [
      Pattern(@"\bdeploy(ment)?\b", ["deploy"]), Pattern(@"\bmigration\b", ["migration"]),
      Pattern(@"\bimport\b", ["import"])]
    case Legal => [
      Pattern(@"\bterms\b", ["terms"]), Pattern(@"\bprivacy policy\b", ["privacy policy"]),
      Pattern(@"\bDPA\b", ["DPA"]), Pattern(@"\bEULA\b", ["EULA"])]
  }

  /** `any(re.search(pattern, s) for pattern in patterns)`. */
  predicate AnyMatch(search: (Pattern, string) -> bool, patterns: seq<Pattern>, s: string) {
    exists k :: 0 <= k < |patterns| && search(patterns[k], s)
  }

  /** One of the aspect's patterns matches the lower-cased text. */
  predicate Hits(search: (Pattern, string) -> bool, a: Aspect, text: string) {
    AnyMatch(search, Keywords(a), Lower(text))
  }

  predicate Matched(search: (Pattern, string) -> bool, text: string) {
    exists a :: Hits(search, a, text)
  }

  /** The aspects a text is filed under: those it hits, or ABOUT when it hits none. */
  predicate InAspect(search: (Pattern, string) -> bool, a: Aspect, text: string) {
    Hits(search, a, text) || (a == About && !Matched(search, text))
  }

  /** `aspect_texts[a]` once all of `texts` has been filed. */
  function Bucket(search: (Pattern, string) -> bool, texts: seq<string>, a: Aspect): (r: seq<string>)
    ensures |r| <= |texts|
    ensures forall t :: t in r <==> t in texts && InAspect(search, a, t)
  {
    if texts == [] then []
    else
      var last := texts[|texts| - 1];
      Bucket(search, texts[..|texts| - 1], a) + (if InAspect(search, a, last) then [last] else [])
  }

  lemma BucketSnoc(search: (Pattern, string) -> bool, texts: seq<string>, i: nat, a: Aspect)
    requires i < |texts|
    ensures Bucket(search, texts[..i + 1], a)
              == Bucket(search, texts[..i], a) + (if InAspect(search, a, texts[i]) then [texts[i]] else [])
  {
    assert texts[..i + 1][..i] == texts[..i];
  }

  /** Every text is filed under at least one aspect. */
  lemma EveryTextLands(search: (Pattern, string) -> bool, texts: seq<string>, t: string)
    requires t in texts
    ensures exists a :: t in Bucket(search, texts, a)
  {
    if Matched(search, t) {
      var a :| Hits(search, a, t);
      assert t in Bucket(search, texts, a);
    } else {
      assert t in Bucket(search, texts, About);
    }
  }

  /** The integer signals counted over an aspect's joined texts. */
  datatype Signals = Signals(words: nat, headings: nat, qas: nat, numerics: nat, currency: nat, links: nat)

  datatype Score =
    | Missing                              // `{"present": False, "detail": 0, "signals": {"wordcount": 0}}`
    | Found(detail: nat, signals: Signals) // `"present": True`

  function B2I(b: bool): nat {
    if b then 1 else 0
  }

  /**
   * `min(5, int(max(0, log10(max(10, words)) - 0.5)))` in integers:
   * `log10(m) - 0.5 >= k` exactly when `m * m >= 10^(2k+1)`.
   */
  function SizeScore(words: nat): (r: nat)
    ensures r <= 5
    ensures r >= 1 <==> words >= 32
    ensures r >= 2 <==> words >= 317
    ensures r >= 3 <==> words >= 3163
    ensures r >= 4 <==> words >= 31623
    ensures r >= 5 <==> words >= 316228
  {
    var m := if words < 10 then 10 else words;
    SquareSteps(m);
    if m * m >= 100000000000 then 5
    else if m * m >= 1000000000 then 4
    else if m * m >= 10000000 then 3
    else if m * m >= 100000 then 2
    else if m * m >= 1000 then 1
    else 0
  }

  /** Where the squares cross the thresholds `10^(2k+1)`. */
  lemma SquareSteps(m: nat)
    ensures m * m >= 1000 <==> m >= 32
    ensures m * m >= 100000 <==> m >= 317
    ensures m * m >= 10000000 <==> m >= 3163
    ensures m * m >= 1000000000 <==> m >= 31623
    ensures m * m >= 100000000000 <==> m >= 316228
  {
    SquareCrosses(m, 31, 1000);
    SquareCrosses(m, 316, 100000);
    SquareCrosses(m, 3162, 10000000);
    SquareCrosses(m, 31622, 1000000000);
    SquareCrosses(m, 316227, 100000000000);
  }

  lemma SquareCrosses(m: nat, below: nat, bound: nat)
    requires below * below < bound <= (below + 1) * (below + 1)
    ensures m * m >= bound <==> m > below
  {
    if m > below {
      MulMono(below + 1, m);
    } else {
      MulMono(m, below);
    }
  }

  lemma MulMono(a: nat, b: nat)
    requires a <= b
    ensures a * a <= b * b
  {
    assert a * a <= a * b <= b * b;
  }

  /** More words never lower the size score. */
  lemma SizeScoreMonotone(w1: nat, w2: nat)
    requires w1 <= w2
    ensures SizeScore(w1) <= SizeScore(w2)
  {
  }

  /** `structure_score`. */
  function StructureScore(s: Signals): (r: nat)
    ensures r <= 5
    ensures r == 0 <==> s.headings == 0 && s.qas == 0 && s.links == 0 && s.numerics <= 3 && s.currency == 0
    ensures r == 5 <==> s.headings > 0 && s.qas > 0 && s.links > 0 && s.numerics > 3 && s.currency > 0
  {
    B2I(s.headings > 0) + B2I(s.qas > 0) + B2I(s.links > 0) + B2I(s.numerics > 3) + B2I(s.currency > 0)
  }

  /** `specificity_score`. */
  function SpecificityScore(s: Signals): (r: nat)
    ensures r <= 5
    ensures r == 0 <==> s.numerics <= 5 && s.currency == 0 && s.links <= 1 && s.words <= 400
    ensures s.words > 800 ==> r >= 2
  {
    B2I(s.numerics > 5) + B2I(s.currency > 0) + B2I(s.links > 1) + B2I(s.words > 400) + B2I(s.words > 800)
  }

  /**
   * `int(max(0, min(5, round(total / 3))))`.  A whole number divided by 3
   * never ends in one half, so rounding to the nearest is `(total + 1) / 3`.
   */
  function Detail(total: nat): (r: nat)
    ensures r <= 5
    ensures total <= 15 ==> 3 * r - 1 <= total <= 3 * r + 1
    ensures total > 15 ==> r == 5
  {
    if (total + 1) / 3 > 5 then 5 else (total + 1) / 3
  }

  /** The detail of a present aspect. */
  function AspectDetail(s: Signals): (r: nat)
    ensures r <= 5
  {
    Detail(SizeScore(s.words) + StructureScore(s) + SpecificityScore(s))
  }

  /** One aspect's entry: missing when no text was filed under it, else scored from its joined texts. */
  function ScoreOf(list: seq<string>, signalsOf: string -> Signals): (r: Score)
    ensures r.Missing? <==> list == []
    ensures r.Found? ==> r.detail <= 5 && r.signals == signalsOf(Join(list, "\n"))
  {
    if list == [] then Missing
    else
      var s := signalsOf(Join(list, "\n"));
      Found(AspectDetail(s), s)
  }

  /** An aspect is present exactly when some text was filed under it. */
  lemma PresentIffFiled(search: (Pattern, string) -> bool, texts: seq<string>, signalsOf: string -> Signals, a: Aspect)
    ensures ScoreOf(Bucket(search, texts, a), signalsOf).Found? <==> exists t :: t in texts && InAspect(search, a, t)
  {
    var b := Bucket(search, texts, a);
    if b != [] {
      assert b[0] in b;
    }
  }

  /** `aspect_scores`. */
  method AspectScores(texts: seq<string>, search: (Pattern, string) -> bool, signalsOf: string -> Signals)
    returns (scored: map<Aspect, Score>)
    ensures forall a :: a in scored && scored[a] == ScoreOf(Bucket(search, texts, a), signalsOf)
  {
    var aspectTexts := FileTexts(texts, search);
    scored := ScoreAll(aspectTexts, signalsOf);
  }

  /** The scoring loop of `aspect_scores`: one entry per aspect, in the order of `ASPECTS`. */
  method ScoreAll(aspectTexts: map<Aspect, seq<string>>, signalsOf: string -> Signals)
    returns (scored: map<Aspect, Score>)
    requires forall a :: a in aspectTexts
    ensures forall a :: a in scored && scored[a] == ScoreOf(aspectTexts[a], signalsOf)
  {
    scored := map[];
    for j := 0 to |Aspects|
      invariant forall a :: Index(a) < j ==> a in scored
      invariant forall a :: a in scored ==> scored[a] == ScoreOf(aspectTexts[a], signalsOf)
    {
      var a := Aspects[j];
      IndexOfAt(j);
      var score := ScoreAspect(aspectTexts[a], signalsOf);
      scored := scored[a := score];
    }
  }

  /** The body of the scoring loop of `aspect_scores`. */
  method ScoreAspect(list: seq<string>, signalsOf: string -> Signals) returns (score: Score)
    ensures score == ScoreOf(list, signalsOf)
  {
    if list == [] {
      return Missing;
    }
    var joined := Join(list, "\n");
    var signals := signalsOf(joined);
    var sizeScore := SizeScore(signals.words);
    var structureScore := StructureScore(signals);
    var specificityScore := SpecificityScore(signals);
    var detail := Detail(sizeScore + structureScore + specificityScore);
    score := Found(detail, signals);
  }

  /** The filing loop at the top of `aspect_scores`. */
  method FileTexts(texts: seq<string>, search: (Pattern, string) -> bool) returns (aspectTexts: map<Aspect, seq<string>>)
    ensures forall a :: a in aspectTexts && aspectTexts[a] == Bucket(search, texts, a)
  {
    aspectTexts := map a | a in Aspects :: [];
    forall a ensures a in aspectTexts {
      assert Aspects[Index(a)] == a;
    }
    assert texts[..0] == [];
    for i := 0 to |texts|
      invariant forall a :: a in aspectTexts && aspectTexts[a] == Bucket(search, texts[..i], a)
    {
      var text := texts[i];
      var textLower := Lower(text);
      var hit := a => AnyMatch(search, Keywords(a), textLower);
      aspectTexts := FileText(aspectTexts, text, hit);
      assert forall b :: hit(b) == Hits(search, b, text);
      forall a ensures aspectTexts[a] == Bucket(search, texts[..i + 1], a) {
        FiledIsInAspect(search, text, hit, a);
        BucketSnoc(search, texts, i, a);
      }
    }
    assert texts[..|texts|] == texts;
  }

  lemma FiledIsInAspect(search: (Pattern, string) -> bool, text: string, hit: Aspect -> bool, a: Aspect)
    requires forall b :: hit(b) == Hits(search, b, text)
    ensures (hit(a) || (a == About && forall b :: !hit(b))) == InAspect(search, a, text)
  {
  }

  /**
   * One pass of the filing loop: the text goes to every aspect it hits, or
   * to ABOUT when it hits none.  `hit(a)` is whether one of the patterns of
   * `a` matches the lower-cased text.
   */
  method FileText(aspectTexts: map<Aspect, seq<string>>, text: string, hit: Aspect -> bool)
    returns (filed: map<Aspect, seq<string>>)
    requires forall a :: a in aspectTexts
    ensures forall a :: a in filed &&
              filed[a] == aspectTexts[a] + (if hit(a) || (a == About && forall b :: !hit(b)) then [text] else [])
  {
    var matched;
    filed, matched := FileUnderHits(aspectTexts, text, hit);
    if !matched {
      filed := filed[About := filed[About] + [text]];
    }
  }

  /** The loop over `ASPECT_KEYWORDS`: the text goes to every aspect it hits, and `matched` says whether there was one. */
  method FileUnderHits(aspectTexts: map<Aspect, seq<string>>, text: string, hit: Aspect -> bool)
    returns (filed: map<Aspect, seq<string>>, matched: bool)
    requires forall a :: a in aspectTexts
    ensures forall a :: a in filed && filed[a] == aspectTexts[a] + (if hit(a) then [text] else [])
    ensures matched <==> exists a :: hit(a)
  {
    filed := aspectTexts;
    matched := false;
    for j := 0 to |Aspects|
      invariant FiledUpTo(aspectTexts, filed, text, hit, j)
      invariant matched <==> exists a :: Index(a) < j && hit(a)
    {
      var a := Aspects[j];
      FiledStep(aspectTexts, filed, text, hit, j);
      if hit(a) {
        filed := filed[a := filed[a] + [text]];
        matched := true;
      }
    }
  }

  /** The first `j` aspects of `ASPECTS` have had the text appended where they are hit. */
  predicate FiledUpTo(aspectTexts: map<Aspect, seq<string>>, filed: map<Aspect, seq<string>>,
                      text: string, hit: Aspect -> bool, j: nat)
  {
    forall a :: a in aspectTexts && a in filed &&
      filed[a] == aspectTexts[a] + (if Index(a) < j && hit(a) then [text] else [])
  }

  lemma FiledStep(aspectTexts: map<Aspect, seq<string>>, filed: map<Aspect, seq<string>>,
                  text: string, hit: Aspect -> bool, j: nat)
    requires j < |Aspects| && FiledUpTo(aspectTexts, filed, text, hit, j)
    ensures var a := Aspects[j];
            Index(a) == j &&
            FiledUpTo(aspectTexts, if hit(a) then filed[a := filed[a] + [text]] else filed, text, hit, j + 1)
  {
    IndexOfAt(j);
  }

  /** A search is needle-sound when each of its matches contains one of the pattern's needles. */
  ghost predicate NeedleSound(search: (Pattern, string) -> bool) {
    forall p: Pattern, t: string :: search(p, t) ==> exists n, j: nat :: n in p.needles && OccursAt(t, n, j)
  }

  predicate HasUpper(s: string) {
    s != [] && (IsUpper(s[0]) || HasUpper(s[1..]))
  }

  lemma {:induction false} HasUpperAt(s: string)
    requires HasUpper(s)
    ensures exists i :: 0 <= i < |s| && IsUpper(s[i])
  {
    if !IsUpper(s[0]) {
      HasUpperAt(s[1..]);
      var i :| 0 <= i < |s[1..]| && IsUpper(s[1..][i]);
      assert IsUpper(s[i + 1]);
    }
  }

  /** Every needle of the pattern holds a capital letter. */
  predicate Shouted(p: Pattern) {
    forall n :: n in p.needles ==> HasUpper(n)
  }

  /** A pattern written with capitals never matches a lower-cased text. */
  lemma ShoutedNeverMatches(search: (Pattern, string) -> bool, p: Pattern, text: string)
    requires NeedleSound(search) && Shouted(p)
    ensures !search(p, Lower(text))
  {
    var t := Lower(text);
    if search(p, t) {
      var n, j: nat :| n in p.needles && OccursAt(t, n, j);
      HasUpperAt(n);
    }
  }

  /**
   * The capitalised patterns of `ASPECT_KEYWORDS` (`\bICP\b`, `\bAPI\b`,
   * `\bSOC 2\b`, `\bISO 27001\b`, `\bGDPR\b`, `\bSLA\b`, `\bFAQ\b`, `\bDPA\b`,
   * `\bEULA\b`) never match, since the texts are lower-cased first.
   */
  lemma CapitalPatternsAreDead(search: (Pattern, string) -> bool, text: string)
    requires NeedleSound(search)
    ensures !search(Keywords(ValueProp)[4], Lower(text))
    ensures !search(Keywords(Integrations)[1], Lower(text))
    ensures forall k :: 2 <= k < 6 ==> !search(Keywords(Security)[k], Lower(text))
    ensures !search(Keywords(Support)[0], Lower(text))
    ensures !search(Keywords(Legal)[2], Lower(text)) && !search(Keywords(Legal)[3], Lower(text))
  {
    ShoutedNeverMatches(search, Keywords(ValueProp)[4], text);
    ShoutedNeverMatches(search, Keywords(Integrations)[1], text);
    forall k | 2 <= k < 6 ensures !search(Keywords(Security)[k], Lower(text)) {
      ShoutedNeverMatches(search, Keywords(Security)[k], text);
    }
    ShoutedNeverMatches(search, Keywords(Support)[0], text);
    ShoutedNeverMatches(search, Keywords(Legal)[2], text);
    ShoutedNeverMatches(search, Keywords(Legal)[3], text);
  }

  /** The final pass of `collect_texts`: each text stripped, the empty ones dropped, in order. */
  function Sanitised(texts: seq<string>): (r: seq<string>)
    ensures |r| <= |texts|
    ensures forall s :: s in r ==> s != "" && Strip(s) == s
  {
    if texts == [] then []
    else
      var s := Strip(texts[|texts| - 1]);
      TrimUnchanged(s, IsSpace);
      Sanitised(texts[..|texts| - 1]) + (if s != "" then [s] else [])
  }

  /** Every text that is not blank survives, stripped. */
  lemma {:induction false} SanitisedKeeps(texts: seq<string>, t: string)
    requires t in texts && Strip(t) != ""
    ensures Strip(t) in Sanitised(texts)
  {
    var init := texts[..|texts| - 1];
    if t != texts[|texts| - 1] {
      assert t in init;
      SanitisedKeeps(init, t);
    }
  }

  /** A second pass changes nothing. */
  lemma {:induction false} SanitiseIdempotent(texts: seq<string>)
    ensures Sanitised(Sanitised(texts)) == Sanitised(texts)
  {
    if texts != [] {
      var init := texts[..|texts| - 1];
      var s := Strip(texts[|texts| - 1]);
      var r0 := Sanitised(init);
      SanitiseIdempotent(init);
      if s != "" {
        TrimUnchanged(s, IsSpace);
        assert Sanitised(texts) == r0 + [s];
        SanitisedSnoc(r0, s);
      } else {
        assert Sanitised(texts) == r0;
      }
    }
  }

  lemma SanitisedSnoc(texts: seq<string>, s: string)
    requires Strip(s) == s
    ensures Sanitised(texts + [s]) == Sanitised(texts) + (if s != "" then [s] else [])
  {
    assert (texts + [s])[..|texts|] == texts;
  }

  /** The sanitise loop. */
  method Sanitise(texts: seq<string>) returns (finalTexts: seq<string>)
    ensures finalTexts == Sanitised(texts)
  {
    finalTexts := [];
    for i := 0 to |texts|
      invariant finalTexts == Sanitised(texts[..i])
    {
      assert texts[..i + 1][..i] == texts[..i];
      var s := Strip(texts[i]);
      if s != "" {
        finalTexts := finalTexts + [s];
      }
    }
    assert texts[..|texts|] == texts;
  }
}
