/**
 * The location extractor used to target search queries: four regex stages
 * propose candidates, which are then normalised, deduplicated without regard
 * to case and capped at five.  The regex stages are not modelled; what they
 * matched is the input `StageMatches`.
 */
module Location {
  import opened Wrappers
  import opened Text

  /** Most locations `extract_locations` returns. */
  const MaxLocations: nat := 5

  /** What each regex stage matched in the stripped prompt, in text order. */
  datatype StageMatches = StageMatches(
    hinted: seq<string>,              // hinted fragments, hint words already removed
    quoted: seq<string>,              // the captured group of each quoted match
    commaPairs: seq<(string, string)>, // the two groups of each "A, B" match
    tail: Option<string>)             // group 1 of the end-of-prompt match

  // ---------------------------------------------------------------------------
  // Candidate collection, stage by stage

  /** Hinted stage: strip, collapse whitespace, keep if non-empty. */
  function HintedCandidates(fragments: seq<string>): seq<string>
    decreases |fragments|
  {
    if fragments == [] then []
    else
      var init := HintedCandidates(fragments[..|fragments| - 1]);
      var cleaned := CollapseSpace(Strip(fragments[|fragments| - 1]));
      if cleaned != "" then init + [cleaned] else init
  }

  predicate HasAsciiLetter(s: string) {
    exists i :: 0 <= i < |s| && IsAsciiLetter(s[i])
  }

  /** Quoted stage: keep a quoted group that contains an ASCII letter, stripped. */
  function QuotedCandidates(groups: seq<string>): seq<string>
    decreases |groups|
  {
    if groups == [] then []
    else
      var init := QuotedCandidates(groups[..|groups| - 1]);
      var g := groups[|groups| - 1];
      if HasAsciiLetter(g) then init + [Strip(g)] else init
  }

  /** Comma stage: a match "A, B" contributes "A B". */
  function CommaCandidates(pairs: seq<(string, string)>): (r: seq<string>)
    ensures |r| == |pairs|
    ensures forall i :: 0 <= i < |pairs| ==> r[i] == pairs[i].0 + " " + pairs[i].1
    decreases |pairs|
  {
    if pairs == [] then []
    else CommaCandidates(pairs[..|pairs| - 1]) + [pairs[|pairs| - 1].0 + " " + pairs[|pairs| - 1].1]
  }

  /** `found_locations`: the stages' candidates in stage order. */
  function Candidates(m: StageMatches): seq<string> {
    HintedCandidates(m.hinted) + QuotedCandidates(m.quoted) + CommaCandidates(m.commaPairs)
      + (if m.tail.Some? then [Strip(m.tail.value)] else [])
  }

  // ---------------------------------------------------------------------------
  // Normalisation and case-insensitive deduplication

  predicate IsSpaceOrComma(c: char) {
    c == ' ' || c == ','
  }

  /** `re.sub(r"\s+", " ", s).strip(" ,")`. */
  function Normalize(s: string): string {
    Trim(CollapseSpace(s), IsSpaceOrComma)
  }

  /** No whitespace but single spaces, and no space or comma at either end. */
  predicate IsNormalized(s: string) {
    && (s == [] || (!IsSpaceOrComma(s[0]) && !IsSpaceOrComma(s[|s| - 1])))
    && (forall i :: 0 <= i < |s| && IsSpace(s[i]) ==> s[i] == ' ')
    && (forall i, j :: 0 <= i && j == i + 1 < |s| ==> !(s[i] == ' ' && s[j] == ' '))
  }

  lemma NormalizeShape(s: string)
    ensures IsNormalized(Normalize(s))
  {
    var c := CollapseSpace(s);
    var lo := LeftCut(c, IsSpaceOrComma);
    var hi := RightCut(c, lo, IsSpaceOrComma);
    assert Normalize(s) == c[lo..hi];
  }

  /** The case-folded keys of a list, `seen_lower`. */
  function KeySet(items: seq<string>): set<string> {
    set i | 0 <= i < |items| :: Lower(items[i])
  }

  /** The first item of each case-folded key, in order of first appearance. */
  function DedupeCI(items: seq<string>): seq<string>
    decreases |items|
  {
    if items == [] then []
    else
      var u := DedupeCI(items[..|items| - 1]);
      var x := items[|items| - 1];
      if Lower(x) in KeySet(u) then u else u + [x]
  }

  /** Index of the first item whose case-folded form is `key`, or `|items|`. */
  function FirstWithKey(items: seq<string>, key: string): (r: nat)
    ensures r <= |items|
    ensures r < |items| ==> Lower(items[r]) == key
    ensures forall i :: 0 <= i < r ==> Lower(items[i]) != key
  {
    if items == [] then 0
    else if Lower(items[0]) == key then 0
    else 1 + FirstWithKey(items[1..], key)
  }

  /** Extending a list does not move the first occurrence of a key it already has. */
  lemma FirstWithKeyExtend(items: seq<string>, x: string, key: string)
    requires key in KeySet(items)
    ensures FirstWithKey(items + [x], key) == FirstWithKey(items, key)
  {
    var p := FirstWithKey(items, key);
    var i :| 0 <= i < |items| && Lower(items[i]) == key;
    assert p <= i;
    var q := FirstWithKey(items + [x], key);
    assert (items + [x])[p] == items[p];
    assert q <= p;
  }

  lemma KeySetAppend(items: seq<string>, x: string)
    ensures KeySet(items + [x]) == KeySet(items) + {Lower(x)}
  {
    var s := items + [x];
    assert forall k :: 0 <= k < |items| ==> s[k] == items[k];
    assert s[|items|] == x;
  }

  /** No two items share a case-folded key. */
  predicate DistinctKeys(r: seq<string>) {
    forall a, b :: 0 <= a < b < |r| ==> Lower(r[a]) != Lower(r[b])
  }

  /** Each item of `r` is the first item of `items` with its key, and `r` follows the order of those first items. */
  predicate FirstOccurrencesInOrder(items: seq<string>, r: seq<string>) {
    && (forall k :: 0 <= k < |r| ==>
          FirstWithKey(items, Lower(r[k])) < |items| && items[FirstWithKey(items, Lower(r[k]))] == r[k])
    && (forall a, b :: 0 <= a < b < |r| ==>
          FirstWithKey(items, Lower(r[a])) < FirstWithKey(items, Lower(r[b])))
  }

  /** Deduplication loses no key. */
  lemma {:induction false} DedupeKeys(items: seq<string>)
    ensures KeySet(DedupeCI(items)) == KeySet(items)
    decreases |items|
  {
    if items != [] {
      var init := items[..|items| - 1];
      var x := items[|items| - 1];
      assert items == init + [x];
      DedupeKeys(init);
      KeySetAppend(init, x);
      KeySetAppend(DedupeCI(init), x);
    }
  }

  /** Deduplication keeps one item per key. */
  lemma {:induction false} DedupeDistinct(items: seq<string>)
    ensures DistinctKeys(DedupeCI(items))
    decreases |items|
  {
    if items != [] {
      var init := items[..|items| - 1];
      var x := items[|items| - 1];
      DedupeDistinct(init);
      var u := DedupeCI(init);
      if Lower(x) !in KeySet(u) {
        var r := u + [x];
        forall a, b | 0 <= a < b < |r| ensures Lower(r[a]) != Lower(r[b]) {
          if b == |u| {
            assert Lower(u[a]) in KeySet(u);
          }
        }
      }
    }
  }

  /** The item kept for each key is its first occurrence, and kept items keep their input order. */
  lemma {:induction false} DedupeFirstOccurrences(items: seq<string>)
    ensures FirstOccurrencesInOrder(items, DedupeCI(items))
    decreases |items|
  {
    if items != [] {
      var init := items[..|items| - 1];
      var x := items[|items| - 1];
      assert items == init + [x];
      DedupeFirstOccurrences(init);
      DedupeKeys(init);
      FirstOccurrencesSnoc(init, x, DedupeCI(init));
    }
  }

  /** One more item keeps the kept items first occurrences, and adds itself last when its key is new. */
  lemma FirstOccurrencesSnoc(init: seq<string>, x: string, u: seq<string>)
    requires FirstOccurrencesInOrder(init, u) && KeySet(u) == KeySet(init)
    ensures FirstOccurrencesInOrder(init + [x], if Lower(x) in KeySet(u) then u else u + [x])
  {
    KeptKeysStay(init, x, u);
    if Lower(x) !in KeySet(u) {
      NewKeyLast(init, x, u);
    }
  }

  /** The first occurrence of a key already present does not move when an item is added. */
  lemma KeptKeysStay(init: seq<string>, x: string, u: seq<string>)
    requires KeySet(u) == KeySet(init)
    ensures forall k :: 0 <= k < |u| ==> FirstWithKey(init + [x], Lower(u[k])) == FirstWithKey(init, Lower(u[k]))
  {
    forall k | 0 <= k < |u| ensures FirstWithKey(init + [x], Lower(u[k])) == FirstWithKey(init, Lower(u[k])) {
      assert Lower(u[k]) in KeySet(u);
      FirstWithKeyExtend(init, x, Lower(u[k]));
    }
  }

  /** An added item with a key not seen before is that key's first occurrence. */
  lemma FirstWithNewKey(init: seq<string>, x: string)
    requires Lower(x) !in KeySet(init)
    ensures FirstWithKey(init + [x], Lower(x)) == |init|
  {
    var items := init + [x];
    var p := FirstWithKey(items, Lower(x));
    assert items[|init|] == x;
  }

  /** An item with a new key is its own first occurrence, after every kept one. */
  lemma NewKeyLast(init: seq<string>, x: string, u: seq<string>)
    requires FirstOccurrencesInOrder(init, u) && KeySet(u) == KeySet(init) && Lower(x) !in KeySet(u)
    requires forall k :: 0 <= k < |u| ==> FirstWithKey(init + [x], Lower(u[k])) == FirstWithKey(init, Lower(u[k]))
    ensures FirstOccurrencesInOrder(init + [x], u + [x])
  {
    FirstWithNewKey(init, x);
    NewKeyFirsts(init, x, u);
    NewKeyOrder(init, x, u);
  }

  lemma NewKeyFirsts(init: seq<string>, x: string, u: seq<string>)
    requires FirstOccurrencesInOrder(init, u) && FirstWithKey(init + [x], Lower(x)) == |init|
    requires forall k :: 0 <= k < |u| ==> FirstWithKey(init + [x], Lower(u[k])) == FirstWithKey(init, Lower(u[k]))
    ensures var items, r := init + [x], u + [x];
            forall k :: 0 <= k < |r| ==>
              FirstWithKey(items, Lower(r[k])) < |items| && items[FirstWithKey(items, Lower(r[k]))] == r[k]
  {
    var items, r := init + [x], u + [x];
    forall k | 0 <= k < |r|
      ensures FirstWithKey(items, Lower(r[k])) < |items| && items[FirstWithKey(items, Lower(r[k]))] == r[k]
    {
      if k < |u| {
        assert r[k] == u[k];
        var j := FirstWithKey(init, Lower(u[k]));
        assert items[j] == init[j];
      } else {
        assert r[k] == x && items[|init|] == x;
      }
    }
  }

  lemma NewKeyOrder(init: seq<string>, x: string, u: seq<string>)
    requires FirstOccurrencesInOrder(init, u) && FirstWithKey(init + [x], Lower(x)) == |init|
    requires forall k :: 0 <= k < |u| ==> FirstWithKey(init + [x], Lower(u[k])) == FirstWithKey(init, Lower(u[k]))
    ensures var items, r := init + [x], u + [x];
            forall a, b :: 0 <= a < b < |r| ==> FirstWithKey(items, Lower(r[a])) < FirstWithKey(items, Lower(r[b]))
  {
    var items, r := init + [x], u + [x];
    forall a, b | 0 <= a < b < |r| ensures FirstWithKey(items, Lower(r[a])) < FirstWithKey(items, Lower(r[b])) {
      assert r[a] == u[a];
      if b < |u| {
        assert r[b] == u[b];
      } else {
        assert r[b] == x;
      }
    }
  }

  /** `extract_locations` as a value: candidates normalised, deduplicated, first five. */
  function ExtractedLocations(m: StageMatches): (r: seq<string>)
    ensures |r| <= MaxLocations
    ensures DistinctKeys(r)
    ensures forall i :: 0 <= i < |r| ==> IsNormalized(r[i])
  {
    var found := Candidates(m);
    var normalized := seq(|found|, i requires 0 <= i < |found| => Normalize(found[i]));
    var unique := DedupeCI(normalized);
    DedupeDistinct(normalized);
    DedupeMembers(normalized);
    forall i | 0 <= i < |unique| ensures IsNormalized(unique[i]) {
      NormalizeShape(found[IndexIn(normalized, unique[i])]);
    }
    if |unique| <= MaxLocations then unique else unique[..MaxLocations]
  }

  /** Every deduplicated item is one of the input items. */
  lemma {:induction false} DedupeMembers(items: seq<string>)
    ensures forall x :: x in DedupeCI(items) ==> x in items
    decreases |items|
  {
    if items != [] {
      DedupeMembers(items[..|items| - 1]);
    }
  }

  function IndexIn(items: seq<string>, x: string): (i: nat)
    requires x in items
    ensures i < |items| && items[i] == x
  {
    if items[0] == x then 0 else 1 + IndexIn(items[1..], x)
  }

  // ---------------------------------------------------------------------------
  // The extractor as the source runs it

  /** `extract_locations`: the stage loops, then the normalise and dedupe passes and the cap. */
  method ExtractLocations(m: StageMatches) returns (locations: seq<string>)
    ensures locations == ExtractedLocations(m)
  {
    var found := CollectCandidates(m);
    var normalized := seq(|found|, i requires 0 <= i < |found| => Normalize(found[i]));
    var unique := DedupeCaseInsensitive(normalized);
    locations := if |unique| <= MaxLocations then unique else unique[..MaxLocations];
  }

  /** The four stage loops of `extract_locations`, appending to `found_locations`. */
  method CollectCandidates(m: StageMatches) returns (found: seq<string>)
    ensures found == Candidates(m)
  {
    found := AppendHinted([], m.hinted);
    assert found == HintedCandidates(m.hinted);
    found := AppendQuoted(found, m.quoted);
    found := AppendCommaPairs(found, m.commaPairs);
    var tail := if m.tail.Some? then [Strip(m.tail.value)] else [];
    if m.tail.Some? {
      found := found + [Strip(m.tail.value)];
    }
    assert found == HintedCandidates(m.hinted) + QuotedCandidates(m.quoted) + CommaCandidates(m.commaPairs) + tail;
  }

  /** The hinted-stage loop. */
  method AppendHinted(found0: seq<string>, fragments: seq<string>) returns (found: seq<string>)
    ensures found == found0 + HintedCandidates(fragments)
  {
    found := found0;
    var i := 0;
    while i < |fragments|
      invariant 0 <= i <= |fragments|
      invariant found == found0 + HintedCandidates(fragments[..i])
    {
      assert fragments[..i + 1][..i] == fragments[..i];
      var cleaned := Strip(fragments[i]);
      cleaned := CollapseSpace(cleaned);
      if cleaned != "" {
        found := found + [cleaned];
      }
      i := i + 1;
    }
    assert fragments[..|fragments|] == fragments;
  }

  /** The quoted-stage loop. */
  method AppendQuoted(found0: seq<string>, groups: seq<string>) returns (found: seq<string>)
    ensures found == found0 + QuotedCandidates(groups)
  {
    found := found0;
    var i := 0;
    while i < |groups|
      invariant 0 <= i <= |groups|
      invariant found == found0 + QuotedCandidates(groups[..i])
    {
      assert groups[..i + 1][..i] == groups[..i];
      var candidate := groups[i];
      if HasAsciiLetter(candidate) {
        found := found + [Strip(candidate)];
      }
      i := i + 1;
    }
    assert groups[..|groups|] == groups;
  }

  /** The comma-pair stage loop. */
  method AppendCommaPairs(found0: seq<string>, pairs: seq<(string, string)>) returns (found: seq<string>)
    ensures found == found0 + CommaCandidates(pairs)
  {
    found := found0;
    var i := 0;
    while i < |pairs|
      invariant 0 <= i <= |pairs|
      invariant found == found0 + CommaCandidates(pairs[..i])
    {
      assert pairs[..i + 1][..i] == pairs[..i];
      found := found + [pairs[i].0 + " " + pairs[i].1];
      i := i + 1;
    }
    assert pairs[..|pairs|] == pairs;
  }

  /** The `seen_lower` loop: keep an item only if its lower-cased form is new. */
  method DedupeCaseInsensitive(items: seq<string>) returns (unique: seq<string>)
    ensures unique == DedupeCI(items)
  {
    unique := [];
    var seenLower: set<string> := {};
    var i := 0;
    while i < |items|
      invariant 0 <= i <= |items|
      invariant unique == DedupeCI(items[..i])
      invariant seenLower == KeySet(unique)
    {
      assert items[..i + 1][..i] == items[..i];
      var item := items[i];
      var key := Lower(item);
      if key !in seenLower {
        KeySetAppend(unique, item);
        seenLower := seenLower + {key};
        unique := unique + [item];
      }
      i := i + 1;
    }
    assert items[..|items|] == items;
  }
}
