/**
 * `parse_email_response`: the labelled fields of a generated reply.  Each
 * field is found by its own regular-expression search; the searches are
 * spelled out here as what they match: the first case-insensitive occurrence
 * of the label, the whitespace after it, and the shortest value that reaches
 * the field's end marker.
 */
module ResponseParser {
  import opened Wrappers
  import opened Text

  /** The labels, in lower case; a label matches whatever the case of its letters. */
  const SubjectLabel: string := "subject:"
  const ReplyLabel: string := "reply:"
  const DateLabel: string := "scheduled_date:"
  const ReasoningLabel: string := "reasoning:"

  /** `label` occurs at index `p` of `s`, ignoring ASCII letter case. */
  predicate LabelAt(s: string, key: string, p: nat) {
    p + |key| <= |s| && Lower(s[p..p + |key|]) == key
  }

  /** The first index at or after `from` where `label` occurs. */
  function FindLabel(s: string, key: string, from: nat): (r: Option<nat>)
    ensures r.Some? ==> from <= r.value && LabelAt(s, key, r.value)
    ensures r.Some? ==> forall j :: from <= j < r.value ==> !LabelAt(s, key, j)
    ensures r.None? ==> forall j :: from <= j ==> !LabelAt(s, key, j)
    decreases |s| - from
  {
    if from + |key| > |s| then None
    else if LabelAt(s, key, from) then Some(from)
    else FindLabel(s, key, from + 1)
  }

  /**
   * What ends a value: a newline (`(?:\n|$)` without DOTALL), the next
   * date or reasoning label (`(?=SCHEDULED_DATE:|REASONING:|$)`), or only
   * the end of the text (`$`).  `$` also matches before a final newline.
   */
  datatype Extent = ToLineEnd | ToNextLabel(stops: seq<string>) | ToTextEnd

  /** The reply's end markers besides the end of the text. */
  const ReplyStops: seq<string> := [DateLabel, ReasoningLabel]

  /** One of `stops` occurs at `t`. */
  predicate StopAt(s: string, stops: seq<string>, t: nat) {
    stops != [] && (LabelAt(s, stops[0], t) || StopAt(s, stops[1..], t))
  }

  predicate EndsValue(s: string, t: nat, extent: Extent)
    requires t <= |s|
  {
    || t == |s|
    || (t == |s| - 1 && s[t] == '\n')
    || match extent
       case ToLineEnd => s[t] == '\n'
       case ToNextLabel(stops) => StopAt(s, stops, t)
       case ToTextEnd => false
  }

  /** Where the lazy `(.+?)` stops: the first end marker at or after `from`. */
  function ValueEnd(s: string, from: nat, extent: Extent): (t: nat)
    requires from <= |s|
    ensures from <= t <= |s|
    ensures EndsValue(s, t, extent)
    ensures forall j :: from <= j < t ==> !EndsValue(s, j, extent)
    decreases |s| - from
  {
    if EndsValue(s, from, extent) then from else ValueEnd(s, from + 1, extent)
  }

  /**
   * When only whitespace follows the label, `\s*` gives characters back and
   * `(.+?)` takes one of them: this needs a character the value may hold.
   */
  predicate CanTakeSpace(s: string, q: nat, extent: Extent) {
    if extent == ToLineEnd then exists r :: q <= r < |s| && s[r] != '\n' else q < |s|
  }

  /** Where the whitespace after a label at `p` ends. */
  function ValueStart(s: string, key: string, p: nat): (w: nat)
    requires p + |key| <= |s|
    ensures p + |key| <= w <= |s|
    ensures forall i :: p + |key| <= i < w ==> IsSpace(s[i])
    ensures w < |s| ==> !IsSpace(s[w])
  {
    p + |key| + LeftCut(s[p + |key|..], IsSpace)
  }

  /** What the search makes of the occurrence of `key` at `p`. */
  function Match(s: string, key: string, p: nat, extent: Extent): Option<string>
    requires p + |key| <= |s|
  {
    var w := ValueStart(s, key, p);
    if w < |s| then Some(Strip(s[w..ValueEnd(s, w + 1, extent)]))
    else if CanTakeSpace(s, p + |key|, extent) then Some("")
    else None
  }

  /** One field's search: the stripped group at the first occurrence, or `None` when the search finds nothing. */
  function Field(s: string, key: string, extent: Extent): Option<string> {
    match FindLabel(s, key, 0)
    case None => None
    case Some(p) => Match(s, key, p, extent)
  }

  lemma StripTwice(s: string)
    ensures Strip(Strip(s)) == Strip(s)
  {
    TrimUnchanged(Strip(s), IsSpace);
  }

  /** A piece with no newline after its first character, which is not a space, strips to a single line. */
  lemma PieceOneLine(s: string, w: nat, t: nat)
    requires w < t <= |s| && !IsSpace(s[w])
    requires forall j :: w < j < t ==> s[j] != '\n'
    ensures '\n' !in Strip(s[w..t])
  {
    var v := s[w..t];
    forall k | 0 <= k < |v| ensures v[k] != '\n' {
      assert v[k] == s[w + k];
    }
    TrimAvoids(v, IsSpace, '\n');
  }

  /** A line value ends before the first newline after its start. */
  lemma LineValue(s: string, w: nat)
    requires w < |s| && !IsSpace(s[w])
    ensures '\n' !in Strip(s[w..ValueEnd(s, w + 1, ToLineEnd)])
  {
    var t := ValueEnd(s, w + 1, ToLineEnd);
    forall j | w < j < t ensures s[j] != '\n' {
      assert !EndsValue(s, j, ToLineEnd);
    }
    PieceOneLine(s, w, t);
  }

  lemma MatchOneLine(s: string, key: string, p: nat)
    requires p + |key| <= |s|
    ensures Match(s, key, p, ToLineEnd).Some? ==> '\n' !in Match(s, key, p, ToLineEnd).value
  {
    var w := ValueStart(s, key, p);
    if w < |s| {
      LineValue(s, w);
    }
  }

  /** A line field's value holds no newline. */
  lemma LineFieldIsOneLine(s: string, key: string)
    ensures Field(s, key, ToLineEnd).Some? ==> '\n' !in Field(s, key, ToLineEnd).value
  {
    if FindLabel(s, key, 0).Some? {
      MatchOneLine(s, key, FindLabel(s, key, 0).value);
    }
  }

  /** The stops of the reply are the date and the reasoning labels. */
  lemma ReplyStopsAre(s: string, t: nat)
    ensures StopAt(s, ReplyStops, t) <==> LabelAt(s, DateLabel, t) || LabelAt(s, ReasoningLabel, t)
  {
    var rest := ReplyStops[1..];
    assert rest == [ReasoningLabel] && rest[1..] == [];
    assert !StopAt(s, rest[1..], t);
    assert StopAt(s, rest, t) <==> LabelAt(s, ReasoningLabel, t);
  }

  /** A value searched up to a stop label ends at the first stop after it starts. */
  lemma StopsAtFirstStop(s: string, key: string, stops: seq<string>)
    requires FindLabel(s, key, 0).Some?
    ensures var p := FindLabel(s, key, 0).value;
            var w := ValueStart(s, key, p);
            w < |s| ==>
              var t := ValueEnd(s, w + 1, ToNextLabel(stops));
              Field(s, key, ToNextLabel(stops)) == Some(Strip(s[w..t])) &&
              (t == |s| || (t == |s| - 1 && s[t] == '\n') || StopAt(s, stops, t)) &&
              forall j :: w < j < t ==> !StopAt(s, stops, j)
  {
    var p := FindLabel(s, key, 0).value;
    var w := ValueStart(s, key, p);
    assert Field(s, key, ToNextLabel(stops)) == Match(s, key, p, ToNextLabel(stops));
    if w < |s| {
      var t := ValueEnd(s, w + 1, ToNextLabel(stops));
      forall j | w < j < t ensures !StopAt(s, stops, j) {
        assert !EndsValue(s, j, ToNextLabel(stops));
      }
    }
  }

  /** A trailing newline changes nothing once the text is stripped. */
  lemma StripDropsFinalNewline(v: string)
    requires v != [] && !IsSpace(v[0])
    ensures Strip(v + "\n") == Strip(v)
  {
    var u := v + "\n";
    assert LeftCut(u, IsSpace) == 0 && LeftCut(v, IsSpace) == 0;
    assert u[..|u| - 1] == v;
    assert RightCut(u, 0, IsSpace) == RightCut(v, 0, IsSpace);
    assert u[0..RightCut(v, 0, IsSpace)] == v[0..RightCut(v, 0, IsSpace)];
  }

  /** A piece that runs to the end of the text, or to a final newline, strips to the same value as the whole rest. */
  lemma PieceToEnd(s: string, w: nat, t: nat)
    requires w < t <= |s| && !IsSpace(s[w])
    requires t == |s| || (t == |s| - 1 && s[t] == '\n')
    ensures Strip(s[w..t]) == Strip(s[w..])
  {
    if t < |s| {
      var v := s[w..t];
      assert s[w..] == v + "\n";
      StripDropsFinalNewline(v);
    }
  }

  /** With only the end of the text to stop it, a value starting at `w` runs to the end. */
  lemma ValueToEnd(s: string, w: nat)
    requires w < |s| && !IsSpace(s[w])
    ensures Strip(s[w..ValueEnd(s, w + 1, ToTextEnd)]) == Strip(s[w..])
  {
    var t := ValueEnd(s, w + 1, ToTextEnd);
    assert EndsValue(s, t, ToTextEnd);
    PieceToEnd(s, w, t);
  }

  lemma MatchToEnd(s: string, key: string, p: nat)
    requires p + |key| <= |s|
    ensures var w := ValueStart(s, key, p);
            w < |s| ==> Match(s, key, p, ToTextEnd) == Some(Strip(s[w..]))
  {
    var w := ValueStart(s, key, p);
    if w < |s| {
      ValueToEnd(s, w);
    }
  }

  /** The reasoning runs from its label to the end of the text, across lines. */
  lemma ReasoningToEnd(s: string)
    requires FindLabel(s, ReasoningLabel, 0).Some?
    ensures var p := FindLabel(s, ReasoningLabel, 0).value;
            var w := ValueStart(s, ReasoningLabel, p);
            w < |s| ==> Field(s, ReasoningLabel, ToTextEnd) == Some(Strip(s[w..]))
  {
    MatchToEnd(s, ReasoningLabel, FindLabel(s, ReasoningLabel, 0).value);
  }

  /** The parsed fields; a field is `None` where the dictionary has no key. */
  datatype Parsed = Parsed(subject: Option<string>, reply: Option<string>,
                           scheduledDate: Option<string>, reasoning: Option<string>)

  /** `parse_email_response`. */
  function ParseEmailResponse(response: string): (r: Parsed)
    ensures r.subject.Some? ==> FindLabel(response, SubjectLabel, 0).Some?
    ensures r.scheduledDate.Some? ==> FindLabel(response, DateLabel, 0).Some?
    ensures r.reply.Some? <==>
              FindLabel(response, ReplyLabel, 0).Some? && FindLabel(response, ReplyLabel, 0).value + |ReplyLabel| < |response|
    ensures r.reasoning.Some? <==>
              FindLabel(response, ReasoningLabel, 0).Some? &&
              FindLabel(response, ReasoningLabel, 0).value + |ReasoningLabel| < |response|
  {
    FieldAnywhere(response, ReplyLabel, ToNextLabel(ReplyStops));
    FieldAnywhere(response, ReasoningLabel, ToTextEnd);
    Parsed(Field(response, SubjectLabel, ToLineEnd),
           Field(response, ReplyLabel, ToNextLabel(ReplyStops)),
           Field(response, DateLabel, ToLineEnd),
           Field(response, ReasoningLabel, ToTextEnd))
  }

  /** Every value is stripped, and the subject and the date are single lines. */
  lemma ParsedValuesClean(response: string)
    ensures var r := ParseEmailResponse(response);
            (r.subject.Some? ==> Strip(r.subject.value) == r.subject.value && '\n' !in r.subject.value) &&
            (r.reply.Some? ==> Strip(r.reply.value) == r.reply.value) &&
            (r.scheduledDate.Some? ==> Strip(r.scheduledDate.value) == r.scheduledDate.value &&
                                       '\n' !in r.scheduledDate.value) &&
            (r.reasoning.Some? ==> Strip(r.reasoning.value) == r.reasoning.value)
  {
    LineFieldIsOneLine(response, SubjectLabel);
    LineFieldIsOneLine(response, DateLabel);
    FieldStripped(response, SubjectLabel, ToLineEnd);
    FieldStripped(response, ReplyLabel, ToNextLabel(ReplyStops));
    FieldStripped(response, DateLabel, ToLineEnd);
    FieldStripped(response, ReasoningLabel, ToTextEnd);
  }

  lemma MatchStripped(s: string, key: string, p: nat, extent: Extent)
    requires p + |key| <= |s|
    ensures Match(s, key, p, extent).Some? ==> Strip(Match(s, key, p, extent).value) == Match(s, key, p, extent).value
  {
    var w := ValueStart(s, key, p);
    if w < |s| {
      StripTwice(s[w..ValueEnd(s, w + 1, extent)]);
    }
  }

  lemma FieldStripped(s: string, key: string, extent: Extent)
    ensures Field(s, key, extent).Some? ==> Strip(Field(s, key, extent).value) == Field(s, key, extent).value
  {
    if FindLabel(s, key, 0).Some? {
      MatchStripped(s, key, FindLabel(s, key, 0).value, extent);
    }
  }

  /** A value that may hold any character is found unless the label ends the text. */
  lemma MatchAnywhere(s: string, key: string, p: nat, extent: Extent)
    requires p + |key| <= |s| && extent != ToLineEnd
    ensures Match(s, key, p, extent).Some? <==> p + |key| < |s|
  {
    if p + |key| == |s| {
      assert ValueStart(s, key, p) == |s|;
    }
  }

  /** A field whose value may hold any character is found exactly when its first label does not end the text. */
  lemma FieldAnywhere(s: string, key: string, extent: Extent)
    requires extent != ToLineEnd
    ensures Field(s, key, extent).Some? <==>
              FindLabel(s, key, 0).Some? && FindLabel(s, key, 0).value + |key| < |s|
  {
    if FindLabel(s, key, 0).Some? {
      MatchAnywhere(s, key, FindLabel(s, key, 0).value, extent);
    }
  }
}
