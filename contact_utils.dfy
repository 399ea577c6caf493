/**
 * The contact-dictionary helpers of the extractor: listing empty fields,
 * filling missing fields from a newer scrape, and normalising phone numbers.
 */
module ContactUtils {
  import opened Text

  /** A value stored in a scraped contact dictionary. */
  datatype Value =
    | Null
    | Str(s: string)
    | Num(n: int)
    | Flag(b: bool)
    | Items(items: seq<Value>)
    | Record(fields: seq<(string, Value)>)

  /** Python truthiness: None, "", 0, False and empty containers are falsy. */
  predicate Truthy(v: Value) {
    match v
    case Null => false
    case Str(s) => s != ""
    case Num(n) => n != 0
    case Flag(b) => b
    case Items(xs) => xs != []
    case Record(fs) => fs != []
  }

  // ---------------------------------------------------------------------------
  // find_empty_fields

  /** The reported name of key `k`: `parent.k`, or just `k` when `parent` is empty. */
  function Qualified(parent: string, k: string): string {
    if parent != "" then parent + "." + k else k
  }

  /** The qualified keys of the falsy entries of `data`, in dictionary order. */
  function EmptyFields(data: seq<(string, Value)>, parent: string): seq<string>
    decreases |data|
  {
    if data == [] then []
    else
      var init := EmptyFields(data[..|data| - 1], parent);
      var entry := data[|data| - 1];
      if Truthy(entry.1) then init else init + [Qualified(parent, entry.0)]
  }

  /** `find_empty_fields`: one pass over the entries, appending each falsy key. */
  method FindEmptyFields(data: seq<(string, Value)>, parent: string) returns (empty: seq<string>)
    ensures empty == EmptyFields(data, parent)
  {
    empty := [];
    var i := 0;
    while i < |data|
      invariant 0 <= i <= |data|
      invariant empty == EmptyFields(data[..i], parent)
    {
      var (k, v) := data[i];
      assert data[..i + 1][..i] == data[..i];
      if !Truthy(v) {
        empty := empty + [Qualified(parent, k)];
      }
      i := i + 1;
    }
    assert data[..|data|] == data;
  }

  /** A name is reported exactly when some entry with that key is falsy. */
  lemma {:induction false} EmptyFieldsExact(data: seq<(string, Value)>, parent: string, x: string)
    ensures x in EmptyFields(data, parent) <==>
            exists i :: 0 <= i < |data| && !Truthy(data[i].1) && x == Qualified(parent, data[i].0)
    decreases |data|
  {
    if data != [] {
      var init := data[..|data| - 1];
      EmptyFieldsExact(init, parent, x);
      if x in EmptyFields(data, parent) && x !in EmptyFields(init, parent) {
        assert !Truthy(data[|data| - 1].1) && x == Qualified(parent, data[|data| - 1].0);
      }
      if exists i :: 0 <= i < |data| && !Truthy(data[i].1) && x == Qualified(parent, data[i].0) {
        var i :| 0 <= i < |data| && !Truthy(data[i].1) && x == Qualified(parent, data[i].0);
        if i < |data| - 1 {
          assert init[i] == data[i];
        }
      }
    }
  }

  /** At most one name per entry, so never more names than entries. */
  lemma {:induction false} EmptyFieldsLength(data: seq<(string, Value)>, parent: string)
    ensures |EmptyFields(data, parent)| <= |data|
    decreases |data|
  {
    if data != [] {
      EmptyFieldsLength(data[..|data| - 1], parent);
    }
  }

  // ---------------------------------------------------------------------------
  // merge_data

  /** A Python dictionary of contact fields, mutated in place by `MergeData`. */
  class ContactDict {
    var entries: map<string, Value>

    constructor (entries: map<string, Value>)
      ensures this.entries == entries
    {
      this.entries := entries;
    }
  }

  /** `old.get(k)` is truthy. */
  predicate HasTruthy(m: map<string, Value>, k: string) {
    k in m && Truthy(m[k])
  }

  /** The dictionary `merge_data` leaves behind: keys of `n` whose old value is missing or falsy take `n`'s value. */
  function Merged(o: map<string, Value>, n: map<string, Value>): map<string, Value> {
    map k | k in o.Keys + n.Keys :: if k in n && !HasTruthy(o, k) then n[k] else o[k]
  }

  /** `merge_data`: fills `existing` (the source's `old`) from `incoming` (`new`) in place and returns the same object. */
  method MergeData(existing: ContactDict, incoming: map<string, Value>) returns (r: ContactDict)
    modifies existing
    ensures r == existing
    ensures existing.entries == Merged(old(existing.entries), incoming)
  {
    ghost var o := existing.entries;
    var todo := incoming.Keys;
    while todo != {}
      invariant todo <= incoming.Keys
      invariant existing.entries == Merged(o, map k | k in incoming.Keys - todo :: incoming[k])
      decreases todo
    {
      var k :| k in todo;
      ghost var done := map j | j in incoming.Keys - todo :: incoming[j];
      ghost var done' := map j | j in incoming.Keys - (todo - {k}) :: incoming[j];
      assert existing.entries == Merged(o, done);
      assert k !in done;
      if !(k in existing.entries && Truthy(existing.entries[k])) {
        existing.entries := existing.entries[k := incoming[k]];
      }
      assert Merged(o, done') == existing.entries by {
        assert Merged(o, done').Keys == existing.entries.Keys;
        forall j | j in existing.entries ensures Merged(o, done')[j] == existing.entries[j] {
          if j != k {
            assert j in done' <==> j in done;
          }
        }
      }
      todo := todo - {k};
    }
    assert (map k | k in incoming.Keys - {} :: incoming[k]) == incoming;
    r := existing;
  }

  /** What a merge keeps and what it fills in. */
  lemma MergedFields(o: map<string, Value>, n: map<string, Value>, k: string)
    ensures k in Merged(o, n) <==> k in o || k in n
    ensures HasTruthy(o, k) ==> Merged(o, n)[k] == o[k]
    ensures k !in n && k in o ==> Merged(o, n)[k] == o[k]
    ensures k in n && !HasTruthy(o, k) ==> Merged(o, n)[k] == n[k]
  {
  }

  /** Repeating the same merge changes nothing. */
  lemma MergeIdempotent(o: map<string, Value>, n: map<string, Value>)
    ensures Merged(Merged(o, n), n) == Merged(o, n)
  {
    var m := Merged(o, n);
    forall k | k in m ensures Merged(m, n)[k] == m[k] {
      if k in n && !HasTruthy(m, k) {
        assert !HasTruthy(o, k);
      }
    }
    assert Merged(m, n).Keys == m.Keys;
  }

  // ---------------------------------------------------------------------------
  // clean_phone_numbers

  /** `re.sub(r"[^\d+]", "", raw)`: only digits and plus signs survive. */
  function DigitsAndPlus(raw: string): (r: string)
    ensures forall i :: 0 <= i < |r| ==> IsDigit(r[i]) || r[i] == '+'
    ensures |r| <= |raw|
  {
    if raw == [] then []
    else (if IsDigit(raw[0]) || raw[0] == '+' then [raw[0]] else []) + DigitsAndPlus(raw[1..])
  }

  predicate AllDigits(s: string) {
    forall i :: 0 <= i < |s| ==> IsDigit(s[i])
  }

  /** `re.fullmatch(r"\+?\d{8,15}", d)`. */
  predicate PhonePattern(d: string) {
    || (AllDigits(d) && 8 <= |d| <= 15)
    || (|d| >= 1 && d[0] == '+' && AllDigits(d[1..]) && 8 <= |d| - 1 <= 15)
  }

  /** An unprefixed number of ten or more digits gains a leading `+`. */
  function AddPlus(d: string): string {
    if |d| >= 10 && d[0] != '+' then "+" + d else d
  }

  /** The `cleaned` list, in input order, before the final set conversion. */
  function Cleaned(phones: seq<string>): seq<string>
    decreases |phones|
  {
    if phones == [] then []
    else
      var init := Cleaned(phones[..|phones| - 1]);
      var d := DigitsAndPlus(phones[|phones| - 1]);
      if PhonePattern(d) then init + [AddPlus(d)] else init
  }

  /** The shape of every phone number the cleaner outputs. */
  predicate WellFormedPhone(x: string) {
    || (|x| >= 1 && x[0] == '+' && AllDigits(x[1..]) && 8 <= |x| - 1 <= 15)
    || (AllDigits(x) && 8 <= |x| <= 9)
  }

  /** `clean_phone_numbers`: filter and normalise, then drop duplicates (the source's order is a set's). */
  method CleanPhoneNumbers(phones: seq<string>) returns (r: seq<string>)
    ensures forall x :: x in r <==> x in Cleaned(phones)
    ensures forall i, j :: 0 <= i < j < |r| ==> r[i] != r[j]
    ensures |r| <= |phones|
  {
    var cleaned := CleanEach(phones);
    CleanedLength(phones);
    r := Distinct(cleaned);
  }

  /** The loop of `clean_phone_numbers` that builds `cleaned`. */
  method CleanEach(phones: seq<string>) returns (cleaned: seq<string>)
    ensures cleaned == Cleaned(phones)
  {
    cleaned := [];
    var i := 0;
    while i < |phones|
      invariant 0 <= i <= |phones|
      invariant cleaned == Cleaned(phones[..i])
    {
      var d := DigitsAndPlus(phones[i]);
      assert phones[..i + 1][..i] == phones[..i];
      if PhonePattern(d) {
        if !(d[0] == '+') && |d| >= 10 {
          d := "+" + d;
        }
        cleaned := cleaned + [d];
      }
      i := i + 1;
    }
    assert phones[..|phones|] == phones;
  }

  /** `list(set(cleaned))`: the same members, each once. */
  method Distinct(xs: seq<string>) returns (r: seq<string>)
    ensures forall x :: x in r <==> x in xs
    ensures forall i, j :: 0 <= i < j < |r| ==> r[i] != r[j]
    ensures |r| <= |xs|
  {
    r := [];
    var j := 0;
    while j < |xs|
      invariant 0 <= j <= |xs|
      invariant forall x :: x in r <==> x in xs[..j]
      invariant forall a, b :: 0 <= a < b < |r| ==> r[a] != r[b]
      invariant |r| <= j
    {
      assert xs[..j + 1] == xs[..j] + [xs[j]];
      if xs[j] !in r {
        r := r + [xs[j]];
      }
      j := j + 1;
    }
    assert xs[..|xs|] == xs;
  }

  lemma {:induction false} CleanedLength(phones: seq<string>)
    ensures |Cleaned(phones)| <= |phones|
    decreases |phones|
  {
    if phones != [] {
      CleanedLength(phones[..|phones| - 1]);
    }
  }

  /** Every cleaned number is an optional `+` and 8 to 15 digits, and unprefixed ones have 8 or 9 digits. */
  lemma {:induction false} CleanedWellFormed(phones: seq<string>)
    ensures forall x :: x in Cleaned(phones) ==> WellFormedPhone(x)
    decreases |phones|
  {
    if phones != [] {
      CleanedWellFormed(phones[..|phones| - 1]);
      var d := DigitsAndPlus(phones[|phones| - 1]);
      if PhonePattern(d) {
        var x := AddPlus(d);
        if |d| >= 10 && d[0] != '+' {
          assert x[1..] == d;
        }
        assert WellFormedPhone(x);
      }
    }
  }

  /** An input contributes a number exactly when its digits-and-plus projection fits the pattern. */
  lemma {:induction false} CleanedExact(phones: seq<string>, x: string)
    ensures x in Cleaned(phones) <==>
            exists i :: 0 <= i < |phones| && PhonePattern(DigitsAndPlus(phones[i])) && x == AddPlus(DigitsAndPlus(phones[i]))
    decreases |phones|
  {
    if phones != [] {
      var init := phones[..|phones| - 1];
      CleanedExact(init, x);
      if exists i :: 0 <= i < |phones| && PhonePattern(DigitsAndPlus(phones[i])) && x == AddPlus(DigitsAndPlus(phones[i])) {
        var i :| 0 <= i < |phones| && PhonePattern(DigitsAndPlus(phones[i])) && x == AddPlus(DigitsAndPlus(phones[i]));
        if i < |phones| - 1 {
          assert init[i] == phones[i];
        }
      }
    }
  }
}
