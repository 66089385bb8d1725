/**
 * One attempt of each console parser. The prompting loops around them
 * (`while True: input(...)`) re-ask until an attempt succeeds and are not
 * part of this model.
 */
module Parsers {
  import opened Wrappers
  import opened Text
  import opened Dates

  /** The label stored for an expense entered with a blank category ("Uncategorised"). */
  const Uncategorized: string := "Без категорії"

  lemma UncategorizedIsStripped()
    ensures IsStripped(Uncategorized) && Uncategorized != []
  {
  }

  /** `normalize_category`: the trimmed label, or the sentinel when nothing is left. */
  function NormalizeCategory(cat: string): (r: string)
    ensures r != [] && IsStripped(r)
    ensures Strip(cat) == [] ==> r == Uncategorized
    ensures Strip(cat) != [] ==> r == Strip(cat)
  {
    var c := Strip(cat);
    if c != [] then c else Uncategorized
  }

  /** Blank and whitespace-only labels all become the sentinel. */
  lemma BlankCategory(cat: string)
    requires forall i :: 0 <= i < |cat| ==> IsSpace(cat[i])
    ensures NormalizeCategory(cat) == Uncategorized
  {
    StripEmptyIff(cat);
  }

  /** Normalising a normalised label changes nothing. */
  lemma NormalizeCategoryIdempotent(cat: string)
    ensures NormalizeCategory(NormalizeCategory(cat)) == NormalizeCategory(cat)
  {
    StripOfStripped(NormalizeCategory(cat));
  }

  /**
   * One pass of `parse_date`: the stripped input read as `YYYY-MM-DD`, and on
   * success the `isoformat()` text of the date it names.
   */
  function ParseDateAttempt(raw: string): (r: Option<string>)
    ensures r.Some? ==> exists d :: ParseIso(r.value) == Some(d)
    ensures r.Some? ==> r.value == Strip(raw)
    ensures forall d :: Valid(d) && Format(d) == Strip(raw) ==> r == Some(Format(d))
  {
    ParseFormatAll(Strip(raw));
    match ParseIso(Strip(raw))
    case Some(d) => Some(Format(d))
    case None => None
  }

  /** The acceptance rule, both directions: exactly the ISO text of a real date is accepted. */
  lemma ParseDateAttemptIff(raw: string, d: Date)
    requires Valid(d)
    ensures ParseDateAttempt(raw) == Some(Format(d)) <==> Strip(raw) == Format(d)
  {
    if ParseDateAttempt(raw) == Some(Format(d)) {
      ParseFormat(d);
    }
  }

  /** Feeding back an accepted date is accepted again and yields the same text. */
  lemma ParseDateAttemptStable(raw: string)
    requires ParseDateAttempt(raw).Some?
    ensures ParseDateAttempt(ParseDateAttempt(raw).value) == ParseDateAttempt(raw)
  {
    var s := ParseDateAttempt(raw).value;
    var d :| ParseIso(s) == Some(d);
    StripOfStripped(s);
  }

  /** 2024 is a leap year, so its 29 February is a date. */
  lemma LeapDayAccepted()
    ensures ParseDateAttempt(" 2024-02-29 ") == Some("2024-02-29")
  {
    StripPaddedExample();
    FormatExample();
    ParseFormat(Date(2024, 2, 29));
  }

  lemma StripPaddedExample()
    ensures Strip(" 2024-02-29 ") == "2024-02-29"
  {
    TrimLeftExample();
    TrimRightExample();
  }

  lemma TrimLeftExample()
    ensures TrimLeft(" 2024-02-29 ") == "2024-02-29 "
  {
    assert " 2024-02-29 "[1..] == "2024-02-29 ";
    assert !IsSpace('2');
  }

  lemma TrimRightExample()
    ensures TrimRight("2024-02-29 ") == "2024-02-29"
  {
    assert "2024-02-29 "[..10] == "2024-02-29";
    assert !IsSpace('9');
  }

  lemma FormatExample()
    ensures Valid(Date(2024, 2, 29)) && Format(Date(2024, 2, 29)) == "2024-02-29"
  {
    assert TwoDigits(20) == "20" && TwoDigits(24) == "24";
    assert TwoDigits(2) == "02" && TwoDigits(29) == "29";
  }

  /** 2026 is not a leap year, so its 29 February is refused. */
  lemma NonLeapDayRefused()
    ensures ParseDateAttempt("2026-02-29") == None
  {
    var s := "2026-02-29";
    StripOfStripped(s);
    NonLeapDayLayout();
    assert !Valid(Date(2026, 2, 29));
  }

  lemma NonLeapDayLayout()
    ensures HasIsoLayout("2026-02-29")
    ensures ValueAt("2026-02-29", 0) == 20 && ValueAt("2026-02-29", 2) == 26
    ensures ValueAt("2026-02-29", 5) == 2 && ValueAt("2026-02-29", 8) == 29
  {
  }

  /** What one pass of `parse_float` decides about one line. */
  datatype AmountOutcome = Accepted(value: real) | Negative | NotANumber

  predicate IsSeparator(c: char) {
    c == ',' || c == '.'
  }

  /** `raw.strip().replace(",", ".")`. */
  function DecimalPoint(s: string): (r: string)
    ensures |r| == |s|
    ensures forall i :: 0 <= i < |s| ==> r[i] == if s[i] == ',' then '.' else s[i]
  {
    seq(|s|, i requires 0 <= i < |s| => if s[i] == ',' then '.' else s[i])
  }

  function PreparedAmount(raw: string): string {
    DecimalPoint(Strip(raw))
  }

  /** The text handed to `float()` is the trimmed input with no comma left in it. */
  lemma PreparedAmountHasNoComma(raw: string)
    ensures |PreparedAmount(raw)| == |Strip(raw)| <= |raw|
    ensures forall i :: 0 <= i < |PreparedAmount(raw)| ==> PreparedAmount(raw)[i] != ','
    ensures forall i :: 0 <= i < |PreparedAmount(raw)| && Strip(raw)[i] != ',' ==> PreparedAmount(raw)[i] == Strip(raw)[i]
  {
  }

  /**
   * One pass of `parse_float`. Python's `float()` is not modelled: `toFloat`
   * stands for it, None meaning it raised `ValueError`.
   */
  function ParseAmountAttempt(raw: string, toFloat: string -> Option<real>): (r: AmountOutcome)
    ensures r.Accepted? ==> r.value >= 0.0
    ensures r.Accepted? <==> toFloat(PreparedAmount(raw)).Some? && toFloat(PreparedAmount(raw)).value >= 0.0
    ensures r.Accepted? ==> r.value == toFloat(PreparedAmount(raw)).value
    ensures r == Negative <==> toFloat(PreparedAmount(raw)).Some? && toFloat(PreparedAmount(raw)).value < 0.0
  {
    match toFloat(PreparedAmount(raw))
    case None => NotANumber
    case Some(v) => if v < 0.0 then Negative else Accepted(v)
  }

  /** The two texts differ at most in which decimal separator they use. */
  predicate SameUpToSeparator(a: string, b: string) {
    |a| == |b| && forall i :: 0 <= i < |a| ==> a[i] == b[i] || (IsSeparator(a[i]) && IsSeparator(b[i]))
  }

  /** `"12,50"` and `"12.50"` are read alike, whatever `float()` does. */
  lemma CommaOrPoint(a: string, b: string, toFloat: string -> Option<real>)
    requires SameUpToSeparator(a, b)
    ensures ParseAmountAttempt(a, toFloat) == ParseAmountAttempt(b, toFloat)
  {
    TrimLeftSameUpToSeparator(a, b);
    TrimRightSameUpToSeparator(TrimLeft(a), TrimLeft(b));
    assert PreparedAmount(a) == PreparedAmount(b);
  }

  lemma {:induction false} TrimLeftSameUpToSeparator(a: string, b: string)
    requires SameUpToSeparator(a, b)
    ensures SameUpToSeparator(TrimLeft(a), TrimLeft(b))
  {
    if a != [] && IsSpace(a[0]) {
      TrimLeftSameUpToSeparator(a[1..], b[1..]);
    }
  }

  lemma {:induction false} TrimRightSameUpToSeparator(a: string, b: string)
    requires SameUpToSeparator(a, b)
    ensures SameUpToSeparator(TrimRight(a), TrimRight(b))
  {
    if a != [] && IsSpace(a[|a| - 1]) {
      TrimRightSameUpToSeparator(a[..|a| - 1], b[..|b| - 1]);
    }
  }
}
