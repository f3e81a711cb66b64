/** Whole numbers as the client writes them into paths and form fields
    (`${petId}`, `id.toString()`) and reads them back (`Number(field)`). */
module Numbers {
  import opened Wrappers
  import opened Text

  /** A JavaScript number as far as this client produces one: a whole
      non-negative value, or the NaN that `Number` yields on text that is
      not a number. */
  datatype Number = Whole(value: nat) | NaN

  predicate IsDigit(c: char) {
    '0' <= c <= '9'
  }

  predicate AllDigits(s: string) {
    forall i :: 0 <= i < |s| ==> IsDigit(s[i])
  }

  function DigitChar(d: nat): (c: char)
    requires d < 10
    ensures IsDigit(c) && c as int - '0' as int == d
  {
    ('0' as int + d) as char
  }

  function DigitValue(c: char): nat
    requires IsDigit(c)
  {
    c as int - '0' as int
  }

  /** The decimal rendering of `n`, without leading zeros. */
  function NatToString(n: nat): (s: string)
    ensures |s| >= 1 && AllDigits(s)
    ensures |s| > 1 ==> s[0] != '0'
  {
    if n < 10 then [DigitChar(n)] else NatToString(n / 10) + [DigitChar(n % 10)]
  }

  /** The value of a string of decimal digits, read most significant first. */
  function DigitsValue(s: string): nat
    requires AllDigits(s)
  {
    if s == [] then 0 else DigitsValue(s[..|s| - 1]) * 10 + DigitValue(s[|s| - 1])
  }

  /** Reads a non-empty run of decimal digits; anything else is refused. */
  function ParseNat(s: string): (r: Option<nat>)
    ensures r.Some? <==> |s| >= 1 && AllDigits(s)
  {
    if |s| >= 1 && AllDigits(s) then Some(DigitsValue(s)) else None
  }

  /** Reading back the rendering of `n` gives `n`. */
  lemma {:induction false} ParseNatToString(n: nat)
    ensures ParseNat(NatToString(n)) == Some(n)
  {
    var s := NatToString(n);
    if n >= 10 {
      var prefix := NatToString(n / 10);
      ParseNatToString(n / 10);
      assert s[..|s| - 1] == prefix && s[|s| - 1] == DigitChar(n % 10);
      assert DigitsValue(s) == DigitsValue(prefix) * 10 + n % 10;
    }
  }

  /** Distinct numbers render differently. */
  lemma NatToStringInjective(m: nat, n: nat)
    requires NatToString(m) == NatToString(n)
    ensures m == n
  {
    ParseNatToString(m);
    ParseNatToString(n);
  }

  /** `Number(s)` for the text of a form field: surrounding whitespace is
      ignored, the empty (or blank) text is 0, a run of decimal digits is its
      value, and any other text is NaN. */
  function ToNumber(s: string): (r: Number)
    ensures IsBlank(s) ==> r == Whole(0)
    ensures r.NaN? <==> !IsBlank(s) && !AllDigits(Trim(s))
    ensures !IsBlank(s) && AllDigits(Trim(s)) ==> r == Whole(DigitsValue(Trim(s)))
  {
    var t := Trim(s);
    if t == [] then Whole(0)
    else match ParseNat(t)
      case Some(n) => Whole(n)
      case None => NaN
  }

  /** `x.toString()`. */
  function NumberToString(x: Number): (s: string)
    ensures s != []
    ensures x.Whole? ==> AllDigits(s)
    ensures x.NaN? ==> s == "NaN"
  {
    match x
    case Whole(n) => NatToString(n)
    case NaN => "NaN"
  }

  /** A number's rendering reads back as that number. */
  lemma WholeRoundTrip(n: nat)
    ensures ToNumber(NatToString(n)) == Whole(n)
  {
    var s := NatToString(n);
    assert !IsSpace(s[0]) && !IsSpace(s[|s| - 1]);
    TrimOfTrimmed(s);
    ParseNatToString(n);
  }

  /** Every number survives being written into a form field and read back
      with `Number`. */
  lemma {:induction false} NumberRoundTrip(x: Number)
    ensures ToNumber(NumberToString(x)) == x
  {
    match x
    case Whole(n) =>
      WholeRoundTrip(n);
    case NaN =>
      NonNumericIsNaN("NaN");
  }

  /** Text that is not blank and does not start with a digit or whitespace
      reads as NaN. */
  lemma NonNumericIsNaN(s: string)
    requires s != [] && !IsSpace(s[0]) && !IsSpace(s[|s| - 1]) && !IsDigit(s[0])
    ensures ToNumber(s) == NaN
  {
    TrimOfTrimmed(s);
  }
}
