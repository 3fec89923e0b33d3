// Input formatting of the public booking form's customer step
// (src/components/booking/CustomerForm.tsx).
module CustomerForm {
  import opened Text
  import Seqs

  predicate IsPlateChar(c: char) { IsUpper(c) || IsDigit(c) }

  /** formatPhone: exactly eleven digits become "(DD) DDDDD-DDDD"; fewer than eleven give
    * the bare digits; more than eleven leave the input as typed. */
  function FormatPhone(value: string): (r: string)
    ensures var d := DigitsOf(value);
      |d| == 11 ==> r == "(" + d[..2] + ") " + d[2..7] + "-" + d[7..]
    ensures |DigitsOf(value)| < 11 ==> r == DigitsOf(value)
    ensures |DigitsOf(value)| > 11 ==> r == value
  {
    var numbers := DigitsOf(value);
    if |numbers| <= 11 then
      // The pattern needs eleven consecutive digits, so it only matches when there are
      // exactly eleven, and then it covers the whole string.
      if |numbers| == 11 then "(" + numbers[..2] + ") " + numbers[2..7] + "-" + numbers[7..]
      else numbers
    else value
  }

  /** The formatted phone keeps the same eleven digits. */
  lemma FormatPhoneDigits(value: string)
    requires |DigitsOf(value)| == 11
    ensures DigitsOf(FormatPhone(value)) == DigitsOf(value)
  {
    var d := DigitsOf(value);
    var a, b, c := d[..2], d[2..7], d[7..];
    assert d == a + b + c;
    DigitsOfDigits(a);
    DigitsOfDigits(b);
    DigitsOfDigits(c);
    DigitsOfConcat("(" + a + ") " + b + "-", c);
    DigitsOfConcat("(" + a + ") " + b, "-");
    DigitsOfConcat("(" + a + ") ", b);
    DigitsOfConcat("(" + a, ") ");
    DigitsOfConcat("(", a);
    assert DigitsOf("(") == [] && DigitsOf(") ") == [] && DigitsOf("-") == [];
  }

  /** Formatting the eleven-digit display form again gives it back. */
  lemma FormatPhoneIdempotent(value: string)
    requires |DigitsOf(value)| == 11
    ensures FormatPhone(FormatPhone(value)) == FormatPhone(value)
  {
    FormatPhoneDigits(value);
  }

  /** formatPlate: upper-case, keep A-Z and 0-9, at most seven characters. */
  function FormatPlate(value: string): (r: string)
    ensures |r| <= 7
    ensures forall i :: 0 <= i < |r| ==> IsPlateChar(r[i])
  {
    var kept := Seqs.Filter(Upper(value), IsPlateChar);
    if |kept| <= 7 then kept else kept[..7]
  }

  lemma {:induction false} UpperFilterCount(s: string)
    ensures |Seqs.Filter(Upper(s), IsPlateChar)| == |Seqs.Filter(s, IsAlnum)|
  {
    if s != [] {
      assert Upper(s)[1..] == Upper(s[1..]);
      UpperFilterCount(s[1..]);
    }
  }

  /** The plate has the full seven characters iff the input holds at least seven letters
    * and digits. */
  lemma FormatPlateLength(value: string)
    ensures |FormatPlate(value)| == 7 <==> |Seqs.Filter(value, IsAlnum)| >= 7
  {
    UpperFilterCount(value);
  }

  /** Formatting a formatted plate changes nothing. */
  lemma FormatPlateIdempotent(value: string)
    ensures FormatPlate(FormatPlate(value)) == FormatPlate(value)
  {
    var r := FormatPlate(value);
    assert Upper(r) == r;
    Seqs.FilterAll(r, IsPlateChar);
  }
}
