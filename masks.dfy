// Input masks and validators for Brazilian CPF numbers, phone numbers and
// licence plates (src/utils/masks.ts). Each regular-expression replacement of
// the source is one function below, with the leftmost-match rule of a
// non-global `String.prototype.replace` stated by its search function.
module Masks {
  import opened Wrappers
  import opened Text
  import Seqs

  function Min(a: int, b: int): int { if a <= b then a else b }

  // ---------------------------------------------------------------------------
  // Regular-expression steps
  // ---------------------------------------------------------------------------

  /** `w` consecutive digits start at position `j` of `s`. */
  predicate DigitWindow(s: string, j: nat, w: nat)
  {
    j + w <= |s| && AllDigits(s[j..j + w])
  }

  /** The leftmost position at or after `from` where `w` consecutive digits start:
    * where a regex such as `/(\d{3})(\d)/` first matches. */
  function FirstRun(s: string, w: nat, from: nat): (r: Option<nat>)
    ensures r.Some? ==> from <= r.value && DigitWindow(s, r.value, w)
    ensures r.Some? ==> forall j :: from <= j < r.value ==> !DigitWindow(s, j, w)
    ensures r.None? ==> forall j :: from <= j ==> !DigitWindow(s, j, w)
    decreases |s| - from
  {
    if from + w > |s| then None
    else if DigitWindow(s, from, w) then Some(from)
    else FirstRun(s, w, from + 1)
  }

  /** `s.replace(/(\d{k})(\d)/, '$1' + sep + '$2')`; with `k == 3` and `sep == "-"` this is
    * also `/(\d{3})(\d{1,2})/` and `'$1-$2'`, whose match starts at the same place. */
  function InsertAfterRun(s: string, k: nat, sep: string): string
  {
    match FirstRun(s, k + 1, 0)
    case None => s
    case Some(j) => s[..j + k] + sep + s[j + k..]
  }

  /** `s.replace(/(\d{2})(\d)/, '($1) $2')` */
  function WrapAreaCode(s: string): string
  {
    match FirstRun(s, 3, 0)
    case None => s
    case Some(j) => s[..j] + "(" + s[j..j + 2] + ") " + s[j + 2..]
  }

  /** At position `j` the pattern `(-\d{n})\d+?$` matches: a '-', `n` digits, and at
    * least one more digit, with only digits up to the end of the string. */
  predicate TailAt(s: string, j: nat, n: nat)
  {
    j + 1 + n < |s| && s[j] == '-' && AllDigits(s[j + 1..])
  }

  function FirstTail(s: string, n: nat, from: nat): (r: Option<nat>)
    ensures r.Some? ==> from <= r.value && TailAt(s, r.value, n)
    ensures r.None? ==> forall j :: from <= j ==> !TailAt(s, j, n)
    decreases |s| - from
  {
    if from >= |s| then None
    else if TailAt(s, from, n) then Some(from)
    else FirstTail(s, n, from + 1)
  }

  /** `s.replace(/(-\d{n})\d+?$/, '$1')`: drop the digits beyond `n` after a final '-'. */
  function TruncateTail(s: string, n: nat): string
  {
    match FirstTail(s, n, 0)
    case None => s
    case Some(j) => s[..j + 1 + n]
  }

  // ---------------------------------------------------------------------------
  // Masks
  // ---------------------------------------------------------------------------

  /** maskCPF: up to "DDD.DDD.DDD-DD" as the digits are typed. */
  function MaskCPF(value: string): string
  {
    var numbers := DigitsOf(value);
    TruncateTail(InsertAfterRun(InsertAfterRun(InsertAfterRun(numbers, 3, "."), 3, "."), 3, "-"), 2)
  }

  /** maskPhone: "(DD) DDDD-DDDD" for up to ten digits, "(DD) DDDDD-DDDD" beyond. */
  function MaskPhone(value: string): string
  {
    var numbers := DigitsOf(value);
    if |numbers| <= 10 then TruncateTail(InsertAfterRun(WrapAreaCode(numbers), 4, "-"), 4)
    else TruncateTail(InsertAfterRun(WrapAreaCode(numbers), 5, "-"), 4)
  }

  /** `value.replace(/\D/g, '')` */
  function Unmask(value: string): (r: string)
    ensures AllDigits(r)
    ensures Seqs.IsSubseq(r, value)
  {
    Seqs.FilterIsSubseq(value, IsDigit);
    DigitsOf(value)
  }

  /** unmask is idempotent. */
  lemma UnmaskIdempotent(value: string)
    ensures Unmask(Unmask(value)) == Unmask(value)
  {
    Seqs.FilterIdempotent(value, IsDigit);
  }

  /** unmask keeps exactly the digits, each occurrence counted: the characters it
    * keeps are the digits of the input, in order. */
  lemma UnmaskKeepsDigits(a: string, b: string)
    ensures Unmask(a + b) == Unmask(a) + Unmask(b)
    ensures |a| == 1 ==> Unmask(a) == (if IsDigit(a[0]) then a else "")
  {
    DigitsOfConcat(a, b);
    if |a| == 1 {
      assert a[1..] == [];
    }
  }

  /** What one character of a plate becomes: itself upper-cased when it is a letter or a
    * digit, nothing otherwise. */
  function CleanChar(ch: char): (r: string)
    ensures |r| <= 1
    ensures forall i :: 0 <= i < |r| ==> IsUpper(r[i]) || IsDigit(r[i])
  {
    if IsAlnum(ch) then [ToUpper(ch)] else []
  }

  /** Plate characters: `value.replace(/[^A-Za-z0-9]/g, '').toUpperCase()`. */
  function CleanPlate(value: string): (r: string)
    ensures |r| <= |value|
    ensures forall i :: 0 <= i < |r| ==> IsUpper(r[i]) || IsDigit(r[i])
  {
    if value == [] then []
    else CleanChar(value[0]) + CleanPlate(value[1..])
  }

  /** `/^[A-Z]{0,3}[0-9]{0,4}$/`: at most three letters followed by at most four digits. */
  predicate OldPlatePrefix(c: string)
  {
    exists k :: 0 <= k <= 3 && OldPlateSplit(c, k)
  }

  /** `c` is `k` upper-case letters followed by at most four digits. */
  predicate OldPlateSplit(c: string, k: nat)
  {
    k <= |c| && |c| - k <= 4
    && (forall i :: 0 <= i < k ==> IsUpper(c[i]))
    && (forall i :: k <= i < |c| ==> IsDigit(c[i]))
  }

  /** maskLicensePlate: "AAA-9999" for the old format, otherwise the cleaned text, at most
    * seven characters. */
  function MaskLicensePlate(value: string): string
  {
    var cleaned := CleanPlate(value);
    if |cleaned| <= 7 && OldPlatePrefix(cleaned) then
      // `/^([A-Z]{3})([0-9]{1,4})/`
      if |cleaned| >= 4 && (forall i :: 0 <= i < 3 ==> IsUpper(cleaned[i])) && IsDigit(cleaned[3])
      then cleaned[..3] + "-" + cleaned[3..]
      else cleaned
    else if |cleaned| <= 7 then
      // The Mercosul replacement writes its four groups back unchanged.
      cleaned
    else
      cleaned[..7]
  }

  predicate NotDash(c: char) { c != '-' }

  /** maskLicensePlate only inserts a '-': without it, the output is the upper-cased
    * alphanumeric content of the input cut to seven characters. */
  lemma MaskLicensePlateContent(value: string)
    ensures Seqs.Filter(MaskLicensePlate(value), NotDash)
      == CleanPlate(value)[..Min(|CleanPlate(value)|, 7)]
    ensures |MaskLicensePlate(value)| <= 8
  {
    var c := CleanPlate(value);
    var r := MaskLicensePlate(value);
    assert forall i :: 0 <= i < |c| ==> NotDash(c[i]);
    if |c| <= 7 && OldPlatePrefix(c) && |c| >= 4
      && (forall i :: 0 <= i < 3 ==> IsUpper(c[i])) && IsDigit(c[3]) {
      DashRemoved(c[..3], c[3..]);
      assert c[..3] + c[3..] == c;
    } else if |c| <= 7 {
      Seqs.FilterAll(c, NotDash);
    } else {
      Seqs.FilterAll(c[..7], NotDash);
    }
  }

  lemma DashRemoved(x: string, y: string)
    requires forall i :: 0 <= i < |x| ==> NotDash(x[i])
    requires forall i :: 0 <= i < |y| ==> NotDash(y[i])
    ensures Seqs.Filter(x + "-" + y, NotDash) == x + y
  {
    var dash: string := ['-'];
    assert Seqs.Filter(dash, NotDash) == [] by {
      assert !NotDash(dash[0]) && dash[1..] == [];
    }
    Seqs.FilterConcat(x, dash, NotDash);
    Seqs.FilterAll(x, NotDash);
    assert Seqs.Filter(x + dash, NotDash) == x;
    Seqs.FilterConcat(x + dash, y, NotDash);
    Seqs.FilterAll(y, NotDash);
  }

  // ---------------------------------------------------------------------------
  // What the CPF and phone masks produce
  // ---------------------------------------------------------------------------

  /** No digit window covers a position holding a non-digit. */
  lemma NoWindowOver(s: string, p: nat, w: nat)
    requires p < |s| && !IsDigit(s[p])
    ensures forall j: nat :: j <= p < j + w ==> !DigitWindow(s, j, w)
  {
    forall j: nat | j <= p < j + w
      ensures !DigitWindow(s, j, w)
    {
      if j + w <= |s| { assert s[j..j + w][p - j] == s[p]; }
    }
  }

  lemma WindowOfDigits(s: string, j: nat, w: nat)
    requires j + w <= |s| && forall i :: j <= i < j + w ==> IsDigit(s[i])
    ensures DigitWindow(s, j, w)
  {
    var t := s[j..j + w];
    forall i | 0 <= i < |t| ensures IsDigit(t[i]) {
      assert t[i] == s[j + i];
    }
  }

  /** A string without '-' has no tail to truncate. */
  lemma NoDashNoTail(s: string, n: nat)
    requires forall i :: 0 <= i < |s| ==> s[i] != '-'
    ensures TruncateTail(s, n) == s
  {
  }

  /** The tail rule, where the only '-' of `s` is at `m` and only digits follow it. */
  lemma TailAtOnlyDash(s: string, m: nat, n: nat)
    requires m < |s| && s[m] == '-' && AllDigits(s[m + 1..])
    requires forall i :: 0 <= i < |s| && i != m ==> s[i] != '-'
    ensures m + 1 + n < |s| ==> TruncateTail(s, n) == s[..m + 1 + n]
    ensures m + 1 + n >= |s| ==> TruncateTail(s, n) == s
  {
    if m + 1 + n < |s| {
      assert TailAt(s, m, n);
    }
  }

  // maskCPF, step by step, on the digit string d.

  lemma CpfRun1(d: string)
    requires AllDigits(d)
    ensures |d| >= 4 ==> FirstRun(d, 4, 0) == Some(0)
    ensures |d| < 4 ==> FirstRun(d, 4, 0) == None
  {
    if |d| >= 4 { WindowOfDigits(d, 0, 4); }
  }

  lemma CpfRun2(d: string)
    requires AllDigits(d) && |d| >= 4
    ensures var t := d[..3] + "." + d[3..];
      (|d| >= 7 ==> FirstRun(t, 4, 0) == Some(4)) && (|d| < 7 ==> FirstRun(t, 4, 0) == None)
  {
    var t := d[..3] + "." + d[3..];
    assert t[3] == '.';
    NoWindowOver(t, 3, 4);
    if |d| >= 7 {
      assert forall i :: 4 <= i < 8 ==> t[i] == d[i - 1];
      WindowOfDigits(t, 4, 4);
    }
  }

  lemma CpfRun3(d: string)
    requires AllDigits(d) && |d| >= 7
    ensures var t := d[..3] + "." + d[3..6] + "." + d[6..];
      (|d| >= 10 ==> FirstRun(t, 4, 0) == Some(8)) && (|d| < 10 ==> FirstRun(t, 4, 0) == None)
  {
    var t := d[..3] + "." + d[3..6] + "." + d[6..];
    assert t[3] == '.' && t[7] == '.';
    NoWindowOver(t, 3, 4);
    NoWindowOver(t, 7, 4);
    if |d| >= 10 {
      assert forall i :: 8 <= i < 12 ==> t[i] == d[i - 2];
      WindowOfDigits(t, 8, 4);
    }
  }

  lemma CpfShape1(d: string)
    requires AllDigits(d) && |d| <= 3
    ensures MaskCPF(d) == d
  {
    DigitsOfDigits(d);
    CpfRun1(d);
    NoDashNoTail(d, 2);
  }

  lemma CpfShape2(d: string)
    requires AllDigits(d) && 4 <= |d| <= 6
    ensures MaskCPF(d) == d[..3] + "." + d[3..]
  {
    DigitsOfDigits(d);
    CpfRun1(d);
    var t := d[..3] + "." + d[3..];
    assert d[..0 + 3] == d[..3] && d[0 + 3..] == d[3..];
    assert InsertAfterRun(d, 3, ".") == t;
    CpfRun2(d);
    assert forall i :: 0 <= i < |t| ==> t[i] != '-';
    NoDashNoTail(t, 2);
  }

  /** The first two '.' insertions of maskCPF, on at least seven digits. */
  lemma CpfTwoDots(d: string)
    requires AllDigits(d) && |d| >= 7
    ensures InsertAfterRun(InsertAfterRun(d, 3, "."), 3, ".")
         == d[..3] + "." + d[3..6] + "." + d[6..]
  {
    CpfRun1(d);
    var t1 := d[..3] + "." + d[3..];
    assert d[..0 + 3] == d[..3] && d[0 + 3..] == d[3..];
    assert InsertAfterRun(d, 3, ".") == t1;
    CpfRun2(d);
    var t2 := d[..3] + "." + d[3..6] + "." + d[6..];
    assert t1[..7] == d[..3] + "." + d[3..6] && t1[7..] == d[6..];
    assert InsertAfterRun(t1, 3, ".") == t2;
  }

  lemma CpfShape3(d: string)
    requires AllDigits(d) && 7 <= |d| <= 9
    ensures MaskCPF(d) == d[..3] + "." + d[3..6] + "." + d[6..]
  {
    DigitsOfDigits(d);
    CpfTwoDots(d);
    var t2 := d[..3] + "." + d[3..6] + "." + d[6..];
    CpfRun3(d);
    assert InsertAfterRun(t2, 3, "-") == t2;
    assert forall i :: 0 <= i < |t2| ==> t2[i] != '-';
    NoDashNoTail(t2, 2);
  }

  /** The '-' insertion of maskCPF, on at least ten digits. */
  lemma CpfDash(d: string)
    requires AllDigits(d) && |d| >= 10
    ensures InsertAfterRun(d[..3] + "." + d[3..6] + "." + d[6..], 3, "-")
         == d[..3] + "." + d[3..6] + "." + d[6..9] + "-" + d[9..]
  {
    CpfRun3(d);
    var t2 := d[..3] + "." + d[3..6] + "." + d[6..];
    assert t2[..11] == d[..3] + "." + d[3..6] + "." + d[6..9] && t2[11..] == d[9..];
  }

  /** The tail rule of maskCPF: two digits after the '-'. */
  lemma CpfTail(d: string)
    requires AllDigits(d) && |d| >= 10
    ensures var t3 := d[..3] + "." + d[3..6] + "." + d[6..9] + "-" + d[9..];
      TruncateTail(t3, 2) == d[..3] + "." + d[3..6] + "." + d[6..9] + "-" + d[9..Min(|d|, 11)]
  {
    var t3 := d[..3] + "." + d[3..6] + "." + d[6..9] + "-" + d[9..];
    assert t3[11] == '-';
    assert t3[12..] == d[9..];
    assert forall i :: 0 <= i < |t3| && i != 11 ==> t3[i] != '-';
    TailAtOnlyDash(t3, 11, 2);
    if |d| >= 12 {
      assert t3[..14] == d[..3] + "." + d[3..6] + "." + d[6..9] + "-" + d[9..11];
    }
  }

  lemma CpfShape4(d: string)
    requires AllDigits(d) && |d| >= 10
    ensures MaskCPF(d) == d[..3] + "." + d[3..6] + "." + d[6..9] + "-" + d[9..Min(|d|, 11)]
  {
    DigitsOfDigits(d);
    CpfTwoDots(d);
    CpfDash(d);
    CpfTail(d);
  }

  /** The shape of maskCPF's output, by the number of digits typed. */
  lemma MaskCPFShape(value: string)
    ensures var d := DigitsOf(value);
      MaskCPF(value) ==
        if |d| <= 3 then d
        else if |d| <= 6 then d[..3] + "." + d[3..]
        else if |d| <= 9 then d[..3] + "." + d[3..6] + "." + d[6..]
        else d[..3] + "." + d[3..6] + "." + d[6..9] + "-" + d[9..Min(|d|, 11)]
  {
    var d := DigitsOf(value);
    assert MaskCPF(value) == MaskCPF(d) by { DigitsOfDigits(d); }
    if |d| <= 3 { CpfShape1(d); }
    else if |d| <= 6 { CpfShape2(d); }
    else if |d| <= 9 { CpfShape3(d); }
    else { CpfShape4(d); }
  }

  /** Separators contribute no digits. */
  lemma DigitsAround(a: string, sep: string, b: string)
    requires forall i :: 0 <= i < |sep| ==> !IsDigit(sep[i])
    ensures DigitsOf(a + sep + b) == DigitsOf(a) + DigitsOf(b)
  {
    DigitsOfConcat(a + sep, b);
    DigitsOfConcat(a, sep);
    Seqs.FilterNone(sep, IsDigit);
  }

  lemma DigitsOfSplit(d: string, i: nat)
    requires AllDigits(d) && i <= |d|
    ensures DigitsOf(d[..i]) == d[..i] && DigitsOf(d[i..]) == d[i..]
  {
    DigitsOfDigits(d[..i]);
    DigitsOfDigits(d[i..]);
  }

  lemma CpfDigits2(d: string)
    requires AllDigits(d) && 4 <= |d| <= 6
    ensures DigitsOf(d[..3] + "." + d[3..]) == d
  {
    DigitsAround(d[..3], ".", d[3..]);
    DigitsOfSplit(d, 3);
    assert d[..3] + d[3..] == d;
  }

  lemma CpfDigits3(d: string)
    requires AllDigits(d) && 7 <= |d| <= 9
    ensures DigitsOf(d[..3] + "." + d[3..6] + "." + d[6..]) == d
  {
    var a := d[..6];
    assert a[..3] == d[..3] && a[3..] == d[3..6];
    CpfDigits2(a);
    DigitsAround(a[..3] + "." + a[3..], ".", d[6..]);
    DigitsOfSplit(d, 6);
    assert a + d[6..] == d;
  }

  lemma CpfDigits4(d: string)
    requires AllDigits(d) && 10 <= |d| <= 11
    ensures DigitsOf(d[..3] + "." + d[3..6] + "." + d[6..9] + "-" + d[9..]) == d
  {
    var a := d[..9];
    assert a[..3] == d[..3] && a[3..6] == d[3..6] && a[6..] == d[6..9];
    CpfDigits3(a);
    DigitsAround(a[..3] + "." + a[3..6] + "." + a[6..], "-", d[9..]);
    DigitsOfSplit(d, 9);
    assert a + d[9..] == d;
  }

  /** maskCPF only inserts separators: its digits are the first (at most) eleven digits of
    * the input. */
  lemma MaskCPFDigits(value: string)
    ensures var d := DigitsOf(value); DigitsOf(MaskCPF(value)) == d[..Min(|d|, 11)]
  {
    var d := DigitsOf(value);
    MaskCPFShape(value);
    if |d| <= 3 {
      DigitsOfDigits(d);
    } else if |d| <= 6 {
      CpfDigits2(d);
    } else if |d| <= 9 {
      CpfDigits3(d);
    } else {
      var e := d[..Min(|d|, 11)];
      assert e[..3] == d[..3] && e[3..6] == d[3..6] && e[6..9] == d[6..9] && e[9..] == d[9..Min(|d|, 11)];
      CpfDigits4(e);
    }
  }

  // maskPhone, step by step, on the digit string d.

  lemma PhoneRun1(d: string)
    requires AllDigits(d)
    ensures |d| >= 3 ==> FirstRun(d, 3, 0) == Some(0)
    ensures |d| < 3 ==> FirstRun(d, 3, 0) == None
  {
    if |d| >= 3 { WindowOfDigits(d, 0, 3); }
  }

  /** After the area code, the first run of k + 1 digits starts right after ") ". */
  lemma PhoneRun2(d: string, k: nat)
    requires AllDigits(d) && |d| >= 3 && k >= 2
    ensures var t := "(" + d[..2] + ") " + d[2..];
      (|d| >= k + 3 ==> FirstRun(t, k + 1, 0) == Some(5))
      && (|d| < k + 3 ==> FirstRun(t, k + 1, 0) == None)
  {
    var t := "(" + d[..2] + ") " + d[2..];
    assert t[0] == '(' && t[3] == ')' && t[4] == ' ';
    NoWindowOver(t, 0, k + 1);
    NoWindowOver(t, 3, k + 1);
    NoWindowOver(t, 4, k + 1);
    if |d| >= k + 3 {
      assert forall i :: 5 <= i < |t| ==> t[i] == d[i - 3];
      WindowOfDigits(t, 5, k + 1);
    }
  }

  lemma PhoneWrap(d: string)
    requires AllDigits(d) && |d| >= 3
    ensures WrapAreaCode(d) == "(" + d[..2] + ") " + d[2..]
  {
    PhoneRun1(d);
    assert d[0..0 + 2] == d[..2] && d[0 + 2..] == d[2..] && d[..0] == [];
  }

  lemma PhoneShapeShort(d: string)
    requires AllDigits(d) && |d| <= 2
    ensures MaskPhone(d) == d
  {
    DigitsOfDigits(d);
    PhoneRun1(d);
    assert FirstRun(d, 5, 0) == None;
    NoDashNoTail(d, 4);
  }

  lemma PhoneShapeArea(d: string)
    requires AllDigits(d) && 3 <= |d| <= 6
    ensures MaskPhone(d) == "(" + d[..2] + ") " + d[2..]
  {
    DigitsOfDigits(d);
    PhoneWrap(d);
    PhoneRun2(d, 4);
    var t := "(" + d[..2] + ") " + d[2..];
    assert forall i :: 0 <= i < |t| ==> t[i] != '-';
    NoDashNoTail(t, 4);
  }

  /** With k digits before the '-', at most four digits after it are kept. */
  lemma PhoneShapeDash(d: string, k: nat)
    requires AllDigits(d) && k >= 2 && |d| >= k + 3
    ensures TruncateTail(InsertAfterRun(WrapAreaCode(d), k, "-"), 4)
      == "(" + d[..2] + ") " + d[2..k + 2] + "-" + d[k + 2..Min(|d|, k + 6)]
  {
    PhoneWrap(d);
    PhoneRun2(d, k);
    var t := "(" + d[..2] + ") " + d[2..];
    var u := "(" + d[..2] + ") " + d[2..k + 2] + "-" + d[k + 2..];
    assert t[..5 + k] == "(" + d[..2] + ") " + d[2..k + 2] && t[5 + k..] == d[k + 2..];
    assert InsertAfterRun(t, k, "-") == u;
    var m := k + 5;
    assert u[m] == '-';
    assert u[m + 1..] == d[k + 2..];
    assert forall i :: 0 <= i < |u| && i != m ==> u[i] != '-';
    TailAtOnlyDash(u, m, 4);
    if |d| > k + 6 {
      assert u[..m + 5] == "(" + d[..2] + ") " + d[2..k + 2] + "-" + d[k + 2..k + 6];
    }
  }

  /** The shape of maskPhone's output, by the number of digits typed. */
  lemma MaskPhoneShape(value: string)
    ensures var d := DigitsOf(value);
      MaskPhone(value) ==
        if |d| <= 2 then d
        else if |d| <= 6 then "(" + d[..2] + ") " + d[2..]
        else if |d| <= 10 then "(" + d[..2] + ") " + d[2..6] + "-" + d[6..]
        else "(" + d[..2] + ") " + d[2..7] + "-" + d[7..11]
  {
    var d := DigitsOf(value);
    assert MaskPhone(value) == MaskPhone(d) by { DigitsOfDigits(d); }
    if |d| <= 2 { PhoneShapeShort(d); }
    else if |d| <= 6 { PhoneShapeArea(d); }
    else if |d| <= 10 {
      DigitsOfDigits(d);
      PhoneShapeDash(d, 4);
      assert d[6..Min(|d|, 10)] == d[6..];
    } else {
      DigitsOfDigits(d);
      PhoneShapeDash(d, 5);
      assert Min(|d|, 11) == 11;
    }
  }

  lemma PhoneDigitsArea(d: string)
    requires AllDigits(d) && |d| >= 2
    ensures DigitsOf("(" + d[..2] + ") " + d[2..]) == d
  {
    DigitsAround("(" + d[..2], ") ", d[2..]);
    DigitsAround("", "(", d[..2]);
    assert "" + "(" + d[..2] == "(" + d[..2];
    DigitsOfSplit(d, 2);
    assert d[..2] + d[2..] == d;
  }

  lemma PhoneDigitsDash(d: string, k: nat)
    requires AllDigits(d) && |d| >= k + 2
    ensures DigitsOf("(" + d[..2] + ") " + d[2..k + 2] + "-" + d[k + 2..]) == d
  {
    var a := d[..k + 2];
    assert a[..2] == d[..2] && a[2..] == d[2..k + 2];
    PhoneDigitsArea(a);
    DigitsAround("(" + a[..2] + ") " + a[2..], "-", d[k + 2..]);
    DigitsOfSplit(d, k + 2);
    assert a + d[k + 2..] == d;
  }

  /** maskPhone never reorders or alters digits and keeps at most the first eleven. */
  lemma MaskPhoneDigits(value: string)
    ensures var d := DigitsOf(value); DigitsOf(MaskPhone(value)) == d[..Min(|d|, 11)]
  {
    var d := DigitsOf(value);
    MaskPhoneShape(value);
    if |d| <= 2 {
      DigitsOfDigits(d);
    } else if |d| <= 6 {
      PhoneDigitsArea(d);
    } else if |d| <= 10 {
      PhoneDigitsDash(d, 4);
    } else {
      var e := d[..11];
      assert e[..2] == d[..2] && e[2..7] == d[2..7] && e[7..] == d[7..11];
      PhoneDigitsDash(e, 5);
    }
  }

  // ---------------------------------------------------------------------------
  // Validators
  // ---------------------------------------------------------------------------

  /** `/^(\d)\1{10}$/` on an eleven-digit string: every digit equals the first. */
  predicate AllSame(s: string)
  {
    |s| > 0 && forall i :: 0 <= i < |s| ==> s[i] == s[0]
  }

  /** Σ value(s[i]) × (top − i) for i < len. */
  function WeightedSum(s: string, len: nat, top: int): int
    requires len <= |s| && AllDigits(s)
  {
    if len == 0 then 0
    else WeightedSum(s, len - 1, top) + DigitValue(s[len - 1]) * (top - (len - 1))
  }

  /** The check digit: 11 − (sum mod 11), where a result of 10 or 11 counts as 0. */
  function CheckDigit(sum: int): (r: int)
    ensures 0 <= r <= 9
  {
    var digit := 11 - sum % 11;
    if digit >= 10 then 0 else digit
  }

  /** What validateCPF accepts. */
  predicate CpfValid(cpf: string)
  {
    var numbers := DigitsOf(cpf);
    |numbers| == 11 && !AllSame(numbers)
    && CheckDigit(WeightedSum(numbers, 9, 10)) == DigitValue(numbers[9])
    && CheckDigit(WeightedSum(numbers, 10, 11)) == DigitValue(numbers[10])
  }

  /** validateCPF, with its two accumulation loops. */
  method ValidateCPF(cpf: string) returns (ok: bool)
    ensures ok == CpfValid(cpf)
  {
    var numbers := Unmask(cpf);
    if |numbers| != 11 { return false; }
    var same := true;
    for i := 1 to 11
      invariant same == forall j :: 0 <= j < i ==> numbers[j] == numbers[0]
    {
      if numbers[i] != numbers[0] { same := false; }
    }
    if same { return false; }

    var sum := 0;
    for i := 0 to 9
      invariant sum == WeightedSum(numbers, i, 10)
    {
      sum := sum + DigitValue(numbers[i]) * (10 - i);
    }
    var digit := 11 - sum % 11;
    if digit >= 10 { digit := 0; }
    if digit != DigitValue(numbers[9]) { return false; }

    sum := 0;
    for i := 0 to 10
      invariant sum == WeightedSum(numbers, i, 11)
    {
      sum := sum + DigitValue(numbers[i]) * (11 - i);
    }
    digit := 11 - sum % 11;
    if digit >= 10 { digit := 0; }
    if digit != DigitValue(numbers[10]) { return false; }
    return true;
  }

  /** A CPF needs exactly eleven digits and cannot repeat one digit eleven times. */
  lemma CpfValidNeedsElevenDistinct(cpf: string)
    ensures |DigitsOf(cpf)| != 11 ==> !CpfValid(cpf)
    ensures AllSame(DigitsOf(cpf)) ==> !CpfValid(cpf)
  {
  }

  /** Masking never changes validateCPF's verdict on an input of at most eleven digits. */
  lemma MaskKeepsCpfVerdict(value: string)
    requires |DigitsOf(value)| <= 11
    ensures CpfValid(MaskCPF(value)) == CpfValid(value)
  {
    MaskCPFDigits(value);
    DigitsOfDigits(DigitsOf(value));
    var d := DigitsOf(value);
    assert d[..Min(|d|, 11)] == d;
  }

  lemma CpfExampleSums(n: string)
    requires n == "52998224725"
    ensures AllDigits(n) && WeightedSum(n, 9, 10) == 295 && WeightedSum(n, 10, 11) == 347
  {
    assert AllDigits(n);
    assert WeightedSum(n, 1, 10) == 50;
    assert WeightedSum(n, 2, 10) == 68;
    assert WeightedSum(n, 3, 10) == 140;
    assert WeightedSum(n, 4, 10) == 203;
    assert WeightedSum(n, 5, 10) == 251;
    assert WeightedSum(n, 6, 10) == 261;
    assert WeightedSum(n, 7, 10) == 269;
    assert WeightedSum(n, 8, 10) == 281;
    assert WeightedSum(n, 1, 11) == 55;
    assert WeightedSum(n, 2, 11) == 75;
    assert WeightedSum(n, 3, 11) == 156;
    assert WeightedSum(n, 4, 11) == 228;
    assert WeightedSum(n, 5, 11) == 284;
    assert WeightedSum(n, 6, 11) == 296;
    assert WeightedSum(n, 7, 11) == 306;
    assert WeightedSum(n, 8, 11) == 322;
    assert WeightedSum(n, 9, 11) == 343;
  }

  /** A well-known valid CPF. */
  lemma CpfExampleValid()
    ensures CpfValid("52998224725")
  {
    var n := "52998224725";
    CpfExampleSums(n);
    DigitsOfDigits(n);
    assert !AllSame(n) by { assert n[1] != n[0]; }
    assert DigitValue(n[9]) == 2 && DigitValue(n[10]) == 5;
  }

  /** Eleven repeated digits are rejected even though their check digits fit. */
  lemma CpfExampleRepeated()
    ensures !CpfValid("11111111111")
  {
    var m := "11111111111";
    assert AllDigits(m);
    DigitsOfDigits(m);
    assert AllSame(m);
  }

  /** `/^[A-Z]{3}[0-9]{4}$/` */
  predicate OldPlate(c: string)
  {
    |c| == 7 && (forall i :: 0 <= i < 3 ==> IsUpper(c[i])) && (forall i :: 3 <= i < 7 ==> IsDigit(c[i]))
  }

  /** `/^[A-Z]{3}[0-9][A-Z][0-9]{2}$/` */
  predicate MercosulPlate(c: string)
  {
    |c| == 7 && (forall i :: 0 <= i < 3 ==> IsUpper(c[i]))
    && IsDigit(c[3]) && IsUpper(c[4]) && IsDigit(c[5]) && IsDigit(c[6])
  }

  /** validateLicensePlate */
  predicate ValidateLicensePlate(plate: string)
  {
    var cleaned := CleanPlate(plate);
    OldPlate(cleaned) || MercosulPlate(cleaned)
  }

  lemma {:induction false} CleanPlateConcat(a: string, b: string)
    ensures CleanPlate(a + b) == CleanPlate(a) + CleanPlate(b)
  {
    if a == [] {
      assert a + b == b;
    } else {
      CleanPlateConcat(a[1..], b);
      var ab := a + b;
      assert ab[1..] == a[1..] + b;
      CleanPlateCons(a, ab);
      Seqs.AppendAssoc(CleanChar(a[0]), CleanPlate(a[1..]), CleanPlate(b));
    }
  }

  /** Two non-empty texts that share their first character clean to that character's
    * cleaning followed by the cleaning of their tails. */
  lemma CleanPlateCons(s: string, t: string)
    requires s != [] && t != [] && s[0] == t[0]
    ensures CleanPlate(s) == CleanChar(s[0]) + CleanPlate(s[1..])
    ensures CleanPlate(t) == CleanChar(s[0]) + CleanPlate(t[1..])
  {
  }

  lemma {:induction false} CleanPlateLower(s: string)
    ensures CleanPlate(Lower(s)) == CleanPlate(s)
  {
    if s != [] {
      CleanPlateLower(s[1..]);
      assert Lower(s)[1..] == Lower(s[1..]);
    }
  }

  /** validateLicensePlate ignores any non-alphanumeric separator such as '-'. */
  lemma ValidatePlateIgnoresSeparators(a: string, sep: char, b: string)
    requires !IsAlnum(sep)
    ensures ValidateLicensePlate(a + [sep] + b) == ValidateLicensePlate(a + b)
  {
    calc {
      CleanPlate(a + [sep] + b);
      { CleanPlateConcat(a + [sep], b); }
      CleanPlate(a + [sep]) + CleanPlate(b);
      { CleanPlateConcat(a, [sep]); assert [sep][1..] == []; }
      CleanPlate(a) + CleanPlate(b);
      { CleanPlateConcat(a, b); }
      CleanPlate(a + b);
    }
    SameCleanSameVerdict(a + [sep] + b, a + b);
  }

  lemma SameCleanSameVerdict(x: string, y: string)
    requires CleanPlate(x) == CleanPlate(y)
    ensures ValidateLicensePlate(x) == ValidateLicensePlate(y)
  {
  }

  /** validateLicensePlate ignores letter case. */
  lemma ValidatePlateIgnoresCase(a: string)
    ensures ValidateLicensePlate(Lower(a)) == ValidateLicensePlate(a)
  {
    CleanPlateLower(a);
  }

  lemma {:induction false} CleanPlateOfClean(c: string)
    requires forall i :: 0 <= i < |c| ==> IsUpper(c[i]) || IsDigit(c[i])
    ensures CleanPlate(c) == c
  {
    if c != [] { CleanPlateOfClean(c[1..]); }
  }

  /** The two accepted formats, and a plate of two letters that neither accepts. */
  lemma PlateExamples()
    ensures ValidateLicensePlate("ABC1234")
    ensures ValidateLicensePlate("BRA2E19")
    ensures !ValidateLicensePlate("AB12345")
  {
    OldPlateAccepted("ABC1234");
    MercosulPlateAccepted("BRA2E19");
    TwoLetterPlateRejected("AB12345");
  }

  lemma OldPlateAccepted(c: string)
    requires OldPlate(c)
    ensures ValidateLicensePlate(c)
  {
    CleanPlateOfClean(c);
  }

  lemma MercosulPlateAccepted(c: string)
    requires MercosulPlate(c)
    ensures ValidateLicensePlate(c)
  {
    CleanPlateOfClean(c);
  }

  lemma TwoLetterPlateRejected(c: string)
    requires |c| == 7 && IsUpper(c[0]) && IsUpper(c[1])
    requires forall i :: 2 <= i < 7 ==> IsDigit(c[i])
    ensures !ValidateLicensePlate(c)
  {
    CleanPlateOfClean(c);
    assert IsDigit(c[2]) && !IsUpper(c[2]);
  }
}
