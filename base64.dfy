// Base64 encoding with the standard alphabet and '=' padding, as defined in
// section 4 of RFC 4648, and the decoding that browsers' `atob` performs on
// such text (padding optional, leftover bits dropped). Whitespace skipping in
// `atob` is not modelled.
module Base64 {
  import opened Wrappers

  type Byte = x: int | 0 <= x < 256

  /** The character for a 6-bit value, in the order of the standard alphabet (Table 1
    * of RFC 4648): A-Z, a-z, 0-9, '+', '/'. */
  function Char(v: nat): (c: char)
    requires v < 64
    ensures c != '='
  {
    if v < 26 then ('A' as int + v) as char
    else if v < 52 then ('a' as int + (v - 26)) as char
    else if v < 62 then ('0' as int + (v - 52)) as char
    else if v == 62 then '+'
    else '/'
  }

  /** The 6-bit value of an alphabet character. */
  function Value(c: char): (r: Option<nat>)
    ensures r.Some? ==> r.value < 64 && Char(r.value) == c
    ensures c == '=' ==> r.None?
  {
    if 'A' <= c <= 'Z' then Some(c as int - 'A' as int)
    else if 'a' <= c <= 'z' then Some(c as int - 'a' as int + 26)
    else if '0' <= c <= '9' then Some(c as int - '0' as int + 52)
    else if c == '+' then Some(62)
    else if c == '/' then Some(63)
    else None
  }

  lemma ValueOfChar(v: nat)
    requires v < 64
    ensures Value(Char(v)) == Some(v)
  {
  }

  predicate InAlphabet(s: string) { forall i :: 0 <= i < |s| ==> Value(s[i]).Some? }

  /** The four 6-bit values of three bytes `x y z`: the bits of the three bytes, six at a
    * time, most significant first. */
  function Split3(x: Byte, y: Byte, z: Byte): (r: (nat, nat, nat, nat))
    ensures r.0 < 64 && r.1 < 64 && r.2 < 64 && r.3 < 64
  {
    (x / 4, (x % 4) * 16 + y / 16, (y % 16) * 4 + z / 64, z % 64)
  }

  /** The bytes that four 6-bit values carry. */
  function Join4(c0: nat, c1: nat, c2: nat, c3: nat): (r: (Byte, Byte, Byte))
    requires c0 < 64 && c1 < 64 && c2 < 64 && c3 < 64
  {
    (c0 * 4 + c1 / 16, (c1 % 16) * 16 + c2 / 4, (c2 % 4) * 64 + c3)
  }

  /** Three bytes survive the split into four 6-bit values and back; with trailing zero
    * bytes, the trailing values are zero-padded. */
  lemma SplitJoin(x: Byte, y: Byte, z: Byte)
    ensures var c := Split3(x, y, z); Join4(c.0, c.1, c.2, c.3) == (x, y, z)
  {
    var c1, c2 := (x % 4) * 16 + y / 16, (y % 16) * 4 + z / 64;
    assert c1 / 16 == x % 4 && c1 % 16 == y / 16;
    assert c2 / 4 == y % 16 && c2 % 4 == z / 64;
  }

  /** The characters of the encoding, without padding: four per three bytes, and two or
    * three for a final group of one or two bytes. */
  function Sextets(b: seq<Byte>): (r: string)
    ensures InAlphabet(r)
  {
    if |b| == 0 then ""
    else
      var c := Split3(b[0], if |b| >= 2 then b[1] else 0, if |b| >= 3 then b[2] else 0);
      ValueOfChar(c.0); ValueOfChar(c.1); ValueOfChar(c.2); ValueOfChar(c.3);
      if |b| == 1 then [Char(c.0), Char(c.1)]
      else if |b| == 2 then [Char(c.0), Char(c.1), Char(c.2)]
      else [Char(c.0), Char(c.1), Char(c.2), Char(c.3)] + Sextets(b[3..])
  }

  /** Four characters per whole group of three bytes, and two or three for a final group
    * of one or two bytes. */
  lemma {:induction false} SextetsLength(b: seq<Byte>)
    ensures |Sextets(b)| == (|b| / 3) * 4 + (if |b| % 3 == 0 then 0 else |b| % 3 + 1)
    decreases |b|
  {
    if |b| >= 3 {
      SextetsLength(b[3..]);
      assert |b[3..]| / 3 == |b| / 3 - 1 && |b[3..]| % 3 == |b| % 3;
    }
  }

  /** The encoding of RFC 4648 section 4 (`btoa`). */
  function Encode(b: seq<Byte>): (r: string)
  {
    Sextets(b) + Padding(|b|)
  }

  /** The '=' characters that fill the last group of four. */
  function Padding(n: nat): (r: string)
    ensures |r| <= 2 && forall i :: 0 <= i < |r| ==> r[i] == '='
  {
    if n % 3 == 1 then "==" else if n % 3 == 2 then "=" else ""
  }

  /** The encoding fills whole groups of four characters: 4 ⌈n/3⌉ of them. */
  lemma EncodeLength(b: seq<Byte>)
    ensures |Encode(b)| % 4 == 0
    ensures |Encode(b)| == ((|b| + 2) / 3) * 4
  {
    SextetsLength(b);
    var k, m := |b| / 3, |b| % 3;
    assert |b| == 3 * k + m;
    assert (|b| + 2) / 3 == (if m == 0 then k else k + 1);
  }

  /** The 6-bit value of character `i` of `s`, 0 past its end. */
  function ValueAt(s: string, i: nat): nat
    requires InAlphabet(s)
    ensures ValueAt(s, i) < 64
  {
    if i < |s| then Value(s[i]).value else 0
  }

  /** The bytes of a string of alphabet characters, four characters to three bytes; a
    * final group of two or three characters gives one or two bytes. */
  function DecodeSextets(s: string): (r: Option<seq<Byte>>)
    requires InAlphabet(s)
  {
    if |s| == 0 then Some([])
    else if |s| == 1 then None
    else
      var g := Join4(ValueAt(s, 0), ValueAt(s, 1), ValueAt(s, 2), ValueAt(s, 3));
      if |s| == 2 then Some([g.0])
      else if |s| == 3 then Some([g.0, g.1])
      else
        match DecodeSextets(s[4..])
        case None => None
        case Some(rest) => Some([g.0, g.1, g.2] + rest)
  }

  /** `atob`: one or two '=' may close text whose length is a multiple of four; any other
    * character outside the alphabet is an error. */
  function Decode(s: string): (r: Option<seq<Byte>>)
  {
    var t := if |s| % 4 == 0 && |s| >= 2 && s[|s| - 2..] == "==" then s[..|s| - 2]
             else if |s| % 4 == 0 && |s| >= 1 && s[|s| - 1] == '=' then s[..|s| - 1]
             else s;
    if InAlphabet(t) then DecodeSextets(t) else None
  }

  lemma {:induction false} DecodeSextetsOfSextets(b: seq<Byte>)
    ensures DecodeSextets(Sextets(b)) == Some(b)
    decreases |b|
  {
    if |b| >= 3 {
      DecodeSextetsOfSextets(b[3..]);
      DecodeFullGroup(b);
    } else if |b| == 2 {
      DecodeTwoBytes(b);
    } else if |b| == 1 {
      DecodeOneByte(b);
    }
  }

  lemma DecodeOneByte(b: seq<Byte>)
    requires |b| == 1
    ensures DecodeSextets(Sextets(b)) == Some(b)
  {
    var s := Sextets(b);
    var c := Split3(b[0], 0, 0);
    SplitJoin(b[0], 0, 0);
    ValueOfChar(c.0); ValueOfChar(c.1);
    assert s == [Char(c.0), Char(c.1)];
    assert ValueAt(s, 0) == c.0 && ValueAt(s, 1) == c.1 && ValueAt(s, 2) == 0 && ValueAt(s, 3) == 0;
    assert b == [b[0]];
  }

  lemma DecodeTwoBytes(b: seq<Byte>)
    requires |b| == 2
    ensures DecodeSextets(Sextets(b)) == Some(b)
  {
    var s := Sextets(b);
    var c := Split3(b[0], b[1], 0);
    SplitJoin(b[0], b[1], 0);
    ValueOfChar(c.0); ValueOfChar(c.1); ValueOfChar(c.2);
    assert s == [Char(c.0), Char(c.1), Char(c.2)];
    assert ValueAt(s, 0) == c.0 && ValueAt(s, 1) == c.1 && ValueAt(s, 2) == c.2 && ValueAt(s, 3) == 0;
    assert b == [b[0], b[1]];
  }

  lemma DecodeFullGroup(b: seq<Byte>)
    requires |b| >= 3 && DecodeSextets(Sextets(b[3..])) == Some(b[3..])
    ensures DecodeSextets(Sextets(b)) == Some(b)
  {
    var s := Sextets(b);
    var c := Split3(b[0], b[1], b[2]);
    SplitJoin(b[0], b[1], b[2]);
    ValueOfChar(c.0); ValueOfChar(c.1); ValueOfChar(c.2); ValueOfChar(c.3);
    assert s == [Char(c.0), Char(c.1), Char(c.2), Char(c.3)] + Sextets(b[3..]);
    assert ValueAt(s, 0) == c.0 && ValueAt(s, 1) == c.1 && ValueAt(s, 2) == c.2 && ValueAt(s, 3) == c.3;
    assert s[4..] == Sextets(b[3..]);
    assert b == [b[0], b[1], b[2]] + b[3..];
  }

  /** `atob` removes exactly the padding that the encoder adds. */
  lemma DecodePadded(s: string, n: nat)
    requires InAlphabet(s) && (|s| + |Padding(n)|) % 4 == 0
    requires |Padding(n)| == 0 || |s| % 4 == 4 - |Padding(n)|
    ensures Decode(s + Padding(n)) == DecodeSextets(s)
  {
    var p := Padding(n);
    var e := s + p;
    if |p| == 2 {
      assert e[|e| - 2..] == "==";
      assert e[..|e| - 2] == s;
    } else if |p| == 1 {
      assert e[|e| - 2] == s[|s| - 1];
      assert e[..|e| - 1] == s;
    } else {
      assert e == s;
      if s != [] {
        assert Value(s[|s| - 1]).Some?;
      }
    }
  }

  /** Decoding an encoding gives back the bytes. */
  lemma DecodeEncode(b: seq<Byte>)
    ensures Decode(Encode(b)) == Some(b)
  {
    var s := Sextets(b);
    DecodeSextetsOfSextets(b);
    PaddingFits(b);
    DecodePadded(s, |b|);
    assert Encode(b) == s + Padding(|b|);
  }

  lemma PaddingFits(b: seq<Byte>)
    ensures (|Sextets(b)| + |Padding(|b|)|) % 4 == 0
    ensures |Padding(|b|)| == 0 || |Sextets(b)| % 4 == 4 - |Padding(|b|)|
  {
    var k, m := |b| / 3, |b| % 3;
    SextetsLength(b);
    GroupRemainder(|Sextets(b)|, k, m, |Padding(|b|)|);
  }

  lemma GroupRemainder(n: nat, k: nat, m: nat, p: nat)
    requires m < 3 && n == 4 * k + (if m == 0 then 0 else m + 1)
    requires p == (if m == 1 then 2 else if m == 2 then 1 else 0)
    ensures (n + p) % 4 == 0
    ensures p == 0 || n % 4 == 4 - p
  {
    if m == 0 {
      assert n + p == 4 * k;
    } else {
      assert n + p == 4 * (k + 1);
      assert n == 4 * k + (4 - p);
    }
  }

  /** Text whose length leaves remainder 1 after the padding is removed is rejected. */
  lemma DecodeRejectsLoneCharacter(c: char)
    ensures Decode([c]).None?
  {
  }
}
