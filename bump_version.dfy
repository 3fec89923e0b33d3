// The release script (scripts/bump-version.js): bumping a semantic version,
// prepending the release to the release list and rewriting the version
// constant in a source file. Prompts, the clock and file reads and writes are
// left out; their results are parameters.
module BumpVersion {
  import opened Text
  import opened Wrappers

  datatype Version = Version(major: nat, minor: nat, patch: nat)

  /** Precedence of release versions: numeric, major first (Semantic Versioning 2.0.0,
    * item 11). */
  predicate Precedes(a: Version, b: Version)
  {
    a.major < b.major
    || (a.major == b.major && a.minor < b.minor)
    || (a.major == b.major && a.minor == b.minor && a.patch < b.patch)
  }

  lemma PrecedesIsStrictOrder(a: Version, b: Version, c: Version)
    ensures !Precedes(a, a)
    ensures Precedes(a, b) ==> !Precedes(b, a)
    ensures Precedes(a, b) && Precedes(b, c) ==> Precedes(a, c)
    ensures a == b || Precedes(a, b) || Precedes(b, a)
  {
  }

  /** The version bumpVersion computes. */
  function Bumped(v: Version, kind: string): (r: Version)
    ensures kind == "major" ==> r == Version(v.major + 1, 0, 0)
    ensures kind == "minor" ==> r == Version(v.major, v.minor + 1, 0)
    ensures kind != "major" && kind != "minor" ==> r == Version(v.major, v.minor, v.patch + 1)
  {
    if kind == "major" then Version(v.major + 1, 0, 0)
    else if kind == "minor" then Version(v.major, v.minor + 1, 0)
    else v.(patch := v.patch + 1)
  }

  /** Every bump produces a strictly later version. */
  lemma BumpIncreases(v: Version, kind: string)
    ensures Precedes(v, Bumped(v, kind))
  {
  }

  /** The three cells of `parts` as a version. */
  function PartsVersion(parts: seq<nat>): Version
    requires |parts| == 3
  {
    Version(parts[0], parts[1], parts[2])
  }

  /** The in-place bump of the parsed `parts` array. */
  method BumpParts(parts: array<nat>, kind: string)
    requires parts.Length == 3
    modifies parts
    ensures PartsVersion(parts[..]) == Bumped(PartsVersion(old(parts[..])), kind)
    ensures Precedes(PartsVersion(old(parts[..])), PartsVersion(parts[..]))
  {
    if kind == "major" {
      parts[0] := parts[0] + 1;
      parts[1] := 0;
      parts[2] := 0;
    } else if kind == "minor" {
      parts[1] := parts[1] + 1;
      parts[2] := 0;
    } else {
      parts[2] := parts[2] + 1;
    }
  }

  /** `s.split('.')` */
  function SplitDots(s: string): (r: seq<string>)
    ensures |r| >= 1
  {
    if s == [] then [""]
    else if s[0] == '.' then [""] + SplitDots(s[1..])
    else
      var rest := SplitDots(s[1..]);
      [[s[0]] + rest[0]] + rest[1..]
  }

  lemma {:induction false} SplitWithoutDot(a: string, b: string)
    requires '.' !in a
    ensures SplitDots(a + "." + b) == [a] + SplitDots(b)
    ensures SplitDots(a) == [a]
  {
    if a != [] {
      SplitWithoutDot(a[1..], b);
      assert a[0] in a;
      assert (a + "." + b)[0] == a[0] && (a + "." + b)[1..] == a[1..] + "." + b;
      assert [a[0]] + a[1..] == a;
    } else {
      assert a + "." + b == "." + b;
    }
  }

  /** `parts.join('.')` of the three numbers. */
  function Format(v: Version): string
  {
    Join([NatToString(v.major), NatToString(v.minor), NatToString(v.patch)], ".")
  }

  /** `currentVersion.split('.').map(Number)` on a well-formed version string. */
  function Parse(s: string): (r: Option<Version>)
    ensures r.Some? ==> |SplitDots(s)| == 3
  {
    var p := SplitDots(s);
    if |p| == 3 && p[0] != [] && p[1] != [] && p[2] != []
       && AllDigits(p[0]) && AllDigits(p[1]) && AllDigits(p[2])
    then Some(Version(ParseDigits(p[0]), ParseDigits(p[1]), ParseDigits(p[2])))
    else None
  }

  lemma NoDotInNumber(n: nat)
    ensures '.' !in NatToString(n)
  {
  }

  /** A printed version parses back to itself. */
  lemma ParseFormat(v: Version)
    ensures Parse(Format(v)) == Some(v)
  {
    var a, b, c := NatToString(v.major), NatToString(v.minor), NatToString(v.patch);
    NoDotInNumber(v.major);
    NoDotInNumber(v.minor);
    NoDotInNumber(v.patch);
    assert Format(v) == a + "." + (b + "." + c) by {
      assert Join([c], ".") == c;
      assert [b, c][1..] == [c];
      assert Join([b, c], ".") == b + "." + c;
      assert [a, b, c][1..] == [b, c];
    }
    SplitWithoutDot(a, b + "." + c);
    SplitWithoutDot(b, c);
    SplitWithoutDot(c, "");
    ParsePrinted(v.major);
    ParsePrinted(v.minor);
    ParsePrinted(v.patch);
  }

  /** bumpVersion on the string form, for a version string of three numbers. */
  function BumpVersion(current: string, kind: string): (r: Option<string>)
    ensures r.Some? <==> Parse(current).Some?
    ensures r.Some? ==> Parse(r.value) == Some(Bumped(Parse(current).value, kind))
    ensures r.Some? ==> Precedes(Parse(current).value, Parse(r.value).value)
  {
    match Parse(current)
    case None => None
    case Some(v) =>
      ParseFormat(Bumped(v, kind));
      Some(Format(Bumped(v, kind)))
  }

  /** A change note of a release. */
  datatype Note = Note(kind: string, text: string)

  datatype Release = Release(
    version: string, date: string, title: string, description: string, kind: string,
    notes: seq<Note>)

  /** The part of public/version.json the script rewrites. */
  class VersionData {
    var version: string
    var releaseDate: string
    var releases: Option<seq<Release>>

    constructor (version: string, releaseDate: string, releases: Option<seq<Release>>)
      ensures this.version == version && this.releaseDate == releaseDate
      ensures this.releases == releases
    {
      this.version := version;
      this.releaseDate := releaseDate;
      this.releases := releases;
    }

    /** Step 4 of the script: a missing list starts empty, the new release is put first,
      * and the top-level version and date follow it. */
    method AddRelease(r: Release)
      modifies this
      ensures releases.Some? && |releases.value| == |old(releases).GetOr([])| + 1
      ensures releases.value[0] == r && releases.value[1..] == old(releases).GetOr([])
      ensures version == r.version && releaseDate == r.date
    {
      if releases.None? {
        releases := Some([]);
      }
      releases := Some([r] + releases.value);
      version := r.version;
      releaseDate := r.date;
    }
  }

  /** The release notes used with `--auto`. */
  function AutoRelease(version: string, today: string, kind: string): (r: Release)
    ensures r.version == version && r.date == today && r.kind == kind && r.notes == []
  {
    Release(version, today, "Atualização Automática", "Versão atualizada automaticamente", kind, [])
  }

  // updateFile's regular expressions have the shape `<lead>.*<tail>`: a literal, any
  // characters except a line break, and a literal.

  /** Literal `p` occurs in `s` at position `k`. */
  predicate At(p: string, s: string, k: nat)
  {
    k + |p| <= |s| && s[k..k + |p|] == p
  }

  /** The first line break at or after `k`, or the end of `s`. */
  function LineEnd(s: string, k: nat): (r: nat)
    requires k <= |s|
    ensures k <= r <= |s| && (r == |s| || s[r] == '\n')
    ensures forall m :: k <= m < r ==> s[m] != '\n'
    decreases |s| - k
  {
    if k == |s| || s[k] == '\n' then k else LineEnd(s, k + 1)
  }

  /** The greatest position in [lo, hi] where `tail` occurs. */
  function LastAt(tail: string, s: string, lo: nat, hi: nat): (r: Option<nat>)
    ensures r.Some? ==> lo <= r.value <= hi && At(tail, s, r.value)
    ensures r.Some? ==> forall j :: r.value < j <= hi ==> !At(tail, s, j)
    ensures r.None? ==> forall j :: lo <= j <= hi ==> !At(tail, s, j)
    decreases hi
  {
    if hi < lo then None
    else if At(tail, s, hi) then Some(hi)
    else if hi == 0 then None
    else LastAt(tail, s, lo, hi - 1)
  }

  /** A match starting at `i`: the lead at `i`, then as many non-break characters as
    * still let the tail follow. Returns where the tail starts. */
  function MatchAt(lead: string, tail: string, s: string, i: nat): (r: Option<nat>)
    requires i <= |s|
    ensures r.Some? ==> At(lead, s, i) && i + |lead| <= r.value && At(tail, s, r.value)
    ensures r.Some? ==> forall m :: i + |lead| <= m < r.value ==> s[m] != '\n'
  {
    if !At(lead, s, i) then None
    else LastAt(tail, s, i + |lead|, LineEnd(s, i + |lead|))
  }

  /** The leftmost match at or after `i`: its start and where its tail starts. */
  function FirstMatch(lead: string, tail: string, s: string, i: nat): (r: Option<(nat, nat)>)
    requires i <= |s|
    ensures r.Some? ==> i <= r.value.0 <= |s| && MatchAt(lead, tail, s, r.value.0) == Some(r.value.1)
    ensures r.Some? ==> forall k :: i <= k < r.value.0 ==> MatchAt(lead, tail, s, k).None?
    ensures r.None? ==> forall k :: i <= k <= |s| ==> MatchAt(lead, tail, s, k).None?
    decreases |s| - i
  {
    match MatchAt(lead, tail, s, i)
    case Some(j) => Some((i, j))
    case None => if i == |s| then None else FirstMatch(lead, tail, s, i + 1)
  }

  /** updateFile: `file` is the content, or None when the file does not exist. The
    * result is what is written back, or None when nothing is written. */
  function UpdateFile(file: Option<string>, lead: string, tail: string, replacement: string): (r: Option<string>)
    ensures file.None? ==> r.None?
    ensures file.Some? && FirstMatch(lead, tail, file.value, 0).None? ==> r.None?
    ensures r.Some? ==> file.Some? && FirstMatch(lead, tail, file.value, 0).Some?
  {
    match file
    case None => None
    case Some(content) =>
      match FirstMatch(lead, tail, content, 0)
      case None => None
      case Some((i, j)) => Some(content[..i] + replacement + content[j + |tail|..])
  }

  /** The rewritten file keeps everything before and after the match and puts the
    * replacement in its place; the match is the leftmost one, and contains no line break. */
  lemma UpdateFileSplices(content: string, lead: string, tail: string, replacement: string)
    requires UpdateFile(Some(content), lead, tail, replacement).Some?
    ensures var m := FirstMatch(lead, tail, content, 0).value;
      var r := UpdateFile(Some(content), lead, tail, replacement).value;
      && r[..m.0] == content[..m.0]
      && At(replacement, r, m.0)
      && r[m.0 + |replacement|..] == content[m.1 + |tail|..]
      && (forall k :: 0 <= k < m.0 ==> MatchAt(lead, tail, content, k).None?)
      && (forall k :: m.0 + |lead| <= k < m.1 ==> content[k] != '\n')
  {
    var m := FirstMatch(lead, tail, content, 0).value;
    var r := UpdateFile(Some(content), lead, tail, replacement).value;
    assert r == content[..m.0] + replacement + content[m.1 + |tail|..];
    assert r[m.0..m.0 + |replacement|] == replacement;
  }

  /** A line `<lead><value>';` whose value has no quote or line break is matched as a
    * whole, from its first character to its closing `';`. */
  lemma WholeLineMatches(lead: string, value: string)
    requires '\n' !in value && '\'' !in value
    ensures FirstMatch(lead, "';", lead + value + "';", 0).Some?
    ensures FirstMatch(lead, "';", lead + value + "';", 0).value == (0, |lead| + |value|)
  {
    var content := lead + value + "';";
    var j := |lead| + |value|;
    var n := |content|;
    assert content[..|lead|] == lead;
    assert content[j..] == "';";
    assert forall m :: |lead| <= m < n ==> content[m] != '\n' by {
      forall m | |lead| <= m < n ensures content[m] != '\n' {
        if m < j {
          assert content[m] == value[m - |lead|];
        }
      }
    }
    LineEndNoBreak(content, |lead|);
    assert At(lead, content, 0) && At("';", content, j);
    assert !At("';", content, n) && !At("';", content, n - 1);
    assert LastAt("';", content, |lead|, j) == Some(j);
    assert LastAt("';", content, |lead|, n) == Some(j);
    assert MatchAt(lead, "';", content, 0) == Some(j);
  }

  /** The file that declares the constant on one line is rewritten: the old value is found
    * between the quotes. */
  lemma UpdateFileFindsConstant(value: string, newValue: string)
    requires '\n' !in value && '\'' !in value
    ensures var content := "export const APP_VERSION = '" + value + "';";
      UpdateFile(Some(content), "export const APP_VERSION = '", "';",
                 "export const APP_VERSION = '" + newValue + "';")
      == Some("export const APP_VERSION = '" + newValue + "';")
  {
    var lead := "export const APP_VERSION = '";
    var content := lead + value + "';";
    var rep := lead + newValue + "';";
    WholeLineMatches(lead, value);
    assert content[|lead| + |value| + 2..] == [];
    assert content[..0] + rep + content[|lead| + |value| + 2..] == rep;
  }

  lemma {:induction false} LineEndNoBreak(s: string, k: nat)
    requires k <= |s|
    requires forall m :: k <= m < |s| ==> s[m] != '\n'
    ensures LineEnd(s, k) == |s|
    decreases |s| - k
  {
    if k < |s| {
      LineEndNoBreak(s, k + 1);
    }
  }
}
