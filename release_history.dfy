// The release history page (src/pages/settings/ReleaseHistory.tsx): which
// releases are expanded, which one is marked current, and the note labels.
// Fetching release.json is I/O; its parsed `releases` field is a parameter.
module ReleaseHistory {
  import opened Wrappers
  import opened Text
  import Seqs

  datatype ReleaseNote = ReleaseNote(version: string, date: string, title: string, description: string,
                                     kind: string)

  /** The page state: the releases shown and the versions expanded. */
  datatype PageState = PageState(releases: seq<ReleaseNote>, openVersions: seq<string>)

  const InitialState := PageState([], [])

  /** The effect's `.then`: a missing `releases` field changes nothing; otherwise the list is
    * shown and, when it has any release, the first one alone is expanded. */
  function Loaded(st: PageState, releases: Option<seq<ReleaseNote>>): (r: PageState)
    ensures releases.None? ==> r == st
    ensures releases.Some? ==> r.releases == releases.value
    ensures releases.Some? && releases.value != [] ==> r.openVersions == [releases.value[0].version]
    ensures releases.Some? && releases.value == [] ==> r.openVersions == st.openVersions
  {
    match releases
    case None => st
    case Some(list) => PageState(list, if |list| > 0 then [list[0].version] else st.openVersions)
  }

  /** After the first load exactly the newest release is open. */
  lemma InitiallyOnlyFirstOpen(list: seq<ReleaseNote>)
    requires list != []
    ensures var st := Loaded(InitialState, Some(list));
      forall i :: 0 <= i < |list| ==> (list[i].version in st.openVersions <==> list[i].version == list[0].version)
  {
  }

  /** toggleVersion */
  function ToggleVersion(st: PageState, version: string): (r: PageState)
    ensures r.releases == st.releases
    ensures version in st.openVersions <==> version !in r.openVersions
    ensures forall v :: v != version ==> (v in r.openVersions <==> v in st.openVersions)
  {
    st.(openVersions := Seqs.Toggle(st.openVersions, version))
  }

  /** Toggling the same version twice restores the expanded set. */
  lemma ToggleVersionTwice(st: PageState, version: string)
    ensures forall v :: v in ToggleVersion(ToggleVersion(st, version), version).openVersions <==> v in st.openVersions
  {
    Seqs.ToggleTwice(st.openVersions, version);
  }

  /** `isLatest` of each card: its position is 0. */
  function LatestFlags(releases: seq<ReleaseNote>): (r: seq<bool>)
    ensures |r| == |releases|
    ensures forall i :: 0 <= i < |r| ==> (r[i] <==> i == 0)
  {
    seq(|releases|, i requires 0 <= i < |releases| => i == 0)
  }

  /** A non-empty list has exactly one current release. */
  lemma OneLatest(releases: seq<ReleaseNote>)
    requires releases != []
    ensures Seqs.Count(LatestFlags(releases), IsSet) == 1
  {
    var f := LatestFlags(releases);
    assert f == [true] + f[1..];
    Seqs.FilterNone(f[1..], IsSet);
    Seqs.FilterConcat([true], f[1..], IsSet);
  }

  predicate IsSet(b: bool) { b }

  /** getTypeLabel: four fixed labels, the upper-cased type for anything else. */
  function TypeLabel(kind: string): (r: string)
    ensures kind !in {"feat", "fix", "sec", "ui"} ==> r == Upper(kind)
    ensures kind == "feat" ==> r == "NOVO"
    ensures kind == "fix" ==> r == "CORREÇÃO"
    ensures kind == "sec" ==> r == "SEGURANÇA"
    ensures kind == "ui" ==> r == "VISUAL"
  {
    if kind == "feat" then "NOVO"
    else if kind == "fix" then "CORREÇÃO"
    else if kind == "sec" then "SEGURANÇA"
    else if kind == "ui" then "VISUAL"
    else Upper(kind)
  }

  /** The labels of the other types are already upper case, so labelling is stable. */
  lemma TypeLabelUpper(kind: string)
    requires kind !in {"feat", "fix", "sec", "ui"}
    ensures Upper(TypeLabel(kind)) == TypeLabel(kind)
    ensures TypeLabel("major") == "MAJOR"
  {
    UpperIdempotent(kind);
  }
}
