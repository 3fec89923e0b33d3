// The company tab of the settings page (src/pages/settings/CompanySettings.tsx):
// URL slugs, the two form handlers that write them, the save validation and the
// role labels. Slugs are modelled on ASCII input: the NFD normalisation and
// accent stripping that run before the hyphenation are left out.
module CompanySettings {
  import opened Text
  import Seqs
  import opened Wrappers

  /** The regex class `[a-z0-9]`. */
  predicate IsSlugAlnum(c: char) { IsLower(c) || IsDigit(c) }

  /** The regex class `[a-z0-9-]`. */
  predicate IsSlugChar(c: char) { IsSlugAlnum(c) || c == '-' }

  predicate SlugChars(s: string) { forall i :: 0 <= i < |s| ==> IsSlugChar(s[i]) }

  /** No two adjacent hyphens. */
  predicate NoDoubleHyphen(s: string)
  {
    forall i :: 0 <= i < |s| - 1 ==> !(s[i] == '-' && s[i + 1] == '-')
  }

  /** Leading characters outside `[a-z0-9]`, removed. */
  function DropNonAlnum(s: string): (r: string)
    ensures |r| <= |s| && r == s[|s| - |r|..]
    ensures r == [] || IsSlugAlnum(r[0])
  {
    if s != [] && !IsSlugAlnum(s[0]) then DropNonAlnum(s[1..]) else s
  }

  /** `s.replace(/[^a-z0-9]+/g, '-')`: each maximal run of other characters becomes one
    * hyphen. */
  function Hyphenate(s: string): (r: string)
    ensures SlugChars(r) && NoDoubleHyphen(r)
    ensures r == [] <==> s == []
    ensures r != [] ==> (r[0] == '-' <==> !IsSlugAlnum(s[0]))
    decreases |s|
  {
    if s == [] then []
    else if IsSlugAlnum(s[0]) then
      var t := Hyphenate(s[1..]);
      ConsKeepsShape(s[0], t);
      [s[0]] + t
    else
      var rest := DropNonAlnum(s[1..]);
      var t := Hyphenate(rest);
      assert t != [] ==> t[0] != '-';
      ConsKeepsShape('-', t);
      "-" + t
  }

  /** A slug character in front of a slug string keeps its shape, unless it is a hyphen
    * in front of another. */
  lemma ConsKeepsShape(c: char, t: string)
    requires IsSlugChar(c) && SlugChars(t) && NoDoubleHyphen(t)
    requires c == '-' ==> t == [] || t[0] != '-'
    ensures SlugChars([c] + t) && NoDoubleHyphen([c] + t)
  {
    var r := [c] + t;
    assert forall i :: 1 <= i < |r| ==> r[i] == t[i - 1];
  }

  function StripLeading(s: string): (r: string)
    ensures r == [] || r[0] != '-'
    ensures |r| <= |s| && r == s[|s| - |r|..]
  {
    if s != [] && s[0] == '-' then StripLeading(s[1..]) else s
  }

  function StripTrailing(s: string): (r: string)
    ensures r == [] || r[|r| - 1] != '-'
    ensures |r| <= |s| && r == s[..|r|]
  {
    if s != [] && s[|s| - 1] == '-' then StripTrailing(s[..|s| - 1]) else s
  }

  /** A slice of a slug string is a slug string without doubled hyphens. */
  lemma SliceKeepsShape(s: string, i: nat, j: nat)
    requires i <= j <= |s| && SlugChars(s) && NoDoubleHyphen(s)
    ensures SlugChars(s[i..j]) && NoDoubleHyphen(s[i..j])
  {
    assert forall k :: 0 <= k < j - i ==> s[i..j][k] == s[i + k];
  }

  /** generateSlug: lower-case, hyphenate, then `replace(/^-+|-+$/g, '')`. */
  function GenerateSlug(name: string): (r: string)
    ensures SlugChars(r) && NoDoubleHyphen(r)
    ensures r == [] || (r[0] != '-' && r[|r| - 1] != '-')
  {
    var h := Hyphenate(Lower(name));
    var l := StripLeading(h);
    SliceKeepsShape(h, |h| - |l|, |h|);
    var t := StripTrailing(l);
    SliceKeepsShape(l, 0, |t|);
    assert t != [] ==> t[0] == l[0];
    t
  }

  /** A string already in slug shape is its own hyphenation. */
  lemma {:induction false} HyphenateOfSlug(s: string)
    requires SlugChars(s) && NoDoubleHyphen(s)
    ensures Hyphenate(s) == s
  {
    if s != [] {
      SliceKeepsShape(s, 1, |s|);
      HyphenateOfSlug(s[1..]);
      if !IsSlugAlnum(s[0]) {
        assert s[1..] == [] || IsSlugAlnum(s[1]);
        assert DropNonAlnum(s[1..]) == s[1..];
      }
    }
  }

  lemma LowerOfSlug(s: string)
    requires SlugChars(s)
    ensures Lower(s) == s
  {
  }

  /** Generating a slug from a generated slug gives it back. */
  lemma GenerateSlugIdempotent(name: string)
    ensures GenerateSlug(GenerateSlug(name)) == GenerateSlug(name)
  {
    var r := GenerateSlug(name);
    LowerOfSlug(r);
    HyphenateOfSlug(r);
  }

  lemma {:induction false} DropNonAlnumKeepsAlnum(s: string)
    ensures Seqs.Filter(DropNonAlnum(s), IsSlugAlnum) == Seqs.Filter(s, IsSlugAlnum)
  {
    if s != [] && !IsSlugAlnum(s[0]) {
      DropNonAlnumKeepsAlnum(s[1..]);
    }
  }

  /** Hyphenation keeps every letter and digit, in order, and adds none. */
  lemma {:induction false} HyphenateKeepsAlnum(s: string)
    ensures Seqs.Filter(Hyphenate(s), IsSlugAlnum) == Seqs.Filter(s, IsSlugAlnum)
    decreases |s|
  {
    if s != [] {
      if IsSlugAlnum(s[0]) {
        HyphenateKeepsAlnum(s[1..]);
        Seqs.FilterConcat([s[0]], Hyphenate(s[1..]), IsSlugAlnum);
      } else {
        var rest := DropNonAlnum(s[1..]);
        HyphenateKeepsAlnum(rest);
        DropNonAlnumKeepsAlnum(s[1..]);
        Seqs.FilterConcat("-", Hyphenate(rest), IsSlugAlnum);
      }
    }
  }

  lemma {:induction false} StripLeadingKeepsAlnum(s: string)
    ensures Seqs.Filter(StripLeading(s), IsSlugAlnum) == Seqs.Filter(s, IsSlugAlnum)
  {
    if s != [] && s[0] == '-' {
      StripLeadingKeepsAlnum(s[1..]);
    }
  }

  lemma {:induction false} StripTrailingKeepsAlnum(s: string)
    ensures Seqs.Filter(StripTrailing(s), IsSlugAlnum) == Seqs.Filter(s, IsSlugAlnum)
    decreases |s|
  {
    if s != [] && s[|s| - 1] == '-' {
      var p := s[..|s| - 1];
      StripTrailingKeepsAlnum(p);
      assert s == p + "-";
      Seqs.FilterConcat(p, "-", IsSlugAlnum);
    }
  }

  /** The slug holds exactly the letters and digits of the lower-cased name, in order. */
  lemma GenerateSlugKeepsAlnum(name: string)
    ensures Seqs.Filter(GenerateSlug(name), IsSlugAlnum) == Seqs.Filter(Lower(name), IsSlugAlnum)
  {
    var h := Hyphenate(Lower(name));
    HyphenateKeepsAlnum(Lower(name));
    StripLeadingKeepsAlnum(h);
    StripTrailingKeepsAlnum(StripLeading(h));
  }

  /** handleSlugChange's sanitizer: lower-case, then drop everything outside `[a-z0-9-]`. */
  function Sanitize(slug: string): (r: string)
    ensures SlugChars(r)
    ensures |r| <= |slug|
  {
    Seqs.Filter(Lower(slug), IsSlugChar)
  }

  lemma SanitizeIdempotent(slug: string)
    ensures Sanitize(Sanitize(slug)) == Sanitize(slug)
  {
    var r := Sanitize(slug);
    LowerOfSlug(r);
    Seqs.FilterIdempotent(Lower(slug), IsSlugChar);
  }

  /** A slug that is already valid passes the sanitizer unchanged. */
  lemma SanitizeKeepsSlugs(s: string)
    requires SlugChars(s)
    ensures Sanitize(s) == s
  {
    LowerOfSlug(s);
    Seqs.FilterAll(s, IsSlugChar);
  }

  /** CompanyFormData */
  datatype CompanyForm = CompanyForm(
    name: string, slug: string, email: string, phone: string, address: string, logoUrl: string)

  /** The form state that the two handlers write. */
  class CompanyFormState {
    var formData: CompanyForm

    constructor (initial: CompanyForm)
      ensures formData == initial
    {
      formData := initial;
    }

    /** handleNameChange: the name and a freshly generated slug. */
    method HandleNameChange(name: string)
      modifies this
      ensures formData == old(formData).(name := name, slug := GenerateSlug(name))
    {
      formData := formData.(name := name, slug := GenerateSlug(name));
    }

    /** handleSlugChange: the sanitized slug, nothing else. */
    method HandleSlugChange(slug: string)
      modifies this
      ensures formData == old(formData).(slug := Sanitize(slug))
      ensures SlugChars(formData.slug)
    {
      formData := formData.(slug := Sanitize(slug));
    }
  }

  /** Why handleSaveCompany stopped, or that it saved. */
  datatype SaveOutcome =
    | NoCompany            // no company id: silent return
    | NameRequired
    | SlugRequired
    | EmailRequired
    | SlugTaken            // database error code 23505 (unique violation)
    | UpdateFailed(message: string)
    | Saved

  /** The update's result, passed in: None for success, or the error code and message. */
  datatype DbError = DbError(code: string, message: string)

  /** The checks run before any update, in source order. */
  function SaveValidation(hasCompany: bool, form: CompanyForm): (r: SaveOutcome)
    ensures r == Saved <==> hasCompany && !IsBlank(form.name) && !IsBlank(form.slug) && !IsBlank(form.email)
    ensures !hasCompany ==> r == NoCompany
    ensures hasCompany && IsBlank(form.name) ==> r == NameRequired
    ensures hasCompany && !IsBlank(form.name) && IsBlank(form.slug) ==> r == SlugRequired
    ensures hasCompany && !IsBlank(form.name) && !IsBlank(form.slug) && IsBlank(form.email) ==>
      r == EmailRequired
    ensures r in {NoCompany, NameRequired, SlugRequired, EmailRequired, Saved}
  {
    if !hasCompany then NoCompany
    else if IsBlank(form.name) then NameRequired
    else if IsBlank(form.slug) then SlugRequired
    else if IsBlank(form.email) then EmailRequired
    else Saved
  }

  /** handleSaveCompany: validation, then the update's result mapped to an outcome. The
    * update is issued exactly when the validation passes. */
  function SaveCompany(hasCompany: bool, form: CompanyForm, update: Option<DbError>): (r: SaveOutcome)
    ensures SaveValidation(hasCompany, form) != Saved ==> r == SaveValidation(hasCompany, form)
    ensures SaveValidation(hasCompany, form) == Saved ==>
      (r == Saved <==> update.None?) && (r == SlugTaken <==> update.Some? && update.value.code == "23505")
  {
    var v := SaveValidation(hasCompany, form);
    if v != Saved then v
    else match update
      case None => Saved
      case Some(e) => if e.code == "23505" then SlugTaken else UpdateFailed(e.message)
  }

  /** getRoleLabel: the Portuguese label of the four known roles, the role itself otherwise. */
  function RoleLabel(role: string): (r: string)
    ensures role !in {"owner", "admin", "manager", "user"} ==> r == role
    ensures role in {"owner", "admin", "manager", "user"} ==> r != role && r != ""
  {
    if role == "owner" then "Proprietário"
    else if role == "admin" then "Administrador"
    else if role == "manager" then "Gerente"
    else if role == "user" then "Usuário"
    else role
  }
}
