// The sign-up page (src/pages/auth/SignUp.tsx): the validation gate in front of
// the sign-up call, the company slug derived from the company name, and the
// submit button's disabled state.
module SignUp {
  import opened Text
  import CompanySettings

  /** The form fields. */
  datatype SignUpForm = SignUpForm(
    fullName: string, email: string, password: string, confirmPassword: string,
    companyName: string, companySlug: string, phone: string)

  /** Where handleSubmit stops. */
  datatype Gate = PasswordMismatch | PasswordTooShort | ConsentMissing | Proceed

  /** The early-return checks of handleSubmit, in source order. */
  function SubmitGate(password: string, confirmPassword: string,
                      acceptedTerms: bool, acceptedPrivacy: bool): (g: Gate)
    ensures password != confirmPassword ==> g == PasswordMismatch
    ensures password == confirmPassword && |password| < 6 ==> g == PasswordTooShort
    ensures g == ConsentMissing <==>
      password == confirmPassword && |password| >= 6 && !(acceptedTerms && acceptedPrivacy)
    ensures g == Proceed <==>
      password == confirmPassword && |password| >= 6 && acceptedTerms && acceptedPrivacy
  {
    if password != confirmPassword then PasswordMismatch
    else if |password| < 6 then PasswordTooShort
    else if !acceptedTerms || !acceptedPrivacy then ConsentMissing
    else Proceed
  }

  /** `replace(/(^-|-$)/g, '')`: at most one hyphen removed at each end. */
  function StripOneHyphen(s: string): (r: string)
    ensures |r| <= |s|
  {
    DropLastHyphen(DropFirstHyphen(s))
  }

  /** The slug written by handleCompanyNameChange. */
  function CompanySlug(name: string): string
  {
    StripOneHyphen(CompanySettings.Hyphenate(Lower(name)))
  }

  function DropFirstHyphen(s: string): string
  {
    if s != [] && s[0] == '-' then s[1..] else s
  }

  function DropLastHyphen(s: string): string
  {
    if s != [] && s[|s| - 1] == '-' then s[..|s| - 1] else s
  }

  lemma StripLeadingOnce(h: string)
    requires CompanySettings.NoDoubleHyphen(h)
    ensures CompanySettings.StripLeading(h) == DropFirstHyphen(h)
  {
    if h != [] && h[0] == '-' && |h| >= 2 {
      assert h[1] != '-';
    }
  }

  lemma StripTrailingOnce(h: string)
    requires CompanySettings.NoDoubleHyphen(h)
    ensures CompanySettings.StripTrailing(h) == DropLastHyphen(h)
  {
    if h != [] && h[|h| - 1] == '-' && |h| >= 2 {
      assert h[|h| - 2] != '-';
    }
  }

  /** After hyphenation there are no hyphen runs, so removing one hyphen at each end
    * removes them all. */
  lemma StripOneIsStripAll(h: string)
    requires CompanySettings.SlugChars(h) && CompanySettings.NoDoubleHyphen(h)
    ensures StripOneHyphen(h) == CompanySettings.StripTrailing(CompanySettings.StripLeading(h))
  {
    StripLeadingOnce(h);
    var a := DropFirstHyphen(h);
    CompanySettings.SliceKeepsShape(h, |h| - |a|, |h|);
    StripTrailingOnce(a);
  }

  /** The sign-up page and the settings page derive the same slug from a name. */
  lemma CompanySlugIsGenerateSlug(name: string)
    ensures CompanySlug(name) == CompanySettings.GenerateSlug(name)
  {
    StripOneIsStripAll(CompanySettings.Hyphenate(Lower(name)));
  }

  /** The slug uses only `[a-z0-9-]`, with no hyphen at either end. */
  lemma CompanySlugShape(name: string)
    ensures var r := CompanySlug(name);
      CompanySettings.SlugChars(r) && (r == [] || (r[0] != '-' && r[|r| - 1] != '-'))
  {
    CompanySlugIsGenerateSlug(name);
  }

  class SignUpPage {
    var formData: SignUpForm
    var loading: bool
    var acceptedTerms: bool
    var acceptedPrivacy: bool

    constructor ()
      ensures formData == SignUpForm("", "", "", "", "", "", "")
      ensures !loading && !acceptedTerms && !acceptedPrivacy
    {
      formData := SignUpForm("", "", "", "", "", "", "");
      loading := false;
      acceptedTerms := false;
      acceptedPrivacy := false;
    }

    /** The submit button's `disabled` attribute. */
    predicate SubmitDisabled()
      reads this
    {
      loading || !acceptedTerms || !acceptedPrivacy
    }

    /** handleCompanyNameChange */
    method HandleCompanyNameChange(name: string)
      modifies this
      ensures formData == old(formData).(companyName := name, companySlug := CompanySlug(name))
      ensures loading == old(loading) && acceptedTerms == old(acceptedTerms)
      ensures acceptedPrivacy == old(acceptedPrivacy)
    {
      formData := formData.(companyName := name, companySlug := CompanySlug(name));
    }

    /** handleSubmit, with the sign-up call's error flag passed in. `called` says whether
      * signUp was invoked; `navigated` whether the page moved to the dashboard. */
    method HandleSubmit(signUpFails: bool) returns (gate: Gate, called: bool, navigated: bool)
      modifies this
      ensures gate == SubmitGate(formData.password, formData.confirmPassword,
                                 acceptedTerms, acceptedPrivacy)
      ensures called <==> gate == Proceed
      ensures navigated <==> called && !signUpFails
      ensures formData == old(formData) && acceptedTerms == old(acceptedTerms)
      ensures acceptedPrivacy == old(acceptedPrivacy)
      ensures loading == (if called then false else old(loading))
    {
      gate := SubmitGate(formData.password, formData.confirmPassword, acceptedTerms, acceptedPrivacy);
      called, navigated := false, false;
      if gate != Proceed {
        return;
      }
      loading := true;
      called := true;
      navigated := !signUpFails;
      loading := false;
    }
  }
}
