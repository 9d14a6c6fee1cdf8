/** The sign-up page: the password-strength meter and the submit checks. */
module Signup {
  import opened Wrappers
  import opened Text
  import opened Auth
  import Seqs

  /** The meter's value and caption. */
  datatype Strength = Strength(level: nat, caption: string)

  /** The text a regular expression's `.*` can scan from the start: up to
      the first line terminator. */
  function FirstLine(s: string): (r: string)
    ensures |r| <= |s| && r == s[..|r|]
    ensures forall k :: 0 <= k < |r| ==> !IsLineTerminator(r[k])
    ensures |r| < |s| ==> IsLineTerminator(s[|r|])
  {
    if s == [] || IsLineTerminator(s[0]) then ""
    else [s[0]] + FirstLine(s[1..])
  }

  /** `/^(?=.*[a-z])(?=.*[A-Z])(?=.*\d)/`: a lowercase letter, an
      uppercase letter and a digit all occur before the first line
      terminator. */
  predicate MixedClasses(p: string) {
    var line := FirstLine(p);
    (exists k | 0 <= k < |line| :: IsAsciiLower(line[k]))
    && (exists k | 0 <= k < |line| :: IsAsciiUpper(line[k]))
    && (exists k | 0 <= k < |line| :: IsDigit(line[k]))
  }

  /** The caption for each meter value. */
  function CaptionOf(level: nat): string {
    if level == 0 then "" else if level == 1 then "Weak" else if level == 2 then "Fair" else "Strong"
  }

  /** `passwordStrength()`: empty 0, shorter than 6 Weak, shorter than 10
      Fair, otherwise Strong when the three character classes are present
      and Fair when not. */
  function PasswordStrength(p: string): (r: Strength)
    ensures r.level <= 3 && r.caption == CaptionOf(r.level)
    ensures r.level == 0 <==> p == ""
    ensures r.level == 1 <==> 0 < |p| < 6
    ensures r.level == 3 <==> |p| >= 10 && MixedClasses(p)
  {
    if p == "" then Strength(0, "")
    else if |p| < 6 then Strength(1, "Weak")
    else if |p| < 10 then Strength(2, "Fair")
    else if MixedClasses(p) then Strength(3, "Strong")
    else Strength(2, "Fair")
  }

  /** Lengthening a password by characters on its first line never lowers
      the meter once it has all three classes. */
  lemma StrengthMonotone(p: string, q: string)
    requires '\n' !in p && '\r' !in p && '\U{2028}' !in p && '\U{2029}' !in p
    requires |p| >= 6 && MixedClasses(p)
    ensures PasswordStrength(p + q).level >= PasswordStrength(p).level
  {
    FirstLineOfPrefix(p, q);
    var a := FirstLine(p);
    var b := FirstLine(p + q);
    assert a == p;
    assert forall k :: 0 <= k < |a| ==> b[k] == a[k];
  }

  /** A prefix without line terminators lies on the first line. */
  lemma {:induction false} FirstLineOfPrefix(p: string, q: string)
    requires forall k :: 0 <= k < |p| ==> !IsLineTerminator(p[k])
    ensures FirstLine(p) == p
    ensures |FirstLine(p + q)| >= |p| && FirstLine(p + q)[..|p|] == p
  {
    if p != [] {
      FirstLineOfPrefix(p[1..], q);
      assert (p + q)[1..] == p[1..] + q;
    }
  }

  /** Meter segment `k` (1 to 3) is lit iff `k` is at most the strength. */
  predicate SegmentLit(k: nat, strength: nat) {
    k <= strength
  }

  function LitFn(strength: nat): int -> bool {
    (k: int) => 0 <= k && SegmentLit(k, strength)
  }

  /** The meter lights as many of its three segments as the strength. */
  lemma LitSegments(p: string)
    ensures |Seqs.Filter([1, 2, 3], LitFn(PasswordStrength(p).level))| == PasswordStrength(p).level
  {
    var level := PasswordStrength(p).level;
    var segs: seq<int> := [1, 2, 3];
    assert segs[1..] == [2, 3] && segs[1..][1..] == [3] && segs[1..][1..][1..] == [];
    assert LitFn(level)(1) == (1 <= level) && LitFn(level)(2) == (2 <= level) && LitFn(level)(3) == (3 <= level);
  }

  const TermsError: string := "Please agree to the terms and conditions"
  const RequiredError: string := "Please fill in all required fields"

  /** The outcome of a submit: an error message, or the user to sign in. */
  function SignupOutcome(name: string, email: string, password: string, agreedToTerms: bool): (r: Result<User, string>)
    ensures !agreedToTerms ==> r == Err(TermsError)
    ensures agreedToTerms ==> (r.Ok? <==> name != "" && email != "" && password != "")
    ensures r.Ok? ==> r.value == User(email, name)
    ensures agreedToTerms && r.Err? ==> r.error == RequiredError
  {
    if !agreedToTerms then Err(TermsError)
    else if name != "" && email != "" && password != "" then Ok(User(email, name))
    else Err(RequiredError)
  }

  /** The form's state; the company field is optional and never checked. */
  class SignupForm {
    var name: string
    var email: string
    var company: string
    var password: string
    var agreedToTerms: bool
    var isLoading: bool
    var error: string
    var navigatedTo: Option<string>

    constructor ()
      ensures name == "" && email == "" && company == "" && password == ""
      ensures !agreedToTerms && !isLoading && error == "" && navigatedTo == None
    {
      name, email, company, password := "", "", "", "";
      agreedToTerms, isLoading := false, false;
      error := "";
      navigatedTo := None;
    }

    /** `handleSubmit`, with the simulated delay collapsed: the previous
        error is cleared; without the terms the terms error is set and
        nothing else happens; otherwise loading runs, the user is signed in
        and sent to '/' when name, email and password are filled, or the
        required-fields error is set, and loading ends. */
    method HandleSubmit(auth: AuthSession)
      modifies this, auth
      ensures name == old(name) && email == old(email) && password == old(password)
      ensures company == old(company) && agreedToTerms == old(agreedToTerms)
      ensures SignupOutcome(name, email, password, agreedToTerms).Err? ==>
        && error == SignupOutcome(name, email, password, agreedToTerms).error
        && auth.user == old(auth.user) && auth.storage == old(auth.storage)
        && navigatedTo == old(navigatedTo)
      ensures SignupOutcome(name, email, password, agreedToTerms).Ok? ==>
        && error == ""
        && auth.user == Some(User(email, name))
        && auth.storage == old(auth.storage)[Key := auth.encode(User(email, name))]
        && navigatedTo == Some("/")
      ensures agreedToTerms ==> !isLoading
      ensures !agreedToTerms ==> isLoading == old(isLoading)
      ensures auth.isLoading == old(auth.isLoading)
    {
      error := "";
      if !agreedToTerms {
        error := TermsError;
        return;
      }
      isLoading := true;
      if name != "" && email != "" && password != "" {
        auth.Login(User(email, name));
        navigatedTo := Some("/");
      } else {
        error := RequiredError;
      }
      isLoading := false;
    }
  }
}
