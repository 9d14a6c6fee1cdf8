/** The login page: the submit check and the display name taken from the
    email address. */
module Login {
  import opened Wrappers
  import opened Text
  import opened Auth

  /** `email.split('@')[0]`. */
  function NameFromEmail(email: string): string {
    Split(email, '@')[0]
  }

  /** The name is the text before the first '@', or the whole address
      when it has none. */
  lemma {:induction false} NameFromEmailSpec(email: string)
    ensures var n := NameFromEmail(email);
      && |n| <= |email| && n == email[..|n|] && '@' !in n
      && (|n| < |email| ==> email[|n|] == '@')
      && ('@' !in email ==> n == email)
  {
    if email != [] {
      NameFromEmailSpec(email[1..]);
    }
  }

  const MissingError: string := "Please enter your email and password"

  /** The outcome of a submit: the user to sign in, or the error. */
  function LoginOutcome(email: string, password: string): (r: Result<User, string>)
    ensures r.Ok? <==> email != "" && password != ""
    ensures r.Ok? ==> r.value.email == email && r.value.name == NameFromEmail(email)
    ensures r.Err? ==> r.error == MissingError
  {
    if email != "" && password != "" then Ok(User(email, NameFromEmail(email)))
    else Err(MissingError)
  }

  class LoginPage {
    var email: string
    var password: string
    var isLoading: bool
    var error: string
    var navigatedTo: Option<string>

    constructor ()
      ensures email == "" && password == "" && !isLoading && error == "" && navigatedTo == None
    {
      email, password := "", "";
      isLoading := false;
      error := "";
      navigatedTo := None;
    }

    /** `handleSubmit`, with the simulated delay collapsed: the error is
        cleared and loading set; then either the user is signed in and
        sent to '/', or the error is set; loading always ends. */
    method HandleSubmit(auth: AuthSession)
      modifies this, auth
      ensures email == old(email) && password == old(password) && !isLoading
      ensures LoginOutcome(email, password).Ok? ==>
        && error == ""
        && auth.user == Some(LoginOutcome(email, password).value)
        && auth.storage == old(auth.storage)[Key := auth.encode(LoginOutcome(email, password).value)]
        && navigatedTo == Some("/")
      ensures LoginOutcome(email, password).Err? ==>
        && error == MissingError
        && auth.user == old(auth.user) && auth.storage == old(auth.storage)
        && navigatedTo == old(navigatedTo)
      ensures auth.isLoading == old(auth.isLoading)
    {
      error := "";
      isLoading := true;
      if email != "" && password != "" {
        auth.Login(User(email, NameFromEmail(email)));
        navigatedTo := Some("/");
      } else {
        error := MissingError;
      }
      isLoading := false;
    }
  }
}
