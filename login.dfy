/**
 * The sign-in route (app/routes/_auth.login.tsx). `validateEmail`, `safeRedirect`
 * and `verifyLogin` are not part of this model: the first and the last are
 * parameters (uninterpreted oracles), the second is the value it returned.
 */
module Login {
  import opened Wrappers
  import opened Guards

  datatype LoaderResponse = RedirectHome(location: string) | Page

  /** `userId` is what the session yields; a signed-in user is sent to "/". */
  function Loader(userId: Option<int>): (r: LoaderResponse)
    ensures r.RedirectHome? <==> userId.Some?
    ensures r.RedirectHome? ==> r.location == "/"
  {
    if userId.Some? then RedirectHome("/") else Page
  }

  /** A 400 answer carries one message, under the `email` key or under the `password` key. */
  datatype Response =
    | BadRequest(emailError: Option<string>, passwordError: Option<string>)
    | CreateSession(redirectTo: string, remember: bool, userId: int)
  {
    /** The message a 400 answer carries, whichever key holds it. */
    function Message(): Option<string>
    {
      if BadRequest? then (if emailError.Some? then emailError else passwordError) else None
    }
  }

  const EmailInvalid := "Email es inválido"
  const PasswordRequired := "Contraseña es requerida"
  const PasswordTooShort := "Contraseña es muy corta"
  const CredentialsInvalid := "Email o contraseña son inválidos"

  predicate EmailValid(email: Option<string>, validateEmail: string -> bool)
  {
    email.Some? && validateEmail(email.value)
  }

  /** The three input checks, in source order. */
  function Rules(email: Option<string>, password: Option<string>, validateEmail: string -> bool): seq<Rule>
  {
    [ Rule(EmailValid(email, validateEmail), EmailInvalid),
      Rule(password.Some? && Utf16Length(password.value) > 0, PasswordRequired),
      Rule(password.Some? && Utf16Length(password.value) >= 8, PasswordTooShort) ]
  }

  /** The input passes every check: a valid email and a password of at least 8 characters. */
  predicate InputAccepted(email: Option<string>, password: Option<string>, validateEmail: string -> bool)
  {
    EmailValid(email, validateEmail) && password.Some? && Utf16Length(password.value) >= 8
  }

  /**
   * The action: the input checks, then verifyLogin, then a session whose
   * "remember me" flag is set exactly when the checkbox value is "on".
   */
  function Action(email: Option<string>, password: Option<string>, redirectTo: string, remember: Option<string>,
                  validateEmail: string -> bool, verifyLogin: (string, string) -> Option<int>): (r: Response)
    ensures InputAccepted(email, password, validateEmail) <==> FirstViolation(Rules(email, password, validateEmail)).None?
    ensures !InputAccepted(email, password, validateEmail) ==>
      r.Message() == FirstViolation(Rules(email, password, validateEmail))
    ensures r.BadRequest? ==> (r.emailError.Some? <==> r.passwordError.None?)
    ensures r.BadRequest? ==>
      (r.passwordError.Some? <==> r.Message() == Some(PasswordRequired) || r.Message() == Some(PasswordTooShort))
    ensures !EmailValid(email, validateEmail) ==> r == BadRequest(Some(EmailInvalid), None)
    ensures InputAccepted(email, password, validateEmail) ==>
      if verifyLogin(email.value, password.value).None? then r == BadRequest(Some(CredentialsInvalid), None)
      else r == CreateSession(redirectTo, remember == Some("on"), verifyLogin(email.value, password.value).value)
  {
    var rules := Rules(email, password, validateEmail);
    if !EmailValid(email, validateEmail) then Precedence(rules, 0); BadRequest(Some(EmailInvalid), None)
    else if password.None? || Utf16Length(password.value) == 0 then Precedence(rules, 1); BadRequest(None, Some(PasswordRequired))
    else if Utf16Length(password.value) < 8 then Precedence(rules, 2); BadRequest(None, Some(PasswordTooShort))
    else
      var user := verifyLogin(email.value, password.value);
      if user.None? then BadRequest(Some(CredentialsInvalid), None)
      else CreateSession(redirectTo, remember == Some("on"), user.value)
  }

  /** A failed input check never reaches verifyLogin: the answer is the same whatever it would say. */
  lemma NoLoginAttemptOnBadInput(email: Option<string>, password: Option<string>, redirectTo: string, remember: Option<string>,
                                 validateEmail: string -> bool, v1: (string, string) -> Option<int>, v2: (string, string) -> Option<int>)
    requires !InputAccepted(email, password, validateEmail)
    ensures Action(email, password, redirectTo, remember, validateEmail, v1)
         == Action(email, password, redirectTo, remember, validateEmail, v2)
  {
  }

  /**
   * The length guard counts UTF-16 code units: four emoji make a password of
   * length 8, which passes the input checks.
   */
  lemma AstralPasswordLongEnough()
    ensures InputAccepted(Some("ana@correo.cl"), Some("\U{1F600}\U{1F600}\U{1F600}\U{1F600}"), (e: string) => true)
  {
    var p := "\U{1F600}\U{1F600}\U{1F600}\U{1F600}";
    assert p[1..][1..][1..][1..] == [];
    assert Utf16Length(p) == 8;
  }
}
