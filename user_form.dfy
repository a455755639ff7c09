/**
 * The "new user" route's action (app/routes/users.new.tsx). `validateEmail`
 * and `getUserByEmail` are oracles given as parameters (the latter as the
 * predicate "a user with this email exists"); `redirectTo` is the value
 * `safeRedirect("/users")` returned.
 */
module UserForm {
  import opened Wrappers
  import opened Guards

  datatype Response =
    | BadRequest(emailError: Option<string>, passwordError: Option<string>)
    | CreateAndRedirect(email: string, password: string, location: string)
  {
    /** The message a 400 answer carries, whichever key holds it. */
    function Message(): Option<string>
    {
      if BadRequest? then (if emailError.Some? then emailError else passwordError) else None
    }
  }

  const EmailInvalid := "Email es inválido"
  const PasswordRequired := "Contraseña es requerida"
  const PasswordTooShort := "Contraseña es muy corta"
  const EmailTaken := "Este email ya está siendo usado por otro usuario"

  predicate EmailValid(email: Option<string>, validateEmail: string -> bool)
  {
    email.Some? && validateEmail(email.value)
  }

  /** All four checks in source order; the last asks whether the email is already used. */
  function Rules(email: Option<string>, password: Option<string>,
                 validateEmail: string -> bool, userExists: string -> bool): seq<Rule>
  {
    [ Rule(EmailValid(email, validateEmail), EmailInvalid),
      Rule(password.Some? && Utf16Length(password.value) > 0, PasswordRequired),
      Rule(password.Some? && Utf16Length(password.value) >= 8, PasswordTooShort),
      Rule(EmailValid(email, validateEmail) && !userExists(email.value), EmailTaken) ]
  }

  /**
   * The action: the checks in order, then createUser and a redirect. A user
   * is created only for a valid, unused email and a password of 8 or more.
   */
  function Action(email: Option<string>, password: Option<string>, redirectTo: string,
                  validateEmail: string -> bool, userExists: string -> bool): (r: Response)
    ensures r.BadRequest? <==> FirstViolation(Rules(email, password, validateEmail, userExists)).Some?
    ensures r.Message() == FirstViolation(Rules(email, password, validateEmail, userExists))
    ensures r.BadRequest? ==> (r.emailError.Some? <==> r.passwordError.None?)
    ensures r.BadRequest? ==>
      (r.passwordError.Some? <==> r.Message() == Some(PasswordRequired) || r.Message() == Some(PasswordTooShort))
    ensures r.CreateAndRedirect? <==>
      EmailValid(email, validateEmail) && password.Some? && Utf16Length(password.value) >= 8 && !userExists(email.value)
    ensures r.CreateAndRedirect? ==>
      r.email == email.value && r.password == password.value && r.location == redirectTo
  {
    var rules := Rules(email, password, validateEmail, userExists);
    if !EmailValid(email, validateEmail) then Precedence(rules, 0); BadRequest(Some(EmailInvalid), None)
    else if password.None? || Utf16Length(password.value) == 0 then Precedence(rules, 1); BadRequest(None, Some(PasswordRequired))
    else if Utf16Length(password.value) < 8 then Precedence(rules, 2); BadRequest(None, Some(PasswordTooShort))
    else if userExists(email.value) then Precedence(rules, 3); BadRequest(Some(EmailTaken), None)
    else CreateAndRedirect(email.value, password.value, redirectTo)
  }
}
