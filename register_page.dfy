/**
 * `/auth/register`: a signed-in visitor is sent home; the form action checks
 * its three fields in order, then signs up with a confirmation link back to
 * this site, and redirects according to whether a session was created.
 */
module RegisterPage {
  import opened Text
  import opened Kit

  /** `load`: signed-in visitors are sent home. */
  function Load(hasSession: bool): LoadResult {
    SignedOutOnly(hasSession)
  }

  datatype RegisterForm = RegisterForm(email: Option<string>, password: Option<string>, confirm: Option<string>)

  const FieldsMissing: string := "Completa todos los campos."
  const PasswordTooShort: string := "La contraseña debe tener al menos 6 caracteres."
  const PasswordsDiffer: string := "Las contraseñas no coinciden."

  /** The first failing check, in the order the action runs them. */
  function Rejection(form: RegisterForm): (e: Option<string>)
    ensures var email, password, confirm := NormalizeEmail(form.email), FormText(form.password), FormText(form.confirm);
      && (e.None? <==> email != "" && password != "" && confirm != "" && |password| >= 6 && password == confirm)
      && (email == "" || password == "" || confirm == "" ==> e == Some(FieldsMissing))
      && (email != "" && password != "" && confirm != "" && |password| < 6 ==> e == Some(PasswordTooShort))
      && (e == Some(PasswordsDiffer) <==>
            email != "" && password != "" && confirm != "" && |password| >= 6 && password != confirm)
  {
    var email := NormalizeEmail(form.email);
    var password := FormText(form.password);
    var confirm := FormText(form.confirm);
    if email == "" || password == "" || confirm == "" then Some(FieldsMissing)
    else if |password| < 6 then Some(PasswordTooShort)
    else if password != confirm then Some(PasswordsDiffer)
    else None
  }

  /** What `signUp` receives. */
  datatype SignUpCall = SignUpCall(email: string, password: string, emailRedirectTo: string)

  /** The reply of `signUp`: an error message, or whether a user and a session came back. */
  datatype SignUpReply = SignUpError(message: string) | SignedUp(hasUser: bool, hasSession: bool)

  /** The `signUp` call the action makes from a request to `origin`, or None when a check fails first. */
  function SignUpRequest(form: RegisterForm, origin: string): (c: Option<SignUpCall>)
    ensures c.Some? <==> Rejection(form).None?
    ensures c.Some? ==> c.value.email == NormalizeEmail(form.email) && c.value.password == FormText(form.password)
                        && c.value.password == FormText(form.confirm)
                        && |c.value.password| >= 6
                        && c.value.emailRedirectTo == origin + "/auth/callback"
  {
    if Rejection(form).Some? then None
    else Some(SignUpCall(NormalizeEmail(form.email), FormText(form.password), origin + "/auth/callback"))
  }

  /** The default action, given the reply `signUp` would give. */
  function Register(form: RegisterForm, reply: SignUpReply): (r: ActionResult)
    ensures Rejection(form).Some? ==> r == Fail(400, Rejection(form).value, map["email" := NormalizeEmail(form.email)])
    ensures Rejection(form).None? && reply.SignUpError? ==>
      r == Fail(400, reply.message, map["email" := NormalizeEmail(form.email)])
    ensures r.Redirect? <==> Rejection(form).None? && reply.SignedUp?
    ensures r.Redirect? ==>
      && r.status == 303
      && (r.location == "/auth/login?verify=1" <==> reply.hasUser && !reply.hasSession)
      && (r.location == "/" <==> !(reply.hasUser && !reply.hasSession))
    ensures r.Fail? ==> r.status == 400 && r.values == map["email" := NormalizeEmail(form.email)]
  {
    var email := NormalizeEmail(form.email);
    match Rejection(form)
    case Some(e) => Fail(400, e, map["email" := email])
    case None =>
      match reply
      case SignUpError(message) => Fail(400, message, map["email" := email])
      case SignedUp(hasUser, hasSession) =>
        if hasUser && !hasSession then Redirect(303, "/auth/login?verify=1") else Redirect(303, "/")
  }

  /** A short password is reported before a mismatch, whatever the confirmation says. */
  lemma ShortBeforeMismatch(email: string, password: string, confirm: string)
    requires NormalizeEmail(Some(email)) != "" && password != "" && confirm != "" && |password| < 6
    ensures Rejection(RegisterForm(Some(email), Some(password), Some(confirm))) == Some(PasswordTooShort)
  {
  }
}
