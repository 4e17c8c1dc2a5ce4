/**
 * `/signup`: the `signup` action checks name, email and password, signs up
 * with the name as user data and, when the site URL is configured, a
 * confirmation link back to it, and reports that the email was sent.
 */
module SignupPage {
  import opened Text
  import opened Kit

  datatype SignupForm = SignupForm(name: Option<string>, email: Option<string>, password: Option<string>)

  const FieldsMissing: string := "Por favor, completa todos los campos."
  const PasswordTooShort: string := "La contraseña debe tener al menos 6 caracteres."

  /** The fields as read: name and email trimmed (not lower-cased), password as typed. */
  function Name(form: SignupForm): string { Trim(FormText(form.name)) }
  function Email(form: SignupForm): string { Trim(FormText(form.email)) }

  /** The fields echoed back to the form on failure. */
  function Echo(form: SignupForm): map<string, string> {
    map["name" := Name(form), "email" := Email(form)]
  }

  /** `emailRedirectTo`: the site URL (a non-empty string when configured) followed by the callback path. */
  function EmailRedirectTo(siteUrl: Option<string>): (r: Option<string>)
    ensures r.Some? <==> siteUrl.Some? && siteUrl.value != ""
    ensures r.Some? ==> r.value == siteUrl.value + "/auth/callback"
  {
    if siteUrl.Some? && siteUrl.value != "" then Some(siteUrl.value + "/auth/callback") else None
  }

  /** What `signUp` receives. */
  datatype SignupCall = SignupCall(email: string, password: string, name: string, emailRedirectTo: Option<string>)

  /** The `signUp` call, or None when a check fails first. */
  function SignupRequest(form: SignupForm, siteUrl: Option<string>): (c: Option<SignupCall>)
    ensures c.Some? <==> Name(form) != "" && Email(form) != "" && FormText(form.password) != ""
                         && |FormText(form.password)| >= 6
    ensures c.Some? ==> c.value == SignupCall(Email(form), FormText(form.password), Name(form), EmailRedirectTo(siteUrl))
  {
    var password := FormText(form.password);
    if Name(form) == "" || Email(form) == "" || password == "" || |password| < 6 then None
    else Some(SignupCall(Email(form), password, Name(form), EmailRedirectTo(siteUrl)))
  }

  /** The action, given the error message `signUp` would reply with (None: no error). */
  function Signup(form: SignupForm, siteUrl: Option<string>, replyError: Option<string>): (r: ActionResult)
    ensures Name(form) == "" || Email(form) == "" || FormText(form.password) == "" ==>
      r == Fail(400, FieldsMissing, Echo(form))
    ensures Name(form) != "" && Email(form) != "" && FormText(form.password) != "" && |FormText(form.password)| < 6 ==>
      r == Fail(400, PasswordTooShort, Echo(form))
    ensures SignupRequest(form, siteUrl).Some? && replyError.Some? ==> r == Fail(400, replyError.value, Echo(form))
    ensures r == Sent <==> SignupRequest(form, siteUrl).Some? && replyError.None?
    ensures r.Fail? ==> r.status == 400 && r.values == Echo(form)
    ensures !r.Redirect?
  {
    var password := FormText(form.password);
    if Name(form) == "" || Email(form) == "" || password == "" then Fail(400, FieldsMissing, Echo(form))
    else if |password| < 6 then Fail(400, PasswordTooShort, Echo(form))
    else if replyError.Some? then Fail(400, replyError.value, Echo(form))
    else Sent
  }

  /** Without a `signUp` call the reply cannot matter. */
  lemma NoCallNoEffect(form: SignupForm, siteUrl: Option<string>, a: Option<string>, b: Option<string>)
    requires Name(form) == "" || Email(form) == "" || |FormText(form.password)| < 6
    ensures Signup(form, siteUrl, a) == Signup(form, siteUrl, b)
  {
  }
}
