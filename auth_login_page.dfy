/**
 * `/auth/login`: a signed-in visitor is sent home; the default action needs
 * both fields, signs in, and passes the upstream error message through.
 */
module AuthLoginPage {
  import opened Text
  import opened Kit

  /** `load`: signed-in visitors are sent home. */
  function Load(hasSession: bool): LoadResult {
    SignedOutOnly(hasSession)
  }

  datatype AuthLoginForm = AuthLoginForm(email: Option<string>, password: Option<string>)

  const FieldsRequired: string := "Email y contraseña son obligatorios."

  /** The credentials `signInWithPassword` receives, or None when a field is empty. */
  function SignInRequest(form: AuthLoginForm): (c: Option<(string, string)>)
    ensures c.Some? <==> NormalizeEmail(form.email) != "" && FormText(form.password) != ""
    ensures c.Some? ==> c.value == (NormalizeEmail(form.email), FormText(form.password))
  {
    var email := NormalizeEmail(form.email);
    var password := FormText(form.password);
    if email == "" || password == "" then None else Some((email, password))
  }

  /** The default action, given the error message sign-in would reply with (None: no error). */
  function SignIn(form: AuthLoginForm, replyError: Option<string>): (r: ActionResult)
    ensures SignInRequest(form).None? ==> r == Fail(400, FieldsRequired, map["email" := NormalizeEmail(form.email)])
    ensures SignInRequest(form).Some? && replyError.Some? ==>
      r == Fail(400, replyError.value, map["email" := NormalizeEmail(form.email)])
    ensures r.Redirect? <==> SignInRequest(form).Some? && replyError.None?
    ensures r.Redirect? ==> r == Redirect(303, "/")
    ensures !r.Sent?
  {
    var email := NormalizeEmail(form.email);
    var password := FormText(form.password);
    if email == "" || password == "" then Fail(400, FieldsRequired, map["email" := email])
    else if replyError.Some? then Fail(400, replyError.value, map["email" := email])
    else Redirect(303, "/")
  }
}
