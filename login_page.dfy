/**
 * The `/login` form action: the language of its messages, the required
 * fields, and the classification of the sign-in error into one message.
 * The sign-in call itself is an input: `SignInCall` says what would be sent
 * and `Login` maps the reply.
 */
module LoginPage {
  import opened Text
  import opened Kit
  import opened I18n

  /** The keys of each language's message table. */
  datatype MessageKey = RequiredBoth | InvalidCredentials | EmailNotConfirmed | RateLimited | Generic

  /** The table `T` (keyed by the same four codes as the interface languages). */
  function Message(l: Lang, k: MessageKey): string {
    match l
    case Es => (match k
      case RequiredBoth => "Por favor, introduce tu email y contraseña."
      case InvalidCredentials => "Email o contraseña incorrectos."
      case EmailNotConfirmed => "Tu email no está verificado. Revisa tu bandeja y confirma tu cuenta."
      case RateLimited => "Demasiados intentos. Prueba en unos minutos."
      case Generic => "No se pudo iniciar sesión. Inténtalo de nuevo.")
    case En => (match k
      case RequiredBoth => "Please enter your email and password."
      case InvalidCredentials => "Invalid email or password."
      case EmailNotConfirmed => "Your email is not verified. Check your inbox and confirm your account."
      case RateLimited => "Too many attempts. Try again in a few minutes."
      case Generic => "Could not sign in. Please try again.")
    case Ru => (match k
      case RequiredBoth => "Пожалуйста, укажите e-mail и пароль."
      case InvalidCredentials => "Неверный e-mail или пароль."
      case EmailNotConfirmed => "Ваш e-mail не подтверждён. Проверьте почту и подтвердите аккаунт."
      case RateLimited => "Слишком много попыток. Повторите через несколько минут."
      case Generic => "Не удалось войти. Попробуйте ещё раз.")
    case Hy => (match k
      case RequiredBoth => "Խնդրում ենք մուտքագրել էլ. փոստն ու գաղտնաբառը։"
      case InvalidCredentials => "Սխալ էլ. փոստ կամ գաղտնաբառ։"
      case EmailNotConfirmed => "Ձեր էլ. փոստը չի հաստատվել․ ստուգեք փոստարկղը և հաստատեք հաշվը։"
      case RateLimited => "Չափազանց շատ փորձեր։ Կրկնեք մի քանի րոպե անց։"
      case Generic => "Չհաջողվեց մուտք գործել։ Խնդրում ենք կրկին փորձել։")
  }

  /** `getLangFrom`: the lower-cased `?lang=` if it is a table key, else the lower-cased cookie, else Spanish. */
  function GetLangFrom(queryLang: Option<string>, cookieLang: Option<string>): (r: Lang)
    ensures ParseLang(ToLower(queryLang.GetOr(""))).Some? ==> r == ParseLang(ToLower(queryLang.GetOr(""))).value
    ensures ParseLang(ToLower(queryLang.GetOr(""))).None? && ParseLang(ToLower(cookieLang.GetOr(""))).Some? ==>
              r == ParseLang(ToLower(cookieLang.GetOr(""))).value
    ensures ParseLang(ToLower(queryLang.GetOr(""))).None? && ParseLang(ToLower(cookieLang.GetOr(""))).None? ==>
              r == Es
  {
    var q := ToLower(OrDefault(queryLang, ""));
    if q != "" && ParseLang(q).Some? then ParseLang(q).value
    else
      var c := ToLower(OrDefault(cookieLang, ""));
      if c != "" && ParseLang(c).Some? then ParseLang(c).value
      else Es
  }

  /** The query wins over the cookie, and either is read without regard to case. */
  lemma QueryBeatsCookie(l: Lang, query: string, cookieLang: Option<string>)
    requires ToLower(query) == l.Code()
    ensures GetLangFrom(Some(query), cookieLang) == l
  {
  }

  /** `/invalid login credentials|invalid email or password|credentials/`. */
  predicate SaysBadCredentials(msg: string) {
    Contains(msg, "invalid login credentials") || Contains(msg, "invalid email or password") || Contains(msg, "credentials")
  }

  /** `/email not confirmed|confirm your email|not verified/`. */
  predicate SaysNotConfirmed(msg: string) {
    Contains(msg, "email not confirmed") || Contains(msg, "confirm your email") || Contains(msg, "not verified")
  }

  /** `/rate|too many/`. */
  predicate SaysRateLimited(msg: string) {
    Contains(msg, "rate") || Contains(msg, "too many")
  }

  /** The first alternative is subsumed by the third: the credentials test is "credentials" or "invalid email or password". */
  lemma BadCredentialsSimplified(msg: string)
    ensures SaysBadCredentials(msg) <==> Contains(msg, "credentials") || Contains(msg, "invalid email or password")
  {
    if Contains(msg, "invalid login credentials") {
      assert "invalid login credentials" == "invalid login " + "credentials";
      ContainsSuffix(msg, "invalid login ", "credentials");
    }
  }

  /** The message chosen for an upstream error, tested in order on its lower-cased text. */
  function Classify(message: string): (k: MessageKey)
    ensures k != RequiredBoth
    ensures k == InvalidCredentials <==> SaysBadCredentials(ToLower(message))
    ensures k == EmailNotConfirmed <==> !SaysBadCredentials(ToLower(message)) && SaysNotConfirmed(ToLower(message))
    ensures k == RateLimited <==>
      !SaysBadCredentials(ToLower(message)) && !SaysNotConfirmed(ToLower(message)) && SaysRateLimited(ToLower(message))
  {
    var msg := ToLower(message);
    if SaysBadCredentials(msg) then InvalidCredentials
    else if SaysNotConfirmed(msg) then EmailNotConfirmed
    else if SaysRateLimited(msg) then RateLimited
    else Generic
  }

  /** The HTTP status `fail` is given for a message. */
  function StatusOf(k: MessageKey): (r: int)
    ensures r == 429 <==> k == RateLimited
    ensures r == 400 || r == 429
  {
    if k == RateLimited then 429 else 400
  }

  datatype LoginForm = LoginForm(email: Option<string>, password: Option<string>)

  datatype Credentials = Credentials(email: string, password: string)

  /** The reply of `signInWithPassword`: an error message (empty when it has none), or data with or without a session. */
  datatype SignInReply = SignInError(message: string) | SignedIn(hasSession: bool)

  /** The credentials `signInWithPassword` receives, or None when the action fails before calling it. */
  function SignInCall(form: LoginForm): (c: Option<Credentials>)
    ensures c.Some? <==> NormalizeEmail(form.email) != "" && FormText(form.password) != ""
    ensures c.Some? ==> c.value.email == NormalizeEmail(form.email) && c.value.password == FormText(form.password)
  {
    var email := NormalizeEmail(form.email);
    var password := FormText(form.password);
    if email == "" || password == "" then None else Some(Credentials(email, password))
  }

  /** `actions.login`, given what the sign-in call would reply. */
  function Login(form: LoginForm, queryLang: Option<string>, cookieLang: Option<string>, reply: SignInReply): (r: ActionResult)
    ensures var lang, email := GetLangFrom(queryLang, cookieLang), NormalizeEmail(form.email);
      && (SignInCall(form).None? ==> r == Fail(400, Message(lang, RequiredBoth), map["email" := email]))
      && (SignInCall(form).Some? && reply.SignInError? ==>
            r == Fail(StatusOf(Classify(reply.message)), Message(lang, Classify(reply.message)), map["email" := email]))
      && (SignInCall(form).Some? && reply.SignedIn? && !reply.hasSession ==>
            r == Fail(400, Message(lang, Generic), map["email" := email]))
    ensures r.Redirect? <==> SignInCall(form).Some? && reply == SignedIn(true)
    ensures r.Redirect? ==> r == Redirect(303, "/")
    ensures r.Fail? ==> r.values == map["email" := NormalizeEmail(form.email)] && (r.status == 400 || r.status == 429)
    ensures r.Fail? && r.status == 429 <==> SignInCall(form).Some? && reply.SignInError? && Classify(reply.message) == RateLimited
    ensures !r.Sent?
  {
    var email := NormalizeEmail(form.email);
    var password := FormText(form.password);
    var t := GetLangFrom(queryLang, cookieLang);
    if email == "" || password == "" then Fail(400, Message(t, RequiredBoth), map["email" := email])
    else
      match reply
      case SignInError(message) =>
        var k := Classify(message);
        Fail(StatusOf(k), Message(t, k), map["email" := email])
      case SignedIn(hasSession) =>
        if hasSession then Redirect(303, "/") else Fail(400, Message(t, Generic), map["email" := email])
  }

  /** Without a sign-in call the reply cannot matter. */
  lemma NoCallNoEffect(form: LoginForm, queryLang: Option<string>, cookieLang: Option<string>, a: SignInReply, b: SignInReply)
    requires SignInCall(form).None?
    ensures Login(form, queryLang, cookieLang, a) == Login(form, queryLang, cookieLang, b)
  {
  }
}
