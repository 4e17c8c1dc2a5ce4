/**
 * `GET /api/auth/check-email`: normalises the `email` parameter, rejects one
 * without an `@`, and reports what the `email_exists` database function
 * answered.
 */
module CheckEmail {
  import opened Text
  import opened Kit

  /** The JSON reply: `{ ok, error?, exists }` (`exists` is `emailExists` here) with its status. */
  datatype Reply = Reply(status: int, ok: bool, error: Option<string>, emailExists: bool)

  /** The answer of `rpc('email_exists')`: an error message, or whether its data was truthy. */
  datatype RpcReply = RpcError(message: string) | RpcData(truthy: bool)

  /** The `p_email` the rpc receives, or None when the email is rejected first. */
  function RpcArgument(emailParam: Option<string>): (a: Option<string>)
    ensures a.Some? <==> NormalizeEmail(emailParam) != "" && '@' in NormalizeEmail(emailParam)
    ensures a.Some? ==> a.value == NormalizeEmail(emailParam)
  {
    var email := NormalizeEmail(emailParam);
    ContainsChar(email, '@');
    if email == "" || !Contains(email, "@") then None else Some(email)
  }

  /** The handler, given what the rpc would answer. */
  function Check(emailParam: Option<string>, rpc: RpcReply): (r: Reply)
    ensures RpcArgument(emailParam).None? ==> r == Reply(400, false, Some("invalid_email"), false)
    ensures RpcArgument(emailParam).Some? && rpc.RpcError? ==> r == Reply(500, false, Some(rpc.message), false)
    ensures r.ok <==> RpcArgument(emailParam).Some? && rpc.RpcData?
    ensures r.ok ==> r == Reply(200, true, None, rpc.truthy)
    ensures !r.ok ==> !r.emailExists && r.error.Some? && (r.status == 400 || r.status == 500)
  {
    var email := NormalizeEmail(emailParam);
    ContainsChar(email, '@');
    if email == "" || !Contains(email, "@") then Reply(400, false, Some("invalid_email"), false)
    else
      match rpc
      case RpcError(message) => Reply(500, false, Some(message), false)
      case RpcData(truthy) => Reply(200, true, None, truthy)
  }
}
