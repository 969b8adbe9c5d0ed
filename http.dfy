/** What a `fetch` call delivers to a client handler, and the message the forms
    show when a request fails. */
module Http {
  import opened Wrappers
  import Api

  /** A response with `ok` set and its JSON body; a response without `ok`, with its
      status and the body's `detail` field; or a thrown error (network failure or a
      body that is not JSON) with its message. */
  datatype Outcome<T> = Ok(body: T) | NotOk(status: int, detail: Option<string>) | Threw(message: string)

  const InvalidInput := "入力内容が正しくありません。"
  const ServerProblem := "サーバーで問題が発生しました。"

  /** The error a form shows for a failed post: a 400 surfaces the server's `detail`
      when it is a non-empty string and a fixed fallback otherwise; any other status
      surfaces the generic server message; a thrown error surfaces its own message. */
  function FailureMessage<T>(o: Outcome<T>): (msg: string)
    requires !o.Ok?
    ensures o.NotOk? && o.status == 400 ==> msg == InvalidInput || (o.detail == Some(msg) && msg != "")
    ensures o.NotOk? && o.status == 400 && o.detail.Some? && o.detail.value != "" ==> msg == o.detail.value
    ensures o.NotOk? && o.status != 400 ==> msg == ServerProblem
    ensures o.Threw? ==> msg == o.message
    ensures msg == "" ==> o.Threw?
  {
    match o
    case NotOk(status, detail) =>
      if status == 400 then
        if detail.Some? && detail.value != "" then detail.value else InvalidInput
      else ServerProblem
    case Threw(message) => message
  }

  /** What the client sees of a server reply: the body for a success, the status and
      the `detail` field for an `HTTPException`. */
  function ReplyOutcome<T>(reply: Api.Reply<T>): (o: Outcome<T>)
    ensures o.Ok? <==> reply.Ok?
    ensures reply.Ok? ==> o.body == reply.body
    ensures reply.HttpError? ==> o == NotOk(reply.status, Some(reply.detail))
  {
    match reply
    case Ok(body) => Ok(body)
    case HttpError(status, detail) => NotOk(status, Some(detail))
  }

  /** A request the server refuses for an NG word shows the server's reason on the form. */
  lemma NgRejectionShown<T>(reply: Api.Reply<T>)
    requires reply == Api.HttpError(400, Api.NgWordDetail)
    ensures FailureMessage(ReplyOutcome(reply)) == Api.NgWordDetail
  {
  }
}
