/** The HTTP server's `POST /chat` handler. It keeps no state between
    requests, so it is a function from the request's `message`, the accepted
    configuration and the outcomes of the three remote calls to the response
    and the calls issued. */
module Server {
  import opened Wrappers
  import opened Json
  import opened Text
  import opened Config
  import opened Services
  import opened Pipeline

  /** The JSON body of a response: `{'error': ...}` or `{'reply': ...}`, where
      a `None` reply is serialised as `null`. */
  datatype Body = ErrorBody(error: string) | ReplyBody(reply: Option<string>)

  /** The status code, the body and the remote calls the handler issued. */
  datatype Response = Response(status: int, body: Body, calls: seq<Call>)

  const MessageRequired: string := "message is required"

  /** The user's text: `(data.get('message') or '').strip()`. */
  function UserText(message: Option<string>): (text: string)
    ensures text == [] <==> AllSpace(message.GetOr(""))
    ensures message.None? ==> text == []
  {
    Strip(message.GetOr(""))
  }

  /** The handler. `message` is the request's `message` string, None when the
      key is absent or null. */
  function Chat(cfg: Json, message: Option<string>, w: WriteOutcome, r: RecallOutcome, g: GenOutcome): (resp: Response)
    requires Accepted(cfg)
    ensures resp.status in {200, 400, 500}
    ensures resp.status == 400 <==> AllSpace(message.GetOr(""))
    ensures resp.status == 400 ==> resp.calls == [] && resp.body == ErrorBody(MessageRequired)
    ensures resp.status == 200 <==> resp.body.ReplyBody?
    ensures resp.status != 400 ==> resp.calls != [] && resp.calls[0] == WriteCall(WriteRequest(UserIdOf(cfg), ProjectIdOf(cfg), UserText(message), true))
    ensures resp.status == 500 ==> resp.body == ErrorBody(StageMessage(resp.calls[|resp.calls| - 1].StageOf()))
    ensures !AllSpace(message.GetOr("")) ==>
      resp.calls == RunTurn(Http, Identity(UserIdOf(cfg), ProjectIdOf(cfg)), UserText(message), w, r, g).calls
  {
    var userText := UserText(message);
    if userText == [] then Response(400, ErrorBody(MessageRequired), [])
    else
      var id := Identity(UserIdOf(cfg), ProjectIdOf(cfg));
      var t := RunTurn(Http, id, userText, w, r, g);
      match t.outcome
      case Aborted(stage) => Response(500, ErrorBody(StageMessage(stage)), t.calls)
      case Answered(reply) => Response(200, ReplyBody(reply), t.calls)
  }

  /** A failed write answers 500 after that single call. */
  lemma WriteFailureIs500(cfg: Json, message: Option<string>, r: RecallOutcome, g: GenOutcome)
    requires Accepted(cfg) && !AllSpace(message.GetOr(""))
    ensures var resp := Chat(cfg, message, WriteErr, r, g);
      && resp.status == 500
      && resp.body == ErrorBody("RecallIO write failed")
      && |resp.calls| == 1
  {
  }

  /** `RecallioAPIError` degrades: the handler still asks for a completion,
      with only the user's message, and answers with its result. */
  lemma RecallApiErrorStillAnswers(cfg: Json, message: Option<string>, g: GenOutcome)
    requires Accepted(cfg) && !AllSpace(message.GetOr(""))
    ensures var resp := Chat(cfg, message, WriteOk, ApiError, g);
      && |resp.calls| == 3
      && resp.calls[2] == GenerateCall([Message(User, UserText(message))])
      && (g.Completion? ==> resp == Response(200, ReplyBody(g.content), resp.calls))
      && (g == GenErr ==> resp.status == 500 && resp.body == ErrorBody("OpenAI error"))
  {
  }

  /** Any other recall exception answers 500 without asking for a completion. */
  lemma RecallOtherErrorIs500(cfg: Json, message: Option<string>, g: GenOutcome)
    requires Accepted(cfg) && !AllSpace(message.GetOr(""))
    ensures var resp := Chat(cfg, message, WriteOk, OtherError, g);
      && resp.status == 500
      && resp.body == ErrorBody("RecallIO recall failed")
      && forall k :: 0 <= k < |resp.calls| ==> !resp.calls[k].GenerateCall?
  {
  }

  /** A successful completion answers 200 with its content exactly as
      returned, unstripped; a failed one answers 500. */
  lemma ReplyPassedThrough(cfg: Json, message: Option<string>, w: WriteOutcome, r: RecallOutcome, g: GenOutcome)
    requires Accepted(cfg)
    ensures var resp := Chat(cfg, message, w, r, g);
      && (resp.status == 200 ==> g.Completion? && resp.body == ReplyBody(g.content) && |resp.calls| == 3)
      && (|resp.calls| == 3 && g.Completion? ==> resp.status == 200)
      && (|resp.calls| == 3 && g == GenErr ==> resp.status == 500 && resp.body == ErrorBody("OpenAI error"))
  {
  }
}
