/** The resolve endpoint, `POST` of src/app/api/download/route.ts: it
    validates the posted link, calls `getInstagramVideo` and turns its value
    or its thrown error into a JSON reply. */
module DownloadRoute {
  import opened Common
  import InstagramValidator
  import opened MediaNormalizer
  import InstagramService

  /** The request body: JSON that `request.json()` could not parse (with the
      parser's error message), or an object whose `url` field holds a string
      or is absent. */
  datatype RequestBody = Unparseable(parseError: string) | JsonBody(url: Option<string>)

  /** A thrown JavaScript error as the `catch` block reads it. */
  datatype ThrownError = ThrownError(message: string, status: Option<int>, code: Option<string>)

  datatype ReplyBody = SuccessBody(data: InstagramData) | ErrorBody(error: string, code: Option<string>)

  datatype Reply = Reply(status: int, body: ReplyBody)

  /** The reply, and the link `getInstagramVideo` was called with, if it was
      called (it is called at most once). */
  datatype RouteRun = RouteRun(reply: Reply, serviceCall: Option<string>, service: Option<InstagramService.ServiceRun>)

  const InvalidUrlError := "Invalid Instagram URL"
  const UnexpectedError := "An unexpected error occurred"

  /** The `catch` block: the error's status unless it is absent or zero (then
      500), its message unless it is empty (then the default message), and
      its code unchanged. */
  function ErrorReply(e: ThrownError): (reply: Reply)
    ensures reply.body.ErrorBody? && reply.body.code == e.code
    ensures reply.status == 500 <==> e.status.None? || e.status == Some(0) || e.status == Some(500)
    ensures e.status.Some? && e.status.value != 0 ==> reply.status == e.status.value
    ensures reply.body.error != ""
    ensures e.message != "" ==> reply.body.error == e.message
    ensures e.message == "" ==> reply.body.error == "An unexpected error occurred"
  {
    Reply(
      if e.status.Some? && e.status.value != 0 then e.status.value else 500,
      ErrorBody(if e.message != "" then e.message else UnexpectedError, e.code))
  }

  /** A plain `Error` object, as the service throws and as the request's
      JSON parse rejects with: a message, no status, no code. */
  function PlainError(message: string): ThrownError {
    ThrownError(message, None, None)
  }

  /** The endpoint's answer. `hostOf` is the URL parser the validator uses,
      `apiKey` the `RAPIDAPI_KEY` setting, `outcomes` the provider's answers
      to the attempts `getInstagramVideo` makes. */
  function Post(body: RequestBody, hostOf: string -> Option<string>, apiKey: Option<string>,
                outcomes: seq<InstagramService.FetchOutcome>): (run: RouteRun)
    requires |outcomes| >= InstagramService.MaxAttempts
    ensures body.Unparseable? ==> run.serviceCall.None? && run.reply == ErrorReply(PlainError(body.parseError))
    ensures body.JsonBody? && !(Truthy(body.url) && InstagramValidator.IsValidInstagramUrl(body.url.value, hostOf)) ==>
              run == RouteRun(Reply(400, ErrorBody(InvalidUrlError, None)), None, None)
    ensures run.serviceCall.Some? ==>
              body.JsonBody? && run.serviceCall == body.url &&
              InstagramValidator.IsValidInstagramUrl(body.url.value, hostOf) &&
              run.service == Some(InstagramService.GetInstagramVideo(body.url.value, apiKey, outcomes))
    ensures run.reply.body.SuccessBody? ==>
              run.reply.status == 200 && run.service.Some? &&
              run.service.value.result == Success(run.reply.body.data)
  {
    match body
    case Unparseable(parseError) => RouteRun(ErrorReply(PlainError(parseError)), None, None)
    case JsonBody(url) =>
      if !Truthy(url) || !InstagramValidator.IsValidInstagramUrl(url.value, hostOf) then
        RouteRun(Reply(400, ErrorBody(InvalidUrlError, None)), None, None)
      else
        var service := InstagramService.GetInstagramVideo(url.value, apiKey, outcomes);
        var reply := match service.result
          case Success(data) => Reply(200, SuccessBody(data))
          case Failure(message) => ErrorReply(PlainError(message));
        RouteRun(reply, url, Some(service))
  }

  /** A valid link always reaches the service exactly once with that link,
      and every failure of the service becomes a 500 carrying the service's
      message (or the default when the message is empty). */
  lemma ValidLinkOutcome(link: string, hostOf: string -> Option<string>, apiKey: Option<string>,
                         outcomes: seq<InstagramService.FetchOutcome>)
    requires |outcomes| >= InstagramService.MaxAttempts
    requires InstagramValidator.IsValidInstagramUrl(link, hostOf)
    ensures var run := Post(JsonBody(Some(link)), hostOf, apiKey, outcomes);
            var service := InstagramService.GetInstagramVideo(link, apiKey, outcomes);
            run.serviceCall == Some(link) &&
            (service.result.Success? ==> run.reply == Reply(200, SuccessBody(service.result.value))) &&
            (service.result.Failure? ==>
               run.reply.status == 500 && run.reply.body.ErrorBody? && run.reply.body.code.None? &&
               run.reply.body.error ==
                 (if service.result.error != "" then service.result.error else "An unexpected error occurred"))
  {
  }

  /** A missing `RAPIDAPI_KEY` surfaces on every valid request as a 500 with
      the misconfiguration message, and no provider attempt is made. */
  lemma MissingKeyReply(link: string, hostOf: string -> Option<string>, apiKey: Option<string>,
                        outcomes: seq<InstagramService.FetchOutcome>)
    requires |outcomes| >= InstagramService.MaxAttempts
    requires InstagramValidator.IsValidInstagramUrl(link, hostOf) && !Truthy(apiKey)
    ensures var run := Post(JsonBody(Some(link)), hostOf, apiKey, outcomes);
            run.reply == Reply(500, ErrorBody(InstagramService.MissingKeyMessage, None)) &&
            run.service.Some? && run.service.value.attempts == 0
  {
  }
}
