/**
 * `sendSlackMessage`: deliver a text to the configured Slack user, or
 * skip delivery when Slack is unconfigured (dry run) or the token is a
 * test token. The one HTTP call of the real path is an input here: its
 * reply decides the returned error.
 */
module Slack {
  import opened Wrappers
  import opened Settings

  /** The JSON body sent to chat.postMessage. */
  datatype SlackMessage = SlackMessage(channel: string, text: string)

  /** What the single outbound call produced. */
  datatype HttpReply = TransportFailure(reason: string) | HttpStatus(code: int)

  /** The error `sendSlackMessage` returns. */
  datatype DeliveryError = TransportError(reason: string) | BadStatus(code: int)

  /** Requests attempted (the transport may fail before sending), and the error returned to the caller. */
  datatype Delivery = Delivery(attempted: seq<SlackMessage>, error: Option<DeliveryError>)

  /** The three ways a text can go. */
  datatype Route = DryRun | TestSkip | Post

  const TestTokenPrefix := "test"
  const StatusOK := 200

  /** Unconfigured Slack wins over a test token; only a full, non-test configuration posts. */
  function RouteFor(c: Config): (r: Route)
    ensures r == DryRun <==> c.slackBotToken == "" || c.slackUserID == ""
    ensures r == TestSkip <==> c.slackBotToken != "" && c.slackUserID != "" && TestTokenPrefix <= c.slackBotToken
    ensures r == Post <==> c.slackBotToken != "" && c.slackUserID != "" && !(TestTokenPrefix <= c.slackBotToken)
  {
    if c.slackBotToken == "" || c.slackUserID == "" then DryRun
    else if TestTokenPrefix <= c.slackBotToken then TestSkip
    else Post
  }

  function SendSlackMessage(c: Config, text: string, reply: HttpReply): (d: Delivery)
    ensures RouteFor(c) != Post ==> d == Delivery([], None)
    ensures RouteFor(c) == Post ==> d.attempted == [SlackMessage(c.slackUserID, text)]
    ensures RouteFor(c) == Post ==> (d.error == None <==> reply == HttpStatus(StatusOK))
    ensures RouteFor(c) == Post && reply.TransportFailure? ==> d.error == Some(TransportError(reply.reason))
    ensures RouteFor(c) == Post && reply.HttpStatus? && reply.code != StatusOK ==> d.error == Some(BadStatus(reply.code))
  {
    match RouteFor(c)
    case DryRun => Delivery([], None)
    case TestSkip => Delivery([], None)
    case Post =>
      var request := SlackMessage(c.slackUserID, text);
      match reply
      case TransportFailure(reason) => Delivery([request], Some(TransportError(reason)))
      case HttpStatus(code) =>
        if code != StatusOK then Delivery([request], Some(BadStatus(code))) else Delivery([request], None)
  }

  /** A request is made only with a token, a user ID, and a token not marked for tests. */
  lemma PostsOnlyWhenLive(c: Config, text: string, reply: HttpReply)
    requires SendSlackMessage(c, text, reply).attempted != []
    ensures c.slackBotToken != "" && c.slackUserID != "" && !(TestTokenPrefix <= c.slackBotToken)
  {
  }

  /** The dry-run check comes first: a test token without a user ID still dry-runs. */
  lemma DryRunBeforeTestToken(c: Config)
    requires TestTokenPrefix <= c.slackBotToken && c.slackUserID == ""
    ensures RouteFor(c) == DryRun
  {
  }

  /** A skipped delivery does not depend on the transport at all, and always succeeds. */
  lemma SkipIgnoresReply(c: Config, text: string, a: HttpReply, b: HttpReply)
    requires RouteFor(c) != Post
    ensures SendSlackMessage(c, text, a) == SendSlackMessage(c, text, b)
    ensures SendSlackMessage(c, text, a).error == None
  {
  }
}
