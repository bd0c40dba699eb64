/**
 * `handleWebhook` as a pure function from a request to the HTTP status and
 * the notification text it hands to Slack (if any). The checks form a
 * ladder: wrong method 405, unreadable body 400, bad signature 401,
 * undecodable JSON 400; past that the answer is always 200 and only the
 * notification varies. The JSON decoder and the keyed hash are parameters.
 */
module Webhook {
  import opened Wrappers
  import opened Hex
  import opened Payload
  import opened Settings
  import opened Signature
  import opened Relevance
  import opened Messages
  import opened Slack

  /**
   * An inbound request: its HTTP method, the body read (`None` when reading
   * failed), and the `X-Hub-Signature-256` and `X-GitHub-Event` header
   * values (empty when absent).
   */
  datatype Request = Request(verb: string, body: Option<seq<byte>>, signature: string, event: string)

  /** The status written back, and the text passed to `sendSlackMessage`. */
  datatype Response = Response(status: int, message: Option<string>)

  /** `json.Unmarshal` into a payload: `None` on malformed JSON. */
  type Decoder = seq<byte> -> Option<WebhookPayload>

  const MethodPost := "POST"
  const StatusBadRequest := 400
  const StatusUnauthorized := 401
  const StatusMethodNotAllowed := 405

  /** The request passed every check before relevance filtering, and `p` is its payload. */
  predicate Accepted(c: Config, mac: Mac, decode: Decoder, req: Request, p: WebhookPayload) {
    && req.verb == MethodPost
    && req.body.Some?
    && VerifySignature(c.webhookSecret, mac, req.body.value, req.signature)
    && decode(req.body.value) == Some(p)
  }

  function HandleWebhook(c: Config, mac: Mac, decode: Decoder, req: Request): (r: Response)
    ensures r.status == StatusMethodNotAllowed <==> req.verb != MethodPost
    ensures r.status == StatusUnauthorized <==>
      req.verb == MethodPost && req.body.Some? && !VerifySignature(c.webhookSecret, mac, req.body.value, req.signature)
    ensures r.status == StatusBadRequest <==>
      req.verb == MethodPost &&
      (req.body.None? || (VerifySignature(c.webhookSecret, mac, req.body.value, req.signature) && decode(req.body.value).None?))
    ensures r.status == StatusOK <==> exists p :: Accepted(c, mac, decode, req, p)
    ensures r.status in {StatusOK, StatusBadRequest, StatusUnauthorized, StatusMethodNotAllowed}
    ensures r.message.Some? ==> r.status == StatusOK
    ensures forall p :: Accepted(c, mac, decode, req, p) ==>
      (r.message.Some? <==> Filter(c.watchedUser, ParseEventKind(req.event), p).Relevant?)
    ensures forall p :: Accepted(c, mac, decode, req, p) && r.message.Some? ==>
      r.message.value == Format(ParseEventKind(req.event), p)
  {
    if req.verb != MethodPost then Response(StatusMethodNotAllowed, None)
    else match req.body
      case None => Response(StatusBadRequest, None)
      case Some(body) =>
        if !VerifySignature(c.webhookSecret, mac, body, req.signature) then Response(StatusUnauthorized, None)
        else match decode(body)
          case None => Response(StatusBadRequest, None)
          case Some(p) =>
            assert Accepted(c, mac, decode, req, p);
            var kind := ParseEventKind(req.event);
            match Filter(c.watchedUser, kind, p)
            case NotPullRequest => Response(StatusOK, None)
            case ForeignAuthor(_) => Response(StatusOK, None)
            case SelfAction => Response(StatusOK, None)
            case _ =>
              var msg := Format(kind, p);
              Response(StatusOK, if msg != "" then Some(msg) else None)
  }

  /** What one delivery amounts to: the status returned and what Slack was sent. */
  datatype Exchange = Exchange(status: int, delivery: Delivery)

  /** The handler followed by `sendSlackMessage` when there is a text; a delivery error is only logged. */
  function Serve(c: Config, mac: Mac, decode: Decoder, req: Request, reply: HttpReply): (x: Exchange)
    ensures x.status == HandleWebhook(c, mac, decode, req).status
    ensures HandleWebhook(c, mac, decode, req).message.None? ==> x.delivery == Delivery([], None)
    ensures HandleWebhook(c, mac, decode, req).message.Some? ==>
      x.delivery == SendSlackMessage(c, HandleWebhook(c, mac, decode, req).message.value, reply)
  {
    var r := HandleWebhook(c, mac, decode, req);
    match r.message
    case None => Exchange(r.status, Delivery([], None))
    case Some(msg) => Exchange(r.status, SendSlackMessage(c, msg, reply))
  }

  // ---------------------------------------------------------------------
  // The rejection ladder

  /** A wrong method is refused before the body, the signature or the JSON are looked at. */
  lemma MethodCheckedFirst(c: Config, mac: Mac, decode: Decoder, req: Request, other: Request, d: Decoder)
    requires req.verb != MethodPost && other.verb == req.verb
    ensures HandleWebhook(c, mac, decode, req) == HandleWebhook(c, mac, d, other) == Response(StatusMethodNotAllowed, None)
  {
  }

  /** With a bad signature the body is never decoded: the decoder cannot influence the answer. */
  lemma BadSignatureNeverDecodes(c: Config, mac: Mac, d1: Decoder, d2: Decoder, req: Request)
    requires req.verb == MethodPost && req.body.Some?
    requires !VerifySignature(c.webhookSecret, mac, req.body.value, req.signature)
    ensures HandleWebhook(c, mac, d1, req) == HandleWebhook(c, mac, d2, req) == Response(StatusUnauthorized, None)
  {
  }

  /** A correctly signed but malformed body is a bad request. */
  lemma SignedGarbageIsBadRequest(c: Config, mac: Mac, decode: Decoder, body: seq<byte>, event: string)
    requires decode(body).None?
    ensures var sig := SignaturePrefix + EncodeToString(mac(c.webhookSecret, body));
      HandleWebhook(c, mac, decode, Request(MethodPost, Some(body), sig, event)) == Response(StatusBadRequest, None)
  {
    SignedHeaderAccepted(c.webhookSecret, mac, body);
  }

  // ---------------------------------------------------------------------
  // Past decoding: always 200, whatever happens next

  /** Once the payload is decoded the status is 200, and no Slack reply changes it. */
  lemma DecodedIsAlwaysOK(c: Config, mac: Mac, decode: Decoder, req: Request, p: WebhookPayload, reply: HttpReply)
    requires Accepted(c, mac, decode, req, p)
    ensures HandleWebhook(c, mac, decode, req).status == StatusOK
    ensures Serve(c, mac, decode, req, reply).status == StatusOK
  {
  }

  /**
   * A text is produced exactly when the kind has a format, the subject
   * (a pull-request-marked issue for `issue_comment`) was opened by the
   * watched user, and the watched user did not send the event.
   */
  lemma NotifiesExactlyWhen(c: Config, mac: Mac, decode: Decoder, req: Request, p: WebhookPayload)
    requires Accepted(c, mac, decode, req, p)
    ensures var kind := ParseEventKind(req.event);
      HandleWebhook(c, mac, decode, req).message.Some? <==>
        && req.event in {ReviewEventName, ReviewCommentEventName, IssueCommentEventName}
        && (req.event == IssueCommentEventName ==> p.issue.isPullRequest)
        && (if req.event == IssueCommentEventName then p.issue.user.login else p.pullRequest.user.login) == c.watchedUser
        && p.sender.login != c.watchedUser
  {
  }

  /** An `issue_comment` on a plain issue is acknowledged and dropped. */
  lemma PlainIssueCommentIgnored(c: Config, mac: Mac, decode: Decoder, req: Request, p: WebhookPayload)
    requires Accepted(c, mac, decode, req, p)
    requires req.event == IssueCommentEventName && !p.issue.isPullRequest
    ensures HandleWebhook(c, mac, decode, req) == Response(StatusOK, None)
  {
  }

  /** The watched user's own action is dropped even on their own pull request. */
  lemma SelfActionIgnored(c: Config, mac: Mac, decode: Decoder, req: Request, p: WebhookPayload)
    requires Accepted(c, mac, decode, req, p)
    requires p.sender.login == c.watchedUser
    ensures HandleWebhook(c, mac, decode, req) == Response(StatusOK, None)
  {
  }

  /** Without a `pull_request` object, a non-issue event has an empty author and is dropped. */
  lemma MissingPullRequestIgnored(c: Config, mac: Mac, decode: Decoder, req: Request, p: WebhookPayload)
    requires Valid(c) && Accepted(c, mac, decode, req, p)
    requires req.event != IssueCommentEventName && p.pullRequest == NoPullRequest
    ensures HandleWebhook(c, mac, decode, req) == Response(StatusOK, None)
  {
  }

  /** An event kind without a format gets 200 and nothing is delivered, whatever the configuration. */
  lemma UnsupportedKindDeliversNothing(c: Config, mac: Mac, decode: Decoder, req: Request, p: WebhookPayload, reply: HttpReply)
    requires Accepted(c, mac, decode, req, p)
    requires req.event !in {ReviewEventName, ReviewCommentEventName, IssueCommentEventName}
    ensures Serve(c, mac, decode, req, reply) == Exchange(StatusOK, Delivery([], None))
  {
  }

  // ---------------------------------------------------------------------
  // The texts delivered

  /** A relevant review produces the review text, with the body only when non-empty. */
  lemma ReviewNotification(c: Config, mac: Mac, decode: Decoder, req: Request, p: WebhookPayload)
    requires Accepted(c, mac, decode, req, p) && req.event == ReviewEventName
    requires p.pullRequest.user.login == c.watchedUser && p.sender.login != c.watchedUser
    ensures HandleWebhook(c, mac, decode, req) == Response(StatusOK, Some(ReviewMessage(p.pullRequest, p.review)))
  {
  }

  /** A relevant review comment produces the comment text for the pull request. */
  lemma ReviewCommentNotification(c: Config, mac: Mac, decode: Decoder, req: Request, p: WebhookPayload)
    requires Accepted(c, mac, decode, req, p) && req.event == ReviewCommentEventName
    requires p.pullRequest.user.login == c.watchedUser && p.sender.login != c.watchedUser
    ensures HandleWebhook(c, mac, decode, req) == Response(StatusOK,
      Some(CommentMessage(p.pullRequest.number, p.pullRequest.htmlUrl, p.pullRequest.title, p.comment.user.login, p.comment.body)))
  {
  }

  /** A relevant comment on a pull-request-marked issue produces the comment text for the issue. */
  lemma IssueCommentNotification(c: Config, mac: Mac, decode: Decoder, req: Request, p: WebhookPayload)
    requires Accepted(c, mac, decode, req, p) && req.event == IssueCommentEventName
    requires p.issue.isPullRequest
    requires p.issue.user.login == c.watchedUser && p.sender.login != c.watchedUser
    ensures HandleWebhook(c, mac, decode, req) == Response(StatusOK,
      Some(CommentMessage(p.issue.number, p.issue.htmlUrl, p.issue.title, p.comment.user.login, p.comment.body)))
  {
  }

  /** Among senders other than the watched user, who sent the event changes nothing: texts name the comment's or review's author. */
  lemma SenderDoesNotShapeText(c: Config, mac: Mac, decode: Decoder, req: Request, p: WebhookPayload, s: User, d: Decoder)
    requires Accepted(c, mac, decode, req, p) && p.sender.login != c.watchedUser && s.login != c.watchedUser
    requires req.body.Some? && d(req.body.value) == Some(p.(sender := s))
    ensures HandleWebhook(c, mac, d, req) == HandleWebhook(c, mac, decode, req)
  {
    FormatIgnoresSender(ParseEventKind(req.event), p, s);
  }

  /**
   * End to end: a correctly signed review on the watched user's pull
   * request, by someone else, reaches a live Slack configuration as exactly
   * one request carrying the review text to the configured user.
   */
  lemma ReviewDeliveredOnce(c: Config, mac: Mac, decode: Decoder, body: seq<byte>, p: WebhookPayload, reply: HttpReply)
    requires RouteFor(c) == Post && decode(body) == Some(p)
    requires p.pullRequest.user.login == c.watchedUser && p.sender.login != c.watchedUser
    ensures var req := Request(MethodPost, Some(body), SignaturePrefix + EncodeToString(mac(c.webhookSecret, body)), ReviewEventName);
      var x := Serve(c, mac, decode, req, reply);
      x.status == StatusOK && x.delivery.attempted == [SlackMessage(c.slackUserID, ReviewMessage(p.pullRequest, p.review))]
  {
    SignedHeaderAccepted(c.webhookSecret, mac, body);
  }

  // ---------------------------------------------------------------------
  // Scenarios of the repository's handler tests

  /** The test configuration: a test Slack token, so no request is ever attempted. */
  const TestConfig := Config("testuser", "testsecret", "test-token", "U123")

  /** An approving review, without body, on the watched user's pull request #42. */
  const OwnPullRequestReview := WebhookPayload(
    "submitted",
    PullRequest(42, "Add feature", User("testuser"), ""),
    Issue(0, "", NoUser, "", false),
    Review("approved", User("reviewer"), ""),
    Comment("", NoUser),
    User("reviewer"))

  /** The review is acknowledged, yields its one-line text, and the test token means no request is attempted. */
  lemma OwnPullRequestReviewScenario(mac: Mac, decode: Decoder, body: seq<byte>, reply: HttpReply)
    requires decode(body) == Some(OwnPullRequestReview)
    ensures var req := Request(MethodPost, Some(body), SignaturePrefix + EncodeToString(mac("testsecret", body)), ReviewEventName);
      && HandleWebhook(TestConfig, mac, decode, req) ==
         Response(StatusOK, Some("PR #42 <|Add feature> received *approved* review from reviewer"))
      && Serve(TestConfig, mac, decode, req, reply).delivery == Delivery([], None)
  {
    var req := Request(MethodPost, Some(body), SignaturePrefix + EncodeToString(mac("testsecret", body)), ReviewEventName);
    SignedHeaderAccepted("testsecret", mac, body);
    assert Accepted(TestConfig, mac, decode, req, OwnPullRequestReview);
    ReviewNotification(TestConfig, mac, decode, req, OwnPullRequestReview);
    ReviewMessageExample();
    assert RouteFor(TestConfig) == TestSkip by {
      assert TestTokenPrefix <= "test-token";
    }
  }
}
