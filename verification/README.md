# gh-pr-notifier ingestion pipeline, in Dafny

A model of the webhook ingestion path of gh-pr-notifier, a small Go service.
The service relays GitHub pull-request activity to a Slack direct message for
one watched user. The model follows one delivery through these stages:

- the signature check on `X-Hub-Signature-256`: the "sha256=" prefix, Go's
  `encoding/hex` decoding, and comparison with the keyed hash of the body;
- the rejection ladder of `handleWebhook`: 405, then 400, then 401, then 400;
- the relevance filter: a plain-issue comment, a foreign author, or a
  self-caused event is dropped, and an unsupported event kind is dropped last;
- the three notification texts, with bodies flattened to one line and cut at
  1000 bytes by `truncate`;
- the routing of `sendSlackMessage`: dry run, test token, or one real post
  whose reply decides the error.

Everything is a pure function over immutable datatypes. Configuration
(watched user, webhook secret, Slack token and user ID) is one `Config`
record passed as a parameter. These are parameters too:

- the keyed hash, HMAC-SHA256, is `Mac`;
- the JSON decoder is `Decoder`, with `None` meaning malformed JSON;
- the body read is `Option<seq<byte>>`, with `None` meaning a read error;
- the Slack HTTP reply is `HttpReply`, a transport failure or a status code.

Go strings are byte strings, so a `string` here holds one `char` per byte.

Files, one module each: `wrappers.dfy` (Option, Result), `text.dfy`
(`truncate`, `%d`), `hex.dfy` (`hex.DecodeString` / `hex.EncodeToString`),
`payload.dfy` (payload structs, event kinds), `settings.dfy` (configuration),
`signature.dfy` (`verifySignature`), `relevance.dfy` (the filter),
`messages.dfy` (the texts), `slack.dfy` (`sendSlackMessage`), `webhook.dfy`
(`handleWebhook` and the full exchange).

Two behaviours of the code worth noting, which the model keeps:

- No "missing subject" check exists. An event other than `issue_comment`
  without a `pull_request` object decodes to a zero value with an empty
  login. It is then dropped by the author check, because start-up refuses an
  empty watched user (main.go:16-19).
- main.go checks only the watched user. The webhook secret and the Slack
  settings are set in a file that is not part of this model, so the model
  assumes nothing about them (an empty secret is allowed).

## Model

| member | source | states |
|---|---|---|
| Text.ReplaceNewlines | webhook.go:56 | The result has the same length, holds a space wherever the input held a newline, is otherwise the input character for character, and contains no newline |
| Text.Truncate | webhook.go:55-61 | The result never contains a newline. An input of at most `max` bytes keeps its length and characters, with newlines turned into spaces. A longer input gives exactly `max + 3` bytes: its first `max` bytes, flattened, then "..." |
| Text.TruncateKeepsShortLine | webhook.go:56-59 | A newline-free string of at most `max` bytes is returned unchanged |
| Text.TruncateCutsLongLine | webhook.go:60 | A longer string whose first `max` bytes hold no newline becomes exactly those bytes plus "..." |
| Text.TruncateIdempotent | webhook.go:55-61 | Truncating any result a second time changes nothing, whether or not the first call cut |
| Text.TruncateFlattensKeptPrefix | webhook.go:56-60 | A cut input becomes its first `max` bytes with newlines turned into spaces, followed by "..." |
| Text.ReplaceNewlinesExample | webhook.go:56 | "line1\nli" becomes "line1 li" |
| Text.TruncateNewlineExample | webhook.go:55-61 | "line1\nline2" cut at 8 gives "line1 li...": the newline inside the kept bytes comes out as a space |
| Text.TruncateShortNewlineExample | webhook.go:55-59 | "a\nb" with bound 5 is not cut but still comes back as "a b" |
| Text.TruncateLongExample | webhook.go:55-61 | "abcdefghij" cut at 5 gives "abcde..." |
| Text.Decimal | webhook.go:141-142 | The `%d` rendering of a number is non-empty, consists only of digits and '-', starts with '-' exactly when the number is negative, is "0" for zero, and has no leading zero otherwise |
| Text.DigitsRoundTrip | webhook.go:141-142 | Reading back the decimal digits of a natural number gives that number |
| Text.DecimalRoundTrip | webhook.go:141-142 | The `%d` rendering is a sign plus digits, and reading it back gives the original number |
| Text.DecimalInjective | webhook.go:141-142 | Distinct numbers render to distinct strings |
| Text.DecimalExample | webhook.go:141-142 | 42 renders as "42" |
| Hex.DecodeString | webhook.go:67-70 | Decoding succeeds exactly on even-length all-hex input, giving one byte per digit pair. The error is "odd length" exactly when every character is hex but the length is odd; otherwise it names the first non-hex character |
| Hex.EncodeToString | webhook_test.go:23 | Two lower-case hex digits per byte |
| Hex.DecodeEncode | webhook_test.go:20-24 | Decoding the lower-case encoding of any bytes gives those bytes back |
| Payload.ParseEventKind | webhook.go:139-168 | The header value is classified by exact comparison: the kind's name is the header itself, and an unsupported kind never carries a known name |
| Payload.ParseEventName | webhook.go:139-168 | Every well-formed kind is recovered from its header name |
| Signature.VerifySignature | webhook.go:63-74 | The header is accepted exactly when it is "sha256=" + h with h hex-decoding to the keyed hash of the body under the secret. Any header without the prefix is refused, and an accepted header has the digest's exact length |
| Signature.SignedHeaderAccepted | webhook.go:71-73 | "sha256=" followed by the hex of the keyed hash of the body is accepted |
| Signature.OtherDigestRejected | webhook.go:71-73 | "sha256=" followed by the hex of any other digest is refused |
| Signature.MissingHeaderRejected | webhook.go:64-66 | The empty header, which is what a missing header reads as, is refused |
| Signature.NonHexRejected | webhook.go:67-70 | "sha256=invalid" is refused because its remainder is not hex |
| Relevance.Filter | webhook.go:110-169 | The event is relevant exactly when all of these hold: the kind is supported; an `issue_comment` is on a pull-request-marked issue; the subject's author is the watched user; the sender is not. Each rejection reason holds exactly when the checks before it pass and its own fails |
| Relevance.AbsentPullRequestIsForeign | webhook.go:120-129 | A missing pull_request object gives the empty author, which is rejected as foreign |
| Relevance.KindCheckedLast | webhook.go:124-168 | For an unsupported kind, the author and sender checks decide first; the kind itself is reported only after both pass |
| Messages.Subject | webhook.go:141-144 | The subject starts with "PR #" and ends with the closing '>' of the Slack link |
| Messages.ReviewMessage | webhook.go:141-149 | The review text is the head "subject received *state* review from reviewer". It equals that head exactly when the review body is empty; otherwise ": " and the truncated body follow |
| Messages.CommentMessage | webhook.go:152-165 | The comment text is "subject new comment from commenter: " followed by the truncated body, so it is at most 1003 bytes longer than that head |
| Messages.Format | webhook.go:138-169 | The text is non-empty exactly for the three supported kinds. Reviews use the pull request and review. Review comments use the pull request and comment. Issue comments use the issue and comment |
| Messages.FormatIgnoresSender | webhook.go:139-165 | The text never depends on the sender |
| Messages.IssueCommentMatchesReviewComment | webhook.go:151-165 | An issue comment and a review comment on subjects with the same number, link and title, and the same comment, produce the same text |
| Messages.SubjectNumberRecoverable | webhook.go:141-144 | Subjects with different numbers differ, whatever their links and titles: the number is the text between "PR #" and the first space |
| Messages.SubjectExample | webhook.go:141-144 | The subject of #42 "Add feature" with an empty link is spelled out exactly |
| Messages.ReviewMessageExample | webhook_test.go:74-87 | The review text of the test scenario (approved, no body, by "reviewer") is spelled out exactly |
| Slack.RouteFor | slack.go:18-28 | Dry run exactly when the token or user ID is empty. Test skip exactly when both are set and the token starts with "test". A real post otherwise |
| Slack.SendSlackMessage | slack.go:17-59 | A skip posts nothing and returns no error. A real post attempts exactly one request, with channel = user ID and text unchanged. The error is absent exactly when the reply is status 200, and otherwise records the transport error or the status |
| Slack.PostsOnlyWhenLive | slack.go:18-33 | A request is attempted only with a token, a user ID, and a token not starting with "test" |
| Slack.DryRunBeforeTestToken | slack.go:19-28 | A test token without a user ID dry-runs: the configuration check precedes the test-token check |
| Slack.SkipIgnoresReply | slack.go:18-28 | A skipped delivery is independent of the transport and always succeeds |
| Webhook.HandleWebhook | webhook.go:76-178 | 405 exactly for a non-POST method. 401 exactly for a POST whose body was read and whose signature fails. 400 exactly for a read error, or a valid signature with undecodable JSON. 200 exactly when a payload was decoded; no other status occurs. A text exists only with 200, exactly when the filter accepts, and it is the formatted text |
| Webhook.Serve | webhook.go:171-177 | The status is the handler's, whatever Slack replies. Without a text no request is attempted; with one, it goes to `sendSlackMessage` |
| Webhook.MethodCheckedFirst | webhook.go:77-80 | A non-POST request gets 405 whatever its body, signature or decoder |
| Webhook.BadSignatureNeverDecodes | webhook.go:90-95 | With a failing signature the answer is 401 and the decoder cannot influence it |
| Webhook.SignedGarbageIsBadRequest | webhook.go:103-108 | A correctly signed body that fails to decode gets 400 |
| Webhook.DecodedIsAlwaysOK | webhook.go:110-177 | Once decoded the status is 200, and no Slack reply changes it |
| Webhook.NotifiesExactlyWhen | webhook.go:110-175 | A text is produced exactly when all of these hold: the event header names one of the three kinds; an issue comment's issue is PR-marked; the subject author is the watched user; the sender is not |
| Webhook.PlainIssueCommentIgnored | webhook.go:112-118 | An issue comment on a plain issue gets 200 and no text |
| Webhook.SelfActionIgnored | webhook.go:131-136 | An event sent by the watched user gets 200 and no text, even on their own pull request |
| Webhook.MissingPullRequestIgnored | webhook.go:120-129 | An event other than issue_comment without a pull_request object gets 200 and no text |
| Webhook.UnsupportedKindDeliversNothing | webhook.go:167-175 | An unsupported event kind gets 200 and no request is attempted and no error arises |
| Webhook.ReviewNotification | webhook.go:140-149 | A relevant review yields 200 and the review text of the pull request and review |
| Webhook.ReviewCommentNotification | webhook.go:151-157 | A relevant review comment yields 200 and the comment text with the pull request's number, link and title and the comment's author and body |
| Webhook.IssueCommentNotification | webhook.go:159-165 | A relevant comment on a PR-marked issue yields 200 and the comment text with the issue's number, link and title |
| Webhook.SenderDoesNotShapeText | webhook.go:138-165 | Replacing the sender by another non-watched user changes neither status nor text |
| Webhook.ReviewDeliveredOnce | webhook.go:140-175 | With live Slack settings, a correctly signed relevant review gets 200 and exactly one post: the review text to the configured user |
| Webhook.OwnPullRequestReviewScenario | webhook_test.go:74-87 | The test's approved review on "testuser"'s #42 gets 200 with its exact text, and the test token attempts no request |

## Left out

- HMAC-SHA256 itself and the constant-time comparison of `hmac.Equal`: the keyed hash is the parameter `Mac`, and timing is not expressible. Equality of digests is plain sequence equality.
- `json.Unmarshal`: decoding is the parameter `Decoder`. An absent sub-object is modelled as its zero value; the `pull_request` map of an issue is the boolean `isPullRequest`.
- `io.ReadAll` and the `http.ResponseWriter`: the read outcome is an input and the response is the returned status. Response bodies ("Method not allowed", etc.) are not modelled.
- Logging, including the debug dump of the body (webhook.go:98-101). The `debug` flag affects only logging, so it is not part of `Config`.
- The Slack request itself (slack.go:35-51): the `json.Marshal` and `http.NewRequest` calls, headers and bearer token. Marshalling a struct of two strings and building a request to a constant URL do not fail, so their error returns are not modelled; the HTTP reply is the input `HttpReply`.
- Slack.SendSlackMessage: the attempted `SlackMessage` carries the text unchanged, but the bytes on the wire may differ. `truncate` cuts at byte 1000 and can split a multi-byte UTF-8 character, and `json.Marshal` replaces invalid UTF-8 with U+FFFD. That encoding step is not modelled.
- main.go start-up: environment loading, the fatal exit on an empty user, the listener, and `handleHealthz`. The non-empty user appears only as `Settings.Valid`, where a property needs it.
- Concurrency between requests: there is no shared mutable state.
- Go's 64-bit `int` for pull-request numbers: numbers are unbounded, since out-of-range JSON numbers are rejected by the decoder, which is abstracted.
