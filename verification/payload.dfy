/**
 * The part of a GitHub webhook delivery the notifier reads, after JSON
 * decoding. A sub-object missing from the JSON decodes to its zero value
 * (empty strings, number 0), never to an error.
 */
module Payload {

  datatype User = User(login: string)

  datatype PullRequest = PullRequest(number: int, title: string, user: User, htmlUrl: string)

  /**
   * An issue; `isPullRequest` records whether the JSON carried a
   * `pull_request` sub-object (a non-nil map in the decoded struct).
   */
  datatype Issue = Issue(number: int, title: string, user: User, htmlUrl: string, isPullRequest: bool)

  datatype Review = Review(state: string, user: User, body: string)

  datatype Comment = Comment(body: string, user: User)

  datatype WebhookPayload = WebhookPayload(
    action: string,
    pullRequest: PullRequest,
    issue: Issue,
    review: Review,
    comment: Comment,
    sender: User)

  /** What an absent `user` object decodes to. */
  const NoUser := User("")

  /** What an absent `pull_request` object decodes to. */
  const NoPullRequest := PullRequest(0, "", NoUser, "")

  /** The event kinds the handler distinguishes, from the `X-GitHub-Event` header. */
  datatype EventKind =
    | PullRequestReview
    | PullRequestReviewComment
    | IssueComment
    | Unsupported(name: string)

  const ReviewEventName := "pull_request_review"
  const ReviewCommentEventName := "pull_request_review_comment"
  const IssueCommentEventName := "issue_comment"

  /** The header literal of a kind. */
  function EventName(k: EventKind): string {
    match k
    case PullRequestReview => ReviewEventName
    case PullRequestReviewComment => ReviewCommentEventName
    case IssueComment => IssueCommentEventName
    case Unsupported(name) => name
  }

  /** A kind that some header value can produce: `Unsupported` never names a known kind. */
  predicate WellFormedKind(k: EventKind) {
    k.Unsupported? ==> k.name !in {ReviewEventName, ReviewCommentEventName, IssueCommentEventName}
  }

  /** Classifies a header value by exact, case-sensitive comparison. */
  function ParseEventKind(s: string): (k: EventKind)
    ensures WellFormedKind(k)
    ensures EventName(k) == s
  {
    if s == ReviewEventName then PullRequestReview
    else if s == ReviewCommentEventName then PullRequestReviewComment
    else if s == IssueCommentEventName then IssueComment
    else Unsupported(s)
  }

  /** Every well-formed kind is recovered from its header literal. */
  lemma ParseEventName(k: EventKind)
    requires WellFormedKind(k)
    ensures ParseEventKind(EventName(k)) == k
  {
  }
}
