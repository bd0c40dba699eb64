/**
 * The three notification texts of `handleWebhook`. Every text opens with
 * the subject "PR #<number> <<url>|<title>>" (a Slack link); free-text
 * bodies are flattened to one line and cut at 1000 bytes.
 */
module Messages {
  import opened Text
  import opened Payload

  /** The cut-off applied to review and comment bodies. */
  const BodyLimit: nat := 1000

  /** "PR #<number> <<url>|<title>>". */
  function Subject(number: int, url: string, title: string): (s: string)
    ensures "PR #" <= s
    ensures s[|s| - 1] == '>'
  {
    "PR #" + Decimal(number) + " <" + url + "|" + title + ">"
  }

  /** The text for a submitted review; the body, when there is one, follows after ": ". */
  function ReviewMessage(pr: PullRequest, review: Review): (m: string)
    ensures var head := Subject(pr.number, pr.htmlUrl, pr.title) + " received *" + review.state + "* review from " + review.user.login;
      && head <= m
      && (review.body == "" <==> m == head)
      && (review.body != "" ==> m[|head|..] == ": " + Truncate(review.body, BodyLimit))
  {
    var head := Subject(pr.number, pr.htmlUrl, pr.title) + " received *" + review.state + "* review from " + review.user.login;
    if review.body != "" then head + ": " + Truncate(review.body, BodyLimit) else head
  }

  /** The text for a new comment on the subject `number`/`url`/`title`, by `commenter`. */
  function CommentMessage(number: int, url: string, title: string, commenter: string, body: string): (m: string)
    ensures var head := Subject(number, url, title) + " new comment from " + commenter + ": ";
      && head <= m
      && m[|head|..] == Truncate(body, BodyLimit)
      && |m| <= |head| + BodyLimit + |Ellipsis|
  {
    Subject(number, url, title) + " new comment from " + commenter + ": " + Truncate(body, BodyLimit)
  }

  /**
   * The `switch` on the event kind: one text per supported kind, the empty
   * string (nothing to send) for any other.
   */
  function Format(kind: EventKind, p: WebhookPayload): (m: string)
    ensures m != "" <==> !kind.Unsupported?
    ensures kind == PullRequestReview ==> m == ReviewMessage(p.pullRequest, p.review)
    ensures kind == PullRequestReviewComment ==>
      m == CommentMessage(p.pullRequest.number, p.pullRequest.htmlUrl, p.pullRequest.title, p.comment.user.login, p.comment.body)
    ensures kind == IssueComment ==>
      m == CommentMessage(p.issue.number, p.issue.htmlUrl, p.issue.title, p.comment.user.login, p.comment.body)
  {
    match kind
    case PullRequestReview => ReviewMessage(p.pullRequest, p.review)
    case PullRequestReviewComment =>
      CommentMessage(p.pullRequest.number, p.pullRequest.htmlUrl, p.pullRequest.title, p.comment.user.login, p.comment.body)
    case IssueComment =>
      CommentMessage(p.issue.number, p.issue.htmlUrl, p.issue.title, p.comment.user.login, p.comment.body)
    case Unsupported(_) => ""
  }

  /** Texts never depend on the sender: the commenter or reviewer named is the comment's or review's own author. */
  lemma FormatIgnoresSender(kind: EventKind, p: WebhookPayload, sender: User)
    ensures Format(kind, p.(sender := sender)) == Format(kind, p)
  {
  }

  /** A pull-request-marked issue and a pull request with the same number, link and title get the same comment text. */
  lemma IssueCommentMatchesReviewComment(p: WebhookPayload, q: WebhookPayload)
    requires p.issue.number == q.pullRequest.number
    requires p.issue.htmlUrl == q.pullRequest.htmlUrl && p.issue.title == q.pullRequest.title
    requires p.comment == q.comment
    ensures Format(IssueComment, p) == Format(PullRequestReviewComment, q)
  {
  }

  /**
   * The number can be read back from any subject: it is the text between
   * "PR #" and the first space, since a rendered number holds no space.
   * So subjects with different numbers differ, whatever their links and titles.
   */
  lemma SubjectNumberRecoverable(m: int, n: int, url1: string, title1: string, url2: string, title2: string)
    requires Subject(m, url1, title1) == Subject(n, url2, title2)
    ensures m == n
  {
    var a := Decimal(m);
    var b := Decimal(n);
    var s := Subject(m, url1, title1);
    assert s == "PR #" + a + (" <" + url1 + "|" + title1 + ">");
    assert s == "PR #" + b + (" <" + url2 + "|" + title2 + ">");
    assert forall i :: 0 <= i < |a| ==> s[4 + i] == a[i];
    assert forall i :: 0 <= i < |b| ==> s[4 + i] == b[i];
    assert s[4 + |a|] == ' ';
    assert s[4 + |b|] == ' ';
    assert |a| == |b|;
    assert a == s[4..4 + |a|] == b;
    DecimalInjective(m, n);
  }

  /** Example: the subject of pull request #42 of the repository's handler tests, which has no link. */
  lemma SubjectExample()
    ensures Subject(42, "", "Add feature") == "PR #42 <|Add feature>"
  {
    DecimalExample();
  }

  /** Example: the approving review of that pull request, which has no body. */
  lemma ReviewMessageExample()
    ensures ReviewMessage(PullRequest(42, "Add feature", User("testuser"), ""), Review("approved", User("reviewer"), "")) ==
      "PR #42 <|Add feature> received *approved* review from reviewer"
  {
    SubjectExample();
    var head := Subject(42, "", "Add feature") + " received *" + "approved" + "* review from " + "reviewer";
    assert head == "PR #42 <|Add feature> received *approved* review from reviewer";
  }
}
