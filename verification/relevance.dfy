/**
 * The relevance decision of `handleWebhook`: whose pull request the event
 * is about, and whether it deserves a notification. Each rejection is a
 * silent success for the HTTP caller; only its reason differs.
 */
module Relevance {
  import opened Payload

  /** The outcome of filtering, in the order the checks run. */
  datatype Verdict =
    | NotPullRequest             // an issue comment on a plain issue
    | ForeignAuthor(author: string)  // the subject was not opened by the watched user
    | SelfAction                 // the watched user caused the delivery
    | IgnoredEvent(name: string) // an event kind with no message format
    | Relevant(kind: EventKind)

  predicate Supported(k: EventKind) {
    !k.Unsupported?
  }

  /** The login of whoever opened the subject: the issue for `issue_comment`, the pull request otherwise. */
  function SubjectAuthor(kind: EventKind, p: WebhookPayload): string {
    if kind == IssueComment then p.issue.user.login else p.pullRequest.user.login
  }

  /**
   * The checks of `handleWebhook` after decoding: plain-issue comments
   * first, then the subject's author, then self-caused events, and the
   * event kind last.
   */
  function Filter(watched: string, kind: EventKind, p: WebhookPayload): (v: Verdict)
    ensures v.Relevant? <==>
      && Supported(kind)
      && (kind == IssueComment ==> p.issue.isPullRequest)
      && SubjectAuthor(kind, p) == watched
      && p.sender.login != watched
    ensures v.Relevant? ==> v.kind == kind
    ensures v == NotPullRequest <==> kind == IssueComment && !p.issue.isPullRequest
    ensures v.ForeignAuthor? <==>
      (kind == IssueComment ==> p.issue.isPullRequest) && SubjectAuthor(kind, p) != watched
    ensures v.ForeignAuthor? ==> v.author == SubjectAuthor(kind, p)
    ensures v == SelfAction <==>
      (kind == IssueComment ==> p.issue.isPullRequest) && SubjectAuthor(kind, p) == watched && p.sender.login == watched
    ensures v.IgnoredEvent? <==>
      !Supported(kind) && SubjectAuthor(kind, p) == watched && p.sender.login != watched
  {
    if kind == IssueComment && !p.issue.isPullRequest then NotPullRequest
    else if SubjectAuthor(kind, p) != watched then ForeignAuthor(SubjectAuthor(kind, p))
    else if p.sender.login == watched then SelfAction
    else if kind.Unsupported? then IgnoredEvent(kind.name)
    else Relevant(kind)
  }

  /**
   * A missing `pull_request` object decodes to an empty login, which never
   * matches a configured user, so such an event is dropped for its author.
   */
  lemma AbsentPullRequestIsForeign(watched: string, kind: EventKind, p: WebhookPayload)
    requires watched != ""
    requires kind != IssueComment && p.pullRequest == NoPullRequest
    ensures Filter(watched, kind, p) == ForeignAuthor("")
  {
  }

  /** The event kind is judged last: an unsupported kind is reported only after the author and sender checks pass. */
  lemma KindCheckedLast(watched: string, name: string, p: WebhookPayload)
    ensures Filter(watched, Unsupported(name), p) ==
      if p.pullRequest.user.login != watched then ForeignAuthor(p.pullRequest.user.login)
      else if p.sender.login == watched then SelfAction
      else IgnoredEvent(name)
  {
  }
}
