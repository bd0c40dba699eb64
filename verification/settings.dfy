/** The process-wide configuration, fixed at start-up and only read afterwards. */
module Settings {

  datatype Config = Config(
    watchedUser: string,    // GITHUB_USERNAME: whose pull requests are watched
    webhookSecret: string,  // the shared secret keying the delivery signature
    slackBotToken: string,  // empty when Slack is not configured
    slackUserID: string)    // the Slack channel (a user ID) messages go to

  /** Start-up refuses to run without a watched user. */
  predicate Valid(c: Config) {
    c.watchedUser != ""
  }
}
