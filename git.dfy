/**
 * The shared git-integration helpers the view calls but does not define:
 * the message builders, the topic templates and the branch filter.
 *
 * Their text is not part of this model. Each builder is an arbitrary
 * function of the keyword arguments the view passes, so what the model
 * fixes is which arguments reach it. An `Option` field that is `None`
 * stands for a keyword argument passed as `None` or not passed at all.
 */
module GitTemplates {
  import opened Wrappers

  /** One commit as handed to the push message builder. */
  datatype CommitSummary = CommitSummary(name: string, sha: string, url: string, message: string)

  /** Arguments of `get_push_commits_event_message`. */
  datatype PushCommitsArgs = PushCommitsArgs(
    userName: string, compareUrl: string, branchName: string, commitsData: seq<CommitSummary>)

  /** Arguments of `get_create_branch_event_message`. */
  datatype CreateBranchArgs = CreateBranchArgs(userName: string, url: string, branchName: string)

  /** Arguments of `get_pull_request_event_message`. */
  datatype PullRequestArgs = PullRequestArgs(
    userName: string,
    action: string,
    url: string,
    number: int,
    targetBranch: Option<string>,
    baseBranch: Option<string>,
    message: Option<string>,
    kind: Option<string>,            // the `type` keyword
    title: Option<string>,
    assigneeUpdated: Option<string>)

  /** Arguments of `get_issue_event_message`. */
  datatype IssueArgs = IssueArgs(
    userName: string,
    action: string,
    url: string,
    number: int,
    message: string,
    assignee: Option<string>,
    title: Option<string>,
    assigneeUpdated: Option<string>)

  /** Arguments of `get_release_event_message`. */
  datatype ReleaseArgs = ReleaseArgs(
    userName: string, action: string, tagName: string, releaseName: string, url: string)

  /** The helpers themselves, supplied from outside the view. */
  datatype Templates = Templates(
    pushCommitsMessage: PushCommitsArgs -> string,
    createBranchMessage: CreateBranchArgs -> string,
    pullRequestMessage: PullRequestArgs -> string,
    issueMessage: IssueArgs -> string,
    releaseMessage: ReleaseArgs -> string,
    /** `TOPIC_WITH_BRANCH_TEMPLATE.format(repo=, branch=)` */
    topicWithBranch: (string, string) -> string,
    /** `TOPIC_WITH_PR_OR_ISSUE_INFO_TEMPLATE.format(repo=, type=, id=, title=)` */
    topicWithPrOrIssueInfo: (string, string, int, string) -> string,
    /** `TOPIC_WITH_RELEASE_TEMPLATE.format(repo=, tag=, title=)` */
    topicWithRelease: (string, string, string) -> string,
    /** `is_branch_name_notifiable(branch, branches)` */
    isBranchNameNotifiable: (string, Option<string>) -> bool)

  /** Every helper produces a non-empty text. */
  ghost predicate NonEmptyTexts(env: Templates)
  {
    && (forall a :: env.pushCommitsMessage(a) != [])
    && (forall a :: env.createBranchMessage(a) != [])
    && (forall a :: env.pullRequestMessage(a) != [])
    && (forall a :: env.issueMessage(a) != [])
    && (forall a :: env.releaseMessage(a) != [])
    && (forall r, b :: env.topicWithBranch(r, b) != [])
    && (forall r, k, i, t :: env.topicWithPrOrIssueInfo(r, k, i, t) != [])
    && (forall r, g, t :: env.topicWithRelease(r, g, t) != [])
  }
}
