/**
 * The Gogs webhook view: formatters that pick payload fields for the shared
 * git message builders, one handler per event kind, the event-to-handler
 * table and the dispatcher that decides between sending, succeeding
 * silently and rejecting the event.
 *
 * Each formatter is split in two: `...Args` reads the payload and decides
 * which arguments reach the builder, and `Format...` applies the builder.
 */
module GogsView {
  import opened Wrappers
  import opened Validator
  import opened PyStr
  import opened GitTemplates

  const RefsHeads: string := "refs/heads/"
  const PullRequestCommentEventType: string := "pull_request_comment"
  const DefaultEventType: string := "default_event_type"

  /** The injected pull-request formatter (`FormatPullRequestEvent`). */
  type PullRequestFormatter = (WildValue, bool) -> Result<string, Error>

  /** What a handler gets: fixed when the request arrives, never updated. */
  datatype Helper = Helper(
    payload: WildValue,
    branches: Option<string>,
    userSpecifiedTopic: Option<string>,
    repo: string,
    eventType: string,
    formatPullRequestEvent: PullRequestFormatter)

  /** What a handler returns: a topic and a body, both or neither. */
  datatype Notification = Notification(topic: Option<string>, body: Option<string>)

  /** A `Some` result of a read that may fail. */
  function Present(r: Result<string, Error>): (o: Result<Option<string>, Error>)
    ensures o.Success? <==> r.Success?
    ensures o.Success? ==> o.value == Some(r.value)
  {
    var s :- r;
    Success(Some(s))
  }

  // ---------------------------------------------------------------- URLs

  /** `get_issue_url`: the repository URL, then `/issues/`, then the number in decimal. */
  function IssueUrl(repoUrl: string, issueNr: int): (r: string)
    ensures |r| > |repoUrl| + 8
    ensures r[..|repoUrl| + 8] == repoUrl + "/issues/"
    ensures CanonicalInt(r[|repoUrl| + 8..]) && ParseInt(r[|repoUrl| + 8..]) == issueNr
    ensures r == repoUrl + "/issues/" + IntToString(issueNr)
  {
    var r := repoUrl + "/issues/" + IntToString(issueNr);
    assert r[|repoUrl| + 8..] == IntToString(issueNr);
    IntToStringRoundTrip(issueNr);
    r
  }

  /** Different issues of one repository never share a URL. */
  lemma IssueUrlInjective(repoUrl: string, a: int, b: int)
    ensures IssueUrl(repoUrl, a) == IssueUrl(repoUrl, b) ==> a == b
  {
  }

  // ------------------------------------------------------- branch names

  /** `ref.replace("refs/heads/", "")`: a ref is left as it is exactly when `refs/heads/` occurs nowhere in it. */
  function StripRefsHeads(ref: string): (r: string)
    ensures |r| <= |ref|
    ensures r == ref <==> !Contains(ref, RefsHeads)
  {
    RemoveAllShortens(ref, RefsHeads);
    RemoveAllFixedPoint(ref, RefsHeads);
    RemoveAll(ref, RefsHeads)
  }

  /** The usual `refs/heads/<name>` ref gives `<name>` when the name itself holds no `refs/heads/`. */
  lemma StripRefsHeadsOfBranchRef(name: string)
    requires !Contains(name, RefsHeads)
    ensures StripRefsHeads(RefsHeads + name) == name
  {
    RemoveAllDropsOccurrence([], name, RefsHeads);
    assert [] + RefsHeads + name == RefsHeads + name;
    RemoveAllKeepsClean(name, RefsHeads);
  }

  /** Not a prefix strip: an occurrence after a clean stretch is deleted too. */
  lemma StripRefsHeadsInside(before: string, after: string)
    requires forall i :: 0 <= i < |before| ==> !OccursAt(before + RefsHeads + after, RefsHeads, i)
    ensures StripRefsHeads(before + RefsHeads + after) == before + StripRefsHeads(after)
  {
    RemoveAllDropsOccurrence(before, after, RefsHeads);
  }

  // ---------------------------------------------------------------- push

  /** `commit["author"]["name"].tame(check_string).split()[0]` */
  function AuthorNameToken(commit: WildValue): (r: Result<string, Error>)
    ensures r.Success? ==>
      && StringAt(commit, ["author", "name"]).Success?
      && FirstToken(StringAt(commit, ["author", "name"]).value) == Some(r.value)
      && r.value != [] && NoSpace(r.value)
    ensures StringAt(commit, ["author", "name"]).Success? && AllSpace(StringAt(commit, ["author", "name"]).value)
      ==> r == Failure(IndexError(commit.path + [Key("author"), Key("name")]))
    ensures StringAt(commit, ["author", "name"]).Success? && !AllSpace(StringAt(commit, ["author", "name"]).value)
      ==> r.Success? && FirstToken(StringAt(commit, ["author", "name"]).value) == Some(r.value)
    ensures StringAt(commit, ["author", "name"]).Failure? ==> r == StringAt(commit, ["author", "name"])
  {
    var fullName :- StringAt(commit, ["author", "name"]);
    FirstTokenSpec(fullName);
    match FirstToken(fullName)
    case None => Failure(IndexError(commit.path + [Key("author"), Key("name")]))
    case Some(token) => Success(token)
  }

  /** One element of `_transform_commits_list_to_common_format`. */
  function CommitEntry(commit: WildValue): (r: Result<CommitSummary, Error>)
    ensures r.Success? ==>
      && StringAt(commit, ["id"]) == Success(r.value.sha)
      && StringAt(commit, ["url"]) == Success(r.value.url)
      && StringAt(commit, ["message"]) == Success(r.value.message)
    ensures r.Success? ==> StringAt(commit, ["author", "username"]).Success?
    ensures r.Success? && StringAt(commit, ["author", "username"]).value != [] ==>
      r.value.name == StringAt(commit, ["author", "username"]).value
    ensures r.Success? && StringAt(commit, ["author", "username"]).value == [] ==>
      && StringAt(commit, ["author", "name"]).Success?
      && FirstToken(StringAt(commit, ["author", "name"]).value) == Some(r.value.name)
    ensures r.Success? ==> r.value.name != []
    ensures StringAt(commit, ["author", "username"]) == Success([])
      && StringAt(commit, ["author", "name"]).Success? && AllSpace(StringAt(commit, ["author", "name"]).value)
      ==> r == Failure(IndexError(commit.path + [Key("author"), Key("name")]))
    ensures && StringAt(commit, ["author", "username"]).Success?
            && (StringAt(commit, ["author", "username"]).value == [] ==>
                  StringAt(commit, ["author", "name"]).Success? && !AllSpace(StringAt(commit, ["author", "name"]).value))
            && StringAt(commit, ["id"]).Success? && StringAt(commit, ["url"]).Success? && StringAt(commit, ["message"]).Success?
      ==> r.Success?
  {
    var username :- StringAt(commit, ["author", "username"]);
    var name :- if username != [] then Success(username) else AuthorNameToken(commit);
    var sha :- StringAt(commit, ["id"]);
    var url :- StringAt(commit, ["url"]);
    var message :- StringAt(commit, ["message"]);
    Success(CommitSummary(name, sha, url, message))
  }

  /** `_transform_commits_list_to_common_format`: one summary per commit, in order. */
  function TransformCommits(commits: WildValue): (r: Result<seq<CommitSummary>, Error>)
    ensures !commits.value.JList? ==> r == Failure(ValidationError(commits.path, NotAList))
    ensures r.Success? ==>
      && commits.value.JList? && |r.value| == |commits.value.items|
      && forall i :: 0 <= i < |r.value| ==>
           CommitEntry(WildValue(commits.path + [Index(i)], commits.value.items[i])) == Success(r.value[i])
    ensures r.Failure? && commits.value.JList? ==>
      exists i :: && 0 <= i < |commits.value.items|
                  && CommitEntry(WildValue(commits.path + [Index(i)], commits.value.items[i])) == Failure(r.error)
                  && forall j :: 0 <= j < i ==>
                       CommitEntry(WildValue(commits.path + [Index(j)], commits.value.items[j])).Success?
  {
    var items :- Items(commits);
    var r := MapResult(CommitEntry, items);
    if r.Failure? then MapResultFirstError(CommitEntry, items); r else r
  }

  /** The arguments `format_push_event` passes to the push message builder. */
  function PushEventArgs(payload: WildValue): (r: Result<PushCommitsArgs, Error>)
    ensures r.Success? ==>
      && StringAt(payload, ["sender", "username"]) == Success(r.value.userName)
      && StringAt(payload, ["compare_url"]) == Success(r.value.compareUrl)
      && StringAt(payload, ["ref"]).Success?
      && r.value.branchName == StripRefsHeads(StringAt(payload, ["ref"]).value)
      && Get(payload, "commits").Success?
      && TransformCommits(Get(payload, "commits").value) == Success(r.value.commitsData)
    ensures StringAt(payload, ["sender", "username"]).Failure? ==> r.Failure?
    ensures Get(payload, "commits").Success? && TransformCommits(Get(payload, "commits").value).Failure? ==> r.Failure?
    ensures && StringAt(payload, ["sender", "username"]).Success? && StringAt(payload, ["compare_url"]).Success?
            && StringAt(payload, ["ref"]).Success?
            && Get(payload, "commits").Success? && TransformCommits(Get(payload, "commits").value).Success?
      ==> r.Success?
  {
    var userName :- StringAt(payload, ["sender", "username"]);
    var compareUrl :- StringAt(payload, ["compare_url"]);
    var ref :- StringAt(payload, ["ref"]);
    var commits :- Get(payload, "commits");
    var commitsData :- TransformCommits(commits);
    Success(PushCommitsArgs(userName, compareUrl, StripRefsHeads(ref), commitsData))
  }

  /** `format_push_event` */
  function FormatPushEvent(env: Templates, payload: WildValue): (r: Result<string, Error>)
    ensures r.Success? <==> PushEventArgs(payload).Success?
    ensures r.Success? ==> r.value == env.pushCommitsMessage(PushEventArgs(payload).value)
  {
    var args :- PushEventArgs(payload);
    Success(env.pushCommitsMessage(args))
  }

  // -------------------------------------------------------- new branch

  /** The arguments `format_new_branch_event` passes: the raw ref and the browse URL `<html_url>/src/<ref>`. */
  function NewBranchEventArgs(payload: WildValue): (r: Result<CreateBranchArgs, Error>)
    ensures r.Success? ==>
      && StringAt(payload, ["ref"]) == Success(r.value.branchName)
      && StringAt(payload, ["repository", "html_url"]).Success?
      && r.value.url == StringAt(payload, ["repository", "html_url"]).value + "/src/" + r.value.branchName
      && StringAt(payload, ["sender", "username"]) == Success(r.value.userName)
    ensures StringAt(payload, ["ref"]).Failure? ==> r == Failure(StringAt(payload, ["ref"]).error)
    ensures && StringAt(payload, ["ref"]).Success? && StringAt(payload, ["repository", "html_url"]).Success?
            && StringAt(payload, ["sender", "username"]).Success?
      ==> r.Success?
  {
    var branchName :- StringAt(payload, ["ref"]);
    var htmlUrl :- StringAt(payload, ["repository", "html_url"]);
    var userName :- StringAt(payload, ["sender", "username"]);
    Success(CreateBranchArgs(userName, htmlUrl + "/src/" + branchName, branchName))
  }

  /** `format_new_branch_event` */
  function FormatNewBranchEvent(env: Templates, payload: WildValue): (r: Result<string, Error>)
    ensures r.Success? <==> NewBranchEventArgs(payload).Success?
    ensures r.Success? ==> r.value == env.createBranchMessage(NewBranchEventArgs(payload).value)
  {
    var args :- NewBranchEventArgs(payload);
    Success(env.createBranchMessage(args))
  }

  // ------------------------------------------------------ pull request

  /** The `assignee_updated` argument: the assignee's login when `action` and the assignee are both truthy. */
  function PullRequestAssignee(payload: WildValue): (r: Result<Option<string>, Error>)
    ensures r.Success? && r.value.Some? ==>
      && Get(payload, "action").Success? && Truthy(Get(payload, "action").value)
      && At(payload, ["pull_request", "assignee"]).Success? && Truthy(At(payload, ["pull_request", "assignee"]).value)
      && StringAt(payload, ["pull_request", "assignee", "login"]) == Success(r.value.value)
    ensures Get(payload, "action").Failure? ==> r == Failure(Get(payload, "action").error)
    ensures Get(payload, "action").Success? && !Truthy(Get(payload, "action").value) ==> r == Success(None)
    ensures Get(payload, "action").Success? && Truthy(Get(payload, "action").value) ==>
      && (At(payload, ["pull_request", "assignee"]).Failure? ==> r.Failure?)
      && (At(payload, ["pull_request", "assignee"]).Success? && !Truthy(At(payload, ["pull_request", "assignee"]).value) ==>
            r == Success(None))
      && (At(payload, ["pull_request", "assignee"]).Success? && Truthy(At(payload, ["pull_request", "assignee"]).value) ==>
            r == Present(StringAt(payload, ["pull_request", "assignee", "login"])))
  {
    var action :- Get(payload, "action");
    if !Truthy(action) then Success(None)
    else
      var assignee :- At(payload, ["pull_request", "assignee"]);
      if !Truthy(assignee) then Success(None)
      else
        var login :- StringAt(assignee, ["login"]);
        assert StringAt(payload, ["pull_request", "assignee", "login"]) == StringAt(assignee, ["login"]);
        Success(Some(login))
  }

  /** The arguments `format_pull_request_event` passes to the pull-request message builder. */
  function PullRequestEventArgs(payload: WildValue, includeTitle: bool): (r: Result<PullRequestArgs, Error>)
    ensures r.Success? ==> BoolAt(payload, ["pull_request", "merged"]).Success?
    ensures r.Success? && BoolAt(payload, ["pull_request", "merged"]).value ==>
      && r.value.action == "merged"
      && StringAt(payload, ["pull_request", "merged_by", "username"]) == Success(r.value.userName)
    ensures r.Success? && !BoolAt(payload, ["pull_request", "merged"]).value ==>
      && StringAt(payload, ["action"]) == Success(r.value.action)
      && StringAt(payload, ["pull_request", "user", "username"]) == Success(r.value.userName)
    ensures r.Success? ==>
      && StringAt(payload, ["pull_request", "html_url"]) == Success(r.value.url)
      && IntAt(payload, ["pull_request", "number"]) == Success(r.value.number)
    ensures r.Success? ==>
      && (r.value.targetBranch.Some? <==> r.value.action != "edited")
      && (r.value.baseBranch.Some? <==> r.value.action != "edited")
      && (r.value.targetBranch.Some? ==> StringAt(payload, ["pull_request", "head_branch"]) == Success(r.value.targetBranch.value))
      && (r.value.baseBranch.Some? ==> StringAt(payload, ["pull_request", "base_branch"]) == Success(r.value.baseBranch.value))
    ensures r.Success? ==>
      && (r.value.title.Some? <==> includeTitle)
      && (includeTitle ==> StringAt(payload, ["pull_request", "title"]) == Success(r.value.title.value))
    ensures r.Success? ==> r.value.message.None? && r.value.kind.None?
    ensures r.Success? ==> PullRequestAssignee(payload) == Success(r.value.assigneeUpdated)
    ensures BoolAt(payload, ["pull_request", "merged"]).Failure? ==> r.Failure?
    ensures
      && BoolAt(payload, ["pull_request", "merged"]).Success?
      && (if BoolAt(payload, ["pull_request", "merged"]).value
          then StringAt(payload, ["pull_request", "merged_by", "username"]).Success?
          else StringAt(payload, ["pull_request", "user", "username"]).Success? && StringAt(payload, ["action"]).Success?)
      && StringAt(payload, ["pull_request", "html_url"]).Success? && IntAt(payload, ["pull_request", "number"]).Success?
      && ((if BoolAt(payload, ["pull_request", "merged"]).value then "merged" else StringAt(payload, ["action"]).value) != "edited" ==>
            StringAt(payload, ["pull_request", "head_branch"]).Success? && StringAt(payload, ["pull_request", "base_branch"]).Success?)
      && (includeTitle ==> StringAt(payload, ["pull_request", "title"]).Success?)
      && PullRequestAssignee(payload).Success?
      ==> r.Success?
  {
    var merged :- BoolAt(payload, ["pull_request", "merged"]);
    var userName :- if merged then StringAt(payload, ["pull_request", "merged_by", "username"])
                    else StringAt(payload, ["pull_request", "user", "username"]);
    var action :- if merged then Success("merged") else StringAt(payload, ["action"]);
    var url :- StringAt(payload, ["pull_request", "html_url"]);
    var number :- IntAt(payload, ["pull_request", "number"]);
    var targetBranch :- if action != "edited" then Present(StringAt(payload, ["pull_request", "head_branch"])) else Success(None);
    var baseBranch :- if action != "edited" then Present(StringAt(payload, ["pull_request", "base_branch"])) else Success(None);
    var title :- if includeTitle then Present(StringAt(payload, ["pull_request", "title"])) else Success(None);
    var assigneeUpdated :- PullRequestAssignee(payload);
    Success(PullRequestArgs(userName, action, url, number, targetBranch, baseBranch, None, None, title, assigneeUpdated))
  }

  /** `format_pull_request_event` */
  function FormatPullRequestEvent(env: Templates, payload: WildValue, includeTitle: bool): (r: Result<string, Error>)
    ensures r.Success? <==> PullRequestEventArgs(payload, includeTitle).Success?
    ensures r.Success? ==> r.value == env.pullRequestMessage(PullRequestEventArgs(payload, includeTitle).value)
  {
    var args :- PullRequestEventArgs(payload, includeTitle);
    Success(env.pullRequestMessage(args))
  }

  // ------------------------------------------------------------ issues

  /** The arguments `format_issues_event` passes to the issue message builder. */
  function IssuesEventArgs(payload: WildValue, includeTitle: bool): (r: Result<IssueArgs, Error>)
    ensures r.Success? ==>
      && IntAt(payload, ["issue", "number"]) == Success(r.value.number)
      && StringAt(payload, ["action"]) == Success(r.value.action)
      && StringAt(payload, ["sender", "login"]) == Success(r.value.userName)
      && StringAt(payload, ["issue", "body"]) == Success(r.value.message)
      && StringAt(payload, ["repository", "html_url"]).Success?
      && r.value.url == IssueUrl(StringAt(payload, ["repository", "html_url"]).value, r.value.number)
    ensures r.Success? ==>
      && At(payload, ["issue", "assignee"]).Success?
      && (r.value.assignee.Some? <==> Truthy(At(payload, ["issue", "assignee"]).value))
      && (r.value.assignee.Some? ==> StringAt(payload, ["issue", "assignee", "login"]) == Success(r.value.assignee.value))
    ensures r.Success? ==>
      && (r.value.assigneeUpdated.Some? <==> r.value.action == "assigned" && r.value.assignee.Some?)
      && (r.value.assigneeUpdated.Some? ==> r.value.assigneeUpdated == r.value.assignee)
    ensures r.Success? ==>
      && (r.value.title.Some? <==> includeTitle)
      && (includeTitle ==> StringAt(payload, ["issue", "title"]) == Success(r.value.title.value))
    ensures IntAt(payload, ["issue", "number"]).Failure? ==> r == Failure(IntAt(payload, ["issue", "number"]).error)
    ensures
      && IntAt(payload, ["issue", "number"]).Success? && At(payload, ["issue", "assignee"]).Success?
      && (Truthy(At(payload, ["issue", "assignee"]).value) ==> StringAt(payload, ["issue", "assignee", "login"]).Success?)
      && StringAt(payload, ["action"]).Success? && StringAt(payload, ["sender", "login"]).Success?
      && StringAt(payload, ["repository", "html_url"]).Success? && StringAt(payload, ["issue", "body"]).Success?
      && (includeTitle ==> StringAt(payload, ["issue", "title"]).Success?)
      ==> r.Success?
  {
    var issueNr :- IntAt(payload, ["issue", "number"]);
    var assignee :- At(payload, ["issue", "assignee"]);
    var stringifiedAssignee :- if Truthy(assignee) then Present(StringAt(assignee, ["login"])) else Success(None);
    assert StringAt(payload, ["issue", "assignee", "login"]) == StringAt(assignee, ["login"]);
    var action :- StringAt(payload, ["action"]);
    var userName :- StringAt(payload, ["sender", "login"]);
    // `payload["action"]` is read a second time here; it cannot fail now.
    var htmlUrl :- StringAt(payload, ["repository", "html_url"]);
    var message :- StringAt(payload, ["issue", "body"]);
    var title :- if includeTitle then Present(StringAt(payload, ["issue", "title"])) else Success(None);
    Success(IssueArgs(userName, action, IssueUrl(htmlUrl, issueNr), issueNr, message, stringifiedAssignee, title,
                      if action == "assigned" then stringifiedAssignee else None))
  }

  /** `format_issues_event` */
  function FormatIssuesEvent(env: Templates, payload: WildValue, includeTitle: bool): (r: Result<string, Error>)
    ensures r.Success? <==> IssuesEventArgs(payload, includeTitle).Success?
    ensures r.Success? ==> r.value == env.issueMessage(IssuesEventArgs(payload, includeTitle).value)
  {
    var args :- IssuesEventArgs(payload, includeTitle);
    Success(env.issueMessage(args))
  }

  // ---------------------------------------------------------- comments

  /**
   * The action text of a comment: `[commented](<url>) on` for a new comment,
   * `<action> a [comment](<url>) on` otherwise.
   */
  function CommentActionText(action: string, commentUrl: string): (r: string)
    ensures action == "created" ==> r == "[commented](" + commentUrl + ") on"
    ensures action != "created" ==> r == action + " a [comment](" + commentUrl + ") on"
  {
    var text := if action == "created" then "[commented]" else action + " a [comment]";
    text + "(" + commentUrl + ") on"
  }

  /** The arguments `format_issue_comment_event` passes to the issue message builder. */
  function IssueCommentEventArgs(payload: WildValue, includeTitle: bool): (r: Result<IssueArgs, Error>)
    ensures r.Success? ==>
      && StringAt(payload, ["action"]).Success?
      && StringAt(payload, ["comment", "html_url"]).Success?
      && r.value.action == CommentActionText(StringAt(payload, ["action"]).value, StringAt(payload, ["comment", "html_url"]).value)
      && StringAt(payload, ["sender", "login"]) == Success(r.value.userName)
      && IntAt(payload, ["issue", "number"]) == Success(r.value.number)
      && StringAt(payload, ["comment", "body"]) == Success(r.value.message)
      && StringAt(payload, ["repository", "html_url"]).Success?
      && r.value.url == IssueUrl(StringAt(payload, ["repository", "html_url"]).value, r.value.number)
    ensures r.Success? ==> r.value.assignee.None? && r.value.assigneeUpdated.None?
    ensures r.Success? ==>
      && (r.value.title.Some? <==> includeTitle)
      && (includeTitle ==> StringAt(payload, ["issue", "title"]) == Success(r.value.title.value))
    ensures StringAt(payload, ["action"]).Failure? ==> r == Failure(StringAt(payload, ["action"]).error)
    ensures
      && StringAt(payload, ["action"]).Success? && StringAt(payload, ["comment", "html_url"]).Success?
      && StringAt(payload, ["sender", "login"]).Success? && StringAt(payload, ["repository", "html_url"]).Success?
      && IntAt(payload, ["issue", "number"]).Success? && StringAt(payload, ["comment", "body"]).Success?
      && (includeTitle ==> StringAt(payload, ["issue", "title"]).Success?)
      ==> r.Success?
  {
    var action :- StringAt(payload, ["action"]);
    var comment :- Get(payload, "comment");
    var issue :- Get(payload, "issue");
    // `comment["html_url"]` and `payload["comment"]["html_url"]` are one read, and so on.
    var commentUrl :- StringAt(payload, ["comment", "html_url"]);
    var userName :- StringAt(payload, ["sender", "login"]);
    var htmlUrl :- StringAt(payload, ["repository", "html_url"]);
    var number :- IntAt(payload, ["issue", "number"]);
    // `issue["number"]` is read a second time for the `number` argument; it cannot fail now.
    var message :- StringAt(payload, ["comment", "body"]);
    var title :- if includeTitle then Present(StringAt(payload, ["issue", "title"])) else Success(None);
    Success(IssueArgs(userName, CommentActionText(action, commentUrl), IssueUrl(htmlUrl, number), number,
                      message, None, title, None))
  }

  /** `format_issue_comment_event` */
  function FormatIssueCommentEvent(env: Templates, payload: WildValue, includeTitle: bool): (r: Result<string, Error>)
    ensures r.Success? <==> IssueCommentEventArgs(payload, includeTitle).Success?
    ensures r.Success? ==> r.value == env.issueMessage(IssueCommentEventArgs(payload, includeTitle).value)
  {
    var args :- IssueCommentEventArgs(payload, includeTitle);
    Success(env.issueMessage(args))
  }

  /**
   * The action text of the pull-request-comment branch of
   * `handle_issue_comment_event`, its own copy of the comment rule.
   */
  function PullRequestCommentActionText(payload: WildValue): (r: Result<string, Error>)
    ensures StringAt(payload, ["action"]).Failure? ==> r == Failure(StringAt(payload, ["action"]).error)
    ensures r.Success? <==> StringAt(payload, ["action"]).Success? && StringAt(payload, ["comment", "html_url"]).Success?
    ensures r.Success? && StringAt(payload, ["action"]).value == "created" ==>
      r.value == "[commented](" + StringAt(payload, ["comment", "html_url"]).value + ") on"
    ensures r.Success? && StringAt(payload, ["action"]).value != "created" ==>
      r.value == StringAt(payload, ["action"]).value + " a [comment](" + StringAt(payload, ["comment", "html_url"]).value + ") on"
  {
    var action :- StringAt(payload, ["action"]);
    var actionText := if action == "created" then "[commented]" else action + " a [comment]";
    var commentUrl :- StringAt(payload, ["comment", "html_url"]);
    Success(actionText + "(" + commentUrl + ") on")
  }

  /**
   * The arguments the pull-request-comment branch of `handle_issue_comment_event`
   * passes to the pull-request message builder: always the title, type `PR`.
   */
  function PullRequestCommentArgs(payload: WildValue): (r: Result<PullRequestArgs, Error>)
    ensures r.Success? ==>
      && PullRequestCommentActionText(payload) == Success(r.value.action)
      && StringAt(payload, ["sender", "login"]) == Success(r.value.userName)
      && StringAt(payload, ["issue", "html_url"]) == Success(r.value.url)
      && IntAt(payload, ["issue", "number"]) == Success(r.value.number)
    ensures r.Success? ==>
      && r.value.title.Some? && StringAt(payload, ["issue", "title"]) == Success(r.value.title.value)
      && r.value.message.Some? && StringAt(payload, ["comment", "body"]) == Success(r.value.message.value)
      && r.value.kind == Some("PR")
      && r.value.targetBranch.None? && r.value.baseBranch.None? && r.value.assigneeUpdated.None?
    ensures StringAt(payload, ["action"]).Failure? ==> r == Failure(StringAt(payload, ["action"]).error)
    ensures
      && PullRequestCommentActionText(payload).Success?
      && StringAt(payload, ["sender", "login"]).Success? && StringAt(payload, ["issue", "html_url"]).Success?
      && IntAt(payload, ["issue", "number"]).Success? && StringAt(payload, ["comment", "body"]).Success?
      && StringAt(payload, ["issue", "title"]).Success?
      ==> r.Success?
  {
    var actionText :- PullRequestCommentActionText(payload);
    var userName :- StringAt(payload, ["sender", "login"]);
    var url :- StringAt(payload, ["issue", "html_url"]);
    var number :- IntAt(payload, ["issue", "number"]);
    var message :- StringAt(payload, ["comment", "body"]);
    var title :- StringAt(payload, ["issue", "title"]);
    Success(PullRequestArgs(userName, actionText, url, number,
                            None, None, Some(message), Some("PR"), Some(title), None))
  }

  /** The pull-request-comment body. */
  function FormatPullRequestCommentEvent(env: Templates, payload: WildValue): (r: Result<string, Error>)
    ensures r.Success? <==> PullRequestCommentArgs(payload).Success?
    ensures r.Success? ==> r.value == env.pullRequestMessage(PullRequestCommentArgs(payload).value)
  {
    var args :- PullRequestCommentArgs(payload);
    Success(env.pullRequestMessage(args))
  }

  /**
   * The comment action text is written out twice in the view, once per
   * comment kind; on one payload both copies give the same text.
   */
  lemma CommentActionTextsAgree(payload: WildValue, includeTitle: bool)
    requires IssueCommentEventArgs(payload, includeTitle).Success?
    ensures PullRequestCommentActionText(payload) == Success(IssueCommentEventArgs(payload, includeTitle).value.action)
  {
  }

  // ----------------------------------------------------------- release

  /** The arguments `format_release_event` passes to the release message builder. */
  function ReleaseEventArgs(payload: WildValue): (r: Result<ReleaseArgs, Error>)
    ensures r.Success? ==>
      && StringAt(payload, ["release", "author", "username"]) == Success(r.value.userName)
      && StringAt(payload, ["action"]) == Success(r.value.action)
      && StringAt(payload, ["release", "tag_name"]) == Success(r.value.tagName)
      && StringAt(payload, ["release", "name"]) == Success(r.value.releaseName)
      && StringAt(payload, ["repository", "html_url"]) == Success(r.value.url)
    ensures StringAt(payload, ["release", "author", "username"]).Failure? ==> r.Failure?
    ensures
      && StringAt(payload, ["release", "author", "username"]).Success? && StringAt(payload, ["action"]).Success?
      && StringAt(payload, ["release", "tag_name"]).Success? && StringAt(payload, ["release", "name"]).Success?
      && StringAt(payload, ["repository", "html_url"]).Success?
      ==> r.Success?
  {
    var userName :- StringAt(payload, ["release", "author", "username"]);
    var action :- StringAt(payload, ["action"]);
    var tagName :- StringAt(payload, ["release", "tag_name"]);
    var releaseName :- StringAt(payload, ["release", "name"]);
    var url :- StringAt(payload, ["repository", "html_url"]);
    Success(ReleaseArgs(userName, action, tagName, releaseName, url))
  }

  /** `format_release_event`: the `include_title` flag is accepted and not used. */
  function FormatReleaseEvent(env: Templates, payload: WildValue, includeTitle: bool): (r: Result<string, Error>)
    ensures r.Success? <==> ReleaseEventArgs(payload).Success?
    ensures r.Success? ==> r.value == env.releaseMessage(ReleaseEventArgs(payload).value)
  {
    var args :- ReleaseEventArgs(payload);
    Success(env.releaseMessage(args))
  }

  lemma ReleaseIgnoresTitleFlag(env: Templates, payload: WildValue)
    ensures FormatReleaseEvent(env, payload, true) == FormatReleaseEvent(env, payload, false)
  {
  }

  // ---------------------------------------------------------- handlers

  /** A notification that carries both parts or neither. */
  predicate Paired(n: Notification)
  {
    n.topic.Some? == n.body.Some?
  }

  /** `handle_push_event`: nothing for a branch the filter rejects, else the push message. */
  function HandlePushEvent(env: Templates, h: Helper): (r: Result<Notification, Error>)
    ensures r.Success? ==> StringAt(h.payload, ["ref"]).Success? && Paired(r.value)
    ensures r.Success? ==>
      (r.value.body.None? <==> !env.isBranchNameNotifiable(StripRefsHeads(StringAt(h.payload, ["ref"]).value), h.branches))
    ensures r.Success? && r.value.body.Some? ==>
      var branch := StripRefsHeads(StringAt(h.payload, ["ref"]).value);
      && r.value.topic == Some(env.topicWithBranch(h.repo, branch))
      && PushEventArgs(h.payload).Success?
      && PushEventArgs(h.payload).value.branchName == branch
      && r.value.body == Some(env.pushCommitsMessage(PushEventArgs(h.payload).value))
    ensures StringAt(h.payload, ["ref"]).Success?
      && !env.isBranchNameNotifiable(StripRefsHeads(StringAt(h.payload, ["ref"]).value), h.branches)
      ==> r == Success(Notification(None, None))
    ensures StringAt(h.payload, ["ref"]).Success?
      && env.isBranchNameNotifiable(StripRefsHeads(StringAt(h.payload, ["ref"]).value), h.branches)
      && PushEventArgs(h.payload).Success?
      ==> r.Success? && r.value.body.Some?
  {
    var ref :- StringAt(h.payload, ["ref"]);
    var branch := StripRefsHeads(ref);
    if !env.isBranchNameNotifiable(branch, h.branches) then Success(Notification(None, None))
    else
      var body :- FormatPushEvent(env, h.payload);
      Success(Notification(Some(env.topicWithBranch(h.repo, branch)), Some(body)))
  }

  /** `handle_create_event`: the topic names the raw ref, not the stripped branch. */
  function HandleCreateEvent(env: Templates, h: Helper): (r: Result<Notification, Error>)
    ensures r.Success? ==>
      && FormatNewBranchEvent(env, h.payload).Success?
      && r.value.body == Some(FormatNewBranchEvent(env, h.payload).value)
      && StringAt(h.payload, ["ref"]).Success?
      && r.value.topic == Some(env.topicWithBranch(h.repo, StringAt(h.payload, ["ref"]).value))
    ensures NewBranchEventArgs(h.payload).Success? ==> r.Success?
  {
    var body :- FormatNewBranchEvent(env, h.payload);
    // The formatter has already read `ref`; reading it again cannot fail.
    var ref := StringAt(h.payload, ["ref"]).value;
    Success(Notification(Some(env.topicWithBranch(h.repo, ref)), Some(body)))
  }

  /** `handle_pull_request_event`: the title goes into the body only when the user chose the topic. */
  function HandlePullRequestEvent(env: Templates, h: Helper): (r: Result<Notification, Error>)
    ensures r.Success? ==>
      && h.formatPullRequestEvent(h.payload, h.userSpecifiedTopic.Some?).Success?
      && r.value.body == Some(h.formatPullRequestEvent(h.payload, h.userSpecifiedTopic.Some?).value)
      && IntAt(h.payload, ["pull_request", "id"]).Success?
      && StringAt(h.payload, ["pull_request", "title"]).Success?
      && r.value.topic == Some(env.topicWithPrOrIssueInfo(h.repo, "PR", IntAt(h.payload, ["pull_request", "id"]).value,
                                                          StringAt(h.payload, ["pull_request", "title"]).value))
    ensures && h.formatPullRequestEvent(h.payload, h.userSpecifiedTopic.Some?).Success?
            && IntAt(h.payload, ["pull_request", "id"]).Success? && StringAt(h.payload, ["pull_request", "title"]).Success?
      ==> r.Success?
  {
    var body :- h.formatPullRequestEvent(h.payload, h.userSpecifiedTopic.Some?);
    var id :- IntAt(h.payload, ["pull_request", "id"]);
    var title :- StringAt(h.payload, ["pull_request", "title"]);
    Success(Notification(Some(env.topicWithPrOrIssueInfo(h.repo, "PR", id, title)), Some(body)))
  }

  /** `handle_issues_event` */
  function HandleIssuesEvent(env: Templates, h: Helper): (r: Result<Notification, Error>)
    ensures r.Success? ==>
      && FormatIssuesEvent(env, h.payload, h.userSpecifiedTopic.Some?).Success?
      && r.value.body == Some(FormatIssuesEvent(env, h.payload, h.userSpecifiedTopic.Some?).value)
      && IntAt(h.payload, ["issue", "number"]).Success?
      && StringAt(h.payload, ["issue", "title"]).Success?
      && r.value.topic == Some(env.topicWithPrOrIssueInfo(h.repo, "issue", IntAt(h.payload, ["issue", "number"]).value,
                                                          StringAt(h.payload, ["issue", "title"]).value))
    ensures IssuesEventArgs(h.payload, h.userSpecifiedTopic.Some?).Success? && StringAt(h.payload, ["issue", "title"]).Success?
      ==> r.Success?
  {
    var body :- FormatIssuesEvent(env, h.payload, h.userSpecifiedTopic.Some?);
    // The formatter has already read `issue.number`; reading it again cannot fail.
    var id := IntAt(h.payload, ["issue", "number"]).value;
    var title :- StringAt(h.payload, ["issue", "title"]);
    Success(Notification(Some(env.topicWithPrOrIssueInfo(h.repo, "issue", id, title)), Some(body)))
  }

  /**
   * `handle_issue_comment_event`: a pull-request comment when the
   * `x-gitea-event-type` value says so, an issue comment otherwise. The topic
   * reads `repository.name` from the payload rather than `h.repo`.
   */
  function HandleIssueCommentEvent(env: Templates, h: Helper): (r: Result<Notification, Error>)
    ensures r.Success? && h.eventType == PullRequestCommentEventType ==>
      && FormatPullRequestCommentEvent(env, h.payload).Success?
      && r.value.body == Some(FormatPullRequestCommentEvent(env, h.payload).value)
    ensures r.Success? && h.eventType != PullRequestCommentEventType ==>
      && FormatIssueCommentEvent(env, h.payload, h.userSpecifiedTopic.Some?).Success?
      && r.value.body == Some(FormatIssueCommentEvent(env, h.payload, h.userSpecifiedTopic.Some?).value)
    ensures r.Success? ==>
      && StringAt(h.payload, ["repository", "name"]).Success?
      && IntAt(h.payload, ["issue", "number"]).Success?
      && StringAt(h.payload, ["issue", "title"]).Success?
      && r.value.topic == Some(env.topicWithPrOrIssueInfo(
           StringAt(h.payload, ["repository", "name"]).value,
           if h.eventType == PullRequestCommentEventType then "PR" else "issue",
           IntAt(h.payload, ["issue", "number"]).value,
           StringAt(h.payload, ["issue", "title"]).value))
    ensures
      && (if h.eventType == PullRequestCommentEventType then PullRequestCommentArgs(h.payload).Success?
          else IssueCommentEventArgs(h.payload, h.userSpecifiedTopic.Some?).Success?)
      && StringAt(h.payload, ["repository", "name"]).Success? && StringAt(h.payload, ["issue", "title"]).Success?
      ==> r.Success?
  {
    var isPullRequest := h.eventType == PullRequestCommentEventType;
    var body :- if isPullRequest then FormatPullRequestCommentEvent(env, h.payload)
                else FormatIssueCommentEvent(env, h.payload, h.userSpecifiedTopic.Some?);
    var topicType := if isPullRequest then "PR" else "issue";
    var repo :- StringAt(h.payload, ["repository", "name"]);
    // Both body formatters have already read `issue.number`; reading it again cannot fail.
    var id := IntAt(h.payload, ["issue", "number"]).value;
    var title :- StringAt(h.payload, ["issue", "title"]);
    Success(Notification(Some(env.topicWithPrOrIssueInfo(repo, topicType, id, title)), Some(body)))
  }

  /** `handle_release_event` */
  function HandleReleaseEvent(env: Templates, h: Helper): (r: Result<Notification, Error>)
    ensures r.Success? ==>
      && FormatReleaseEvent(env, h.payload, h.userSpecifiedTopic.Some?).Success?
      && r.value.body == Some(FormatReleaseEvent(env, h.payload, h.userSpecifiedTopic.Some?).value)
      && StringAt(h.payload, ["release", "tag_name"]).Success?
      && StringAt(h.payload, ["release", "name"]).Success?
      && r.value.topic == Some(env.topicWithRelease(h.repo, StringAt(h.payload, ["release", "tag_name"]).value,
                                                    StringAt(h.payload, ["release", "name"]).value))
    ensures ReleaseEventArgs(h.payload).Success? ==> r.Success?
  {
    var body :- FormatReleaseEvent(env, h.payload, h.userSpecifiedTopic.Some?);
    // The formatter has already read both fields; reading them again cannot fail.
    var tag := StringAt(h.payload, ["release", "tag_name"]).value;
    var title := StringAt(h.payload, ["release", "name"]).value;
    Success(Notification(Some(env.topicWithRelease(h.repo, tag, title)), Some(body)))
  }

  // ------------------------------------------------------- event table

  datatype EventKind = Push | Create | PullRequest | Issues | IssueComment | Release

  /** The `X-Gogs-Event` value each handler is registered under. */
  function EventName(k: EventKind): (r: string)
    ensures r in AllEventTypes
  {
    match k
    case Push => "push"
    case Create => "create"
    case PullRequest => "pull_request"
    case Issues => "issues"
    case IssueComment => "issue_comment"
    case Release => "release"
  }

  /** `ALL_EVENT_TYPES` */
  const AllEventTypes: seq<string> := ["push", "create", "pull_request", "issues", "issue_comment", "release"]

  /** `GOGS_EVENT_FUNCTION_MAPPER.get(event)` */
  function GogsEventFunctionMapper(event: string): (r: Option<EventKind>)
    ensures r.Some? <==> event in AllEventTypes
    ensures r.Some? ==> EventName(r.value) == event
    ensures forall k :: EventName(k) == event ==> r == Some(k)
  {
    match event
    case "push" => Some(Push)
    case "create" => Some(Create)
    case "pull_request" => Some(PullRequest)
    case "issues" => Some(Issues)
    case "issue_comment" => Some(IssueComment)
    case "release" => Some(Release)
    case _ => None
  }

  /**
   * Calls the handler registered for `k`. Every handler returns both parts
   * or neither, and only the push handler can return neither.
   */
  function Handle(k: EventKind, env: Templates, h: Helper): (r: Result<Notification, Error>)
    ensures r.Success? ==> Paired(r.value)
    ensures r.Success? && k != Push ==> r.value.body.Some?
  {
    match k
    case Push => HandlePushEvent(env, h)
    case Create => HandleCreateEvent(env, h)
    case PullRequest => HandlePullRequestEvent(env, h)
    case Issues => HandleIssuesEvent(env, h)
    case IssueComment => HandleIssueCommentEvent(env, h)
    case Release => HandleReleaseEvent(env, h)
  }

  /**
   * A handler returns neither part exactly for a push whose stripped branch
   * the branch filter rejects.
   */
  lemma HandlersPairTopicAndBody(k: EventKind, env: Templates, h: Helper)
    requires Handle(k, env, h).Success?
    ensures Handle(k, env, h).value.body.None? <==>
      && k == Push
      && !env.isBranchNameNotifiable(StripRefsHeads(StringAt(h.payload, ["ref"]).value), h.branches)
  {
  }

  // -------------------------------------------------------- dispatcher

  /** What the endpoint does with one delivery. */
  datatype Outcome =
    | Sent(topic: string, body: string, event: string)   // one message sent, then success
    | Succeeded                                           // success without a message
    | Raised(error: Error)                                // the request fails

  /** Python truthiness of an optional string: neither `None` nor the empty string. */
  predicate NonEmpty(s: Option<string>): (b: bool)
    ensures b <==> s != None && s != Some("")
  {
    match s
    case None => false
    case Some(v) => |v| > 0
  }

  /** The `x-gitea-event-type` value, or the placeholder used when the header is absent. */
  function EventType(header: Option<string>): (t: string)
    ensures header.Some? ==> t == header.value
    ensures header.None? ==> t == DefaultEventType
  {
    match header
    case Some(v) => v
    case None => DefaultEventType
  }

  /** The `Helper` that `gogs_webhook_main` builds for the handlers. */
  function DispatchHelper(
    payload: Json, branches: Option<string>, userSpecifiedTopic: Option<string>, repo: string,
    eventTypeHeader: Option<string>, formatPullRequestEvent: PullRequestFormatter): (h: Helper)
    ensures h.payload == Root(payload) && h.repo == repo && h.eventType == EventType(eventTypeHeader)
    ensures h.branches == branches && h.userSpecifiedTopic == userSpecifiedTopic
    ensures h.formatPullRequestEvent == formatPullRequestEvent
  {
    Helper(Root(payload), branches, userSpecifiedTopic, repo, EventType(eventTypeHeader), formatPullRequestEvent)
  }

  /**
   * `gogs_webhook_main`. `eventHeader` and `eventTypeHeader` are the values of
   * the event header named `httpHeaderName` and of `x-gitea-event-type`,
   * `None` when absent.
   */
  function GogsWebhookMain(
    env: Templates, httpHeaderName: string, formatPullRequestEvent: PullRequestFormatter,
    eventHeader: Option<string>, eventTypeHeader: Option<string>,
    payload: Json, branches: Option<string>, userSpecifiedTopic: Option<string>): (o: Outcome)
    ensures o.Sent? ==>
      && o.topic != [] && o.body != []
      && eventHeader == Some(o.event) && o.event in AllEventTypes
    ensures o.Succeeded? ==> eventHeader == Some("push")
    ensures StringAt(Root(payload), ["repository", "name"]).Failure? ==>
      o == Raised(StringAt(Root(payload), ["repository", "name"]).error)
    ensures StringAt(Root(payload), ["repository", "name"]).Success? && eventHeader.None? ==>
      o == Raised(MissingHttpEventHeader(httpHeaderName))
  {
    var root := Root(payload);
    match StringAt(root, ["repository", "name"])
    case Failure(e) => Raised(e)
    case Success(repo) =>
      match eventHeader
      case None => Raised(MissingHttpEventHeader(httpHeaderName))
      case Some(event) =>
        var helper := DispatchHelper(payload, branches, userSpecifiedTopic, repo, eventTypeHeader, formatPullRequestEvent);
        match GogsEventFunctionMapper(event)
        case None => Raised(UnsupportedWebhookEventType(event))
        case Some(handler) =>
          match Handle(handler, env, helper)
          case Failure(e) => Raised(e)
          case Success(Notification(topic, body)) =>
            if NonEmpty(topic) && NonEmpty(body) then Sent(topic.value, body.value, event)
            else if event == "push" then Succeeded
            else Raised(UnsupportedWebhookEventType(event))
  }

  /** `api_gogs_webhook`: the Gogs endpoint, with this module's pull-request formatter. */
  function ApiGogsWebhook(
    env: Templates, eventHeader: Option<string>, eventTypeHeader: Option<string>,
    payload: Json, branches: Option<string>, userSpecifiedTopic: Option<string>): (o: Outcome)
    ensures StringAt(Root(payload), ["repository", "name"]).Success? && eventHeader.None? ==>
      o == Raised(MissingHttpEventHeader("X-Gogs-Event"))
  {
    GogsWebhookMain(env, "X-Gogs-Event", (w: WildValue, t: bool) => FormatPullRequestEvent(env, w, t),
                    eventHeader, eventTypeHeader, payload, branches, userSpecifiedTopic)
  }

  // ------------------------------------------------ dispatcher properties

  /** Every body the injected formatter produces is non-empty. */
  ghost predicate NonEmptyFormatter(f: PullRequestFormatter)
  {
    forall w, t :: f(w, t).Success? ==> f(w, t).value != []
  }

  /**
   * An event with no registered handler is rejected, and no handler is
   * consulted: the outcome is the same whatever the helpers and the
   * injected formatter are.
   */
  lemma UnknownEventRejected(
    env: Templates, env': Templates, f: PullRequestFormatter, f': PullRequestFormatter,
    httpHeaderName: string, event: string, eventTypeHeader: Option<string>,
    payload: Json, branches: Option<string>, userSpecifiedTopic: Option<string>)
    requires StringAt(Root(payload), ["repository", "name"]).Success?
    requires event !in AllEventTypes
    ensures GogsWebhookMain(env, httpHeaderName, f, Some(event), eventTypeHeader, payload, branches, userSpecifiedTopic)
            == Raised(UnsupportedWebhookEventType(event))
    ensures GogsWebhookMain(env, httpHeaderName, f, Some(event), eventTypeHeader, payload, branches, userSpecifiedTopic)
            == GogsWebhookMain(env', httpHeaderName, f', Some(event), eventTypeHeader, payload, branches, userSpecifiedTopic)
  {
  }

  /**
   * The decision taken on a registered event, in terms of what its handler
   * returned: send when topic and body are both non-empty, otherwise succeed
   * silently for `push` and reject any other event; a handler that raises
   * makes the request fail with that error.
   */
  lemma KnownEventDecision(
    k: EventKind, env: Templates, f: PullRequestFormatter, httpHeaderName: string,
    eventTypeHeader: Option<string>, payload: Json, branches: Option<string>, userSpecifiedTopic: Option<string>)
    requires StringAt(Root(payload), ["repository", "name"]).Success?
    ensures
      var o := GogsWebhookMain(env, httpHeaderName, f, Some(EventName(k)), eventTypeHeader, payload, branches, userSpecifiedTopic);
      var h := DispatchHelper(payload, branches, userSpecifiedTopic,
                              StringAt(Root(payload), ["repository", "name"]).value, eventTypeHeader, f);
      var r := Handle(k, env, h);
      && (r.Failure? ==> o == Raised(r.error))
      && (r.Success? && NonEmpty(r.value.topic) && NonEmpty(r.value.body) ==>
            o == Sent(r.value.topic.value, r.value.body.value, EventName(k)))
      && (r.Success? && !(NonEmpty(r.value.topic) && NonEmpty(r.value.body)) ==>
            o == if k == Push then Succeeded else Raised(UnsupportedWebhookEventType(EventName(k))))
  {
    assert GogsEventFunctionMapper(EventName(k)) == Some(k);
  }

  /**
   * With helpers that never produce empty text, the request succeeds without
   * a message exactly for a `push` whose stripped branch the filter rejects.
   */
  lemma SilentSuccessIsFilteredPush(
    env: Templates, f: PullRequestFormatter, httpHeaderName: string, eventHeader: Option<string>,
    eventTypeHeader: Option<string>, payload: Json, branches: Option<string>, userSpecifiedTopic: Option<string>)
    requires NonEmptyTexts(env)
    ensures GogsWebhookMain(env, httpHeaderName, f, eventHeader, eventTypeHeader, payload, branches, userSpecifiedTopic).Succeeded?
      <==> && StringAt(Root(payload), ["repository", "name"]).Success?
           && eventHeader == Some("push")
           && StringAt(Root(payload), ["ref"]).Success?
           && !env.isBranchNameNotifiable(StripRefsHeads(StringAt(Root(payload), ["ref"]).value), branches)
  {
    var o := GogsWebhookMain(env, httpHeaderName, f, eventHeader, eventTypeHeader, payload, branches, userSpecifiedTopic);
    if StringAt(Root(payload), ["repository", "name"]).Success? && eventHeader == Some("push") {
      var h := DispatchHelper(payload, branches, userSpecifiedTopic,
                              StringAt(Root(payload), ["repository", "name"]).value, eventTypeHeader, f);
      KnownEventDecision(Push, env, f, httpHeaderName, eventTypeHeader, payload, branches, userSpecifiedTopic);
      var r := HandlePushEvent(env, h);
      if r.Success? && r.value.body.Some? {
        var args := PushEventArgs(h.payload).value;
        assert r.value.body.value == env.pushCommitsMessage(args);
        var branch := StripRefsHeads(StringAt(h.payload, ["ref"]).value);
        assert r.value.topic.value == env.topicWithBranch(h.repo, branch);
        assert NonEmpty(r.value.topic) && NonEmpty(r.value.body);
      }
    }
  }

  /** Under non-empty helpers, whatever a handler returns is non-empty. */
  lemma HandlerTextsNonEmpty(k: EventKind, env: Templates, h: Helper)
    requires NonEmptyTexts(env) && NonEmptyFormatter(h.formatPullRequestEvent)
    requires Handle(k, env, h).Success? && Handle(k, env, h).value.body.Some?
    ensures NonEmpty(Handle(k, env, h).value.topic) && NonEmpty(Handle(k, env, h).value.body)
  {
    match k
    case Push => PushTextsNonEmpty(env, h);
    case Create =>
      var n := HandleCreateEvent(env, h).value;
      assert n.body.value == env.createBranchMessage(NewBranchEventArgs(h.payload).value);
    case PullRequest =>
      var n := HandlePullRequestEvent(env, h).value;
      assert n.body.value == h.formatPullRequestEvent(h.payload, h.userSpecifiedTopic.Some?).value;
    case Issues => IssuesTextsNonEmpty(env, h);
    case IssueComment => IssueCommentTextsNonEmpty(env, h);
    case Release =>
      var n := HandleReleaseEvent(env, h).value;
      assert n.body.value == env.releaseMessage(ReleaseEventArgs(h.payload).value);
  }

  lemma PushTextsNonEmpty(env: Templates, h: Helper)
    requires NonEmptyTexts(env)
    requires HandlePushEvent(env, h).Success? && HandlePushEvent(env, h).value.body.Some?
    ensures NonEmpty(HandlePushEvent(env, h).value.topic) && NonEmpty(HandlePushEvent(env, h).value.body)
  {
    var n := HandlePushEvent(env, h).value;
    assert n.body.value == env.pushCommitsMessage(PushEventArgs(h.payload).value);
  }

  lemma IssuesTextsNonEmpty(env: Templates, h: Helper)
    requires NonEmptyTexts(env)
    requires HandleIssuesEvent(env, h).Success?
    ensures NonEmpty(HandleIssuesEvent(env, h).value.topic) && NonEmpty(HandleIssuesEvent(env, h).value.body)
  {
    var n := HandleIssuesEvent(env, h).value;
    assert n.body.value == env.issueMessage(IssuesEventArgs(h.payload, h.userSpecifiedTopic.Some?).value);
  }

  lemma IssueCommentTextsNonEmpty(env: Templates, h: Helper)
    requires NonEmptyTexts(env)
    requires HandleIssueCommentEvent(env, h).Success?
    ensures NonEmpty(HandleIssueCommentEvent(env, h).value.topic) && NonEmpty(HandleIssueCommentEvent(env, h).value.body)
  {
    var n := HandleIssueCommentEvent(env, h).value;
    if h.eventType == PullRequestCommentEventType {
      assert n.body.value == env.pullRequestMessage(PullRequestCommentArgs(h.payload).value);
    } else {
      assert n.body.value == env.issueMessage(IssueCommentEventArgs(h.payload, h.userSpecifiedTopic.Some?).value);
    }
  }

  /**
   * With helpers and formatter that never produce empty text, a registered
   * event whose handler does not raise is never rejected: it is sent, or,
   * for a filtered `push` only, succeeds silently.
   */
  lemma KnownEventNeverUnsupported(
    k: EventKind, env: Templates, f: PullRequestFormatter, httpHeaderName: string,
    eventTypeHeader: Option<string>, payload: Json, branches: Option<string>, userSpecifiedTopic: Option<string>)
    requires NonEmptyTexts(env) && NonEmptyFormatter(f)
    requires StringAt(Root(payload), ["repository", "name"]).Success?
    requires Handle(k, env, DispatchHelper(payload, branches, userSpecifiedTopic,
                                            StringAt(Root(payload), ["repository", "name"]).value, eventTypeHeader, f)).Success?
    ensures
      var o := GogsWebhookMain(env, httpHeaderName, f, Some(EventName(k)), eventTypeHeader, payload, branches, userSpecifiedTopic);
      o.Sent? || (k == Push && o.Succeeded?)
  {
    var h := DispatchHelper(payload, branches, userSpecifiedTopic,
                            StringAt(Root(payload), ["repository", "name"]).value, eventTypeHeader, f);
    KnownEventDecision(k, env, f, httpHeaderName, eventTypeHeader, payload, branches, userSpecifiedTopic);
    var r := Handle(k, env, h);
    HandlersPairTopicAndBody(k, env, h);
    if r.value.body.Some? {
      HandlerTextsNonEmpty(k, env, h);
    }
  }

  /**
   * The title reaches the issue, issue-comment and pull-request bodies a
   * handler returns exactly when the user chose the topic; a pull-request
   * comment always carries it. For pull requests this holds with this
   * module's formatter as the injected one.
   */
  lemma TitleFollowsUserTopic(k: EventKind, env: Templates, h: Helper)
    requires forall w, t :: h.formatPullRequestEvent(w, t) == FormatPullRequestEvent(env, w, t)
    requires Handle(k, env, h).Success?
    ensures k == Issues ==>
      var a := IssuesEventArgs(h.payload, h.userSpecifiedTopic.Some?);
      && a.Success? && Handle(k, env, h).value.body == Some(env.issueMessage(a.value))
      && (a.value.title.Some? <==> h.userSpecifiedTopic.Some?)
    ensures k == IssueComment && h.eventType != PullRequestCommentEventType ==>
      var a := IssueCommentEventArgs(h.payload, h.userSpecifiedTopic.Some?);
      && a.Success? && Handle(k, env, h).value.body == Some(env.issueMessage(a.value))
      && (a.value.title.Some? <==> h.userSpecifiedTopic.Some?)
    ensures k == IssueComment && h.eventType == PullRequestCommentEventType ==>
      var a := PullRequestCommentArgs(h.payload);
      && a.Success? && Handle(k, env, h).value.body == Some(env.pullRequestMessage(a.value))
      && a.value.title.Some?
    ensures k == PullRequest ==>
      var a := PullRequestEventArgs(h.payload, h.userSpecifiedTopic.Some?);
      && a.Success? && Handle(k, env, h).value.body == Some(env.pullRequestMessage(a.value))
      && (a.value.title.Some? <==> h.userSpecifiedTopic.Some?)
  {
    if k == PullRequest {
      assert h.formatPullRequestEvent(h.payload, h.userSpecifiedTopic.Some?)
          == FormatPullRequestEvent(env, h.payload, h.userSpecifiedTopic.Some?);
    }
  }

  /**
   * The issue-comment topic reads `repository.name` from the payload, the
   * same field the dispatcher read into `repo`, so it names the same repository.
   */
  lemma IssueCommentTopicUsesDispatchRepo(
    env: Templates, f: PullRequestFormatter, eventTypeHeader: Option<string>,
    payload: Json, branches: Option<string>, userSpecifiedTopic: Option<string>)
    requires StringAt(Root(payload), ["repository", "name"]).Success?
    ensures
      var h := DispatchHelper(payload, branches, userSpecifiedTopic,
                              StringAt(Root(payload), ["repository", "name"]).value, eventTypeHeader, f);
      var r := HandleIssueCommentEvent(env, h);
      r.Success? ==> r.value.topic == Some(env.topicWithPrOrIssueInfo(
        h.repo,
        if h.eventType == PullRequestCommentEventType then "PR" else "issue",
        IntAt(h.payload, ["issue", "number"]).value,
        StringAt(h.payload, ["issue", "title"]).value))
  {
  }

  /** Without an `x-gitea-event-type` header, an issue comment is treated as a comment on an issue. */
  lemma MissingEventTypeMeansIssueComment(
    env: Templates, f: PullRequestFormatter, payload: Json, branches: Option<string>,
    userSpecifiedTopic: Option<string>, repo: string)
    ensures
      var h := DispatchHelper(payload, branches, userSpecifiedTopic, repo, None, f);
      var r := HandleIssueCommentEvent(env, h);
      && h.eventType == DefaultEventType
      && (r.Success? ==> r.value.body == Some(FormatIssueCommentEvent(env, Root(payload), userSpecifiedTopic.Some?).value))
  {
  }

  /**
   * Through the Gogs endpoint, a sent pull-request message is this module's
   * pull-request formatter applied with `include_title` set exactly when the
   * user chose the topic.
   */
  lemma GogsEndpointPullRequestBody(
    env: Templates, eventTypeHeader: Option<string>, payload: Json,
    branches: Option<string>, userSpecifiedTopic: Option<string>)
    ensures
      var o := ApiGogsWebhook(env, Some("pull_request"), eventTypeHeader, payload, branches, userSpecifiedTopic);
      o.Sent? ==>
        && PullRequestEventArgs(Root(payload), userSpecifiedTopic.Some?).Success?
        && o.body == env.pullRequestMessage(PullRequestEventArgs(Root(payload), userSpecifiedTopic.Some?).value)
        && o.event == "pull_request"
  {
    var f := (w: WildValue, t: bool) => FormatPullRequestEvent(env, w, t);
    var o := ApiGogsWebhook(env, Some("pull_request"), eventTypeHeader, payload, branches, userSpecifiedTopic);
    if o.Sent? {
      KnownEventDecision(PullRequest, env, f, "X-Gogs-Event", eventTypeHeader, payload, branches, userSpecifiedTopic);
    }
  }

  /** The one commit of the example payload below. */
  function ExampleCommitJson(): Json
  {
    JObject(map[
      "author" := JObject(map["username" := JString("alice"), "name" := JString("Alice A")]),
      "id" := JString("abc123"), "url" := JString("u"), "message" := JString("fix bug")])
  }

  /** The commit of the example below, as the first element of `commits`. */
  function ExampleCommit(): (c: WildValue)
    ensures c.path == [Key("commits"), Index(0)] && c.value == ExampleCommitJson()
    ensures CommitEntry(c) == Success(CommitSummary("alice", "abc123", "u", "fix bug"))
  {
    var c := WildValue([Key("commits"), Index(0)], ExampleCommitJson());
    assert StringAt(c, ["author", "username"]) == Success("alice");
    assert StringAt(c, ["id"]) == Success("abc123");
    assert StringAt(c, ["url"]) == Success("u");
    assert StringAt(c, ["message"]) == Success("fix bug");
    c
  }

  /** The payload of the examples below. */
  function ExamplePush(): (p: WildValue)
    ensures p.path == [] && p.value.JObject?
  {
    Root(JObject(map[
      "sender" := JObject(map["username" := JString("alice")]),
      "compare_url" := JString("c"), "ref" := JString("refs/heads/main"),
      "commits" := JList([ExampleCommitJson()]),
      "repository" := JObject(map["name" := JString("demo")])]))
  }

  /** What the example payload's text fields hold. */
  lemma ExamplePushFields()
    ensures StringAt(ExamplePush(), ["sender", "username"]) == Success("alice")
    ensures StringAt(ExamplePush(), ["compare_url"]) == Success("c")
    ensures StringAt(ExamplePush(), ["ref"]) == Success("refs/heads/main")
    ensures StringAt(ExamplePush(), ["repository", "name"]) == Success("demo")
  {
    var w := ExamplePush();
    var fields := w.value.fields;
    assert fields["sender"] == JObject(map["username" := JString("alice")]);
    assert fields["compare_url"] == JString("c");
    assert fields["ref"] == JString("refs/heads/main");
    assert fields["repository"] == JObject(map["name" := JString("demo")]);
  }

  /** The example payload's commit list. */
  lemma ExamplePushCommits()
    ensures Get(ExamplePush(), "commits") == Success(WildValue([Key("commits")], JList([ExampleCommitJson()])))
  {
    assert [] + [Key("commits")] == [Key("commits")];
    assert ExamplePush().value.fields["commits"] == JList([ExampleCommitJson()]);
  }

  /** The example's ref names branch `main`. */
  lemma ExampleBranch()
    ensures StripRefsHeads("refs/heads/main") == "main"
  {
    assert !Contains("main", RefsHeads);
    StripRefsHeadsOfBranchRef("main");
    assert RefsHeads + "main" == "refs/heads/main";
  }

  /** The example's one-commit list gives one summary, from that commit. */
  lemma ExampleCommits()
    ensures TransformCommits(WildValue([Key("commits")], JList([ExampleCommitJson()])))
      == Success([CommitSummary("alice", "abc123", "u", "fix bug")])
  {
    var c := ExampleCommit();
    var commits := WildValue([Key("commits")], JList([c.value]));
    var summary := CommitSummary("alice", "abc123", "u", "fix bug");
    assert [Key("commits")] + [Index(0)] == c.path;
    var items := Items(commits).value;
    assert |items| == 1 && items[0] == c;
    assert items == [c];
    var r := MapResult(CommitEntry, items);
    assert CommitEntry(items[0]) == Success(summary);
    assert r.Success? && |r.value| == 1 && r.value[0] == summary;
    assert r.value == [summary];
  }

  /**
   * A push of one commit by `alice` to `refs/heads/main`: the builder gets
   * branch `main` and one summary carrying the commit's author, id, URL and message.
   */
  lemma PushExample()
    ensures PushEventArgs(ExamplePush())
      == Success(PushCommitsArgs("alice", "c", "main", [CommitSummary("alice", "abc123", "u", "fix bug")]))
  {
    ExamplePushFields();
    ExamplePushCommits();
    ExampleBranch();
    ExampleCommits();
  }

  /**
   * The example push of repository `demo`, delivered to the Gogs endpoint
   * while the filter lets `main` through, sends one message: the push body
   * under the topic for branch `main`.
   */
  lemma PushExampleSent(env: Templates, eventTypeHeader: Option<string>, branches: Option<string>,
                        userSpecifiedTopic: Option<string>)
    requires env.isBranchNameNotifiable("main", branches)
    requires env.topicWithBranch("demo", "main") != []
    requires env.pushCommitsMessage(PushCommitsArgs("alice", "c", "main", [CommitSummary("alice", "abc123", "u", "fix bug")])) != []
    ensures ApiGogsWebhook(env, Some("push"), eventTypeHeader, ExamplePush().value, branches, userSpecifiedTopic)
      == Sent(env.topicWithBranch("demo", "main"),
              env.pushCommitsMessage(PushCommitsArgs("alice", "c", "main", [CommitSummary("alice", "abc123", "u", "fix bug")])),
              "push")
  {
    var p := ExamplePush();
    assert Root(p.value) == p;
    ExamplePushFields();
    PushExample();
    ExampleBranch();
    var f := (w: WildValue, t: bool) => FormatPullRequestEvent(env, w, t);
    KnownEventDecision(Push, env, f, "X-Gogs-Event", eventTypeHeader, p.value, branches, userSpecifiedTopic);
    var h := DispatchHelper(p.value, branches, userSpecifiedTopic, "demo", eventTypeHeader, f);
    var r := HandlePushEvent(env, h);
    assert r.Success? && r.value.body.Some?;
  }
}
