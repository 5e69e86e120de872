# Gogs webhook view, modelled in Dafny

This project models the Gogs (and Gitea) webhook view of Zulip,
`zerver/webhooks/gogs/view.py`. The view receives one event delivery: a
JSON payload plus the `X-Gogs-Event` header and, optionally, the
`x-gitea-event-type` header. It picks the handler registered for the event.
The handler reads a few payload fields and passes them to the shared git
message builders and topic templates. The view then sends the resulting
message, succeeds silently for a push to a filtered branch, or rejects the
event with `UnsupportedWebhookEventTypeError`.

Files:

- `wrappers.dfy`: module `Wrappers`. Defines `Option`, and `Result` for "returns or raises". `MapResult` models a list comprehension that stops at the first exception.
- `validator.dfy`: module `Validator`. The payload is a JSON tree, and a `WildValue` is a JSON value paired with the path it was reached by. `payload["a"]["b"].tame(check_string)` becomes `StringAt(p, ["a", "b"])`. That call fails with a `ValidationError` naming the path when a key is missing, a value is not a dictionary, or a leaf has the wrong type. The module also defines the `Error` datatype for the exceptions the view can raise.
- `pystr.dfy`: module `PyStr`. The three Python string operations the view uses: `s.split()[0]` (with Python's whitespace set), `s.replace("refs/heads/", "")` (a left-to-right, non-overlapping remove-all), and `str(n)` for integers.
- `git.dfy`: module `GitTemplates`. There is one record per message builder, holding the keyword arguments the view passes it. `Templates` bundles the builders, the three topic templates and `is_branch_name_notifiable` as function values, so they stay arbitrary.
- `gogs.dfy`: module `GogsView`. The view itself. Each formatter is split in two: `...Args` decides which payload values reach the message builder, and `Format...` applies the builder. Then come the six handlers, the event table and the dispatcher. The dispatcher's result is an `Outcome`: `Sent(topic, body, event)`, `Succeeded`, or `Raised(error)`.

Payload reads follow Python's evaluation order, so when several fields are
missing, the error reported is the one Python would raise first.

Three behaviours of the code are worth knowing, and the model keeps them:

- The branch name is `ref` with every `refs/heads/` removed, wherever it occurs, not just a leading one. `StripRefsHeadsInside` shows an occurrence in the middle being removed.
- In the pull-request formatter, `assignee_updated` is the assignee's login whenever `payload["action"]` and `pull_request.assignee` are both truthy, whatever the action is.
- The issue-comment topic reads `repository.name` from the payload instead of using `helper.repo`. This is the same field the dispatcher reads into `repo`, so both name the same repository (`IssueCommentTopicUsesDispatchRepo`).

## Model

| member | source | states |
|---|---|---|
| `PyStr.IntToString` | zerver/webhooks/gogs/view.py:52 | `str(n)`: canonical decimal text, with a minus sign exactly when `n` is negative and no leading zero unless the text is `0` |
| `PyStr.IntToStringRoundTrip` | zerver/webhooks/gogs/view.py:52 | the decimal text of an integer parses back to that integer |
| `PyStr.CanonicalIntUnique` | zerver/webhooks/gogs/view.py:52 | every canonical decimal text is `str` of the number it denotes, so `str(n)` is the only canonical text for `n` |
| `PyStr.CanonicalNatUnique` | zerver/webhooks/gogs/view.py:52 | the same for unsigned digit text |
| `GogsView.IssueUrl` | zerver/webhooks/gogs/view.py:51-52 | the URL is the repository URL, then `/issues/`, then `str` of the issue number; that suffix is canonical and parses back to the number |
| `GogsView.IssueUrlInjective` | zerver/webhooks/gogs/view.py:51-52 | two issues of one repository never get the same URL |
| `GogsView.StripRefsHeads` | zerver/webhooks/gogs/view.py:58 | never lengthens the ref; leaves it unchanged exactly when `refs/heads/` occurs nowhere in it |
| `GogsView.StripRefsHeadsOfBranchRef` | zerver/webhooks/gogs/view.py:58 | `refs/heads/<name>` gives `<name>` when the name holds no `refs/heads/` |
| `GogsView.StripRefsHeadsInside` | zerver/webhooks/gogs/view.py:179 | an occurrence after a clean stretch is deleted too, so this is a replace-all and not a prefix strip |
| `PyStr.RemoveAllFixedPoint` | zerver/webhooks/gogs/view.py:58 | `str.replace(p, "")` is the identity exactly on strings with no occurrence of `p` |
| `PyStr.RemoveAllDropsOccurrence` | zerver/webhooks/gogs/view.py:179 | the scan copies a stretch where no occurrence starts and drops the occurrence that follows it |
| `PyStr.FirstTokenNoneSpec` | zerver/webhooks/gogs/view.py:72 | `split()` has no first token (Python's IndexError) exactly when the string is all whitespace |
| `PyStr.FirstTokenSpec` | zerver/webhooks/gogs/view.py:72 | `split()[0]` is a non-empty, whitespace-free word, preceded only by whitespace and followed by whitespace or the end |
| `GogsView.AuthorNameToken` | zerver/webhooks/gogs/view.py:72 | a non-blank `author.name` gives its first word; a blank one raises IndexError at that path; a missing or mistyped one raises the read error |
| `GogsView.CommitEntry` | zerver/webhooks/gogs/view.py:70-76 | `name` is `author.username` when non-empty, else the first word of `author.name`, never empty; `sha`, `url`, `message` are the commit's `id`, `url`, `message`; it succeeds whenever those reads succeed and the fallback name is not blank; an empty username with a blank name raises IndexError |
| `Wrappers.MapResult` | zerver/webhooks/gogs/view.py:69-78 | a comprehension succeeds exactly when every element does; on success there is one result per element, in order |
| `Wrappers.MapResultFirstError` | zerver/webhooks/gogs/view.py:69-78 | a failing comprehension raises the error of its first failing element |
| `GogsView.TransformCommits` | zerver/webhooks/gogs/view.py:68-78 | a non-list raises; otherwise one summary per commit, same length and order, each from its own commit; a failure is the first failing commit's error |
| `GogsView.PushEventArgs` | zerver/webhooks/gogs/view.py:55-65 | the push builder gets `sender.username`, `compare_url`, the stripped `ref` and the transformed commits, and gets them whenever those reads succeed |
| `GogsView.FormatPushEvent` | zerver/webhooks/gogs/view.py:55-65 | the body is the push builder applied to exactly those arguments, and fails exactly when reading them fails |
| `GogsView.NewBranchEventArgs` | zerver/webhooks/gogs/view.py:81-89 | the branch is the raw `ref`, the URL is `repository.html_url + "/src/" + ref`, the user is `sender.username`; success whenever the three reads succeed |
| `GogsView.FormatNewBranchEvent` | zerver/webhooks/gogs/view.py:81-90 | the body is the branch-creation builder applied to exactly those arguments |
| `GogsView.PullRequestAssignee` | zerver/webhooks/gogs/view.py:108-112 | with `action` and `pull_request.assignee` both truthy, the note is the assignee's `login` (or its read error); with either falsy there is no note; a missing `action` raises |
| `GogsView.PullRequestEventArgs` | zerver/webhooks/gogs/view.py:93-123 | merged: action `merged`, user `merged_by.username`; otherwise the payload action and `pull_request.user.username`; head and base branch present exactly when the action is not `edited`; title present exactly when asked for; succeeds whenever the reads on that path succeed |
| `GogsView.FormatPullRequestEvent` | zerver/webhooks/gogs/view.py:93-123 | the body is the pull-request builder applied to exactly those arguments |
| `GogsView.IssuesEventArgs` | zerver/webhooks/gogs/view.py:126-140 | the issue URL is built from `repository.html_url` and the number; the assignee is present exactly when `issue.assignee` is truthy; `assignee_updated` is present exactly when the action is `assigned` and there is an assignee; the title is present exactly when asked for; succeeds whenever the reads on that path succeed |
| `GogsView.FormatIssuesEvent` | zerver/webhooks/gogs/view.py:126-140 | the body is the issue builder applied to exactly those arguments |
| `GogsView.CommentActionText` | zerver/webhooks/gogs/view.py:148-152 | `[commented](<url>) on` for `created`, `<action> a [comment](<url>) on` for any other action |
| `GogsView.IssueCommentEventArgs` | zerver/webhooks/gogs/view.py:143-163 | the action text follows that rule; the URL is the issue URL; there is no assignee and no assignee note; the title is present exactly when asked for; succeeds whenever the reads succeed |
| `GogsView.FormatIssueCommentEvent` | zerver/webhooks/gogs/view.py:143-163 | the body is the issue builder applied to exactly those arguments |
| `GogsView.PullRequestCommentActionText` | zerver/webhooks/gogs/view.py:226-231 | the second copy of the rule, read from the payload: the same two texts, failing exactly when `action` or `comment.html_url` cannot be read |
| `GogsView.PullRequestCommentArgs` | zerver/webhooks/gogs/view.py:225-241 | that action text; type `PR`; the title and the comment body are always passed; no branches and no assignee note; succeeds whenever the reads succeed |
| `GogsView.FormatPullRequestCommentEvent` | zerver/webhooks/gogs/view.py:233-241 | the body is the pull-request builder applied to exactly those arguments |
| `GogsView.CommentActionTextsAgree` | zerver/webhooks/gogs/view.py:226-231 | wherever the issue-comment formatter succeeds, the pull-request copy of the rule gives the same action text |
| `GogsView.ReleaseEventArgs` | zerver/webhooks/gogs/view.py:166-173 | the release builder gets the author's username, the action, the tag, the release name and `repository.html_url`; success whenever the five reads succeed |
| `GogsView.FormatReleaseEvent` | zerver/webhooks/gogs/view.py:166-175 | the body is the release builder applied to exactly those arguments |
| `GogsView.ReleaseIgnoresTitleFlag` | zerver/webhooks/gogs/view.py:166 | the release body does not depend on `include_title` |
| `GogsView.HandlePushEvent` | zerver/webhooks/gogs/view.py:178-187 | returns (None, None) exactly when the filter rejects the stripped branch; otherwise the same stripped branch goes to the topic template and to the push builder, and a notifiable branch with readable push fields gives a notification |
| `GogsView.HandleCreateEvent` | zerver/webhooks/gogs/view.py:190-196 | the topic names the raw `ref`; the body is the new-branch body; succeeds whenever that body does |
| `GogsView.HandlePullRequestEvent` | zerver/webhooks/gogs/view.py:198-209 | the injected formatter is called with `include_title` set exactly when a topic was given; the topic is keyed on `PR`, `pull_request.id` and the title; succeeds whenever the formatter and the two topic reads do |
| `GogsView.HandleIssuesEvent` | zerver/webhooks/gogs/view.py:211-222 | the issues body with `include_title` set exactly when a topic was given; the topic is keyed on `issue`, the number and the title; succeeds whenever the body and the title read do |
| `GogsView.HandleIssueCommentEvent` | zerver/webhooks/gogs/view.py:224-256 | the PR-comment body and topic type `PR` for `pull_request_comment`, the issue-comment body and type `issue` otherwise; the topic's repository is `repository.name`; succeeds whenever that body and the topic reads do |
| `GogsView.HandleReleaseEvent` | zerver/webhooks/gogs/view.py:258-268 | the release body; the topic keyed on the tag and the release name; succeeds whenever the body does |
| `GogsView.Handle` | zerver/webhooks/gogs/view.py:336-338 | the registered handler's result: both parts or neither, and both for every event but `push` |
| `GogsView.HandlersPairTopicAndBody` | zerver/webhooks/gogs/view.py:178-268 | a handler returns no body exactly for a `push` whose stripped branch the filter rejects |
| `GogsView.PushTextsNonEmpty` | zerver/webhooks/gogs/view.py:178-187 | with non-empty builder texts, a push notification has a non-empty topic and body |
| `GogsView.IssuesTextsNonEmpty` | zerver/webhooks/gogs/view.py:211-222 | the same for an issues notification |
| `GogsView.IssueCommentTextsNonEmpty` | zerver/webhooks/gogs/view.py:224-256 | the same for a comment notification, on both branches |
| `GogsView.HandlerTextsNonEmpty` | zerver/webhooks/gogs/view.py:178-268 | when the builders, templates and formatter never return empty text, every topic and body a handler returns is non-empty |
| `GogsView.EventName` | zerver/webhooks/gogs/view.py:271-278 | every handler is registered under one of the known event names |
| `GogsView.GogsEventFunctionMapper` | zerver/webhooks/gogs/view.py:271-280 | an event has a handler exactly when it is in `ALL_EVENT_TYPES`, and the handler found is the one registered under that name |
| `GogsView.NonEmpty` | zerver/webhooks/gogs/view.py:339 | the truthiness of an optional string: true exactly when it is neither `None` nor `""` |
| `GogsView.EventType` | zerver/webhooks/gogs/view.py:321-326 | the header value, or `default_event_type` when the header is absent |
| `GogsView.DispatchHelper` | zerver/webhooks/gogs/view.py:327-334 | the helper carries the payload, the filter, the topic, the repository name, the event type and the injected formatter, unchanged |
| `GogsView.GogsWebhookMain` | zerver/webhooks/gogs/view.py:309-347 | a send has a non-empty topic and body and a registered event; a silent success only for `push`; a missing `repository.name` or event header raises before anything else |
| `GogsView.ApiGogsWebhook` | zerver/webhooks/gogs/view.py:285-302 | the Gogs endpoint uses the header `X-Gogs-Event` |
| `GogsView.UnknownEventRejected` | zerver/webhooks/gogs/view.py:336-347 | an unregistered event raises `UnsupportedWebhookEventTypeError`, and the outcome does not depend on any handler, builder or formatter |
| `GogsView.KnownEventDecision` | zerver/webhooks/gogs/view.py:336-345 | a registered event is sent when its handler's topic and body are both non-empty; otherwise it succeeds silently for `push` and raises `UnsupportedWebhookEventTypeError` for any other event; a handler error propagates |
| `GogsView.SilentSuccessIsFilteredPush` | zerver/webhooks/gogs/view.py:178-181 | with non-empty builder texts, silent success happens exactly for a `push` whose stripped branch the filter rejects |
| `GogsView.KnownEventNeverUnsupported` | zerver/webhooks/gogs/view.py:337-345 | with non-empty texts, a registered event whose handler returns is sent, or, for a filtered `push` only, succeeds silently |
| `GogsView.TitleFollowsUserTopic` | zerver/webhooks/gogs/view.py:198-248 | the body a handler returns for issues, issue comments and pull requests (with this module's formatter) is built from arguments carrying the title exactly when a topic was given; a PR comment always carries it |
| `GogsView.IssueCommentTopicUsesDispatchRepo` | zerver/webhooks/gogs/view.py:250-255 | the issue-comment topic names the repository that the dispatcher read into `repo` |
| `GogsView.MissingEventTypeMeansIssueComment` | zerver/webhooks/gogs/view.py:321-326 | without `x-gitea-event-type`, an issue comment takes the issue branch |
| `GogsView.GogsEndpointPullRequestBody` | zerver/webhooks/gogs/view.py:293-302 | through the Gogs endpoint, a sent PR message is this module's PR formatter with the title included exactly when a topic was given |
| `GogsView.ExampleCommit` | zerver/webhooks/gogs/view.py:70-76 | the example commit by `alice` gives the summary (`alice`, `abc123`, `u`, `fix bug`) |
| `GogsView.ExamplePush` | zerver/webhooks/gogs/view.py:55-59 | the example payload is a dictionary reached by the empty path |
| `GogsView.ExamplePushFields` | zerver/webhooks/gogs/view.py:56-58 | the example payload's sender, compare URL, ref and repository name |
| `GogsView.ExamplePushCommits` | zerver/webhooks/gogs/view.py:59 | the example payload's commit list holds the example commit |
| `GogsView.ExampleBranch` | zerver/webhooks/gogs/view.py:58 | the ref `refs/heads/main` names branch `main` |
| `GogsView.ExampleCommits` | zerver/webhooks/gogs/view.py:68-78 | the one-commit list gives exactly one summary, built from that commit |
| `GogsView.PushExample` | zerver/webhooks/gogs/view.py:55-78 | a push of that commit to `refs/heads/main` gives the builder branch `main` and the one matching summary |
| `GogsView.PushExampleSent` | zerver/webhooks/gogs/view.py:285-347 | delivered to the Gogs endpoint with `main` let through, the example push is sent as the push body for those arguments under the topic for repository `demo` and branch `main` |

## Left out

- HTTP and Django plumbing are not modelled: the `webhook_view` and `typed_endpoint` decorators, authentication, `json_success`, and `fixture_to_headers`. Neither is the `FormatPullRequestEvent` Protocol class: the injected formatter is a function parameter.
- Sending is not modelled: `check_send_webhook_message` is a call with side effects into code outside the view, so it appears only as the `Sent(topic, body, event)` outcome.
- Header extraction is not modelled. The two headers are `Option<string>` inputs, and a case-insensitive lookup is not modelled. The bot-owner notification that `validate_extract_webhook_http_header` sends before raising is outside the view. It is not modelled, including for the `x-gitea-event-type` header whose absence the view catches.
- `GogsWebhookMain`: drops the `integration_name` parameter, which only feeds that header plumbing.
- The `WildValue` validation library is not part of this model. Only its behaviour at the points the view relies on is modelled: key lookup, string/integer/boolean checks, Python truthiness and iteration over a list. Iterating over a non-list is assumed to raise a validation error. `check_int`'s treatment of Python booleans is not modelled: JSON booleans and integers are distinct here.
- The message builders, the topic templates and `is_branch_name_notifiable` are not modelled. These live in `zerver/lib/webhooks/git.py`, which is not part of this model. They are arbitrary functions, so nothing is claimed about the exact text of messages or topics, or about the branch filter's syntax.
- `GogsView.FormatPushEvent`, `FormatNewBranchEvent`, `FormatPullRequestEvent`, `FormatIssuesEvent`, `FormatIssueCommentEvent`, `FormatPullRequestCommentEvent` and `FormatReleaseEvent` say what reaches the message builder, not the text it produces. Those builders are not part of this model.
- Repeated reads of a field that has already been read successfully are read once. A second read cannot fail and returns the same value. The cases are:
  - `payload["action"]` in the issues formatter;
  - `issue["number"]` in the comment formatter;
  - `ref` in the create handler;
  - `issue.number` in the issues handler;
  - `issue.number` in the issue-comment handler, on both branches;
  - `release.tag_name` and `release.name` in the release handler.
- The formatters are pure functions here, so calling one twice on the same payload gives the same text by construction. No separate lemma states it.
