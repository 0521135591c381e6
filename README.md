# nwb-extensions webservices: commands, linting and team updates

This project models the decision logic of the nwb-extensions webservices bot and proves properties about it. The bot watches comments on GitHub pull requests and issues of the extension feedstocks. It recognises admin commands such as "@nwb-extensions-admin, please rerender" and reacts by:

- relinting the extension recipes;
- rerendering a feedstock;
- refreshing the CircleCI deploy key;
- updating a feedstock's maintenance team.

It then reports what it did in comments and commit statuses.

The modules follow the program's files:

- `Grammar` (grammar.dfy) models the command patterns of `commands.py` and their case-insensitive `re.search`. It has two parts:
  - a declarative description of the strings each pattern accepts (`InPrefix`, `InCommand`, `CommandOccurs`);
  - the greedy matcher (`PrefixEnd`, `MatchAt`, `Matches`).

  `Grammar.MatchesIffOccurs` proves that the two agree on every text.
- `GrammarExamples` (grammar_examples.dfy) proves a selection of the comment examples of the command tests: six that must be accepted and two that must be rejected.
- `Linting` (linting.py) covers:
  - skipping by commit message;
  - the sorted, de-duplicated set of extensions to lint;
  - the linting loop and its report sections;
  - the good/mixed/bad verdict;
  - whether a comment is posted;
  - the commit status.
- `Teams` (update_teams.py) covers filtering members, the handle list, the commit comment, and when it is posted.
- `Commands` (commands.py) covers the pull-request and issue handlers, `rerender` and `relint`. Each handler returns the sequence of external actions it takes (`Effect`). Everything the outside world answers is a parameter, including:
  - what the rerender tool does;
  - whether a push is accepted;
  - the fork owner;
  - the new pull request's number;
  - the linter's verdict per recipe.

`Text` holds the Python string operations used throughout. `Wrappers` holds `Option`.

Two details of the code that the model keeps as written:

- `relint` always posts a fresh report: it calls `comment_on_pr(..., force=True)` (commands.py:231), and a forced call never reuses a comment. An unforced `comment_on_pr` is idempotent only when no search text is given or the search text occurs in the message (`Linting.PostsAtMostOnce`). Otherwise the comment just posted is not a candidate, and a second call posts again (`Linting.RepostsWhenSearchMissingFromMessage`).
- The push-failure comment (commands.py:94-98) fills its template with the branch, the owner, the repository and the change list, in that order. `Commands.Message.PushFailed` records them in that order.

## Model

| member | source | states |
|---|---|---|
| Grammar.SkipSpaces | nwb_extensions_webservices/commands.py:13 | the greedy `\s*` stops at the first non-space character (or the end) and consumes only whitespace |
| Grammar.MatchAtSound | nwb_extensions_webservices/commands.py:15-18 | whenever the matcher succeeds at a position, a string the command pattern accepts starts there |
| Grammar.MatchAtComplete | nwb_extensions_webservices/commands.py:15-18 | whenever a string the pattern accepts starts at a position, the greedy matcher succeeds there (greediness never loses a match) |
| Grammar.MatchesIffOccurs | nwb_extensions_webservices/commands.py:15-18 | the matcher finds a command in a text exactly when a case-insensitive search for its pattern would |
| Grammar.PrefixMatchesIffOccurs | nwb_extensions_webservices/commands.py:13-14 | the matcher finds the shared mention prefix exactly when `COMMAND_PREFIX.search` would |
| Grammar.CommandImpliesPrefix | nwb_extensions_webservices/commands.py:13-18 | every command pattern starts with the prefix pattern, so a comment holding a command also holds the prefix |
| Grammar.MatchesAfter | nwb_extensions_webservices/commands.py:120 | a command found in the title is still found in comment + title |
| Grammar.MatchesBefore | nwb_extensions_webservices/commands.py:13-18 | a command found in a text is still found when more text follows it |
| GrammarExamples.PleaseRerenderAccepted | nwb_extensions_webservices/tests/test_commands.py:54 | "@nwb-extensions-admin, please rerender" triggers a rerender |
| GrammarExamples.RerenderAfterTextAccepted | nwb_extensions_webservices/tests/test_commands.py:61 | a rerender command after other text triggers a rerender |
| GrammarExamples.LinterReLintAccepted | nwb_extensions_webservices/tests/test_commands.py:76 | "hey @nwb-extensions-linter please re-lint!" triggers a lint |
| GrammarExamples.UpperCaseRelintAccepted | nwb_extensions_webservices/tests/test_commands.py:75 | an upper-case mention with "relint" triggers a lint |
| GrammarExamples.UpdateTheTeamAccepted | nwb_extensions_webservices/tests/test_commands.py:138 | "please update the team" triggers the team update |
| GrammarExamples.RefreshCircleKeyAccepted | nwb_extensions_webservices/tests/test_commands.py:154 | "refresh the circle key" triggers the deploy-key update |
| GrammarExamples.RejectedWithOneMention | nwb_extensions_webservices/commands.py:15-18 | a lower-case text whose only '@' is its first character holds a command only if the matcher succeeds at its start |
| GrammarExamples.ShouldProbablyLintRejected | nwb_extensions_webservices/tests/test_commands.py:79 | "@nwb-extensions-admin should probably lint again" does not trigger a lint |
| GrammarExamples.GoAheadRerenderRejected | nwb_extensions_webservices/tests/test_commands.py:65 | "@nwb-extensions-admin, go ahead and rerender for me" does not trigger a rerender |
| Linting.AnyMarkerIn | nwb_extensions_webservices/linting.py:59 | true exactly when one of the markers occurs in the commit message |
| Linting.ShouldSkip | nwb_extensions_webservices/linting.py:52-59 | linting is skipped exactly when the head commit message contains "[ci skip]", "[skip ci]", "[lint skip]" or "[skip lint]" |
| Linting.LintTargets | nwb_extensions_webservices/linting.py:103 | the result is strictly sorted in Python's string order and holds exactly the merge commit's recipes that are not on the base |
| Linting.StrictlySortedDistinct | nwb_extensions_webservices/linting.py:103 | the sorted target list has no duplicates |
| Linting.SortedSetIsUnique | nwb_extensions_webservices/linting.py:103 | two strictly sorted lists with the same items are equal, so the target list is the one `sorted(set(...))` returns |
| Linting.LintRecipes | nwb_extensions_webservices/linting.py:97-124 | the loop's `all_pass`, final `hints` and report sections equal their specification functions, and every target is linted in order |
| Linting.HintsLeftFromLastLinted | nwb_extensions_webservices/linting.py:109-124 | the hints left after the loop are those of the last extension the linter did not crash on |
| Linting.HintsLeftAllCrashed | nwb_extensions_webservices/linting.py:99-124 | when the linter crashes on every extension, no hints are left |
| Linting.LintsReported | nwb_extensions_webservices/linting.py:118-121 | every extension with lints gets a section listing exactly those lints |
| Linting.BlocksNameLintedRecipes | nwb_extensions_webservices/linting.py:118-124 | every report section names a linted extension and lists at least one item |
| Linting.CrashRepeatsEarlierHints | nwb_extensions_webservices/linting.py:109-124 | a crashing extension gets the crash notice plus the previous extension's hints again, and leaves the hints unchanged |
| Linting.Verdict | nwb_extensions_webservices/linting.py:153-169 | "no extensions" exactly when nothing is linted; "bad" exactly when some extension has a lint; "mixed" or "good" by whether hints are left; the matching message |
| Linting.EarlierHintsIgnored | nwb_extensions_webservices/linting.py:161-166 | hints from an earlier extension followed by a clean one yield "good", whose message lists no sections |
| Linting.ComputeLintMessage | nwb_extensions_webservices/linting.py:17-179 | nothing when the pull request closed while polling or the commit asks to skip; the merge-conflict notice when not mergeable; otherwise the verdict on the targets (with the base excluded when asked), or nothing if no longer open |
| Linting.Candidates | nwb_extensions_webservices/linting.py:198-202 | exactly the bot's own comments that contain the search text, if one is given |
| Linting.CommentOnPr | nwb_extensions_webservices/linting.py:182-209 | `force` always posts; the lookup fails exactly when the bot has comments but none contains the search text; a reused comment is the bot's own, eligible, and has the same body |
| Linting.LastCandidate | nwb_extensions_webservices/linting.py:198-203 | the last candidate is the last eligible comment |
| Linting.ComparesLastEligible | nwb_extensions_webservices/linting.py:195-207 | without `force`, the message is compared with the bot's last eligible comment: reused when equal, posted otherwise |
| Linting.PostsAtMostOnce | nwb_extensions_webservices/linting.py:205-207 | when no search text is given or the search text occurs in the message, a second unforced call with the same message right after the first never posts again |
| Linting.RepostsWhenSearchMissingFromMessage | nwb_extensions_webservices/linting.py:195-207 | when the search text is in the bot's old comment but not in a different message, both calls post: the new comment is never a candidate |
| Linting.SetPrStatus | nwb_extensions_webservices/linting.py:212-227 | a status is set exactly when there is lint information, on its commit, in the linter context, and it is "success" exactly for "good" and "mixed"; its description is the good, mixed or bad one according to the verdict |
| Linting.SuccessIffLintFree | nwb_extensions_webservices/linting.py:153-169 | the commit is marked successful exactly when there was something to lint and no extension yielded a lint |
| Commands.StagedIsNotFeedstock | nwb_extensions_webservices/commands.py:31-32 | "staged-extensions" does not end in "-feedstock" |
| Commands.RerenderWorkspace | nwb_extensions_webservices/commands.py:215-222 | a non-zero exit code raises; otherwise the result says whether the head commit changed |
| Commands.ChangesText | nwb_extensions_webservices/commands.py:80-84 | the change list reads "a", "a and b" or "a, b, and c" |
| Commands.PrDetailedComment | nwb_extensions_webservices/commands.py:30-113 | nothing on a repository it does not serve; each service exactly when its command is in the comment; no deploy-key update or rerender on the staging repository; the deploy-key comment exactly with the deploy-key update; a clone exactly when linting or rerendering; the lint before the rerender; a push exactly when the rerender changed the head; "could not push", "ran into issues" or "nothing to do" exactly in the matching case; no other action, none twice, and no comment but the deploy-key one after an accepted push |
| Commands.PullActions | nwb_extensions_webservices/commands.py:35-113 | the same actions, stated over what the comment asks for |
| Commands.CircleKeyUpdate | nwb_extensions_webservices/commands.py:35-46 | the deploy-key update and its comment, both exactly when asked, each once, nothing else |
| Commands.WorkOnClone | nwb_extensions_webservices/commands.py:55-113 | a clone; the relint exactly when asked; the rerender exactly when asked off the staging repository; lint before rerender; the push and outcome comments in the matching cases; no other action, none twice |
| Commands.QuietAfterPush | nwb_extensions_webservices/commands.py:90-113 | once a push is accepted, no rerender comment follows |
| Commands.RerenderPull | nwb_extensions_webservices/commands.py:65-113 | rerender only when asked; push when the head changed; "could not push", "ran into issues" or "nothing to do" exactly in the matching case; only those actions, none twice |
| Commands.TakenOnce | nwb_extensions_webservices/commands.py:90-92 | in a trace without repeats, an action taken occurs exactly once (so the push happens once) |
| Commands.PrComment | nwb_extensions_webservices/commands.py:21-27 | a comment without the mention prefix does nothing; otherwise each service runs exactly when its command is in the comment |
| Commands.ForkBranchSpelling | nwb_extensions_webservices/commands.py:165 | the fork branch name is "nwb_extensions_admin_" followed by canonical decimal digits (no leading zero) that read back as the issue number |
| Commands.ForkBranchInjective | nwb_extensions_webservices/commands.py:165 | different issues get different fork branches |
| Text.NatToString | nwb_extensions_webservices/commands.py:165 | `str(n)` is a non-empty string of decimal digits whose first digit is "0" exactly for zero, and then it is the only digit |
| Text.CanonicalIsNatToString | nwb_extensions_webservices/commands.py:165 | every string of digits without a leading zero is `str` of the number it denotes, so `str(n)` is the only such spelling of n |
| Text.NatToStringInverse | nwb_extensions_webservices/commands.py:165 | reading back the digits of `str(n)` gives n |
| Text.NatToStringInjective | nwb_extensions_webservices/commands.py:165 | different numbers have different decimal strings |
| Commands.SendRerenderPull | nwb_extensions_webservices/commands.py:154-212 | the fork, the clone of the fork, the new branch from the upstream master and the rerender come first, in that order; the branch is pushed exactly when the rerender succeeded and changed the head; a failing rerender or a rejected push ends with that error; the rerender pull request is opened, and the "opened a pull request" comment (with the new number) posted, exactly when the head changed and the push was accepted; "nothing changed" is posted exactly when the rerender succeeded without changing the head, and the issue is then closed exactly when the title asked; no other action, none twice |
| Commands.RerenderPullRequest | nwb_extensions_webservices/commands.py:174-196 | the pull request has title "MNT: rerender", targets master from the fork branch, cites the issue, and says it fixes the issue exactly when the title asked for the rerender |
| Commands.PublishRerender | nwb_extensions_webservices/commands.py:180-212 | the branch is pushed exactly when the head changed; then the pull request and its comment exactly when the push is accepted, the error otherwise; "nothing changed" and the optional close when the head is unchanged; no other action, none twice |
| Commands.AsksIn | nwb_extensions_webservices/commands.py:132-154 | each flag holds exactly when a string that command's pattern accepts occurs in the text, case-insensitively |
| Commands.IssueActions | nwb_extensions_webservices/commands.py:125-212 | nothing when no command is asked for; the team update, key update and rerender each run exactly when asked for; the fork, the clone and the new branch exactly with the rerender, the branch push exactly when the rerender succeeded and changed the head; the "team updated" and "deploy key updated" comments exactly with their updates; the issue is closed exactly when the title asks for the team or key update, or for a rerender that changed nothing; the errors, the rerender pull request and the "opened" and "nothing changed" comments as for SendRerenderPull; no other action |
| Commands.IssueServices | nwb_extensions_webservices/commands.py:132-152 | the team update and the deploy-key update, each with its comment exactly when asked; the close exactly when the title asks for one of them; nothing else |
| Commands.IssueServiceCall | nwb_extensions_webservices/commands.py:132-141 | one service: the call and its comment exactly when asked, the close exactly when the title also asks; nothing else, none twice |
| Commands.RerenderFromIssue | nwb_extensions_webservices/commands.py:154-212 | the rerender part, with its fork, clone and new branch, runs exactly when the text asks for it; the branch push and the other outcomes as for SendRerenderPull |
| Commands.OnlyRerenderPullRequests | nwb_extensions_webservices/commands.py:194-196 | the only pull request the issue handler can open is the rerender one |
| Commands.IssueComment | nwb_extensions_webservices/commands.py:116-212 | the same in terms of the comment and title texts: nothing at all for a repository that is not a feedstock or a text without a command; the fork, the clone and the new branch exactly with the rerender; the branch push exactly when the rerender succeeded and changed the head |
| Commands.Relint | nwb_extensions_webservices/commands.py:225-232 | nothing when linting is skipped; otherwise the report is posted and the status set; a success status only when every target is lint-free |
| Teams.FilterMembers | nwb_extensions_webservices/update_teams.py:23-25 | exactly the members not filtered out are kept |
| Teams.FilterMembersAppend | nwb_extensions_webservices/update_teams.py:23-25 | filtering keeps the order: it distributes over concatenation |
| Teams.AtHandles | nwb_extensions_webservices/update_teams.py:29 | each member becomes "@" + login, in order |
| Teams.GetHandlesEmpty | nwb_extensions_webservices/update_teams.py:28-30 | the handle list is empty exactly when nobody is kept |
| Teams.GetHandles | nwb_extensions_webservices/update_teams.py:28-30 | no kept member gives the empty text; otherwise the text begins with "@" and the first kept login |
| Teams.Verb | nwb_extensions_webservices/update_teams.py:61-67 | the verb is always "were" or "was", and it is "were" exactly when the handle text holds a comma |
| Teams.RemoveAll | nwb_extensions_webservices/update_teams.py:48 | removing a pattern never lengthens the text, and a text that does not contain the pattern is left as it is |
| Teams.ProjectName | nwb_extensions_webservices/update_teams.py:48 | the project name is never longer than the repository name, and a repository name without "-feedstock" is its own project name |
| Teams.VerbAgreesWithCount | nwb_extensions_webservices/update_teams.py:59-67 | the verb is "were" exactly when two or more members are mentioned |
| Teams.AddedMaintainers | nwb_extensions_webservices/update_teams.py:63 | exactly the current maintainers who were neither maintainers before nor newly invited |
| Teams.ProjectNameOfFeedstock | nwb_extensions_webservices/update_teams.py:48 | the project name of "x-feedstock" is x, for any x that does not itself contain "-feedstock" |
| Teams.UpdateTeam | nwb_extensions_webservices/update_teams.py:33-78 | non-feedstocks are ignored; the team is configured for the project; a commit comment is posted exactly when a commit is given and somebody is welcomed or added, with that exact list of notes |
| Teams.CommitNotes | nwb_extensions_webservices/update_teams.py:50-75 | the greeting first, then the welcome note exactly when somebody is new, the team note exactly when somebody is added, and the push-access advice exactly when either |
| Teams.AddedAreNotNew | nwb_extensions_webservices/update_teams.py:56-67 | nobody is both welcomed to the organisation and listed as added to the team |

## Left out

- GitHub, git, the file system, environment variables, `subprocess` and `time.sleep` are not modelled. Their answers are parameters and their requests appear as `Effect` values. In the issue handler, adding the upstream remote, fetching it, creating the branch from its master and checking it out (commands.py:166-169) are one action, `BranchFromUpstreamMaster`; `cloneHead` then stands for the tip of the upstream master.
- Exceptions from the outside calls are not modelled, except a failing rerender and a rejected push of the issue handler's branch. The model assumes that these calls return normally: `update_circle`, `update_team`, `relint` and `compute_lint_message` (including the two-parent assertion), `clone_from`, `create_fork`, `create_pull`, and the comment and status calls. In the code, an exception from any of them ends the handler at that point, and the later actions are not taken.
- The `update_circle` call and the team configuration (`configure_github_team`, `conda_build.api.render`) are outside the model: each is one action in the trace, and its outputs are parameters.
- Polling for mergeability: the loop's outcome (closed while polling, or mergeable true/false) is a parameter.
- `find_recipes` and `os.path.relpath`: the recipe directories found on the merge and base commits are parameters, already relative.
- The wording of the comments is not modelled: each comment is a `Message` or `LintMessage` constructor carrying the values filled into its text.
- Case-insensitive matching covers ASCII letters only; Unicode case folding beyond A–Z is not modelled.
- The rerender tool's command line (commands.py:217) is not modelled. Python joins the adjacent literals there into "nwbextensionssmithy"; the model takes the tool's exit code and resulting head commit as a parameter.
- `get_filter_out_members` and its cache are not modelled: the set of members never mentioned is a parameter.
- `tmp_directory`, `webapp.py` and the command-line `main` functions are not part of this model.
- Teams.UpdateTeam: the current maintainers and the new organisation members are Python sets in the code. The model takes them as sequences, which may repeat a login, and lists the handles in sequence order. The code lists them in set iteration order, which Python does not fix.
- Teams.VerbAgreesWithCount: requires that logins contain no comma, which GitHub logins never do.
- Each command search is computed once per text and reused; the code repeats the same `search` call, which returns the same answer.
