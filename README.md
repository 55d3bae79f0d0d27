# merge-release, modelled in Dafny

A model of the release script `src/merge-release-run.js`, a GitHub Action that publishes an npm
package on every merge. One run does the following:

- It refuses to start without `NPM_AUTH_TOKEN`.
- It asks the registry for the latest published version.
- It stops when that release's `gitHead` is the commit being built.
- Otherwise it collects commit texts, either from the git log since that `gitHead` or from the
  CI event payload, and classifies them as a `major`, `minor` or `patch` bump.
- It writes the published version into the src and deploy `package.json`, runs `npm version`,
  and writes the normalised new version the same way.
- Finally it commits, pushes three times and publishes from the deploy directory.

The project has four modules:

- `Text` (`text.dfy`): the JavaScript string operations the script relies on, on `seq<char>`.
  These cover `includes`, `startsWith`, ASCII `toLowerCase`, `split(' ')`, the
  `/(\r\n|\n|\r)/gm` replacement, truthiness of a possibly-undefined string, and `undefined`
  inside a template literal.
- `Bump` (`bump.dfy`): the classifier, with its iff characterisation. Lemmas show that the level
  is the most severe per-message level, that adding a commit never lowers it, and that
  reordering the commits never changes it.
- `Decision` (`decision.dfy`): the registry and git-log outcomes as datatypes, and the decision
  to skip or to release, with its commit source, as the function `Resolve`.
- `Release` (`release.dfy`): the orchestration.
  - The class `Workspace` holds the manifests by directory and the trace of steps started.
  - Each of its methods is proved against a *plan*: a sequence of `Attempt(step, ok)` values
    computed from the collaborator results (`World`).
  - A run makes the planned steps up to and including the first that fails (`UpToFailure`).
  - Its manifests are the initial ones with those steps applied (`ApplySteps`).

Collaborators are inputs, not code:

- the registry request, the git log, the children's exit codes and `npm view` / `npm version`
  outputs are all fields of `World`;
- the environment variables, the two directories and the start-up `package.json` fields are
  the fields of `Config`.

Three behaviours of the script are easy to misread, and the model keeps them as written:

- The deploy directory is `path.join(process.cwd(), …)`, which is never `'./'`. So the deploy
  manifest is written on every `setVersion`, even when it is the src manifest
  (`Release.DeployAlwaysWritten`).
- `"!:"` makes a message major wherever it occurs in the message or the body
  (`Decision.MarkerMakesMajor`).
- The two manifests are only known to agree after a *successful* bump
  (`Release.SynchronizedAfterBump`). In the model a failing deploy `jq` means there is no
  deploy manifest. The run is then rejected after only the src manifest has been rewritten.

## Model

| member | source | states |
|---|---|---|
| Text.Truthy | src/merge-release-run.js:37 | definition: `undefined` and `""` are falsy, every other string is truthy; used by `Decision.Resolve` and `Release.Workspace.Run` |
| Text.Interpolate | src/merge-release-run.js:90 | definition: a set variable as its text, an unset one spelled "undefined", as in the remote URL template |
| Text.StartsWith | src/merge-release-run.js:67 | definition of `startsWith`: the text's first characters are the prefix |
| Text.Includes | src/merge-release-run.js:65 | definition of `includes`, tried position by position; `Text.IncludedOccurrence` and `Text.OccurrenceIncluded` tie it to an occurrence at some index |
| Text.ToLower | src/merge-release-run.js:67 | definition of `toLowerCase` on ASCII letters, character by character |
| Text.ReplaceLineBreaks | src/merge-release-run.js:85 | definition of the regex replacement, `\r\n` tried before `\n` and `\r`; `Text.ReplaceRemovesLineBreaks` equates it with `Text.WithoutLineBreaks` |
| Text.Split | src/merge-release-run.js:12 | `split(' ')` yields at least one piece and none contains a space |
| Text.JoinSplit | src/merge-release-run.js:12 | joining the pieces of a split with single spaces gives the original command string |
| Text.SplitJoin | src/merge-release-run.js:12 | splitting space-free words joined by single spaces returns exactly those words |
| Text.SplitWord | src/merge-release-run.js:12 | a space-free prefix only extends the first piece of the split |
| Text.OccurrenceIncluded | src/merge-release-run.js:65 | `includes` is true whenever the substring occurs at some index |
| Text.IncludedOccurrence | src/merge-release-run.js:65 | `includes` is true only if the substring occurs at some index, which it returns |
| Text.IncludesConcat | src/merge-release-run.js:65 | a substring of either part is a substring of the concatenation |
| Text.NotAtOccurrence | src/merge-release-run.js:65 | inside an occurrence found by `includes` every character belongs to the substring |
| Text.IncludesAcrossLineFeed | src/merge-release-run.js:52 | a line-feed-free substring of `a + "\n" + b` is a substring of `a` or of `b` |
| Text.WithoutLineBreaks | src/merge-release-run.js:85 | the result has no `\r` or `\n` and is no longer than the input |
| Text.ReplaceRemovesLineBreaks | src/merge-release-run.js:85 | the regex replacement, alternatives tried in order, removes exactly the `\r` and `\n` characters |
| Text.WithoutLineBreaksConcat | src/merge-release-run.js:85 | removing line breaks distributes over concatenation |
| Text.WithoutLineBreaksExtremes | src/merge-release-run.js:85 | a break-free text is unchanged; a text made only of breaks becomes empty |
| Bump.LevelName | src/merge-release-run.js:64-68 | definition: the strings "patch", "minor" and "major" that line 84 passes to `npm version` |
| Bump.AnyOf | src/merge-release-run.js:65-67 | definition of `messages.map(p).includes(true)`; `Bump.AnyOfIff` equates it with "some message satisfies `p`" |
| Bump.IsBreaking | src/merge-release-run.js:65 | definition of the major test: "BREAKING CHANGE" or "!:" anywhere in the text |
| Bump.IsFeature | src/merge-release-run.js:67 | definition of the minor test: the lower-cased text starts with "feat" |
| Bump.AnyOfIff | src/merge-release-run.js:65-67 | `map(p).includes(true)` holds iff some message satisfies `p` |
| Bump.Classify | src/merge-release-run.js:64-69 | major iff some message has "BREAKING CHANGE" or "!:"; minor iff none does and some lower-cased message starts with "feat"; patch iff neither, including for no messages |
| Bump.ClassifyCons | src/merge-release-run.js:64-69 | a message in front joins its own level with the rest's level |
| Bump.ClassifyIsHighest | src/merge-release-run.js:64-69 | the three prioritised rules equal the most severe per-message level |
| Bump.ClassifyConcat | src/merge-release-run.js:64-69 | classifying two batches together gives the more severe of their separate levels |
| Bump.ClassifyInsert | src/merge-release-run.js:64-69 | inserting a commit anywhere never lowers the level |
| Bump.ClassifyPermutation | src/merge-release-run.js:64-69 | two message lists with the same multiset get the same level |
| Decision.Assemble | src/merge-release-run.js:52 | definition: message, line feed, body; `Decision.BreakingAssembled` and `Decision.FeatureFromMessageOnly` relate its tests to the parts |
| Decision.Messages | src/merge-release-run.js:52 | definition: the assembled text of each commit, in order |
| Decision.EventCommits | src/merge-release-run.js:61 | definition: the event's commits, or none when the payload has no list |
| Decision.Resolve | src/merge-release-run.js:38-62 | skip iff a record exists and its `gitHead` equals `GITHUB_SHA` (both unset included); the log range is used iff such a record has a truthy, different `gitHead` and the log lookup succeeds, with messages `message + "\n" + body` of the log entries; otherwise the event commits (empty when absent); the level is the classification of the chosen messages |
| Decision.LowerCaseFeature | src/merge-release-run.js:67 | a text that already begins with "feat" passes the lower-cased `startsWith('feat')` test |
| Decision.BreakingAssembled | src/merge-release-run.js:52-65 | an assembled commit contains a marker iff its message or its body does |
| Decision.OneCommit | src/merge-release-run.js:61-69 | one commit becomes one assembled message, classified at that message's own level |
| Decision.PlainFeature | src/merge-release-run.js:61-69 | a commit whose message begins with "feat" and with no marker in message or body asks for minor |
| Decision.FeatureFromMessageOnly | src/merge-release-run.js:61-67 | the "feat" test on an assembled commit depends on the message alone |
| Decision.MarkerMakesMajor | src/merge-release-run.js:61-66 | a breaking marker or "!:" in any commit's message or body makes the whole batch major |
| Decision.MissingEventCommits | src/merge-release-run.js:60-61 | on the fallback path without `event.commits` the run releases from no messages at patch level |
| Decision.UnpublishedFeature | src/merge-release-run.js:39-69 | a failed registry lookup with one such feature commit in the event gives a minor release from the event |
| Decision.AlreadyReleased | src/merge-release-run.js:47-48 | a record whose `gitHead` equals `GITHUB_SHA`, set or not, is skipped whatever the log and the event say |
| Decision.BreakingChangeSinceRelease | src/merge-release-run.js:47-66 | for any non-empty recorded `gitHead` other than the SHA and any log whose commit bodies include a breaking change, the release is major, from the log, with all logged messages |
| Release.Lookups | src/merge-release-run.js:40-51 | at most two lookups: the registry request for `<name>/latest` always comes first; the only other one is the git log from the record's truthy `gitHead` to `GITHUB_SHA`, requested iff the `gitHead` is truthy and differs from the SHA |
| Release.ViewCommand | src/merge-release-run.js:81 | definition: `npm view <name> version`, run in the src directory |
| Release.VersionCommand | src/merge-release-run.js:84 | definition: `npm version --git-tag-version=false <level>` with the level's name |
| Release.CommitArgs | src/merge-release-run.js:89 | definition: the arguments `commit -a -m t` of the commit |
| Release.Remote | src/merge-release-run.js:90 | definition of the token-embedded remote URL, unset variables spelled "undefined" |
| Release.PublishCommand | src/merge-release-run.js:95-98 | definition: `npm run publish` for a truthy publish script, else `npm publish`; `Release.PublishCommandLine` gives the spawn it becomes |
| Release.CommandLine | src/merge-release-run.js:12 | definition of `[cmd, ...args] = str.split(' ')`; `Release.CommandLineRejoins` shows it loses nothing |
| Release.CommandLineRejoins | src/merge-release-run.js:11-13 | `exec` spawns a space-free command whose arguments, rejoined with spaces, give the command string |
| Release.PublishCommandLine | src/merge-release-run.js:95-98 | the publish spawns `npm run publish` when the manifest's publish script is truthy, else `npm publish`, in the deploy directory |
| Release.ExitStatus | src/merge-release-run.js:14-17 | the process exits iff the status is present and non-zero, and then with that status |
| Release.NormalizedVersion | src/merge-release-run.js:84-86 | the new version is the `npm version` output with all `\r`/`\n` removed and its first character dropped, and has no line breaks |
| Release.NormalizedVersionOf | src/merge-release-run.js:84-86 | "v" + version + any line ending normalises to the version |
| Release.OnlyVersionWritten | src/merge-release-run.js:71-79 | any steps keep the same set of manifests and change only their "version" field |
| Release.ApplyStepsNoWrites | src/merge-release-run.js:89-99 | steps that are not manifest writes leave the manifests alone |
| Release.MadePrefix | src/merge-release-run.js:81-99 | the steps made are a prefix of the planned steps |
| Release.MadeOk | src/merge-release-run.js:81-99 | every step made but the last succeeded; the whole plan is made when all succeed; otherwise the last made failed |
| Release.MadeSteps | src/merge-release-run.js:81-99 | the steps made of two phases are those of the first, then those of the second only if the first fully succeeded |
| Release.FatalStop | src/merge-release-run.js:81-99 | the steps made are a prefix of the plan; all succeed iff every step is made and every step made succeeded; otherwise the last one made failed and everything before it succeeded |
| Release.PrefixOk | src/merge-release-run.js:81-99 | after a prefix that fully succeeds the run goes on with the rest; after one that fails it stops there |
| Release.Then | src/merge-release-run.js:81-99 | running one phase, then the next only if the first fully succeeded, is running their concatenation |
| Release.ApplyStep | src/merge-release-run.js:72-77 | definition: a write whose directory has a manifest sets that manifest's "version", as jq's output written back does; nothing else changes |
| Release.ApplySteps | src/merge-release-run.js:72-77 | definition: the steps applied in order; `Release.OnlyVersionWritten` shows they keep the manifest set and touch only "version" |
| Release.UpToFailure | src/merge-release-run.js:72-93 | definition: the planned attempts up to and including the first failing one, since a throwing `execSync` or rejected `runInWorkspace` ends the run; `Release.FatalStop` characterises it |
| Release.Writes | src/merge-release-run.js:71-79 | the planned writes of one `setVersion`: src, then deploy when it is not `'./'`, each succeeding iff its directory has a manifest |
| Release.Bumping | src/merge-release-run.js:81-86 | the planned bump phase; `Release.BumpingSteps` lists its steps |
| Release.Pushes | src/merge-release-run.js:91-93 | the three planned pushes, each succeeding iff the child exits with 0 |
| Release.Tail | src/merge-release-run.js:89-99 | the planned commit, pushes and publish; `Release.TailSteps` lists its steps |
| Release.Plan | src/merge-release-run.js:81-99 | the whole plan after the decision: the bump phase, then the tail |
| Release.Concluded | src/merge-release-run.js:14-17 | definition: rejected when a planned step fails, otherwise the publish's exit status when it is present and non-zero, otherwise finished |
| Release.DeployAlwaysWritten | src/merge-release-run.js:75-78 | with an absolute deploy directory `setVersion` always writes src then deploy |
| Release.BothWritten | src/merge-release-run.js:71-79 | two writes of one version leave both manifests at that version, even for the same directory |
| Release.BumpingSynchronizes | src/merge-release-run.js:81-86 | when both queries succeed and both manifests exist, the bump phase succeeds and leaves both at the normalised new version |
| Release.SynchronizedAfterBump | src/merge-release-run.js:81-99 | that agreement survives whatever the commit, pushes and publish do |
| Release.TailWritesNothing | src/merge-release-run.js:89-99 | the commit, pushes and publish leave the manifests alone, however far they get |
| Release.BumpingSteps | src/merge-release-run.js:81-86 | the bump phase is: view, write src, write deploy, bump, write src, write deploy |
| Release.TailSteps | src/merge-release-run.js:89-99 | the last phase is: commit, push `--follow-tags`, push `--tags`, push, publish |
| Release.SuccessfulRunSteps | src/merge-release-run.js:81-99 | a fully successful run makes exactly: view, two writes, bump, two writes, commit, push `--follow-tags`, push `--tags`, push, publish |
| Release.BumpingSpawnsNothing | src/merge-release-run.js:81-86 | the bump phase holds only queries and manifest writes |
| Release.PublishIsLast | src/merge-release-run.js:89-99 | the last planned step is the publish command line in the deploy directory; it is the only spawned one, and it never fails |
| Release.FailedRunNeverPublishes | src/merge-release-run.js:89-99 | a run with a failing step is rejected and never spawns the publish |
| Release.Workspace.ExecSync | src/merge-release-run.js:81 | records the query; succeeds iff the status is 0; manifests unchanged |
| Release.Workspace.WriteVersion | src/merge-release-run.js:72-73 | records the write; succeeds iff the directory has a manifest, whose "version" is then set |
| Release.Workspace.SetVersion | src/merge-release-run.js:71-79 | makes the planned writes up to the first failure; keeps the manifest set; changes only "version"; on success src (and deploy unless it is `'./'`) hold the version |
| Release.Workspace.RunInWorkspace | src/merge-release-run.js:130-152 | records the git step; it resolves iff the child exits with 0 |
| Release.Workspace.Exec | src/merge-release-run.js:11-20 | records the split command line; the exit status is exactly `ExitStatus` of the child's status |
| Release.Workspace.BumpVersion | src/merge-release-run.js:81-86 | makes the bump phase's planned steps up to the first failure and succeeds iff all succeed; keeps the manifest set |
| Release.Workspace.PushAll | src/merge-release-run.js:91-93 | makes the three pushes up to the first failure; succeeds iff all three do |
| Release.Workspace.Publish | src/merge-release-run.js:95-99 | spawns the publish command chosen by the start-up manifest in the deploy directory; the exit status is `ExitStatus` of the child's |
| Release.Workspace.CommitPushPublish | src/merge-release-run.js:89-99 | makes commit, three pushes and publish up to the first failure; on success reports the publish's exit status |
| Release.Workspace.Run | src/merge-release-run.js:36-99 | missing token iff `NPM_AUTH_TOKEN` is falsy, then nothing is done; on skip only the lookups are made and no manifest changes; otherwise the lookups then the plan up to the first failure, ending rejected, with the publish's non-zero status, or finished |

## Left out

- The registry client (`bent`, `NPM_REGISTRY_URL`) and `simple-git` are libraries. Only their
  outcomes are modelled, as `Registry` and `LogLookup`. A returned record is taken to be truthy.
- Reading `event.json`, the environment and the start-up `package.json` is left out. These
  values arrive as `Config`.
- A `Commit` always has a `body`. The commits of a GitHub push payload have none, so line 61
  builds `message + "\nundefined"`. Callers pass "undefined" as the body of event commits to
  match. That text contains no marker, so the level is unaffected.
- `path.join` is not modelled. The directories are given strings, and directories are told
  apart by their spelling. `DeployAlwaysWritten` requires what `path.join(process.cwd(), …)`
  guarantees: the deploy directory is absolute.
- What `jq`, `npm view` and `npm version` compute is left out. In particular, how semver is
  incremented and how `jq` parses the quoted version are not modelled. Their outputs are opaque
  strings, and the raw `npm view` output is what the first `setVersion` writes.
- `npm version` itself rewrites the `version` field of the src `package.json`, and
  `package-lock.json` too. The model records that call as a query that changes no manifest.
  The src write that follows sets the same field, and `package-lock.json` is not modelled.
- The `execSync` call for `jq` and the file write after it are treated as one step, because the
  child's output is written unchanged. A `jq` failure is modelled as the directory having no
  manifest. Two existing manifests left with different versions are therefore not modelled.
- `runInWorkspace`'s event plumbing is reduced to a success or failure per git step: spawn,
  stderr collection, the `isDone` flag and the rejection message. Its working directory is
  always the src directory.
- Awaiting is modelled as plain sequencing, so nothing runs concurrently.
- A rejection or thrown exception ends the run as `Rejected`. The missing token is singled out as
  `MissingToken`. The exit code Node gives an unhandled rejection is not modelled.
- Console logging is left out, in particular `console.error(ret)` in `exec`.
- The unused `exitSuccess`, `exitFailure` and `logError` helpers are left out.
- The commented-out cleanup, tagging and set-output code is left out.
- `toLowerCase` is modelled on ASCII letters only. Characters outside A-Z are left unchanged,
  whereas JavaScript also folds other scripts and can change string length.
- `Release.Workspace.Run`: a non-zero publish status ends the process, and nothing comes after
  the publish. So the model reports it as the outcome instead of stopping the process mid-method.
