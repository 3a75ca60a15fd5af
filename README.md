# codedistill (`cdst`) in Dafny

This project models the decision logic of `cdst`, a command-line tool. The tool:

- reads source files;
- asks an external code-generation model to turn each one into a
  generic snippet;
- pushes the snippet to a GitHub repository, keeping a local ledger of what was pushed.

The model covers the following parts:

- **Reply extraction** (`Claude`): the leniency ladder that recovers JSON from the model's reply.
  It tries the trimmed whole reply, then the first markdown fence (the regular expression
  modelled position by position), then the span from the first `{` to the last `}`. The module
  also builds the prompt and assembles the generalization result.
- **The push command** (`Push`): the loop over the named files with its guards, in order:
  the ledger dedup, the model call, the target path, the remote existence check, the
  confirmation, the write and the ledger record.
  - `Step` and `Run` specify one file and the loop as pure functions over a `World`. A
    `World` holds the ledger, the repository's files and a trace of effects.
  - The class `Workflow` performs the loop on mutable state and is proved to agree with them.
- **Persisted state** (`ConfigStore`): the configuration file, merged over the defaults, and
  the push ledger, which is append-only and searched first-match. A `Store` class holds the
  two files.
- **The config command** (`ConfigCommand`): listing with the token masked, getting one setting
  and setting one setting.
- **The command line** (`Cli`): file-path and flag extraction, the dispatch on the first word,
  and exit codes.
- **The local file accessor** (`FileReader`): the 100 KiB read ceiling, `path.extname`, and the
  case-insensitive extension-to-language table.
- **The repository gateway** (`GitHub`): the `owner/repo` split, the mapping of a contents
  lookup to a file check, and how the write request and its result are built.
- **Setup** (`Init`): the token and repository validators, the prompt defaults, and the rule
  that the configuration is saved only after the access check.

The foreign pieces are parameters of type function, or inputs:

- `JSON.parse` (`isJson`/`parse`);
- SHA-256;
- the external model process (prompt to an optional reply);
- base64;
- `path.resolve`;
- the REST API calls (`getContent`/`put`) and the access check (`canAccess`);
- the user's answers to prompts;
- the clock.

The disk is a map from absolute path to size and text.

`handlePush` (src/commands/push.ts:28-93) has no per-file `catch`, so the first error thrown
aborts the remaining files and reaches `main`'s handler, which exits with status 1. `Run` stops at the
first error (`Stopped`), and `StoppedStaysStopped` proves the later files change nothing.

## Model

| member | source | states |
|---|---|---|
| Text.Trim | src/services/claude.ts:65 | the trimmed text is a slice of the original, at most as long, and starts and ends with a non-blank character |
| Text.TrimOfPadded | src/services/claude.ts:65 | trimming white space on both sides of a non-blank core gives exactly that core |
| Text.TrimDropsTrailingSpaces | src/services/claude.ts:74-76 | trailing white space does not change what `trim` returns |
| Text.TrimKeepsAbsent | src/services/claude.ts:65 | a character absent from a text is absent from its trim |
| Text.IndexOf | src/cli.ts:50 | `indexOf`: -1 exactly when the element is absent, else the position of its first occurrence |
| Text.LastIndexOf | src/services/claude.ts:81 | `lastIndexOf`: -1 exactly when absent, else the position of the last occurrence |
| Text.SliceLast | src/commands/config.ts:17 | `slice(-n)` for n at least 1: the last n characters, or the whole text when it is shorter |
| Text.Split | src/services/github.ts:9 | `split` on one character: at least one piece, no piece contains the separator, and joining the pieces rebuilds the text |
| Text.SplitJoin | src/services/github.ts:9 | splitting undoes joining pieces that do not contain the separator |
| FileReader.RoundedKb | src/services/file-reader.ts:36 | `Math.round(size / 1024)` is the nearest whole KiB, with halves rounded up |
| FileReader.ReadSourceFile | src/services/file-reader.ts:28-41 | a missing path is not-found, checked before the size; a file is read exactly when it is at most 100 KiB, and the result is its text; a larger file is refused with its rounded size |
| FileReader.SizeCeilingBoundary | src/services/file-reader.ts:34-38 | 102400 bytes is accepted; 102401 bytes is refused, quoting 100 KB |
| FileReader.DropTrailingSlashes | src/services/file-reader.ts:44 | removes exactly the run of trailing `/`, leaving a prefix that does not end in `/` |
| FileReader.BaseName | src/services/file-reader.ts:44 | the last path component holds no `/` |
| FileReader.ExtName | src/services/file-reader.ts:44 | `path.extname` is empty or starts with `.`, and holds no `/` |
| FileReader.ExtOfName | src/services/file-reader.ts:44 | the extension of one component is empty or starts with its dot |
| FileReader.ToLower | src/services/file-reader.ts:44 | lower-casing works character by character and keeps the length |
| FileReader.DetectLanguage | src/services/file-reader.ts:43-46 | the table entry for the lower-cased extension, else `plaintext`; the result is always a table value or `plaintext` |
| FileReader.ExtNameLower | src/services/file-reader.ts:44 | the extension of the lower-cased path is the lower-cased extension |
| FileReader.DetectLanguageIgnoresCase | src/services/file-reader.ts:44-45 | the language of a path does not depend on the case of its letters |
| FileReader.ToLowerIdempotent | src/services/file-reader.ts:44 | lower-casing twice is lower-casing once |
| FileReader.BaseNameOf | src/services/file-reader.ts:44 | the last component of `dir/name` is `name` |
| FileReader.ExtNameFromBase | src/services/file-reader.ts:44 | a last component `stem.ext` with a stem that is neither empty nor `.` has extension `.ext` |
| FileReader.ExtNameOf | src/services/file-reader.ts:44 | `dir/stem.ext` has extension `.ext` |
| FileReader.ExtNameOfDotFile | src/services/file-reader.ts:44 | a component whose only dot is its first character has no extension |
| FileReader.ExampleUpperCaseExtension | src/services/file-reader.ts:43-46 | `X.PY` is `python`, whatever its directory |
| FileReader.ExampleDotFile | src/services/file-reader.ts:43-46 | `.sh` alone is `plaintext`, not `bash` |
| GitHub.ParseRepo | src/services/github.ts:8-11 | owner is the text before the first `/` (or the whole text, with no name, when there is none); name is the text up to the next `/` or the end |
| GitHub.ParseRepoRoundTrip | src/services/github.ts:8-11 | for text with exactly one `/`, owner and name are the two sides of it |
| GitHub.RepoOf | src/services/github.ts:27 | a configuration without a repository fails before any request; otherwise the split repository |
| GitHub.ContentRequestFor | src/services/github.ts:27-35 | the lookup names the split owner and repository, the path and the default branch |
| GitHub.FileCheckOf | src/services/github.ts:37-50 | exists exactly for a single item of type `file`, carrying its sha and decoded content; a listing, another type or a 404 is absent with no sha; any other error is passed on unchanged |
| GitHub.CheckFileExists | src/services/github.ts:22-51 | without a repository it fails; otherwise it is the mapping of the API's answer to the lookup |
| GitHub.FileCheckShaOnlyWhenExists | src/services/github.ts:37-44 | a check carries a sha exactly when the file exists |
| GitHub.WriteRequestFor | src/services/github.ts:63-73 | the write carries the existing sha unchanged, the default branch, the path, the message and the encoded body, to the split repository; without a repository it fails |
| GitHub.PushResultOf | src/services/github.ts:75-79 | the commit sha is passed on; a missing file or commit link becomes `""`; a failure is passed on |
| GitHub.PushFile | src/services/github.ts:53-80 | `pushFile` is the result mapping of the API's answer to the built write request |
| Claude.GroupStart | src/services/claude.ts:74 | the capture group starts after the fence, the optional `json` tag and the white space |
| Claude.LazyEnd | src/services/claude.ts:74 | the lazy group ends at the first position where `\n?\s*```` matches, or nowhere |
| Claude.FindFence | src/services/claude.ts:74 | `match` finds the leftmost start where the whole pattern matches, or none |
| Claude.NextFence | src/services/claude.ts:74 | the first ```` ``` ```` at or after a position (the reference reading) |
| Claude.ClosesAtIsNextFence | src/services/claude.ts:74 | where the closing part matches, the next fence is right after the white space |
| Claude.LazyEndIsBeforeNextFence | src/services/claude.ts:74 | the lazy group ends exactly where the white space before the next fence begins, and exists exactly when a next fence does |
| Claude.EarlierFenceMatches | src/services/claude.ts:74 | when a later opening fence leads to a match, the first one does too |
| Claude.FenceMatchIsFenceContent | src/services/claude.ts:74-77 | the regular expression yields the trimmed text between the first ```` ``` ```` (with its tag) and the next one |
| Claude.ExtractJson | src/services/claude.ts:63-87 | the trimmed reply if it parses; else the fenced content, parsed or not; else the first-`{`-to-last-`}` span; an error exactly when none of the three applies |
| Claude.BraceSlice | src/services/claude.ts:80-84 | a span exists exactly when some `{` precedes some `}`, and then it runs from the first `{` to the last `}` |
| Claude.BracePairBounds | src/services/claude.ts:80-82 | the index test `start !== -1 && end !== -1 && end > start` holds exactly when some `{` comes before some `}` |
| Claude.BraceSpanIs | src/services/claude.ts:80-84 | the brace span is unique |
| Claude.TaggedBlockContent | src/services/claude.ts:74-76 | the fenced content of ```` ```json\n<body>\n``` ```` is the body |
| Claude.ExtractsFencedBlock | src/services/claude.ts:74-77 | a reply that is one tagged fenced block yields its body, even when the body does not parse |
| Claude.ExtractsEmbeddedObject | src/services/claude.ts:80-84 | an object inside prose with no other braces or backticks yields the object |
| Claude.RejectsProse | src/services/claude.ts:79-86 | prose with no backtick and no `{` that does not parse is an extraction error |
| Claude.ExampleBareObject | src/services/claude.ts:65-68 | a bare `{"a":1}` is returned as it is |
| Claude.ExampleFencedObject | src/services/claude.ts:74-77 | a `json`-fenced `{"a":1}` yields `{"a":1}` |
| Claude.ExampleEmbeddedObject | src/services/claude.ts:80-84 | `prefix {"a":1} suffix` yields `{"a":1}` |
| Claude.ExampleProse | src/services/claude.ts:86 | `not json at all` is an extraction error |
| Claude.ExampleFenceThatDoesNotParse | src/services/claude.ts:75-77 | a fence wins over the brace scan even when its content does not parse |
| Claude.FullPrompt | src/services/claude.ts:32-34 | the prompt is the fixed instructions, a blank line, then the request, which ends with the source code unchanged |
| Claude.ParsedReplyOf | src/services/claude.ts:41-47 | a failed process is a generation error; otherwise a failed extraction is its error, an extracted text that does not parse is an invalid-JSON error, and one that parses succeeds with the parsed value |
| Claude.Assemble | src/services/claude.ts:49-57 | path and language come from the request, the other fields from the reply, and missing warnings become `[]` |
| Claude.Generalize | src/services/claude.ts:29-61 | succeeds exactly when the reply parses, with the assembled result; otherwise the reply's error |
| ConfigStore.MergeDefaults | src/config.ts:30 | `{ ...DEFAULTS, ...stored }`: every stored setting wins; the defaults fill only absent keys |
| ConfigStore.ConfigOf | src/config.ts:30 | the typed view: token and repository when stored, branch and path always |
| ConfigStore.LoadedDefaults | src/config.ts:10-30 | a missing branch is `main` and a missing target path is `snippets`; stored ones are kept |
| ConfigStore.FindFirst | src/config.ts:56 | no result exactly when no record has the digest; else the earliest record with it |
| ConfigStore.FindFirstAppend | src/config.ts:47-57 | appending keeps an earlier match; with no earlier match the appended record is found if its digest matches |
| ConfigStore.FoundAfterAppend | src/config.ts:47-57 | after appending r, r's digest is found, and the match is the earliest record with it, r only when none was there before |
| ConfigStore.Store.LoadConfig | src/config.ts:25-31 | nothing exactly when the file is absent, else the stored object over the defaults |
| ConfigStore.Store.SaveConfig | src/config.ts:33-37 | the file holds exactly the given object; the ledger is untouched |
| ConfigStore.Store.LoadHistory | src/config.ts:39-45 | an absent ledger file reads as the empty ledger |
| ConfigStore.Store.AddHistoryRecord | src/config.ts:47-52 | the new ledger is the old one with the record at the end; the configuration is untouched |
| ConfigStore.Store.FindExistingPush | src/config.ts:54-57 | none exactly when no loaded record has the digest; else the earliest loaded record with that digest |
| ConfigCommand.Mask | src/commands/config.ts:17 | `****` then the last min(4, length) characters of the value, which end the value; never over 8 characters |
| ConfigCommand.Display | src/commands/config.ts:16-18 | secret keys are masked, all others shown verbatim |
| ConfigCommand.Listing | src/commands/config.ts:15-20 | every loaded setting is listed once, each as displayed |
| ConfigCommand.OnlyTokenMasked | src/commands/config.ts:4 | only `githubToken` is masked in the listing |
| ConfigCommand.ExitCode | src/commands/config.ts:26-47 | status 1 exactly for a failure |
| ConfigCommand.SetAsWritten | src/commands/config.ts:29-34 | the set branch with the guard `key in config`: it fails exactly when the key is neither stored nor inherited |
| ConfigCommand.PrototypeNameAccepted | src/commands/config.ts:29-34 | with the guard as written, `cdst config toString x` succeeds and adds `toString` to the saved file |
| ConfigCommand.SetSetting | src/commands/config.ts:29-35 | fails with unknown-key exactly when the key is not stored; otherwise only that key changes, to the new value |
| ConfigCommand.ConfigEffect | src/commands/config.ts:6-52 | listing mode never saves; every failure leaves the file; a missing configuration fails; set, get and no-action each as the code branches, with the corrected own-key guard in set and get |
| ConfigCommand.OnlyUpdateSaves | src/commands/config.ts:6-52 | the file changes only on a successful set |
| ConfigCommand.SetChangesOnlyThatKey | src/commands/config.ts:33-35 | after a set, the loaded view differs from the old one in the named key only, which holds the new value |
| ConfigCommand.HandleConfig | src/commands/config.ts:6-52 | running on a `Store` has the outcome and final file of `ConfigEffect`, and leaves the ledger alone |
| Cli.ExtractFilePaths | src/cli.ts:45-47 | the words kept are exactly the words that are not flags |
| Cli.ExtractFilePathsConcat | src/cli.ts:45-47 | the filter keeps order: it distributes over concatenation |
| Cli.FlagValueIsAlsoAPath | src/cli.ts:24-26 | the value after `-m`, when it is not a flag, is also taken as a file path |
| Cli.ExtractFlag | src/cli.ts:49-52 | the word after the first occurrence of the flag; nothing exactly when the flag is absent or last |
| Cli.PositionalArg | src/cli.ts:33-34 | the word at the position unless it is missing or a flag |
| Cli.PushArgsOf | src/cli.ts:22-29 | the files are the non-flags after the command; `--message` wins over `-m`; force exactly when `--force` occurs |
| Cli.Dispatch | src/cli.ts:6-43 | the command follows the first word; an unknown non-empty word exits 1; no word exits 0 |
| Cli.ExamplePushLine | src/cli.ts:22-29 | `push a.py -m msg --message other --force` takes `other`, sets force and has no target path |
| Init.ValidRepoIff | src/commands/init.ts:30-31 | the matcher accepts exactly two non-empty runs of `[A-Za-z0-9_.-]` joined by one `/` |
| Init.ValidRepoRoundTrip | src/commands/init.ts:31 | every accepted repository splits into its owner and name, and they join back to it |
| Init.Resolve | src/commands/init.ts:21-43 | an empty answer takes the prompt's default, and any other answer is kept |
| Init.Ask | src/commands/init.ts:16-32 | a validated prompt answers with the first typed line whose value is valid, or never completes |
| Init.AskFirst | src/commands/init.ts:33-44 | a prompt without a validator answers with the first line typed |
| Init.DefaultsFor | src/commands/init.ts:21-43 | without a configuration the defaults are `main` and `snippets` and there is no token or repository default; otherwise the stored values |
| Init.SettingsMap | src/commands/init.ts:47-52 | the saved object holds exactly the four settings |
| Init.Answers | src/commands/init.ts:16-52 | the answers exist exactly when every prompt completes; the saved token and repository are then the answers the validated prompts accepted, so non-empty and valid, and branch and path are the first lines typed, resolved against their defaults |
| Init.InitEffect | src/commands/init.ts:6-65 | only a completed setup changes the file; it is abandoned exactly when a prompt never completes, denied exactly when the answers exist but the access check fails, and complete exactly when the check passes, saving those answers |
| Init.InitExitCode | src/commands/init.ts:58-63 | status 1 exactly when the access check fails, 0 exactly after a completed setup, and no exit while a prompt is waiting |
| Init.SavedRepoSplits | src/commands/init.ts:47-63 | the saved repository always splits into owner and name |
| Init.FirstSetupDefaults | src/commands/init.ts:37-43 | on a first setup, empty answers give branch `main` and path `snippets` |
| Init.HandleInit | src/commands/init.ts:6-65 | running on a `Store` has the outcome and final file of `InitEffect`, and leaves the ledger alone |
| Push.RemoteAfter | src/services/github.ts:65-73 | an accepted write leaves a file at the path with the new sha and the sent body; a failed one leaves the repository as it was |
| Push.TargetPath | src/commands/push.ts:48-52 | the target path is the path or default path, `/`, the category, `/`, the file name |
| Push.ExampleTargetPath | src/commands/push.ts:48-52 | default `snippets`, category `utils`, name `print-example.py` give `snippets/utils/print-example.py` |
| Push.CommitMessage | src/commands/push.ts:76 | the user's message, else `Add <file name>: <description>` |
| Push.RequestFor | src/commands/push.ts:29-44 | the model request carries the source read, the absolute path and the detected language |
| Push.StepAdvances | src/commands/push.ts:28-93 | one file only adds to the ledger and the effects, and adds at most one record, of its own path, carrying the digest of what was read |
| Push.GeneralizingAdvances | src/commands/push.ts:43-93 | from the model call on, at most one record is added, of this file's path and digest |
| Push.CheckingAdvances | src/commands/push.ts:56-93 | from the existence check on, at most one record is added, of this file's path and digest |
| Push.DeliveringAdvances | src/commands/push.ts:62-93 | from the confirmation on, at most one record is added, of this file's path and digest |
| Push.FoundWhenRecorded | src/commands/push.ts:84-90 | a record just added is found by its digest |
| Push.StepGeneralizes | src/commands/push.ts:34-44 | a file that was read and is new to the ledger, or forced, goes on to the model call |
| Push.GeneralizingChecks | src/commands/push.ts:44-56 | a successful model call goes on to the existence check |
| Push.CheckingDelivers | src/commands/push.ts:56-62 | a successful check of a new target, or a forced one, goes on to the confirmation |
| Push.DuplicateIsSkipped | src/commands/push.ts:34-41 | a file already in the ledger, without force, is skipped with no model call, check, write or record |
| Push.ExistingIsSkipped | src/commands/push.ts:56-60 | a target that exists, without force, is skipped after the check: no confirmation, write or record |
| Push.DeclinedIsSkipped | src/commands/push.ts:71-74 | a declined confirmation writes nothing and records nothing |
| Push.ConfirmedIsWritten | src/commands/push.ts:76-90 | a confirmed file is written with exactly the sha the check returned (none for a new file), on the default branch, with the commit message; an accepted write adds exactly one record with the path, target, commit sha and digest; a failed one aborts with nothing recorded |
| Push.WriteCarriesCheckedSha | src/commands/push.ts:77-82 | a successful check provides a repository, and the write carries the checked sha, which is absent for a new file |
| Push.ConfirmedDelivery | src/commands/push.ts:71-90 | after confirmation: an accepted write records the push; a failed one stops with the remote error |
| Push.StoppedStaysStopped | src/commands/push.ts:28-93 | once a file fails, the later files change nothing |
| Push.RunGrows | src/commands/push.ts:28-93 | between any two points of the loop the ledger is only extended at its end and effects only grow |
| Push.RunStepGrows | src/commands/push.ts:28-93 | one pass of the loop only extends the ledger and the effects |
| Push.GrowsAfter | src/commands/push.ts:28-93 | the ledger after a pass is a prefix of the ledger at every later pass |
| Push.RecordingStep | src/commands/push.ts:84-90 | a pass that grew the ledger ran from a running state and added one record of its own file and digest |
| Push.RecordedIsFoundNext | src/commands/push.ts:84-90 | the digest of a file just recorded is found in the ledger right after its pass |
| Push.RecordedIsFoundLater | src/config.ts:47-57 | the digest of a file recorded in a pass is found in the ledger at every later pass of the same run |
| Push.LaterCopyIsSkipped | src/commands/push.ts:34-41 | a later file of the same run with the same contents as a recorded one is skipped as already pushed, without force |
| Push.RunFromIsRun | src/commands/push.ts:28-93 | running the first files and then the rest is running them all |
| Push.PushExitCode | src/commands/push.ts:17-26 | status 0 exactly when the command finishes normally |
| Push.Workflow.HandlePush | src/commands/push.ts:11-94 | no configuration or no files: status 1 before any file is read, with nothing changed; otherwise the final ledger, repository and effects are those of `Run` over all the files, and an error aborts with that error; the configuration file is not changed |
| Push.Workflow.PushAll | src/commands/push.ts:28-93 | the loop ends in the state and error of `Run` over all the files |
| Push.Workflow.PushOne | src/commands/push.ts:29-42 | one pass of the read and the ledger lookup, then the rest, ends as `Step` does |
| Push.Workflow.GeneralizeOne | src/commands/push.ts:43-60 | the model call, the target and the existence check end as `Generalizing` does |
| Push.Workflow.DeliverOne | src/commands/push.ts:62-92 | the confirmation, the write and the ledger append end as `Delivering` does |

## Left out

- The external model process is a function from the prompt to an optional reply. The
  temporary prompt file, `execSync`, its timeout and buffer limit, and the unlinking in
  `finally` are not modelled.
- `JSON.parse` is the parameter `isJson` for the ladder and `parse` for the reply's fields. A
  reply field that is not a string, or `warnings` that is not an array of strings, is outside
  the model.
- SHA-256, base64 encoding and decoding, `path.resolve` and the clock are parameters.
  Timestamps are whatever the clock gives for the i-th file.
- The Octokit client is two functions from request to response: `getContent` answers from
  the model's repository map, and `put` is a parameter. The remote is not modelled as
  enforcing the sha on update. `verifyGitHubAccess` is the parameter `canAccess`.
- inquirer prompts are sequences of typed lines. A prompt whose lines are all refused never
  completes (`Abandoned`).
- File-system effects are not modelled: `ensureConfigDir`, `chmodSync(0o600)`, the JSON
  formatting of saved files, and files that exist but do not parse.
- Failed file accesses around the two files are not modelled. Each file is either absent or
  holds a value.
- Console output and the usage text are not modelled. src/utils/logger.ts (preview
  formatting) is not part of this model.
- src/commands/preview.ts is not part of this model. Its dispatch arguments are modelled in
  `Cli.Dispatch`.
- Strings are sequences of code points, while JavaScript's `slice`, `length` and `indexOf`
  count UTF-16 units. The two agree for text inside the Basic Multilingual Plane.
- FileReader.ToLower: lowers only the characters whose lower case is a single ASCII letter
  (`A`-`Z` and the Kelvin sign). Every other character either keeps its case or lowers to
  text that is in no key of the language table, so `DetectLanguage` is unaffected.
- The listing order of `Object.entries` is not modelled. The listing is a map from key to
  shown value.
- ConfigCommand.ConfigEffect: both the set and the get branch use the corrected own-key
  guard, so a name inherited from `Object.prototype` (such as `toString`) is an unknown key.
  In the code, `cdst config toString x` passes the guard and saves the new key, and
  `cdst config toString` prints the inherited function's source text (see Findings).
  `ConfigCommand.HandleConfig` follows `ConfigEffect` and so has the same deviation. The
  behaviour as written is modelled by `ConfigCommand.SetAsWritten`.
- FileReader.ReadSourceFile: the disk holds only regular files, so a path that exists but
  cannot be read (a directory, which fails with `EISDIR`, or a file without read permission)
  appears as not found.
- A user interrupt (Ctrl-C) during a prompt is not modelled.

## Findings

| source | as written | input that shows it | evidently intended | confidence | as-written member | corrected member |
|---|---|---|---|---|---|---|
| src/commands/config.ts:29 | the guard `key in config` also accepts names that every object inherits from `Object.prototype` | `cdst config toString x` on a configuration without such a key: the guard passes, `toString` is added and the file is saved | an unknown key fails with status 1 and nothing is saved | not executed | ConfigCommand.PrototypeNameAccepted | ConfigCommand.SetSetting |
