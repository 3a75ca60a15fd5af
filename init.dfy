/**
 * `cdst init` (src/commands/init.ts): ask for the four settings, offering the stored ones as
 * defaults, check that the repository can be reached, and only then replace the configuration
 * file. The user's typed answers and the access check are inputs.
 */
module Init {
  import opened Wrappers
  import opened Text
  import opened Types
  import opened ConfigStore
  import opened GitHub

  /** The token validator: any non-empty text. */
  predicate ValidToken(s: string) {
    |s| > 0
  }

  /** `[\w.-]` without the `u` flag: ASCII letters, digits, `_`, `.` and `-`. */
  predicate IsRepoChar(c: char) {
    ('A' <= c <= 'Z') || ('a' <= c <= 'z') || ('0' <= c <= '9') || c == '_' || c == '.' || c == '-'
  }

  predicate AllRepoChars(s: string) {
    forall k :: 0 <= k < |s| ==> IsRepoChar(s[k])
  }

  /** Reference reading of `^[\w.-]+\/[\w.-]+$`: two non-empty runs of `[\w.-]` joined by one `/`. */
  predicate IsOwnerSlashRepo(s: string) {
    exists i :: 0 < i < |s| - 1 && s[i] == '/' && AllRepoChars(s[..i]) && AllRepoChars(s[i + 1..])
  }

  /** The end of the run of `[\w.-]` that starts at `i`. */
  function SpanRepoChars(s: string, i: nat): (j: nat)
    requires i <= |s|
    ensures i <= j <= |s|
    ensures forall k :: i <= k < j ==> IsRepoChar(s[k])
    ensures j == |s| || !IsRepoChar(s[j])
    decreases |s| - i
  {
    if i < |s| && IsRepoChar(s[i]) then SpanRepoChars(s, i + 1) else i
  }

  /** The matcher: `[\w.-]+` (greedy, and `/` is outside the class, so there is no
      backtracking), one `/`, then `[\w.-]+` up to the end of the text. */
  predicate ValidRepo(s: string) {
    var i := SpanRepoChars(s, 0);
    0 < i && i + 1 < |s| && s[i] == '/' && SpanRepoChars(s, i + 1) == |s|
  }

  /** The matcher accepts exactly the texts of the reference reading. */
  lemma ValidRepoIff(s: string)
    ensures ValidRepo(s) <==> IsOwnerSlashRepo(s)
  {
    var i := SpanRepoChars(s, 0);
    if ValidRepo(s) {
      assert AllRepoChars(s[..i]);
      assert AllRepoChars(s[i + 1..]);
      assert 0 < i < |s| - 1 && s[i] == '/';
    }
    if IsOwnerSlashRepo(s) {
      var m :| 0 < m < |s| - 1 && s[m] == '/' && AllRepoChars(s[..m]) && AllRepoChars(s[m + 1..]);
      assert forall k :: 0 <= k < m ==> IsRepoChar(s[k]) by {
        forall k | 0 <= k < m ensures IsRepoChar(s[k]) { assert s[k] == s[..m][k]; }
      }
      assert i == m;
      var j := SpanRepoChars(s, m + 1);
      assert forall k :: m + 1 <= k < |s| ==> IsRepoChar(s[k]) by {
        forall k | m + 1 <= k < |s| ensures IsRepoChar(s[k]) { assert s[k] == s[m + 1..][k - m - 1]; }
      }
      assert j == |s|;
    }
  }

  /** Neither half of an accepted repository contains `/`. */
  lemma RepoCharIsNotSlash(s: string)
    requires AllRepoChars(s)
    ensures '/' !in s
  {
  }

  /** Every accepted repository splits into its owner and name, and joins back. */
  lemma ValidRepoRoundTrip(s: string)
    requires ValidRepo(s)
    ensures var r := ParseRepo(s); r.name.Some? && r.owner + "/" + r.name.value == s
    ensures var i := SpanRepoChars(s, 0); ParseRepo(s) == RepoRef(s[..i], Some(s[i + 1..]))
  {
    var i := SpanRepoChars(s, 0);
    assert AllRepoChars(s[..i]);
    assert AllRepoChars(s[i + 1..]);
    RepoCharIsNotSlash(s[..i]);
    RepoCharIsNotSlash(s[i + 1..]);
    assert s == s[..i] + "/" + s[i + 1..];
    ParseRepoRoundTrip(s[..i], s[i + 1..]);
  }

  // ---------------------------------------------------------------------------------------
  // The prompts
  // ---------------------------------------------------------------------------------------

  /** An input prompt's value for one typed line: an empty line takes the default, if any. */
  function Resolve(typed: string, default: Option<string>): (v: string)
    ensures typed != "" ==> v == typed
    ensures typed == "" ==> v == default.GetOr("")
  {
    if typed == "" then default.GetOr("") else typed
  }

  /** An input prompt with a validator: the lines typed are tried in turn, and the first whose
      value the validator accepts is the answer; if none is, the prompt never completes. */
  function Ask(attempts: seq<string>, default: Option<string>, valid: string -> bool): (r: Option<string>)
    ensures r.None? <==> forall k :: 0 <= k < |attempts| ==> !valid(Resolve(attempts[k], default))
    ensures r.Some? ==> valid(r.value)
    ensures r.Some? ==> exists k :: && 0 <= k < |attempts| && r.value == Resolve(attempts[k], default)
                                    && forall j :: 0 <= j < k ==> !valid(Resolve(attempts[j], default))
  {
    if |attempts| == 0 then None
    else if valid(Resolve(attempts[0], default)) then Some(Resolve(attempts[0], default))
    else
      var r := Ask(attempts[1..], default, valid);
      assert forall k :: 1 <= k < |attempts| ==> attempts[k] == attempts[1..][k - 1];
      r
  }

  /** An input prompt without a validator: the first line typed, resolved. */
  function AskFirst(attempts: seq<string>, default: string): (r: Option<string>)
    ensures r.None? <==> |attempts| == 0
    ensures r.Some? ==> r.value == Resolve(attempts[0], Some(default))
  {
    if |attempts| == 0 then None else Some(Resolve(attempts[0], Some(default)))
  }

  /** What was typed at each of the four questions, in order. */
  datatype InitAnswers = InitAnswers(token: seq<string>, repo: seq<string>, branch: seq<string>, targetPath: seq<string>)

  datatype PromptDefaults = PromptDefaults(token: Option<string>, repo: Option<string>, branch: string, targetPath: string)

  /** The offered defaults: the stored token and repository if any, and the stored branch and
      path, or `main` and `snippets` without a configuration. */
  function DefaultsFor(existing: Option<map<string, string>>): (d: PromptDefaults)
    requires existing.Some? ==> Defaults.Keys <= existing.value.Keys
    ensures existing.None? ==> d == PromptDefaults(None, None, "main", "snippets")
    ensures existing.Some? ==> && d.branch == existing.value["defaultBranch"]
                               && d.targetPath == existing.value["defaultTargetPath"]
                               && d.token == (if "githubToken" in existing.value then Some(existing.value["githubToken"]) else None)
                               && d.repo == (if "githubRepo" in existing.value then Some(existing.value["githubRepo"]) else None)
  {
    match existing
    case None => PromptDefaults(None, None, "main", "snippets")
    case Some(c) =>
      var config := ConfigOf(c);
      PromptDefaults(config.githubToken, config.githubRepo, config.defaultBranch, config.defaultTargetPath)
  }

  function SettingsMap(token: string, repo: string, branch: string, targetPath: string): (m: map<string, string>)
    ensures m.Keys == {"githubToken", "githubRepo", "defaultBranch", "defaultTargetPath"}
    ensures m["githubToken"] == token && m["githubRepo"] == repo
    ensures m["defaultBranch"] == branch && m["defaultTargetPath"] == targetPath
  {
    map["githubToken" := token, "githubRepo" := repo, "defaultBranch" := branch, "defaultTargetPath" := targetPath]
  }

  /** The configuration assembled from the four answers, or nothing if a prompt never completes. */
  function Answers(defaults: PromptDefaults, typed: InitAnswers): (c: Option<map<string, string>>)
    ensures c.Some? <==> && Ask(typed.token, defaults.token, ValidToken).Some?
                         && Ask(typed.repo, defaults.repo, ValidRepo).Some?
                         && |typed.branch| > 0 && |typed.targetPath| > 0
    ensures c.Some? ==> && c.value.Keys == {"githubToken", "githubRepo", "defaultBranch", "defaultTargetPath"}
                        && ValidToken(c.value["githubToken"]) && ValidRepo(c.value["githubRepo"])
                        && c.value["githubToken"] == Ask(typed.token, defaults.token, ValidToken).value
                        && c.value["githubRepo"] == Ask(typed.repo, defaults.repo, ValidRepo).value
                        && c.value["defaultBranch"] == Resolve(typed.branch[0], Some(defaults.branch))
                        && c.value["defaultTargetPath"] == Resolve(typed.targetPath[0], Some(defaults.targetPath))
  {
    var token := Ask(typed.token, defaults.token, ValidToken);
    var repo := Ask(typed.repo, defaults.repo, ValidRepo);
    var branch := AskFirst(typed.branch, defaults.branch);
    var target := AskFirst(typed.targetPath, defaults.targetPath);
    if token.None? || repo.None? || branch.None? || target.None? then None
    else Some(SettingsMap(token.value, repo.value, branch.value, target.value))
  }

  datatype InitOutcome =
    | Abandoned              // a prompt never received an acceptable answer
    | AccessDenied           // exit status 1, nothing saved
    | SetupComplete

  datatype InitRun = InitRun(outcome: InitOutcome, file: Option<map<string, string>>)

  /** `handleInit` on the stored file `file`, the typed answers and the answer of the access
      check for a token and a split repository. */
  function InitEffect(file: Option<map<string, string>>, typed: InitAnswers,
                      canAccess: (string, RepoRef) -> bool): (r: InitRun)
    ensures r.outcome != SetupComplete ==> r.file == file
    ensures r.outcome == Abandoned <==>
              Answers(DefaultsFor(if file.Some? then Some(MergeDefaults(file.value)) else None), typed).None?
    ensures r.outcome == AccessDenied <==>
              var c := Answers(DefaultsFor(if file.Some? then Some(MergeDefaults(file.value)) else None), typed);
              c.Some? && !canAccess(c.value["githubToken"], ParseRepo(c.value["githubRepo"]))
    ensures r.outcome == SetupComplete <==>
              var c := Answers(DefaultsFor(if file.Some? then Some(MergeDefaults(file.value)) else None), typed);
              c.Some? && canAccess(c.value["githubToken"], ParseRepo(c.value["githubRepo"]))
    ensures r.outcome == SetupComplete ==>
              && r.file == Answers(DefaultsFor(if file.Some? then Some(MergeDefaults(file.value)) else None), typed)
              && ValidToken(r.file.value["githubToken"]) && ValidRepo(r.file.value["githubRepo"])
  {
    var existing := if file.Some? then Some(MergeDefaults(file.value)) else None;
    match Answers(DefaultsFor(existing), typed)
    case None => InitRun(Abandoned, file)
    case Some(c) =>
      if canAccess(c["githubToken"], ParseRepo(c["githubRepo"])) then InitRun(SetupComplete, Some(c))
      else InitRun(AccessDenied, file)
  }

  /** The exit status of `cdst init`: 1 when the access check fails, 0 after a completed setup,
      and none while a prompt is still waiting for an acceptable answer. */
  function InitExitCode(out: InitOutcome): (code: Option<int>)
    ensures code == Some(1) <==> out == AccessDenied
    ensures code == Some(0) <==> out == SetupComplete
    ensures code.None? <==> out == Abandoned
  {
    match out
    case Abandoned => None
    case AccessDenied => Some(1)
    case SetupComplete => Some(0)
  }

  /** A configuration that setup saves has a repository that splits into owner and name. */
  lemma SavedRepoSplits(file: Option<map<string, string>>, typed: InitAnswers, canAccess: (string, RepoRef) -> bool)
    requires InitEffect(file, typed, canAccess).outcome == SetupComplete
    ensures var repo := InitEffect(file, typed, canAccess).file.value["githubRepo"];
            ParseRepo(repo).name.Some? && ParseRepo(repo).owner + "/" + ParseRepo(repo).name.value == repo
  {
    ValidRepoRoundTrip(InitEffect(file, typed, canAccess).file.value["githubRepo"]);
  }

  /** Pressing enter at every question of a first setup gives the stated defaults; the token
      and repository have none, so they must be typed. */
  lemma FirstSetupDefaults(token: string, repo: string)
    requires ValidToken(token) && ValidRepo(repo)
    ensures Answers(DefaultsFor(None), InitAnswers([token], [repo], [""], [""])) ==
              Some(SettingsMap(token, repo, "main", "snippets"))
  {
  }

  /** `handleInit` against the files of `store`. */
  method HandleInit(store: Store, typed: InitAnswers, canAccess: (string, RepoRef) -> bool) returns (out: InitOutcome)
    modifies store
    ensures InitRun(out, store.configFile) == InitEffect(old(store.configFile), typed, canAccess)
    ensures store.historyFile == old(store.historyFile)
  {
    var existing := store.LoadConfig();
    var answers := Answers(DefaultsFor(existing), typed);
    if answers.None? {
      return Abandoned;
    }
    var config := answers.value;
    if !canAccess(config["githubToken"], ParseRepo(config["githubRepo"])) {
      return AccessDenied;
    }
    store.SaveConfig(config);
    return SetupComplete;
  }
}
