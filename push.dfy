/**
 * `cdst push` (src/commands/push.ts): for each named file in turn, read it, skip it if the
 * ledger already holds its digest, generalize it, skip it if the target already exists, ask,
 * write it, and record the push. `Step` and `Run` are the specification of one file and of
 * the loop; `Workflow.HandlePush` performs the loop on mutable state and is proved to agree
 * with them.
 */
module Push {
  import opened Wrappers
  import opened Text
  import opened Types
  import opened FileReader
  import opened Claude
  import opened GitHub
  import opened ConfigStore

  /** Why a file was passed over. */
  datatype SkipReason =
    | AlreadyPushed(priorTarget: string, priorPushedAt: string)
    | AlreadyExists(target: string)
    | Declined

  /** The observable effects, in the order they happen. */
  datatype Effect =
    | Generalized(request: GeneralizationRequest)   // the external model was run
    | Checked(target: string)                       // an existence check of the target was attempted
    | Asked(target: string)                         // the user was asked to confirm
    | Wrote(write: WriteRequest)                    // a create-or-update call was sent
    | Recorded(record: PushRecord)                  // the ledger was extended
    | Skipped(reason: SkipReason)

  /** Everything outside the program: the files on disk, path resolution, hashing, the
      external model and the JSON parser, base64, the write call of the repository API, the
      answer to the confirmation for the i-th file, and the clock when the i-th file is recorded. */
  datatype Env = Env(
    disk: map<string, FileEntry>,
    resolve: string -> string,
    sha256: string -> string,
    claude: string -> Option<string>,
    parse: string -> Option<ParsedReply>,
    encode: string -> string,
    decode: string -> string,
    put: WriteRequest -> WriteResponse,
    confirm: nat -> bool,
    clock: nat -> string)

  /** The ledger, the repository's files by path, and the effects so far. */
  datatype World = World(history: seq<PushRecord>, remote: map<string, ContentResponse>, trace: seq<Effect>)

  datatype Progress = Running(w: World) | Stopped(w: World, error: Error)

  /** The repository answers a lookup from its files; a path it has no file for is a 404. */
  function Lookup(remote: map<string, ContentResponse>): ContentRequest -> ContentResponse {
    (req: ContentRequest) => if req.path in remote then remote[req.path] else Failed(RequestError(404))
  }

  /** An accepted write leaves a file at the path with the new digest and the sent body. */
  function RemoteAfter(remote: map<string, ContentResponse>, req: WriteRequest, resp: WriteResponse): (r: map<string, ContentResponse>)
    ensures resp.Accepted? ==> r == remote[req.path := Found(Item("file", resp.contentSha, req.content))]
    ensures resp.WriteFailed? ==> r == remote
  {
    if resp.Accepted? then remote[req.path := Found(Item("file", resp.contentSha, req.content))] else remote
  }

  /** `[targetPath ?? defaultTargetPath, category, filename].join("/")`. */
  function TargetPath(targetPath: Option<string>, config: Config, result: GeneralizationResult): (t: string)
    ensures t == targetPath.GetOr(config.defaultTargetPath) + "/" + result.suggestedCategory + "/" + result.suggestedFilename
  {
    var parts := [targetPath.GetOr(config.defaultTargetPath), result.suggestedCategory, result.suggestedFilename];
    assert Join(parts, '/') == parts[0] + "/" + Join(parts[1..], '/');
    assert Join(parts[1..], '/') == parts[1] + "/" + Join(parts[2..], '/');
    Join(parts, '/')
  }

  /** Example: default path `snippets`, category `utils`, name `print-example.py`. */
  lemma ExampleTargetPath(config: Config, result: GeneralizationResult)
    requires config.defaultTargetPath == "snippets"
    requires result.suggestedCategory == "utils" && result.suggestedFilename == "print-example.py"
    ensures TargetPath(None, config, result) == "snippets/utils/print-example.py"
  {
  }

  /** The user's message, or `Add <filename>: <description>`. */
  function CommitMessage(message: Option<string>, result: GeneralizationResult): (m: string)
    ensures message.Some? ==> m == message.value
    ensures message.None? ==> m == "Add " + result.suggestedFilename + ": " + result.description
  {
    message.GetOr("Add " + result.suggestedFilename + ": " + result.description)
  }

  function AbsolutePath(args: PushCommandArgs, env: Env, i: nat): string
    requires i < |args.filePaths|
  {
    env.resolve(args.filePaths[i])
  }

  function RequestFor(path: string, source: string): (req: GeneralizationRequest)
    ensures req.sourceCode == source && req.filePath == path && req.language == DetectLanguage(path)
  {
    GeneralizationRequest(source, path, DetectLanguage(path))
  }

  function AddEffect(w: World, e: Effect): World {
    w.(trace := w.trace + [e])
  }

  // ---------------------------------------------------------------------------------------
  // One file
  // ---------------------------------------------------------------------------------------

  /** The i-th file of the loop, from the world `w`. */
  function Step(config: Config, args: PushCommandArgs, env: Env, i: nat, w: World): Progress
    requires i < |args.filePaths|
  {
    var path := AbsolutePath(args, env, i);
    match ReadSourceFile(env.disk, path)
    case Err(e) => Stopped(w, e)
    case Ok(source) =>
      var hash := env.sha256(source);
      var prior := FindFirst(w.history, hash);
      if prior.Some? && !args.force then
        Running(AddEffect(w, Skipped(AlreadyPushed(prior.value.targetPath, prior.value.pushedAt))))
      else
        Generalizing(config, args, env, i, w, path, source)
  }

  /** The model call. */
  function Generalizing(config: Config, args: PushCommandArgs, env: Env, i: nat, w: World,
                        path: string, source: string): Progress
  {
    var req := RequestFor(path, source);
    var w1 := AddEffect(w, Generalized(req));
    match Generalize(req, env.claude, env.parse)
    case Err(e) => Stopped(w1, e)
    case Ok(result) => Checking(config, args, env, i, w1, path, source, result)
  }

  /** The existence check of the target. */
  function Checking(config: Config, args: PushCommandArgs, env: Env, i: nat, w: World,
                    path: string, source: string, result: GeneralizationResult): Progress
  {
    var target := TargetPath(args.targetPath, config, result);
    var w1 := AddEffect(w, Checked(target));
    match CheckFileExists(config, target, Lookup(w.remote), env.decode)
    case Err(e) => Stopped(w1, e)
    case Ok(check) =>
      if check.fileExists && !args.force then Running(AddEffect(w1, Skipped(AlreadyExists(target))))
      else Delivering(config, args, env, i, w1, path, source, result, target, check)
  }

  /** From the confirmation to the ledger. */
  function Delivering(config: Config, args: PushCommandArgs, env: Env, i: nat, w: World, path: string,
                      source: string, result: GeneralizationResult, target: string, check: GitHubFileCheck): Progress
  {
    var w1 := AddEffect(w, Asked(target));
    if !env.confirm(i) then Running(AddEffect(w1, Skipped(Declined)))
    else
      match WriteRequestFor(config, target, result.generalizedCode, CommitMessage(args.message, result), check.sha, env.encode)
      case Err(e) => Stopped(w1, e)
      case Ok(req) =>
        var resp := env.put(req);
        var w2 := AddEffect(w1, Wrote(req)).(remote := RemoteAfter(w1.remote, req, resp));
        match PushResultOf(resp)
        case Err(e) => Stopped(w2, e)
        case Ok(pushed) =>
          var record := PushRecord(path, target, pushed.commitSha, env.clock(i), env.sha256(source));
          Running(AddEffect(w2.(history := w2.history + [record]), Recorded(record)))
  }

  /** `w'` extends `w`, and holds at most one more record, which is then one of `path` with
      digest `hash`. */
  predicate Advances(w: World, w': World, path: string, hash: string) {
    && Grows(w, w')
    && |w'.history| <= |w.history| + 1
    && (|w'.history| == |w.history| + 1 ==> RecordedAs(w, w', path, hash))
  }

  lemma AdvancesTrans(a: World, b: World, c: World, path: string, hash: string)
    requires Grows(a, b) && |b.history| == |a.history| && Advances(b, c, path, hash)
    ensures Advances(a, c, path, hash)
  {
    GrowsTrans(a, b, c);
    assert b.history == a.history by {
      assert b.history[..|a.history|] == b.history;
    }
  }

  /** One file only adds effects, and adds at most one record: one of its own path, carrying
      the digest of what was read. */
  lemma StepAdvances(config: Config, args: PushCommandArgs, env: Env, i: nat, w: World)
    requires i < |args.filePaths|
    ensures var p := Step(config, args, env, i, w);
            && Grows(w, p.w) && |p.w.history| <= |w.history| + 1
            && (|p.w.history| == |w.history| + 1 ==>
                  && ReadSourceFile(env.disk, AbsolutePath(args, env, i)).Ok?
                  && RecordedAs(w, p.w, AbsolutePath(args, env, i),
                                env.sha256(ReadSourceFile(env.disk, AbsolutePath(args, env, i)).value)))
  {
    var path := AbsolutePath(args, env, i);
    match ReadSourceFile(env.disk, path)
    case Err(e) =>
      GrowsRefl(w);
    case Ok(source) =>
      var prior := FindFirst(w.history, env.sha256(source));
      if prior.Some? && !args.force {
        AddEffectGrows(w, Skipped(AlreadyPushed(prior.value.targetPath, prior.value.pushedAt)));
      } else {
        GeneralizingAdvances(config, args, env, i, w, path, source);
      }
  }

  lemma GeneralizingAdvances(config: Config, args: PushCommandArgs, env: Env, i: nat, w: World,
                             path: string, source: string)
    ensures Advances(w, Generalizing(config, args, env, i, w, path, source).w, path, env.sha256(source))
  {
    var req := RequestFor(path, source);
    var w1 := AddEffect(w, Generalized(req));
    AddEffectGrows(w, Generalized(req));
    match Generalize(req, env.claude, env.parse)
    case Err(e) =>
    case Ok(result) =>
      CheckingAdvances(config, args, env, i, w1, path, source, result);
      AdvancesTrans(w, w1, Checking(config, args, env, i, w1, path, source, result).w, path, env.sha256(source));
  }

  lemma CheckingAdvances(config: Config, args: PushCommandArgs, env: Env, i: nat, w: World,
                         path: string, source: string, result: GeneralizationResult)
    ensures Advances(w, Checking(config, args, env, i, w, path, source, result).w, path, env.sha256(source))
  {
    var target := TargetPath(args.targetPath, config, result);
    var w1 := AddEffect(w, Checked(target));
    AddEffectGrows(w, Checked(target));
    match CheckFileExists(config, target, Lookup(w.remote), env.decode)
    case Err(e) =>
    case Ok(check) =>
      if check.fileExists && !args.force {
        AddEffectGrows(w1, Skipped(AlreadyExists(target)));
        GrowsTrans(w, w1, AddEffect(w1, Skipped(AlreadyExists(target))));
      } else {
        DeliveringAdvances(config, args, env, i, w1, path, source, result, target, check);
        AdvancesTrans(w, w1, Delivering(config, args, env, i, w1, path, source, result, target, check).w,
                      path, env.sha256(source));
      }
  }

  lemma DeliveringAdvances(config: Config, args: PushCommandArgs, env: Env, i: nat, w: World, path: string,
                           source: string, result: GeneralizationResult, target: string, check: GitHubFileCheck)
    ensures Advances(w, Delivering(config, args, env, i, w, path, source, result, target, check).w,
                     path, env.sha256(source))
  {
    var w1 := AddEffect(w, Asked(target));
    AddEffectGrows(w, Asked(target));
    if !env.confirm(i) {
      AddEffectGrows(w1, Skipped(Declined));
      GrowsTrans(w, w1, AddEffect(w1, Skipped(Declined)));
    } else {
      match WriteRequestFor(config, target, result.generalizedCode, CommitMessage(args.message, result), check.sha, env.encode)
      case Err(e) =>
      case Ok(req) =>
        var resp := env.put(req);
        var w2 := AddEffect(w1, Wrote(req)).(remote := RemoteAfter(w1.remote, req, resp));
        AddEffectGrows(w1, Wrote(req));
        GrowsTrans(w, w1, w2);
        match PushResultOf(resp)
        case Err(e) =>
        case Ok(pushed) =>
          var record := PushRecord(path, target, pushed.commitSha, env.clock(i), env.sha256(source));
          var w3 := AddEffect(w2.(history := w2.history + [record]), Recorded(record));
          assert w3.history[..|w.history|] == w.history;
          assert w3.trace[..|w.trace|] == w.trace by {
            assert w3.trace == w.trace + [Asked(target), Wrote(req), Recorded(record)];
          }
    }
  }

  /** The ledger only ever gains records at its end, and the effects only ever grow. */
  predicate Grows(w: World, w': World) {
    && |w.history| <= |w'.history| && w'.history[..|w.history|] == w.history
    && |w.trace| <= |w'.trace| && w'.trace[..|w.trace|] == w.trace
  }

  /** `w'` holds the records of `w` and then one record of `path` with digest `hash`. */
  predicate RecordedAs(w: World, w': World, path: string, hash: string) {
    && |w'.history| == |w.history| + 1 && w'.history[..|w.history|] == w.history
    && w'.history[|w.history|].originalPath == path && w'.history[|w.history|].contentHash == hash
  }

  /** A record just added is found by its digest. */
  lemma FoundWhenRecorded(w: World, w': World, path: string, hash: string)
    requires RecordedAs(w, w', path, hash)
    ensures FindFirst(w'.history, hash).Some?
  {
    var r := w'.history[|w.history|];
    assert w'.history == w.history + [r];
    FoundAfterAppend(w.history, r);
  }

  lemma GrowsRefl(w: World)
    ensures Grows(w, w)
  {
    assert w.history[..|w.history|] == w.history && w.trace[..|w.trace|] == w.trace;
  }

  lemma GrowsTrans(a: World, b: World, c: World)
    requires Grows(a, b) && Grows(b, c)
    ensures Grows(a, c)
  {
    assert c.history[..|a.history|] == c.history[..|b.history|][..|a.history|];
    assert c.trace[..|a.trace|] == c.trace[..|b.trace|][..|a.trace|];
  }

  lemma AddEffectGrows(w: World, e: Effect)
    ensures Grows(w, AddEffect(w, e))
  {
    assert AddEffect(w, e).trace[..|w.trace|] == w.trace;
  }

  // ---------------------------------------------------------------------------------------
  // What each guard decides
  // ---------------------------------------------------------------------------------------

  /** A file that was read and is not a duplicate (or is forced) goes on to the model call. */
  lemma StepGeneralizes(config: Config, args: PushCommandArgs, env: Env, i: nat, w: World, source: string)
    requires i < |args.filePaths|
    requires ReadSourceFile(env.disk, AbsolutePath(args, env, i)) == Ok(source)
    requires args.force || FindFirst(w.history, env.sha256(source)).None?
    ensures Step(config, args, env, i, w) == Generalizing(config, args, env, i, w, AbsolutePath(args, env, i), source)
  {
  }

  /** A successful model call goes on to the existence check. */
  lemma GeneralizingChecks(config: Config, args: PushCommandArgs, env: Env, i: nat, w: World,
                           path: string, source: string, result: GeneralizationResult)
    requires Generalize(RequestFor(path, source), env.claude, env.parse) == Ok(result)
    ensures Generalizing(config, args, env, i, w, path, source) ==
              Checking(config, args, env, i, AddEffect(w, Generalized(RequestFor(path, source))), path, source, result)
  {
  }

  /** A successful check of a target that is new (or forced) goes on to the confirmation. */
  lemma CheckingDelivers(config: Config, args: PushCommandArgs, env: Env, i: nat, w: World,
                         path: string, source: string, result: GeneralizationResult, check: GitHubFileCheck)
    requires CheckFileExists(config, TargetPath(args.targetPath, config, result), Lookup(w.remote), env.decode) == Ok(check)
    requires args.force || !check.fileExists
    ensures var target := TargetPath(args.targetPath, config, result);
            Checking(config, args, env, i, w, path, source, result) ==
              Delivering(config, args, env, i, AddEffect(w, Checked(target)), path, source, result, target, check)
  {
  }

  /** The world three effects on. */
  lemma ThreeEffects(w: World, e1: Effect, e2: Effect, e3: Effect)
    ensures AddEffect(AddEffect(AddEffect(w, e1), e2), e3) == w.(trace := w.trace + [e1, e2, e3])
  {
    assert w.trace + [e1] + [e2] + [e3] == w.trace + [e1, e2, e3];
  }

  /** The world four effects on. */
  lemma FourEffects(w: World, e1: Effect, e2: Effect, e3: Effect, e4: Effect)
    ensures AddEffect(AddEffect(AddEffect(AddEffect(w, e1), e2), e3), e4) == w.(trace := w.trace + [e1, e2, e3, e4])
  {
    assert w.trace + [e1] + [e2] + [e3] + [e4] == w.trace + [e1, e2, e3, e4];
  }

  /** Two effects added one at a time and then two more added together. */
  lemma TwoThenTwo(w: World, e1: Effect, e2: Effect, e3: Effect, e4: Effect)
    ensures AddEffect(AddEffect(w, e1), e2).trace + [e3, e4] == w.trace + [e1, e2, e3, e4]
  {
    assert w.trace + [e1] + [e2] + [e3, e4] == w.trace + [e1, e2, e3, e4];
  }

  /** A file whose digest is already in the ledger is passed over, without a force, before
      anything else happens: no model call, no existence check, no write, no record. */
  lemma DuplicateIsSkipped(config: Config, args: PushCommandArgs, env: Env, i: nat, w: World, source: string)
    requires i < |args.filePaths|
    requires ReadSourceFile(env.disk, AbsolutePath(args, env, i)) == Ok(source)
    requires !args.force && FindFirst(w.history, env.sha256(source)).Some?
    ensures var prior := FindFirst(w.history, env.sha256(source)).value;
            var p := Step(config, args, env, i, w);
            && p.Running? && p.w.history == w.history && p.w.remote == w.remote
            && p.w.trace == w.trace + [Skipped(AlreadyPushed(prior.targetPath, prior.pushedAt))]
  {
  }

  /** A target that already exists is passed over, without a force, after the model call and
      the check: no confirmation, no write, no record. */
  lemma ExistingIsSkipped(config: Config, args: PushCommandArgs, env: Env, i: nat, w: World,
                          source: string, result: GeneralizationResult, check: GitHubFileCheck)
    requires i < |args.filePaths|
    requires ReadSourceFile(env.disk, AbsolutePath(args, env, i)) == Ok(source)
    requires !args.force && FindFirst(w.history, env.sha256(source)).None?
    requires Generalize(RequestFor(AbsolutePath(args, env, i), source), env.claude, env.parse) == Ok(result)
    requires CheckFileExists(config, TargetPath(args.targetPath, config, result), Lookup(w.remote), env.decode) == Ok(check)
    requires check.fileExists
    ensures var target := TargetPath(args.targetPath, config, result);
            var p := Step(config, args, env, i, w);
            && p.Running? && p.w.history == w.history && p.w.remote == w.remote
            && p.w.trace == w.trace + [Generalized(RequestFor(AbsolutePath(args, env, i), source)),
                                       Checked(target), Skipped(AlreadyExists(target))]
  {
    var path := AbsolutePath(args, env, i);
    var target := TargetPath(args.targetPath, config, result);
    var w1 := AddEffect(w, Generalized(RequestFor(path, source)));
    StepGeneralizes(config, args, env, i, w, source);
    GeneralizingChecks(config, args, env, i, w, path, source, result);
    assert Checking(config, args, env, i, w1, path, source, result) ==
           Running(AddEffect(AddEffect(w1, Checked(target)), Skipped(AlreadyExists(target))));
    ThreeEffects(w, Generalized(RequestFor(path, source)), Checked(target), Skipped(AlreadyExists(target)));
  }

  /** A declined confirmation writes nothing and records nothing. */
  lemma DeclinedIsSkipped(config: Config, args: PushCommandArgs, env: Env, i: nat, w: World,
                          source: string, result: GeneralizationResult, check: GitHubFileCheck)
    requires i < |args.filePaths|
    requires ReadSourceFile(env.disk, AbsolutePath(args, env, i)) == Ok(source)
    requires args.force || FindFirst(w.history, env.sha256(source)).None?
    requires Generalize(RequestFor(AbsolutePath(args, env, i), source), env.claude, env.parse) == Ok(result)
    requires CheckFileExists(config, TargetPath(args.targetPath, config, result), Lookup(w.remote), env.decode) == Ok(check)
    requires args.force || !check.fileExists
    requires !env.confirm(i)
    ensures var target := TargetPath(args.targetPath, config, result);
            var p := Step(config, args, env, i, w);
            && p.Running? && p.w.history == w.history && p.w.remote == w.remote
            && p.w.trace == w.trace + [Generalized(RequestFor(AbsolutePath(args, env, i), source)),
                                       Checked(target), Asked(target), Skipped(Declined)]
  {
    var path := AbsolutePath(args, env, i);
    var target := TargetPath(args.targetPath, config, result);
    var w1 := AddEffect(w, Generalized(RequestFor(path, source)));
    var w2 := AddEffect(w1, Checked(target));
    StepGeneralizes(config, args, env, i, w, source);
    GeneralizingChecks(config, args, env, i, w, path, source, result);
    CheckingDelivers(config, args, env, i, w1, path, source, result, check);
    assert Delivering(config, args, env, i, w2, path, source, result, target, check) ==
           Running(AddEffect(AddEffect(w2, Asked(target)), Skipped(Declined)));
    FourEffects(w, Generalized(RequestFor(path, source)), Checked(target), Asked(target), Skipped(Declined));
  }

  /** A confirmed file is written with the digest the check returned (none for a new file),
      on the default branch, under the commit message; an accepted write then adds exactly one
      record, carrying the digest of the source, the target and the commit. */
  lemma ConfirmedIsWritten(config: Config, args: PushCommandArgs, env: Env, i: nat, w: World,
                           source: string, result: GeneralizationResult, check: GitHubFileCheck)
    requires i < |args.filePaths|
    requires ReadSourceFile(env.disk, AbsolutePath(args, env, i)) == Ok(source)
    requires args.force || FindFirst(w.history, env.sha256(source)).None?
    requires Generalize(RequestFor(AbsolutePath(args, env, i), source), env.claude, env.parse) == Ok(result)
    requires CheckFileExists(config, TargetPath(args.targetPath, config, result), Lookup(w.remote), env.decode) == Ok(check)
    requires args.force || !check.fileExists
    requires env.confirm(i)
    ensures config.githubRepo.Some?
    ensures var target := TargetPath(args.targetPath, config, result);
            var write := WriteRequestFor(config, target, result.generalizedCode, CommitMessage(args.message, result), check.sha, env.encode);
            && write.Ok?
            && write.value.sha == check.sha && (!check.fileExists ==> write.value.sha == None)
            && write.value.branch == config.defaultBranch && write.value.path == target
            && write.value.message == CommitMessage(args.message, result)
            && write.value.content == env.encode(result.generalizedCode)
    ensures var target := TargetPath(args.targetPath, config, result);
            var write := WriteRequestFor(config, target, result.generalizedCode, CommitMessage(args.message, result), check.sha, env.encode).value;
            var resp := env.put(write);
            var p := Step(config, args, env, i, w);
            var effects := w.trace + [Generalized(RequestFor(AbsolutePath(args, env, i), source)),
                                      Checked(target), Asked(target), Wrote(write)];
            && p.w.remote == RemoteAfter(w.remote, write, resp)
            && (resp.Accepted? ==>
                  var record := PushRecord(AbsolutePath(args, env, i), target, resp.commitSha, env.clock(i), env.sha256(source));
                  p == Running(World(w.history + [record], p.w.remote, effects + [Recorded(record)])))
            && (resp.WriteFailed? ==> p == Stopped(World(w.history, p.w.remote, effects), Remote(resp.error)))
  {
    var path := AbsolutePath(args, env, i);
    var target := TargetPath(args.targetPath, config, result);
    var w1 := AddEffect(w, Generalized(RequestFor(path, source)));
    var w2 := AddEffect(w1, Checked(target));
    WriteCarriesCheckedSha(config, target, Lookup(w.remote), env.decode, check,
                           result.generalizedCode, CommitMessage(args.message, result), env.encode);
    StepGeneralizes(config, args, env, i, w, source);
    GeneralizingChecks(config, args, env, i, w, path, source, result);
    CheckingDelivers(config, args, env, i, w1, path, source, result, check);
    ConfirmedDelivery(config, args, env, i, w2, path, source, result, target, check);
    var write := WriteRequestFor(config, target, result.generalizedCode, CommitMessage(args.message, result), check.sha, env.encode).value;
    TwoThenTwo(w, Generalized(RequestFor(path, source)), Checked(target), Asked(target), Wrote(write));
  }

  /** The write request of a file whose check succeeded. */
  lemma WriteCarriesCheckedSha(config: Config, target: string, getContent: ContentRequest -> ContentResponse,
                               decode: string -> string, check: GitHubFileCheck, content: string, message: string,
                               encode: string -> string)
    requires CheckFileExists(config, target, getContent, decode) == Ok(check)
    ensures config.githubRepo.Some?
    ensures !check.fileExists ==> check.sha == None
    ensures var write := WriteRequestFor(config, target, content, message, check.sha, encode);
            && write.Ok? && write.value.sha == check.sha
            && write.value.branch == config.defaultBranch && write.value.path == target
            && write.value.message == message && write.value.content == encode(content)
  {
  }

  /** The last stage of a confirmed file. */
  lemma ConfirmedDelivery(config: Config, args: PushCommandArgs, env: Env, i: nat, w: World, path: string,
                          source: string, result: GeneralizationResult, target: string, check: GitHubFileCheck)
    requires env.confirm(i) && config.githubRepo.Some?
    ensures var write := WriteRequestFor(config, target, result.generalizedCode, CommitMessage(args.message, result), check.sha, env.encode).value;
            var resp := env.put(write);
            var p := Delivering(config, args, env, i, w, path, source, result, target, check);
            var effects := w.trace + [Asked(target), Wrote(write)];
            && p.w.remote == RemoteAfter(w.remote, write, resp)
            && (resp.Accepted? ==>
                  var record := PushRecord(path, target, resp.commitSha, env.clock(i), env.sha256(source));
                  p == Running(World(w.history + [record], p.w.remote, effects + [Recorded(record)])))
            && (resp.WriteFailed? ==> p == Stopped(World(w.history, p.w.remote, effects), Remote(resp.error)))
  {
    var write := WriteRequestFor(config, target, result.generalizedCode, CommitMessage(args.message, result), check.sha, env.encode).value;
    var w1 := AddEffect(w, Asked(target));
    var w2 := AddEffect(w1, Wrote(write)).(remote := RemoteAfter(w1.remote, write, env.put(write)));
    assert w2.trace == w.trace + [Asked(target), Wrote(write)];
    assert w2 == World(w.history, RemoteAfter(w.remote, write, env.put(write)), w.trace + [Asked(target), Wrote(write)]);
  }

  // ---------------------------------------------------------------------------------------
  // The loop
  // ---------------------------------------------------------------------------------------

  /** The first `n` files, from `w0`; the first error ends the loop, leaving the rest unread. */
  function Run(config: Config, args: PushCommandArgs, env: Env, n: nat, w0: World): (p: Progress)
    requires n <= |args.filePaths|
    decreases n
  {
    if n == 0 then Running(w0)
    else
      match Run(config, args, env, n - 1, w0)
      case Stopped(w, e) => Stopped(w, e)
      case Running(w) =>
        Step(config, args, env, n - 1, w)
  }

  /** Once a file fails, the later files change nothing. */
  lemma {:induction false} StoppedStaysStopped(config: Config, args: PushCommandArgs, env: Env, k: nat, n: nat, w0: World)
    requires k <= n <= |args.filePaths|
    requires Run(config, args, env, k, w0).Stopped?
    ensures Run(config, args, env, n, w0) == Run(config, args, env, k, w0)
    decreases n
  {
    if n > k {
      StoppedStaysStopped(config, args, env, k, n - 1, w0);
    }
  }

  /** Between any two points of the loop the ledger and the effects only grow. */
  lemma {:induction false} RunGrows(config: Config, args: PushCommandArgs, env: Env, k: nat, n: nat, w0: World)
    requires k <= n <= |args.filePaths|
    ensures Grows(Run(config, args, env, k, w0).w, Run(config, args, env, n, w0).w)
    decreases n
  {
    if n == k {
      GrowsRefl(Run(config, args, env, k, w0).w);
    } else {
      RunGrows(config, args, env, k, n - 1, w0);
      RunStepGrows(config, args, env, n - 1, w0);
      GrowsTrans(Run(config, args, env, k, w0).w, Run(config, args, env, n - 1, w0).w, Run(config, args, env, n, w0).w);
    }
  }

  /** One pass of the loop only grows the ledger and the effects. */
  lemma RunStepGrows(config: Config, args: PushCommandArgs, env: Env, n: nat, w0: World)
    requires n < |args.filePaths|
    ensures Grows(Run(config, args, env, n, w0).w, Run(config, args, env, n + 1, w0).w)
  {
    RunUnfold(config, args, env, n, w0);
    if Run(config, args, env, n, w0).Stopped? {
      GrowsRefl(Run(config, args, env, n, w0).w);
    } else {
      StepAdvances(config, args, env, n, Run(config, args, env, n, w0).w);
    }
  }

  /** A record added by an earlier file of the same run stops a later file with the same
      contents, without a force: that file is passed over as a duplicate. */
  lemma LaterCopyIsSkipped(config: Config, args: PushCommandArgs, env: Env, w0: World, i: nat, j: nat, source: string)
    requires i < j < |args.filePaths| && !args.force
    requires |Run(config, args, env, i + 1, w0).w.history| > |Run(config, args, env, i, w0).w.history|
    requires Run(config, args, env, j, w0).Running?
    requires ReadSourceFile(env.disk, AbsolutePath(args, env, j)) == Ok(source)
    requires ReadSourceFile(env.disk, AbsolutePath(args, env, i)).Ok?
    requires env.sha256(ReadSourceFile(env.disk, AbsolutePath(args, env, i)).value) == env.sha256(source)
    ensures var w := Run(config, args, env, j, w0).w;
            var prior := FindFirst(w.history, env.sha256(source));
            && prior.Some?
            && Step(config, args, env, j, w) ==
                 Running(AddEffect(w, Skipped(AlreadyPushed(prior.value.targetPath, prior.value.pushedAt))))
  {
    RecordedIsFoundLater(config, args, env, w0, i, j);
    DuplicateIsSkipped(config, args, env, j, Run(config, args, env, j, w0).w, source);
  }

  /** The digest of the i-th file, when it can be read. */
  function SourceHash(args: PushCommandArgs, env: Env, i: nat): string
    requires i < |args.filePaths| && ReadSourceFile(env.disk, AbsolutePath(args, env, i)).Ok?
  {
    env.sha256(ReadSourceFile(env.disk, AbsolutePath(args, env, i)).value)
  }

  /** The digest of a file recorded at pass `i` is in the ledger right after that pass. */
  lemma RecordedIsFoundNext(config: Config, args: PushCommandArgs, env: Env, w0: World, i: nat)
    requires i < |args.filePaths|
    requires |Run(config, args, env, i + 1, w0).w.history| > |Run(config, args, env, i, w0).w.history|
    ensures ReadSourceFile(env.disk, AbsolutePath(args, env, i)).Ok?
    ensures FindFirst(Run(config, args, env, i + 1, w0).w.history, SourceHash(args, env, i)).Some?
  {
    RecordingStep(config, args, env, i, w0);
    FoundWhenRecorded(Run(config, args, env, i, w0).w, Run(config, args, env, i + 1, w0).w, AbsolutePath(args, env, i),
                      env.sha256(ReadSourceFile(env.disk, AbsolutePath(args, env, i)).value));
  }

  /** The ledger after pass `i` is a prefix of the ledger at every later pass. */
  lemma {:induction false} GrowsAfter(config: Config, args: PushCommandArgs, env: Env, w0: World, i: nat, j: nat)
    requires i < j <= |args.filePaths|
    ensures Grows(Run(config, args, env, i + 1, w0).w, Run(config, args, env, j, w0).w)
  {
    RunGrows(config, args, env, i + 1, j, w0);
  }

  /** The digest of a file recorded at pass `i` is found in the ledger at every later pass. */
  lemma {:induction false} RecordedIsFoundLater(config: Config, args: PushCommandArgs, env: Env, w0: World, i: nat, j: nat)
    requires i < j <= |args.filePaths|
    requires |Run(config, args, env, i + 1, w0).w.history| > |Run(config, args, env, i, w0).w.history|
    ensures ReadSourceFile(env.disk, AbsolutePath(args, env, i)).Ok?
    ensures FindFirst(Run(config, args, env, j, w0).w.history, SourceHash(args, env, i)).Some?
  {
    RecordedIsFoundNext(config, args, env, w0, i);
    GrowsAfter(config, args, env, w0, i, j);
    FindFirstPrefix(Run(config, args, env, i + 1, w0).w.history, Run(config, args, env, j, w0).w.history,
                    SourceHash(args, env, i));
  }

  /** The rest of the loop from pass `i` on, from the progress `p` the first `i` passes made. */
  function RunFrom(config: Config, args: PushCommandArgs, env: Env, i: nat, p: Progress): Progress
    requires i <= |args.filePaths|
    decreases |args.filePaths| - i
  {
    if i == |args.filePaths| || p.Stopped? then p
    else RunFrom(config, args, env, i + 1, Step(config, args, env, i, p.w))
  }

  /** Running the first `i` files and then the rest is running them all. */
  lemma {:induction false} RunFromIsRun(config: Config, args: PushCommandArgs, env: Env, i: nat, w0: World)
    requires i <= |args.filePaths|
    ensures RunFrom(config, args, env, i, Run(config, args, env, i, w0)) == Run(config, args, env, |args.filePaths|, w0)
    decreases |args.filePaths| - i
  {
    if i < |args.filePaths| {
      if Run(config, args, env, i, w0).Stopped? {
        StoppedStaysStopped(config, args, env, i, |args.filePaths|, w0);
      } else {
        RunUnfold(config, args, env, i, w0);
        RunFromIsRun(config, args, env, i + 1, w0);
      }
    }
  }

  /** One more pass of the loop is one more step from a running state. */
  lemma RunUnfold(config: Config, args: PushCommandArgs, env: Env, n: nat, w0: World)
    requires n < |args.filePaths|
    ensures Run(config, args, env, n + 1, w0) ==
              if Run(config, args, env, n, w0).Stopped? then Run(config, args, env, n, w0)
              else Step(config, args, env, n, Run(config, args, env, n, w0).w)
  {
  }

  /** A pass of the loop that grew the ledger ran from a running state and added one record
      of its own file. */
  lemma RecordingStep(config: Config, args: PushCommandArgs, env: Env, i: nat, w0: World)
    requires i < |args.filePaths|
    requires |Run(config, args, env, i + 1, w0).w.history| > |Run(config, args, env, i, w0).w.history|
    ensures Run(config, args, env, i, w0).Running?
    ensures ReadSourceFile(env.disk, AbsolutePath(args, env, i)).Ok?
    ensures RecordedAs(Run(config, args, env, i, w0).w, Run(config, args, env, i + 1, w0).w, AbsolutePath(args, env, i),
                       env.sha256(ReadSourceFile(env.disk, AbsolutePath(args, env, i)).value))
  {
    RunUnfold(config, args, env, i, w0);
    StepAdvances(config, args, env, i, Run(config, args, env, i, w0).w);
  }

  // ---------------------------------------------------------------------------------------
  // The command
  // ---------------------------------------------------------------------------------------

  /** How `handlePush` ends: a missing configuration or no files exit with status 1 before
      any file is read; an error thrown while processing a file reaches `main`'s handler,
      which exits with status 1; otherwise the command returns normally. */
  datatype PushOutcome = NotConfigured | Usage | Finished | Aborted(error: Error)

  function PushExitCode(out: PushOutcome): (code: int)
    ensures code == 0 <==> out == Finished
    ensures code == 1 <==> out != Finished
  {
    if out == Finished then 0 else 1
  }

  /** The progress a pass reports: none on success, else the error it stopped with. */
  function Outcome(failure: Option<Error>, w: World): (p: Progress)
    ensures p.w == w
    ensures p.Running? <==> failure.None?
    ensures p.Stopped? ==> p.error == failure.value
  {
    if failure.None? then Running(w) else Stopped(w, failure.value)
  }

  /** The running command: the configuration and ledger files, the repository's files, and
      what has been done so far. */
  class Workflow {
    const store: Store
    var remote: map<string, ContentResponse>
    var trace: seq<Effect>

    constructor (store: Store, remote: map<string, ContentResponse>)
      ensures this.store == store && this.remote == remote && trace == []
    {
      this.store := store;
      this.remote := remote;
      trace := [];
    }

    function State(): World
      reads this, store
    {
      World(store.LoadHistory(), remote, trace)
    }

    /** `handlePush`. */
    method HandlePush(args: PushCommandArgs, env: Env) returns (out: PushOutcome)
      modifies this, store
      ensures store.configFile == old(store.configFile)
      ensures old(store.configFile).None? ==> out == NotConfigured && State() == old(State())
      ensures old(store.configFile).Some? && |args.filePaths| == 0 ==> out == Usage && State() == old(State())
      ensures old(store.configFile).Some? && |args.filePaths| > 0 ==>
                var p := Run(ConfigOf(MergeDefaults(old(store.configFile).value)), args, env, |args.filePaths|, old(State()));
                && State() == p.w
                && (p.Running? ==> out == Finished)
                && (p.Stopped? ==> out == Aborted(p.error))
    {
      var loaded := store.LoadConfig();
      if loaded.None? {
        return NotConfigured;
      }
      if |args.filePaths| == 0 {
        return Usage;
      }
      var config := ConfigOf(loaded.value);
      assert config == ConfigOf(MergeDefaults(old(store.configFile).value));
      var failure := PushAll(config, args, env);
      if failure.Some? {
        return Aborted(failure.value);
      }
      return Finished;
    }

    /** The loop over all the files, stopping at the first error. */
    method PushAll(config: Config, args: PushCommandArgs, env: Env) returns (failure: Option<Error>)
      modifies this, store
      ensures store.configFile == old(store.configFile)
      ensures Run(config, args, env, |args.filePaths|, old(State())) == Outcome(failure, State())
    {
      ghost var w0 := State();
      ghost var target := RunFrom(config, args, env, 0, Running(w0));
      var i: nat := 0;
      failure := None;
      while i < |args.filePaths| && failure.None?
        invariant i <= |args.filePaths|
        invariant store.configFile == old(store.configFile)
        invariant RunFrom(config, args, env, i, Outcome(failure, State())) == target
      {
        failure := PushOne(config, args, env, i);
        i := i + 1;
      }
      RunFromIsRun(config, args, env, 0, w0);
    }

    /** One pass of the loop body: the read, the ledger lookup, and the rest. */
    method PushOne(config: Config, args: PushCommandArgs, env: Env, i: nat) returns (failure: Option<Error>)
      requires i < |args.filePaths|
      modifies this, store
      ensures store.configFile == old(store.configFile)
      ensures Step(config, args, env, i, old(State())) ==
                Outcome(failure, State())
    {
      var path := env.resolve(args.filePaths[i]);
      var read := ReadSourceFile(env.disk, path);
      if read.Err? {
        return Some(read.error);
      }
      var source := read.value;
      var hash := env.sha256(source);
      var prior := store.FindExistingPush(hash);
      if prior.Some? && !args.force {
        trace := trace + [Skipped(AlreadyPushed(prior.value.targetPath, prior.value.pushedAt))];
        return None;
      }
      failure := GeneralizeOne(config, args, env, i, path, source);
    }

    /** The model call, the target path and the existence check. */
    method GeneralizeOne(config: Config, args: PushCommandArgs, env: Env, i: nat, path: string, source: string)
      returns (failure: Option<Error>)
      modifies this, store
      ensures store.configFile == old(store.configFile)
      ensures Generalizing(config, args, env, i, old(State()), path, source) ==
                Outcome(failure, State())
    {
      var request := RequestFor(path, source);
      trace := trace + [Generalized(request)];
      var generalized := Generalize(request, env.claude, env.parse);
      if generalized.Err? {
        return Some(generalized.error);
      }
      var result := generalized.value;
      var target := TargetPath(args.targetPath, config, result);
      trace := trace + [Checked(target)];
      var existing := CheckFileExists(config, target, Lookup(remote), env.decode);
      if existing.Err? {
        return Some(existing.error);
      }
      if existing.value.fileExists && !args.force {
        trace := trace + [Skipped(AlreadyExists(target))];
        return None;
      }
      failure := DeliverOne(config, args, env, i, path, source, result, target, existing.value);
    }

    /** The confirmation, the write and the ledger record. */
    method DeliverOne(config: Config, args: PushCommandArgs, env: Env, i: nat, path: string, source: string,
                      result: GeneralizationResult, target: string, check: GitHubFileCheck)
      returns (failure: Option<Error>)
      modifies this, store
      ensures store.configFile == old(store.configFile)
      ensures Delivering(config, args, env, i, old(State()), path, source, result, target, check) ==
                Outcome(failure, State())
    {
      trace := trace + [Asked(target)];
      if !env.confirm(i) {
        trace := trace + [Skipped(Declined)];
        return None;
      }
      var write := WriteRequestFor(config, target, result.generalizedCode, CommitMessage(args.message, result), check.sha, env.encode);
      if write.Err? {
        return Some(write.error);
      }
      var response := env.put(write.value);
      trace := trace + [Wrote(write.value)];
      remote := RemoteAfter(remote, write.value, response);
      var pushed := PushResultOf(response);
      if pushed.Err? {
        return Some(pushed.error);
      }
      var record := PushRecord(path, target, pushed.value.commitSha, env.clock(i), env.sha256(source));
      store.AddHistoryRecord(record);
      trace := trace + [Recorded(record)];
      return None;
    }
  }
}
