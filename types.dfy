/**
 * The records the commands pass between each other (src/types.ts), and the errors
 * that the program throws, as values.
 */
module Types {
  import opened Wrappers

  /** The configuration as the commands see it after loading. The declared record has four
      string fields, but loading casts an unchecked JSON object, so a file edited by hand may
      lack the token or the repository; the two default-bearing fields are always present. */
  datatype Config = Config(
    githubToken: Option<string>,
    githubRepo: Option<string>,
    defaultBranch: string,
    defaultTargetPath: string)

  datatype GeneralizationRequest = GeneralizationRequest(sourceCode: string, filePath: string, language: string)

  datatype GeneralizationResult = GeneralizationResult(
    originalPath: string,
    language: string,
    generalizedCode: string,
    suggestedFilename: string,
    suggestedCategory: string,
    description: string,
    warnings: seq<string>)

  datatype GitHubPushResult = GitHubPushResult(commitSha: string, fileUrl: string, commitUrl: string)

  datatype GitHubFileCheck = GitHubFileCheck(fileExists: bool, sha: Option<string>, content: Option<string>)

  /** One ledger entry: a file that was pushed, keyed by the digest of its contents. */
  datatype PushRecord = PushRecord(
    originalPath: string,
    targetPath: string,
    commitSha: string,
    pushedAt: string,
    contentHash: string)

  datatype OutputFormat = Terminal | Markdown

  datatype PreviewCommandArgs = PreviewCommandArgs(filePaths: seq<string>, outputFormat: OutputFormat)

  datatype PushCommandArgs = PushCommandArgs(
    filePaths: seq<string>,
    targetPath: Option<string>,
    message: Option<string>,
    force: bool)

  datatype ConfigCommandArgs = ConfigCommandArgs(key: Option<string>, value: Option<string>, list: bool)

  /** What `JSON.parse` yields for a model reply; `warnings` may be absent. */
  datatype ParsedReply = ParsedReply(
    generalizedCode: string,
    suggestedFilename: string,
    suggestedCategory: string,
    description: string,
    warnings: Option<seq<string>>)

  /** An error thrown by the repository API client: a request error with an HTTP status,
      or anything else (a network failure, for one). */
  datatype RemoteError = RequestError(status: int) | OtherError(message: string)

  /** Everything the program throws. */
  datatype Error =
    | FileNotFound(path: string)
    | FileTooLarge(path: string, sizeKb: nat)
    | GenerationFailed            // the external model process failed, timed out or overflowed
    | ExtractionFailed            // no JSON could be recovered from the reply
    | InvalidJson                 // the recovered text did not parse
    | RepoNotConfigured           // `githubRepo` is absent, so splitting it throws
    | Remote(cause: RemoteError)  // an API error passed on unchanged
}
