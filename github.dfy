/**
 * The repository gateway (src/services/github.ts), without the API client it wraps: how the
 * `owner/repo` setting is split, how a contents lookup is turned into a file check, and how
 * a write request is built and its response read back. The API itself is a pair of
 * functions from request to response; base64 is a pair of functions on strings.
 */
module GitHub {
  import opened Wrappers
  import opened Text
  import opened Types

  /** The two halves of `owner/repo`; `name` is absent when the text has no `/`. */
  datatype RepoRef = RepoRef(owner: string, name: Option<string>)

  /** `parseRepo`: the first two pieces of `repo.split("/")`. */
  function ParseRepo(repo: string): (r: RepoRef)
    ensures '/' !in r.owner
    ensures '/' !in repo ==> r == RepoRef(repo, None)
    ensures '/' in repo ==>
              && r.name.Some? && '/' !in r.name.value
              && StartsWith(repo, r.owner + "/" + r.name.value)
              && var n := |r.owner| + 1 + |r.name.value|;
                 n == |repo| || repo[n] == '/'
  {
    var parts := Split(repo, '/');
    if |parts| == 1 then
      assert repo == parts[0];
      RepoRef(parts[0], None)
    else
      ParseRepoPieces(repo, parts);
      RepoRef(parts[0], Some(parts[1]))
  }

  lemma ParseRepoPieces(repo: string, parts: seq<string>)
    requires |parts| >= 2 && repo == Join(parts, '/')
    ensures '/' in repo
    ensures StartsWith(repo, parts[0] + "/" + parts[1])
    ensures var n := |parts[0]| + 1 + |parts[1]|; n == |repo| || repo[n] == '/'
  {
    var p0, p1 := parts[0], parts[1];
    var head := p0 + "/" + p1;
    var tail := Join(parts[1..], '/');
    assert repo == p0 + "/" + tail;
    assert repo[|p0|] == '/';
    if |parts| == 2 {
      assert repo == head by { assert tail == p1; }
    } else {
      var more := Join(parts[2..], '/');
      assert repo == head + "/" + more by { assert tail == p1 + "/" + more; }
      SlashAfter(repo, head, more);
    }
  }

  lemma SlashAfter(s: string, head: string, more: string)
    requires s == head + "/" + more
    ensures StartsWith(s, head) && s[|head|] == '/'
  {
    assert s[..|head|] == head;
  }

  /** Text with exactly one `/` splits into the text on either side of it. */
  lemma ParseRepoRoundTrip(owner: string, name: string)
    requires '/' !in owner && '/' !in name
    ensures ParseRepo(owner + "/" + name) == RepoRef(owner, Some(name))
  {
    assert owner + "/" + name == Join([owner, name], '/');
    SplitJoin([owner, name], '/');
  }

  /** `parseRepo(config.githubRepo)`: a configuration without a repository makes the split
      throw, before any request is sent. */
  function RepoOf(config: Config): (r: Result<RepoRef, Error>)
    ensures r.Err? <==> config.githubRepo.None?
    ensures r.Err? ==> r.error == RepoNotConfigured
    ensures r.Ok? ==> r.value == ParseRepo(config.githubRepo.value)
  {
    match config.githubRepo
    case None => Err(RepoNotConfigured)
    case Some(repo) => Ok(ParseRepo(repo))
  }

  // ---------------------------------------------------------------------------------------
  // checkFileExists
  // ---------------------------------------------------------------------------------------

  datatype ContentRequest = ContentRequest(owner: string, repo: Option<string>, path: string, ref: string)

  /** What a contents lookup can answer: a directory listing (an array), or a single item of
      some type (`file`, `symlink`, `submodule`, ...) with its blob digest and base64 body. */
  datatype ContentItem = Listing | Item(kind: string, sha: string, content: string)

  datatype ContentResponse = Found(item: ContentItem) | Failed(error: RemoteError)

  /** The lookup for `path` on the configured default branch. */
  function ContentRequestFor(config: Config, path: string): (r: Result<ContentRequest, Error>)
    ensures r.Err? <==> config.githubRepo.None?
    ensures r.Err? ==> r.error == RepoNotConfigured
    ensures r.Ok? ==> var repo := ParseRepo(config.githubRepo.value);
              r.value == ContentRequest(repo.owner, repo.name, path, config.defaultBranch)
  {
    match RepoOf(config)
    case Err(e) => Err(e)
    case Ok(repo) => Ok(ContentRequest(repo.owner, repo.name, path, config.defaultBranch))
  }

  /** The response mapping of `checkFileExists`: a single file exists, with its digest and
      decoded body; a listing or any other kind of item does not; a 404 means absence; every
      other failure is passed on unchanged. */
  function FileCheckOf(resp: ContentResponse, decode: string -> string): (r: Result<GitHubFileCheck, Error>)
    ensures r.Ok? && r.value.fileExists <==> resp.Found? && resp.item.Item? && resp.item.kind == "file"
    ensures r.Ok? && r.value.fileExists ==>
              r.value.sha == Some(resp.item.sha) && r.value.content == Some(decode(resp.item.content))
    ensures r.Ok? && !r.value.fileExists ==> r.value == GitHubFileCheck(false, None, None)
    ensures r.Err? <==> resp.Failed? && resp.error != RequestError(404)
    ensures r.Err? ==> r.error == Remote(resp.error)
  {
    match resp
    case Found(Item(kind, sha, content)) =>
      if kind == "file" then Ok(GitHubFileCheck(true, Some(sha), Some(decode(content))))
      else Ok(GitHubFileCheck(false, None, None))
    case Found(Listing) => Ok(GitHubFileCheck(false, None, None))
    case Failed(e) =>
      if e == RequestError(404) then Ok(GitHubFileCheck(false, None, None)) else Err(Remote(e))
  }

  /** `checkFileExists(config, path)` against the API answer `getContent`. */
  function CheckFileExists(config: Config, path: string, getContent: ContentRequest -> ContentResponse,
                           decode: string -> string): (r: Result<GitHubFileCheck, Error>)
    ensures config.githubRepo.None? ==> r == Err(RepoNotConfigured)
    ensures config.githubRepo.Some? ==>
              r == FileCheckOf(getContent(ContentRequestFor(config, path).value), decode)
  {
    match ContentRequestFor(config, path)
    case Err(e) => Err(e)
    case Ok(req) => FileCheckOf(getContent(req), decode)
  }

  /** A file check never carries a digest without the file existing. */
  lemma FileCheckShaOnlyWhenExists(resp: ContentResponse, decode: string -> string)
    requires FileCheckOf(resp, decode).Ok?
    ensures FileCheckOf(resp, decode).value.sha.Some? <==> FileCheckOf(resp, decode).value.fileExists
  {
  }

  // ---------------------------------------------------------------------------------------
  // pushFile
  // ---------------------------------------------------------------------------------------

  datatype WriteRequest = WriteRequest(
    owner: string, repo: Option<string>, path: string, message: string,
    content: string, branch: string, sha: Option<string>)

  /** What a create-or-update call answers: the commit digest, the new blob digest and the two
      links, either of which may be missing; or a failure. */
  datatype WriteResponse =
    | Accepted(commitSha: string, contentSha: string, fileUrl: Option<string>, commitUrl: Option<string>)
    | WriteFailed(error: RemoteError)

  /** The write for `path` with body `content`: the body goes out base64-encoded, on the
      configured default branch, carrying the digest of the file it replaces unchanged (none
      for a new file). */
  function WriteRequestFor(config: Config, path: string, content: string, message: string,
                           existingSha: Option<string>, encode: string -> string): (r: Result<WriteRequest, Error>)
    ensures r.Err? <==> config.githubRepo.None?
    ensures r.Err? ==> r.error == RepoNotConfigured
    ensures r.Ok? ==>
              && r.value.sha == existingSha && r.value.branch == config.defaultBranch
              && r.value.path == path && r.value.message == message && r.value.content == encode(content)
              && RepoRef(r.value.owner, r.value.repo) == ParseRepo(config.githubRepo.value)
  {
    match RepoOf(config)
    case Err(e) => Err(e)
    case Ok(repo) => Ok(WriteRequest(repo.owner, repo.name, path, message, encode(content), config.defaultBranch, existingSha))
  }

  /** The result of `pushFile`: a missing link becomes `""`; a failure is passed on. */
  function PushResultOf(resp: WriteResponse): (r: Result<GitHubPushResult, Error>)
    ensures r.Ok? <==> resp.Accepted?
    ensures r.Err? ==> r.error == Remote(resp.error)
    ensures r.Ok? ==> && r.value.commitSha == resp.commitSha
                      && r.value.fileUrl == resp.fileUrl.GetOr("")
                      && r.value.commitUrl == resp.commitUrl.GetOr("")
    ensures r.Ok? && resp.fileUrl.None? ==> r.value.fileUrl == ""
    ensures r.Ok? && resp.commitUrl.None? ==> r.value.commitUrl == ""
  {
    match resp
    case Accepted(commit, _, fileUrl, commitUrl) => Ok(GitHubPushResult(commit, fileUrl.GetOr(""), commitUrl.GetOr("")))
    case WriteFailed(e) => Err(Remote(e))
  }

  /** `pushFile(config, params)` against the API answer `put`. */
  function PushFile(config: Config, path: string, content: string, message: string, existingSha: Option<string>,
                    encode: string -> string, put: WriteRequest -> WriteResponse): (r: Result<GitHubPushResult, Error>)
    ensures config.githubRepo.None? ==> r == Err(RepoNotConfigured)
    ensures config.githubRepo.Some? ==>
              r == PushResultOf(put(WriteRequestFor(config, path, content, message, existingSha, encode).value))
  {
    match WriteRequestFor(config, path, content, message, existingSha, encode)
    case Err(e) => Err(e)
    case Ok(req) => PushResultOf(put(req))
  }
}
