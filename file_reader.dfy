/**
 * The local file accessor (src/services/file-reader.ts): the size ceiling on reads and the
 * language tag inferred from a file's extension. The disk is a map from absolute path to
 * the file's size in bytes and its text.
 */
module FileReader {
  import opened Wrappers
  import opened Text
  import opened Types

  /** Extension (lower case, with its dot) to language tag. */
  const LanguageMap: map<string, string> := map[
    ".ts" := "typescript", ".tsx" := "typescript",
    ".js" := "javascript", ".jsx" := "javascript",
    ".py" := "python", ".go" := "go", ".rs" := "rust", ".java" := "java",
    ".rb" := "ruby", ".swift" := "swift", ".kt" := "kotlin", ".cs" := "csharp",
    ".cpp" := "cpp", ".c" := "c", ".sh" := "bash", ".sql" := "sql",
    ".yaml" := "yaml", ".yml" := "yaml", ".vue" := "vue"]

  /** 100 KiB. */
  const MaxFileSize: nat := 100 * 1024

  datatype FileEntry = FileEntry(size: nat, text: string)

  /** `Math.round(size / 1024)`, the size quoted in the error message. */
  function RoundedKb(size: nat): (kb: nat)
    ensures 1024 * kb <= size + 512 < 1024 * (kb + 1)
  {
    (size + 512) / 1024
  }

  /** `readSourceFile`: a missing file is reported before its size is looked at; a file over
      the ceiling is refused; otherwise its text is returned. */
  function ReadSourceFile(disk: map<string, FileEntry>, path: string): (r: Result<string, Error>)
    ensures path !in disk <==> r == Err(FileNotFound(path))
    ensures r.Ok? <==> path in disk && disk[path].size <= MaxFileSize
    ensures r.Ok? ==> r.value == disk[path].text
    ensures path in disk && disk[path].size > MaxFileSize ==>
              r == Err(FileTooLarge(path, RoundedKb(disk[path].size)))
  {
    if path !in disk then Err(FileNotFound(path))
    else if disk[path].size > MaxFileSize then Err(FileTooLarge(path, RoundedKb(disk[path].size)))
    else Ok(disk[path].text)
  }

  /** Exactly 100 KiB is still accepted; one byte more is not. */
  lemma SizeCeilingBoundary(disk: map<string, FileEntry>, path: string)
    requires path in disk
    ensures disk[path].size == 102400 ==> ReadSourceFile(disk, path).Ok?
    ensures disk[path].size == 102401 ==> ReadSourceFile(disk, path) == Err(FileTooLarge(path, 100))
  {
  }

  // ---------------------------------------------------------------------------------------
  // path.extname and toLowerCase
  // ---------------------------------------------------------------------------------------

  /** Drops trailing `/` characters, as `path.extname` skips them. */
  function DropTrailingSlashes(p: string): (r: string)
    ensures |r| <= |p| && r == p[..|r|]
    ensures r == [] || r[|r| - 1] != '/'
    ensures forall k :: |r| <= k < |p| ==> p[k] == '/'
  {
    if p != [] && p[|p| - 1] == '/' then DropTrailingSlashes(p[..|p| - 1]) else p
  }

  /** The last path component. */
  function BaseName(p: string): (b: string)
    ensures '/' !in b
  {
    var q := DropTrailingSlashes(p);
    q[LastIndexOf(q, '/') + 1..]
  }

  /** `path.extname` (POSIX): from the last `.` of the last component to its end, or empty when
      that component has no `.`, starts with its only `.`, or is `..`. */
  function ExtName(p: string): (e: string)
    ensures e == [] || e[0] == '.'
    ensures '/' !in e
  {
    ExtOfName(BaseName(p))
  }

  /** The extension of one path component. */
  function ExtOfName(b: string): (e: string)
    ensures e == [] || e[0] == '.'
    ensures '/' !in b ==> '/' !in e
  {
    var d := LastIndexOf(b, '.');
    if d <= 0 || b == ".." then [] else b[d..]
  }

  /** `toLowerCase` on one character, for the characters whose lower case is a single ASCII
      letter: `A`-`Z`, and the Kelvin sign, which lowers to `k`. Every other character either
      is unchanged by lowering or lowers to text with a non-ASCII character, which no key of
      the table contains. */
  function LowerChar(c: char): char {
    if 'A' <= c <= 'Z' then (c as int + 32) as char
    else if c == '\U{212A}' then 'k'
    else c
  }

  function ToLower(s: string): (r: string)
    ensures |r| == |s| && forall k :: 0 <= k < |s| ==> r[k] == LowerChar(s[k])
  {
    seq(|s|, k requires 0 <= k < |s| => LowerChar(s[k]))
  }

  /** `detectLanguage`: the table entry for the lower-cased extension, else `plaintext`. */
  function DetectLanguage(path: string): (lang: string)
    ensures ToLower(ExtName(path)) in LanguageMap ==> lang == LanguageMap[ToLower(ExtName(path))]
    ensures ToLower(ExtName(path)) !in LanguageMap ==> lang == "plaintext"
    ensures lang in LanguageMap.Values || lang == "plaintext"
  {
    var ext := ToLower(ExtName(path));
    if ext in LanguageMap then LanguageMap[ext] else "plaintext"
  }

  // ---------------------------------------------------------------------------------------
  // Case-insensitivity
  // ---------------------------------------------------------------------------------------

  /** Lowering keeps `/` and `.` where they are, and puts no new ones anywhere. */
  lemma LowerKeepsSeparators(c: char)
    ensures LowerChar(c) == '/' <==> c == '/'
    ensures LowerChar(c) == '.' <==> c == '.'
  {
  }

  lemma {:induction false} LastIndexOfLower(s: string, x: char)
    requires x == '/' || x == '.'
    ensures LastIndexOf(ToLower(s), x) == LastIndexOf(s, x)
    decreases |s|
  {
    if |s| > 0 {
      LowerKeepsSeparators(s[|s| - 1]);
      assert ToLower(s)[..|s| - 1] == ToLower(s[..|s| - 1]);
      LastIndexOfLower(s[..|s| - 1], x);
    }
  }

  lemma {:induction false} DropTrailingSlashesLower(p: string)
    ensures DropTrailingSlashes(ToLower(p)) == ToLower(DropTrailingSlashes(p))
    decreases |p|
  {
    if p != [] {
      LowerKeepsSeparators(p[|p| - 1]);
      assert ToLower(p)[..|p| - 1] == ToLower(p[..|p| - 1]);
      DropTrailingSlashesLower(p[..|p| - 1]);
    }
  }

  lemma ToLowerSuffix(s: string, i: nat)
    requires i <= |s|
    ensures ToLower(s)[i..] == ToLower(s[i..])
  {
  }

  lemma ToLowerDots(b: string)
    ensures ToLower(b) == ".." <==> b == ".."
  {
    if |b| == 2 {
      LowerKeepsSeparators(b[0]);
      LowerKeepsSeparators(b[1]);
      assert ToLower(b)[0] == LowerChar(b[0]) && ToLower(b)[1] == LowerChar(b[1]);
    }
  }

  lemma BaseNameLower(p: string)
    ensures BaseName(ToLower(p)) == ToLower(BaseName(p))
  {
    DropTrailingSlashesLower(p);
    var q := DropTrailingSlashes(p);
    LastIndexOfLower(q, '/');
    ToLowerSuffix(q, LastIndexOf(q, '/') + 1);
  }

  /** The extension of a lower-cased path is the lower-cased extension. */
  lemma ExtNameLower(p: string)
    ensures ExtName(ToLower(p)) == ToLower(ExtName(p))
  {
    BaseNameLower(p);
    ExtOfNameLower(BaseName(p));
  }

  lemma ExtOfNameLower(b: string)
    ensures ExtOfName(ToLower(b)) == ToLower(ExtOfName(b))
  {
    LastIndexOfLower(b, '.');
    ToLowerDots(b);
    var d := LastIndexOf(b, '.');
    if d > 0 {
      ToLowerSuffix(b, d);
    }
  }

  /** The language tag does not depend on the case of the path. */
  lemma DetectLanguageIgnoresCase(path: string)
    ensures DetectLanguage(ToLower(path)) == DetectLanguage(path)
  {
    ExtNameLower(path);
    ToLowerIdempotent(ExtName(path));
  }

  lemma ToLowerIdempotent(s: string)
    ensures ToLower(ToLower(s)) == ToLower(s)
  {
    var t := ToLower(s);
    forall k | 0 <= k < |s| ensures ToLower(t)[k] == t[k] {
      assert LowerChar(LowerChar(s[k])) == LowerChar(s[k]);
    }
  }

  /** The last occurrence of `x` is the one after which `x` no longer occurs. */
  lemma LastIndexOfAt(a: string, x: char, b: string)
    requires x !in b
    ensures LastIndexOf(a + [x] + b, x) == |a|
  {
    var s := a + [x] + b;
    assert s[|a|] == x;
    assert s[|a| + 1..] == b;
  }

  /** The last component of `dir/name`. */
  lemma BaseNameOf(dir: string, name: string)
    requires name != [] && '/' !in name
    ensures BaseName(dir + "/" + name) == name
  {
    var p := dir + ['/'] + name;
    assert p[|p| - 1] == name[|name| - 1];
    LastIndexOfAt(dir, '/', name);
    assert p[|dir| + 1..] == name;
    assert dir + "/" + name == p;
  }

  /** A path whose last component is `stem.ext` has the extension `.ext` when the stem is
      neither empty nor `.`. */
  lemma ExtNameFromBase(p: string, stem: string, ext: string)
    requires stem != [] && stem != "." && '.' !in ext
    requires BaseName(p) == stem + (['.'] + ext)
    ensures ExtName(p) == ['.'] + ext
  {
    ExtOfNameOf(stem, ext);
  }

  lemma ExtOfNameOf(stem: string, ext: string)
    requires stem != [] && stem != "." && '.' !in ext
    ensures ExtOfName(stem + (['.'] + ext)) == ['.'] + ext
  {
    var tail := ['.'] + ext;
    var name := stem + tail;
    assert stem + ['.'] + ext == name;
    LastIndexOfAt(stem, '.', ext);
    assert name != ".." by {
      if |name| == 2 {
        assert |stem| == 1 && name[0] == stem[0];
        assert stem == [stem[0]];
      }
    }
    assert name[|stem|..] == tail;
  }

  /** `dir/stem.ext` has the extension `.ext`. */
  lemma ExtNameOf(dir: string, stem: string, ext: string)
    requires stem != [] && stem != "." && '/' !in stem && '/' !in ext && '.' !in ext
    ensures ExtName(dir + "/" + (stem + "." + ext)) == "." + ext
  {
    var name := stem + (['.'] + ext);
    assert stem + "." + ext == name;
    BaseNameOf(dir, name);
    ExtNameFromBase(dir + "/" + name, stem, ext);
  }

  /** A path whose last component is `.ext`, with no other dot, has no extension. */
  lemma ExtNameOfDotFile(dir: string, ext: string)
    requires '/' !in ext && '.' !in ext
    ensures ExtName(dir + "/" + ("." + ext)) == []
  {
    var name := [] + ['.'] + ext;
    assert "." + ext == name;
    BaseNameOf(dir, name);
    LastIndexOfAt([], '.', ext);
  }

  /** An upper-case extension is looked up in lower case: `X.PY`, in any directory, is Python. */
  lemma ExampleUpperCaseExtension(dir: string, stem: string, ext: string)
    requires stem == "X" && ext == "PY"
    ensures DetectLanguage(dir + "/" + (stem + "." + ext)) == "python"
  {
    ExtNameOf(dir, stem, ext);
    LowerDotPY(ext);
    assert ".py" in LanguageMap && LanguageMap[".py"] == "python";
  }

  lemma LowerDotPY(ext: string)
    requires ext == "PY"
    ensures ToLower("." + ext) == ".py"
  {
    var lowered := ToLower("." + ext);
    assert |lowered| == 3;
    assert lowered[0] == LowerChar('.') && lowered[1] == LowerChar('P') && lowered[2] == LowerChar('Y');
  }

  /** A name whose only dot is its first character has no extension: `.sh` is plain text. */
  lemma ExampleDotFile(dir: string, ext: string)
    requires ext == "sh"
    ensures DetectLanguage(dir + "/" + ("." + ext)) == "plaintext"
  {
    ExtNameOfDotFile(dir, ext);
    assert ToLower([]) == [];
    assert [] !in LanguageMap;
  }
}
