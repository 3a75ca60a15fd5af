/**
 * The command line (src/cli.ts): which command runs, with which arguments, derived from the
 * words after the program name, and the exit status of a usage error.
 */
module Cli {
  import opened Wrappers
  import opened Text
  import opened Types

  predicate IsFlag(a: string) {
    StartsWith(a, "-")
  }

  /** `args.filter(a => !a.startsWith("-"))`. */
  function ExtractFilePaths(args: seq<string>): (paths: seq<string>)
    ensures |paths| <= |args|
    ensures forall p :: p in paths <==> p in args && !IsFlag(p)
  {
    if |args| == 0 then []
    else
      var rest := ExtractFilePaths(args[1..]);
      assert forall p :: p in args <==> p == args[0] || p in args[1..];
      if IsFlag(args[0]) then rest else [args[0]] + rest
  }

  /** The filter keeps order: it distributes over concatenation, and keeps or drops each word
      on its own. */
  lemma {:induction false} ExtractFilePathsConcat(a: seq<string>, b: seq<string>)
    ensures ExtractFilePaths(a + b) == ExtractFilePaths(a) + ExtractFilePaths(b)
  {
    if |a| > 0 {
      assert (a + b)[1..] == a[1..] + b;
      ExtractFilePathsConcat(a[1..], b);
    } else {
      assert a + b == b;
    }
  }

  lemma ExtractFilePathsSingle(a: string)
    ensures ExtractFilePaths([a]) == if IsFlag(a) then [] else [a]
  {
    assert [a][1..] == [];
  }

  /** A flag's value that is not itself a flag is also taken as a file path. */
  lemma FlagValueIsAlsoAPath(before: seq<string>, value: string, after: seq<string>)
    requires !IsFlag(value)
    ensures value in ExtractFilePaths(before + ["-m", value] + after)
  {
    assert value in before + ["-m", value] + after by {
      assert (before + ["-m", value] + after)[|before| + 1] == value;
    }
  }

  /** `extractFlag`: the word after the first occurrence of `flag`, if there is one. */
  function ExtractFlag(args: seq<string>, flag: string): (r: Option<string>)
    ensures r.Some? ==> exists i :: && 0 <= i && i + 1 < |args| && args[i] == flag
                                    && flag !in args[..i] && r.value == args[i + 1]
    ensures r.None? <==> flag !in args || IndexOf(args, flag) == |args| - 1
  {
    var i := IndexOf(args, flag);
    if i != -1 && i + 1 < |args| then Some(args[i + 1]) else None
  }

  /** `args[i]?.startsWith("-") ? undefined : args[i]`: a missing word and a flag both give nothing. */
  function PositionalArg(args: seq<string>, i: nat): (r: Option<string>)
    ensures r.Some? <==> i < |args| && !IsFlag(args[i])
    ensures r.Some? ==> r.value == args[i]
  {
    if i < |args| && !IsFlag(args[i]) then Some(args[i]) else None
  }

  datatype Command =
    | RunInit
    | RunPreview(preview: PreviewCommandArgs)
    | RunPush(push: PushCommandArgs)
    | RunConfig(config: ConfigCommandArgs)
    | ShowUsage(exitCode: int)

  /** The push arguments: the `--message` value wins over the `-m` value. */
  function PushArgsOf(args: seq<string>): (p: PushCommandArgs)
    requires |args| > 0
    ensures p.filePaths == ExtractFilePaths(args[1..])
    ensures p.targetPath == ExtractFlag(args, "--path")
    ensures ExtractFlag(args, "--message").Some? ==> p.message == ExtractFlag(args, "--message")
    ensures ExtractFlag(args, "--message").None? ==> p.message == ExtractFlag(args, "-m")
    ensures p.force <==> "--force" in args
  {
    var message := ExtractFlag(args, "--message");
    PushCommandArgs(ExtractFilePaths(args[1..]), ExtractFlag(args, "--path"),
                    if message.Some? then message else ExtractFlag(args, "-m"),
                    "--force" in args)
  }

  /** `main`'s dispatch on the first word; an unknown non-empty word is a usage error with
      status 1, and no word (or an empty one) prints the usage with status 0. */
  function Dispatch(args: seq<string>): (c: Command)
    ensures |args| == 0 ==> c == ShowUsage(0)
    ensures |args| > 0 && args[0] !in {"init", "preview", "push", "config"} ==>
              c == ShowUsage(if args[0] == "" then 0 else 1)
    ensures |args| > 0 && args[0] == "init" ==> c == RunInit
    ensures |args| > 0 && args[0] == "preview" ==>
              c == RunPreview(PreviewCommandArgs(ExtractFilePaths(args[1..]),
                                                 if "--md" in args then Markdown else Terminal))
    ensures |args| > 0 && args[0] == "push" ==> c == RunPush(PushArgsOf(args))
    ensures |args| > 0 && args[0] == "config" ==>
              c == RunConfig(ConfigCommandArgs(PositionalArg(args, 1), PositionalArg(args, 2), "--list" in args))
    ensures c.ShowUsage? ==> (c.exitCode == 1 <==> |args| > 0 && args[0] != "")
  {
    if |args| == 0 then ShowUsage(0)
    else if args[0] == "init" then RunInit
    else if args[0] == "preview" then
      RunPreview(PreviewCommandArgs(ExtractFilePaths(args[1..]), if "--md" in args then Markdown else Terminal))
    else if args[0] == "push" then RunPush(PushArgsOf(args))
    else if args[0] == "config" then
      RunConfig(ConfigCommandArgs(PositionalArg(args, 1), PositionalArg(args, 2), "--list" in args))
    else ShowUsage(if args[0] == "" then 0 else 1)
  }

  /** `cdst push a.py -m msg --message other --force` takes the `--message` value, sets
      `force`, and has no target path. */
  lemma ExamplePushLine(args: seq<string>)
    requires args == ["push", "a.py", "-m", "msg", "--message", "other", "--force"]
    ensures Dispatch(args).RunPush?
    ensures Dispatch(args).push.message == Some("other")
    ensures Dispatch(args).push.targetPath == None
    ensures Dispatch(args).push.force
  {
    assert args[0] == "push";
    assert ExtractFlag(args, "--message") == Some("other") by {
      assert args[4] == "--message";
      assert args[..4] == ["push", "a.py", "-m", "msg"];
      assert IndexOf(args, "--message") == 4;
    }
    assert ExtractFlag(args, "--path") == None by {
      assert "--path" !in args;
    }
    assert "--force" in args by { assert args[6] == "--force"; }
  }
}
