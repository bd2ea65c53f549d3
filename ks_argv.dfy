// The `kubectl debug` command lines the ks tool builds, and the name it gives
// the debug container.
//
// ks/ks.py and ks/cli.py build the same command: `kubectl`, the context pair
// when one was given, then `debug <pod>` and a fixed run of flags ending in
// `-ti`. The packaged tool (ks/src/ks/cli.py) starts with `kubectl debug -it`,
// takes the profile as an argument, and appends the command to run in the
// debug container after a `--`.
//
// The random UUID in the container name is an input: its text form for the
// first two, its hex form for the packaged tool.

module KsArgv {
  import opened Wrappers
  import opened Text

  /** Python truthiness of an optional text argument: present and non-empty. */
  predicate Given(o: Option<string>)
  {
    o.Some? && o.value != ""
  }

  /** The first `n` characters of `s`, or all of it when shorter. */
  function Prefix(s: string, n: nat): (r: string)
    ensures |r| == if |s| < n then |s| else n
    ensures StartsWith(s, r)
  {
    if |s| <= n then s else s[..n]
  }

  /* ---------------- debug container names ---------------- */

  /** The debug container of ks/ks.py and ks/cli.py: named after the target container and 8 characters of a UUID. */
  function SessionContainerName(container: string, uuidText: string): (r: string)
  {
    "debug-" + container + "-" + Prefix(uuidText, 8)
  }

  /** The debug container of the packaged tool: named after the target pod and 6 hex digits of a UUID. */
  function PackageContainerName(pod: string, uuidHex: string): (r: string)
  {
    "debug-" + pod + "-" + Prefix(uuidHex, 6)
  }

  /** A name of the form debug-<middle>-<suffix> gives back its middle and its suffix. */
  lemma {:induction false} DebugNameParts(middle: string, suffix: string)
    ensures var name := "debug-" + middle + "-" + suffix;
      |name| == |middle| + |suffix| + 7 && StartsWith(name, "debug-")
      && name[6..6 + |middle|] == middle && name[6 + |middle|] == '-' && name[7 + |middle|..] == suffix
  {
    var name := "debug-" + middle + "-" + suffix;
    assert name == "debug-" + (middle + "-" + suffix);
    assert name[6..] == middle + "-" + suffix;
  }

  /** A session container name carries the target container and the UUID's first 8 characters, and can be read back. */
  lemma SessionNameReadsBack(container: string, uuidText: string)
    requires |uuidText| >= 8
    ensures var name := SessionContainerName(container, uuidText);
      |name| == |container| + 15 && StartsWith(name, "debug-")
      && name[6..|name| - 9] == container && name[|name| - 8..] == uuidText[..8]
  {
    DebugNameParts(container, Prefix(uuidText, 8));
  }

  /** A packaged-tool container name carries the target pod and the UUID's first 6 hex digits, and can be read back. */
  lemma PackageNameReadsBack(pod: string, uuidHex: string)
    requires |uuidHex| >= 6
    ensures var name := PackageContainerName(pod, uuidHex);
      |name| == |pod| + 13 && StartsWith(name, "debug-")
      && name[6..|name| - 7] == pod && name[|name| - 6..] == uuidHex[..6]
  {
    DebugNameParts(pod, Prefix(uuidHex, 6));
  }

  /* ---------------- reading a command line back ---------------- */

  /** The word after the first occurrence of `flag` that has one. */
  function FlagValue(argv: seq<string>, flag: string): (r: Option<string>)
    decreases |argv|
  {
    if |argv| < 2 then None
    else if argv[0] == flag then Some(argv[1])
    else FlagValue(argv[1..], flag)
  }

  /** `flag` occurs nowhere in `words`. */
  predicate Absent(words: seq<string>, flag: string)
  {
    forall k :: 0 <= k < |words| ==> words[k] != flag
  }

  /** Words before the flag that differ from it do not change what it reads. */
  lemma {:induction false} FlagValueSkips(before: seq<string>, rest: seq<string>, flag: string)
    requires Absent(before, flag)
    ensures FlagValue(before + rest, flag) == FlagValue(rest, flag)
    decreases |before|
  {
    if before != [] {
      assert (before + rest)[1..] == before[1..] + rest;
      FlagValueSkips(before[1..], rest, flag);
    } else {
      assert before + rest == rest;
    }
  }

  /** A flag read in a command line reads the same once more words are appended. */
  lemma {:induction false} FlagValueExtends(words: seq<string>, more: seq<string>, flag: string)
    requires FlagValue(words, flag).Some?
    ensures FlagValue(words + more, flag) == FlagValue(words, flag)
    decreases |words|
  {
    if words[0] != flag {
      assert (words + more)[1..] == words[1..] + more;
      FlagValueExtends(words[1..], more, flag);
    }
  }

  /** A flag absent from a command line reads nothing. */
  lemma {:induction false} FlagValueAbsent(words: seq<string>, flag: string)
    requires Absent(words, flag)
    ensures FlagValue(words, flag).None?
    decreases |words|
  {
    if |words| >= 2 {
      FlagValueAbsent(words[1..], flag);
    }
  }

  /** The flag read after words that differ from it is the word that follows it. */
  lemma FlagValueFound(before: seq<string>, flag: string, value: string)
    requires Absent(before, flag)
    ensures FlagValue(before + [flag, value], flag) == Some(value)
  {
    FlagValueSkips(before, [flag, value], flag);
  }

  /** A word the user supplies that cannot be mistaken for a flag. */
  predicate Plain(w: string)
  {
    w == [] || w[0] != '-'
  }

  /** The context pair, only when a non-empty context was given. */
  function ContextFlags(context: Option<string>): (r: seq<string>)
    ensures |r| == if Given(context) then 2 else 0
  {
    if Given(context) then ["--context", context.value] else []
  }

  /* ---------------- the ks/ks.py and ks/cli.py command ---------------- */

  /** The first words of the command of ks/ks.py and ks/cli.py: the program, the context pair, the subcommand and the pod. */
  function SessionFront(context: Option<string>, pod: string): (r: seq<string>)
  {
    ["kubectl"] + ContextFlags(context) + ["debug", pod]
  }

  /** The command of ks/ks.py and ks/cli.py. */
  function SessionArgv(context: Option<string>, pod: string, namespace: string, container: string,
                       image: string, name: string): (r: seq<string>)
  {
    SessionFront(context, pod) + ["--namespace", namespace] + ["--target", container] + ["--image", image]
    + ["--image-pull-policy=Always"] + ["-c", name] + ["--profile=sysadmin", "--share-processes", "-ti"]
  }

  /** The command is built by extending a list step by step. */
  method BuildSessionArgv(context: Option<string>, pod: string, namespace: string, container: string,
                          image: string, name: string) returns (argv: seq<string>)
    ensures argv == SessionArgv(context, pod, namespace, container, image, name)
  {
    argv := ["kubectl"];
    if Given(context) {
      argv := argv + ["--context", context.value];
    }
    argv := argv + ["debug", pod, "--namespace", namespace, "--target", container, "--image", image,
                    "--image-pull-policy=Always", "-c", name, "--profile=sysadmin", "--share-processes", "-ti"];
  }

  /** The context flag is in the command exactly when a context was given, followed by it. */
  lemma SessionContextReadsBack(context: Option<string>, pod: string, namespace: string, container: string,
                                image: string, name: string)
    requires context.Some? ==> Plain(context.value)
    requires Plain(pod) && Plain(namespace) && Plain(container) && Plain(image) && Plain(name)
    ensures FlagValue(SessionArgv(context, pod, namespace, container, image, name), "--context")
         == if Given(context) then Some(context.value) else None
  {
    var argv := SessionArgv(context, pod, namespace, container, image, name);
    if Given(context) {
      FlagValueFound(["kubectl"], "--context", context.value);
      FlagValueExtends(["kubectl"] + ["--context", context.value], argv[3..], "--context");
      assert argv == ["kubectl"] + ["--context", context.value] + argv[3..];
    } else {
      assert Absent(argv, "--context");
      FlagValueAbsent(argv, "--context");
    }
  }

  /** The namespace and the target container follow their flags. */
  lemma SessionTargetReadsBack(context: Option<string>, pod: string, namespace: string, container: string,
                               image: string, name: string)
    requires context.Some? ==> Plain(context.value)
    requires Plain(pod) && Plain(namespace)
    ensures var argv := SessionArgv(context, pod, namespace, container, image, name);
      FlagValue(argv, "--namespace") == Some(namespace) && FlagValue(argv, "--target") == Some(container)
  {
    var front := SessionFront(context, pod);
    var p2 := front + ["--namespace", namespace];
    var p3 := p2 + ["--target", container];
    var rest := ["--image", image] + ["--image-pull-policy=Always"] + ["-c", name]
              + ["--profile=sysadmin", "--share-processes", "-ti"];
    assert SessionArgv(context, pod, namespace, container, image, name) == p3 + rest;
    FlagValueFound(front, "--namespace", namespace);
    FlagValueExtends(p2, ["--target", container] + rest, "--namespace");
    assert p3 + rest == p2 + (["--target", container] + rest);
    FlagValueFound(p2, "--target", container);
    FlagValueExtends(p3, rest, "--target");
  }

  /** The image follows its flag. */
  lemma SessionImageReadsBack(context: Option<string>, pod: string, namespace: string, container: string,
                              image: string, name: string)
    requires context.Some? ==> Plain(context.value)
    requires Plain(pod) && Plain(namespace) && Plain(container)
    ensures FlagValue(SessionArgv(context, pod, namespace, container, image, name), "--image") == Some(image)
  {
    var p3 := SessionFront(context, pod) + ["--namespace", namespace] + ["--target", container];
    var p4 := p3 + ["--image", image];
    var rest := ["--image-pull-policy=Always"] + ["-c", name] + ["--profile=sysadmin", "--share-processes", "-ti"];
    FlagValueFound(p3, "--image", image);
    FlagValueExtends(p4, rest, "--image");
    assert SessionArgv(context, pod, namespace, container, image, name) == p4 + rest;
  }

  /** The debug container's name follows its flag. */
  lemma SessionNameFlagReadsBack(context: Option<string>, pod: string, namespace: string, container: string,
                                 image: string, name: string)
    requires context.Some? ==> Plain(context.value)
    requires Plain(pod) && Plain(namespace) && Plain(container) && Plain(image)
    ensures FlagValue(SessionArgv(context, pod, namespace, container, image, name), "-c") == Some(name)
  {
    var p5 := SessionFront(context, pod) + ["--namespace", namespace] + ["--target", container] + ["--image", image]
              + ["--image-pull-policy=Always"];
    var p6 := p5 + ["-c", name];
    var last := ["--profile=sysadmin", "--share-processes", "-ti"];
    FlagValueFound(p5, "-c", name);
    FlagValueExtends(p6, last, "-c");
  }

  /**
   * Read back, the command targets what was chosen: it runs kubectl's debug
   * subcommand on the pod, the namespace, the target container, the image and
   * the debug container's name follow their flags, and the context flag is
   * there exactly when a context was given.
   */
  lemma SessionArgvReadsBack(context: Option<string>, pod: string, namespace: string, container: string,
                             image: string, name: string)
    requires context.Some? ==> Plain(context.value)
    requires Plain(pod) && Plain(namespace) && Plain(container) && Plain(image) && Plain(name)
    ensures var argv := SessionArgv(context, pod, namespace, container, image, name);
      var n := |ContextFlags(context)|;
      argv[0] == "kubectl" && argv[n + 1] == "debug" && argv[n + 2] == pod
      && FlagValue(argv, "--context") == (if Given(context) then Some(context.value) else None)
      && FlagValue(argv, "--namespace") == Some(namespace) && FlagValue(argv, "--target") == Some(container)
      && FlagValue(argv, "--image") == Some(image) && FlagValue(argv, "-c") == Some(name)
  {
    SessionContextReadsBack(context, pod, namespace, container, image, name);
    SessionTargetReadsBack(context, pod, namespace, container, image, name);
    SessionImageReadsBack(context, pod, namespace, container, image, name);
    SessionNameFlagReadsBack(context, pod, namespace, container, image, name);
  }

  /* ---------------- the packaged tool's command ---------------- */

  /** The command to run inside the debug container: a single leading "--" is dropped. */
  function DroppedSeparator(commandArgs: seq<string>): (r: seq<string>)
  {
    if |commandArgs| > 0 && commandArgs[0] == "--" then commandArgs[1..] else commandArgs
  }

  /** What follows the fixed flags: "--" and the command, or nothing when no command is left. */
  function CommandTail(commandArgs: seq<string>): (r: seq<string>)
  {
    var command := DroppedSeparator(commandArgs);
    if command == [] then [] else ["--"] + command
  }

  /** The flags of the packaged tool's command that follow the context pair. */
  function PackageFlags(namespace: string, pod: string, container: string, image: string, name: string,
                        profile: string): (r: seq<string>)
  {
    ["-n", namespace, pod, "--target", container, "--image", image, "--container", name,
     "--profile", profile, "--image-pull-policy=Always", "--share-processes"]
  }

  /** The fixed part of the packaged tool's command. */
  function PackageBase(context: Option<string>, namespace: string, pod: string, container: string,
                       image: string, name: string, profile: string): (r: seq<string>)
  {
    ["kubectl", "debug", "-it"] + ContextFlags(context) + PackageFlags(namespace, pod, container, image, name, profile)
  }

  /** The packaged tool's command: the fixed part, then the command tail. */
  function PackageArgv(context: Option<string>, namespace: string, pod: string, container: string,
                       image: string, name: string, profile: string, commandArgs: seq<string>): (r: seq<string>)
  {
    PackageBase(context, namespace, pod, container, image, name, profile) + CommandTail(commandArgs)
  }

  /** The command is built by extending a list, after popping a leading "--" off the remaining arguments. */
  method BuildPackageArgv(context: Option<string>, namespace: string, pod: string, container: string,
                          image: string, name: string, profile: string, commandArgs: seq<string>)
    returns (argv: seq<string>)
    ensures argv == PackageArgv(context, namespace, pod, container, image, name, profile, commandArgs)
  {
    argv := ["kubectl", "debug", "-it"];
    if Given(context) {
      argv := argv + ["--context", context.value];
    }
    argv := argv + PackageFlags(namespace, pod, container, image, name, profile);
    assert argv == PackageBase(context, namespace, pod, container, image, name, profile);
    var tail := BuildCommandTail(commandArgs);
    argv := argv + tail;
  }

  /** The words appended after the fixed flags: a leading "--" is popped, then "--" and what is left, if anything. */
  method BuildCommandTail(commandArgs: seq<string>) returns (tail: seq<string>)
    ensures tail == CommandTail(commandArgs)
  {
    tail := [];
    if commandArgs != [] {
      var command := commandArgs;
      if |command| > 0 && command[0] == "--" {
        command := command[1..];
      }
      if command != [] {
        tail := tail + ["--"];
        tail := tail + command;
      }
    }
  }

  /** The words after the first "--" word, or none when there is no such word. */
  function AfterSeparator(argv: seq<string>): (r: seq<string>)
    decreases |argv|
  {
    if argv == [] then []
    else if argv[0] == "--" then argv[1..]
    else AfterSeparator(argv[1..])
  }

  /** Words before the first separator do not change what follows it. */
  lemma {:induction false} AfterSeparatorSkips(before: seq<string>, rest: seq<string>)
    requires forall k :: 0 <= k < |before| ==> before[k] != "--"
    ensures AfterSeparator(before + rest) == AfterSeparator(rest)
    decreases |before|
  {
    if before == [] {
      assert before + rest == rest;
    } else {
      assert (before + rest)[1..] == before[1..] + rest;
      AfterSeparatorSkips(before[1..], rest);
    }
  }

  /**
   * The command the debug container runs is recovered from the command line as
   * everything after its first "--": the user's arguments with one leading
   * "--" dropped, and nothing when none are left.
   */
  lemma PackageCommandReadsBack(context: Option<string>, namespace: string, pod: string, container: string,
                                image: string, name: string, profile: string, commandArgs: seq<string>)
    requires context.Some? ==> context.value != "--"
    requires namespace != "--" && pod != "--" && container != "--" && image != "--"
    requires name != "--" && profile != "--"
    ensures AfterSeparator(PackageArgv(context, namespace, pod, container, image, name, profile, commandArgs))
         == DroppedSeparator(commandArgs)
  {
    var base := PackageBase(context, namespace, pod, container, image, name, profile);
    assert forall k :: 0 <= k < |base| ==> base[k] != "--";
    AfterSeparatorSkips(base, CommandTail(commandArgs));
    if CommandTail(commandArgs) == [] {
      assert AfterSeparator([]) == [];
    }
  }

  /** A leading "--" is dropped once only: a second one reaches the debug container. */
  lemma SecondSeparatorKept(rest: seq<string>)
    ensures CommandTail(["--", "--"] + rest) == ["--", "--"] + rest
  {
    assert (["--", "--"] + rest)[1..] == ["--"] + rest;
  }

  /** The dry-run line: the words of the command separated by single spaces. */
  function DryRunLine(argv: seq<string>): (r: string)
    requires argv != []
  {
    Join(argv, ' ')
  }

  /** When no word holds a space, the printed line splits back into the command. */
  lemma DryRunLineSplits(argv: seq<string>)
    requires argv != []
    requires forall k, j :: 0 <= k < |argv| && 0 <= j < |argv[k]| ==> argv[k][j] != ' '
    ensures Split(DryRunLine(argv), ' ') == argv
  {
    SplitJoin(argv, ' ');
  }
}
