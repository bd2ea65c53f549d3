// The packaged ks tool's `main` (ks/src/ks/cli.py): choose a namespace, a pod
// and a container with iterfzf, make sure the namespace carries the privileged
// label, build the `kubectl debug` command with the user's command after `--`,
// then print it (dry run) or run it, and remove the label again if this run
// applied it.
//
// Unlike ks/ks.py, no choice means a quiet exit with status 0, a label that
// cannot be applied ends the program with status 1, and the cleanup runs
// twice when the label was applied: once explicitly at the end of `main` and
// once more from the exit hook, since running the cleanups does not empty
// their list.
//
// ks/src/ks holds both a `helpers/` package and a `helpers.py` module, and
// Python resolves `.helpers` to the package, which lacks
// `check_command_availability`: as written, importing cli.py fails before
// `main` (`HelpersImportShadowed`). The run of `main` modelled here is the
// one cli.py is written for, against helpers.py.
//
// The cluster, the user's picks, the kubectl run and the UUID are inputs, as
// in the other entry point. The shell-completion options are not modelled
// here: they print what the Kubernetes wrappers return and exit 0.

module KsPackage {
  import opened Wrappers
  import opened Text
  import opened KsProcess
  import opened KsArgv
  import opened KsCleanup
  import opened KsSession

  /** The arguments of the packaged tool. */
  datatype PackageArgs = PackageArgs(
    context: Option<string>,
    namespace: Option<string>,
    pod: Option<string>,
    container: Option<string>,
    image: string,
    profile: string,
    dryRun: bool,
    commandArgs: seq<string>)

  /** The user's picks in iterfzf. */
  datatype PackagePicks = PackagePicks(namespace: Pick, pod: Pick, container: Pick)

  /** What is installed: the Kubernetes library, kubectl and fzf, and whether the client initialised. */
  datatype PackageTools = PackageTools(k8sAvailable: bool, kubectlOnPath: bool, fzfOnPath: bool, clientReady: bool)

  /** The value given, else the user's pick; None or "" means no choice. */
  function GivenOrPicked(given: Option<string>, choices: seq<string>, pick: Pick): (r: Option<string>)
    ensures Given(given) ==> r == given
  {
    if Given(given) then given else IterFzfSelect(choices, pick)
  }

  /** The choice of target; None when the user chose nothing (exit 0), or an exit status. */
  function PackageTarget(args: PackageArgs, cluster: Cluster, picks: PackagePicks): (r: Outcome<Option<Target>>)
  {
    var namespace := GivenOrPicked(args.namespace, cluster.namespaces, picks.namespace);
    if !Given(namespace) then Value(None)
    else
      var ns := namespace.value;
      var pod := GivenOrPicked(args.pod, Lookup(cluster.pods, ns), picks.pod);
      if !Given(pod) then Value(None)
      else
        var p := pod.value;
        var containers := Lookup(cluster.containers, (ns, p));
        if containers == [] then Exit(1)
        else
          var container :=
            if Given(args.container) then args.container
            else if |containers| == 1 then Some(containers[0])
            else IterFzfSelect(containers, picks.container);
          if !Given(container) then Value(None)
          else Value(Some(Target(ns, p, container.value)))
  }

  /** The packaged tool's command for a target. */
  function PackageCommand(args: PackageArgs, t: Target, uuidHex: string): (r: seq<string>)
  {
    PackageArgv(args.context, t.namespace, t.pod, t.container, args.image,
                PackageContainerName(t.pod, uuidHex), args.profile, args.commandArgs)
  }

  /** The run of `main` after the choice: the label, then the dry run or the launch. */
  function PackageLaunch(args: PackageArgs, cluster: Cluster, t: Target, uuidHex: string, kubectl: Run): (r: Session)
  {
    if t.namespace !in cluster.labelled && t.namespace !in cluster.labelable then Session(1, NoEffect, [])
    else
      var registered := if t.namespace !in cluster.labelled then [LabelRemoval(t.namespace, args.context)] else [];
      var argv := PackageCommand(args, t, uuidHex);
      if args.dryRun then Session(0, DryRun(Join(argv, ' ')), registered)
      else match RunCaptured(false, kubectl)
        case Exit(status) => Session(status, Launched(argv), registered)
        case Value(_) => Session(0, Launched(argv), registered)
  }

  /** The whole run of the packaged tool's `main`. */
  function PackageRun(args: PackageArgs, cluster: Cluster, tools: PackageTools, picks: PackagePicks,
                      uuidHex: string, kubectl: Run): (r: Session)
  {
    if !tools.k8sAvailable || !tools.kubectlOnPath || !tools.fzfOnPath || !tools.clientReady then
      Session(1, NoEffect, [])
    else match PackageTarget(args, cluster, picks)
      case Exit(status) => Session(status, NoEffect, [])
      case Value(None) => Session(0, NoEffect, [])
      case Value(Some(t)) => PackageLaunch(args, cluster, t, uuidHex, kubectl)
  }

  /**
   * True when `main` runs the cleanup itself: it applied the label and got to
   * its end (a kubectl that cannot be started exits first).
   */
  predicate CleansUpItself(s: Session)
  {
    s.registered != [] && s.status == 0
  }

  /**
   * `main` step by step. The cleanup tasks run at the end only when this run
   * applied the label; the exit hook is not part of `main`.
   */
  method PackageMain(args: PackageArgs, cluster: Cluster, tools: PackageTools, picks: PackagePicks,
                     uuidHex: string, kubectl: Run, raises: nat -> bool, registry: Registry)
    returns (s: Session)
    modifies registry
    ensures s == PackageRun(args, cluster, tools, picks, uuidHex, kubectl)
    ensures registry.tasks == old(registry.tasks) + s.registered
    ensures registry.calls == old(registry.calls)
      + (if CleansUpItself(s) then Calls(RunOrder(registry.tasks), |old(registry.calls)|, raises) else [])
  {
    if !tools.k8sAvailable {
      return Session(1, NoEffect, []);
    }
    var kubectlCheck := RequireCommand(tools.kubectlOnPath);
    if kubectlCheck.Exit? {
      return Session(kubectlCheck.status, NoEffect, []);
    }
    var fzfCheck := RequireCommand(tools.fzfOnPath);
    if fzfCheck.Exit? {
      return Session(fzfCheck.status, NoEffect, []);
    }
    if !tools.clientReady {
      return Session(1, NoEffect, []);
    }
    var target := SelectPackageTarget(args, cluster, picks);
    if target.Exit? {
      return Session(target.status, NoEffect, []);
    }
    if target.value.None? {
      return Session(0, NoEffect, []);
    }
    s := PackageLaunchStep(args, cluster, target.value.value, uuidHex, kubectl, raises, registry);
  }

  /** The choice step by step: each of namespace, pod and container is given, picked, or the run ends. */
  method SelectPackageTarget(args: PackageArgs, cluster: Cluster, picks: PackagePicks) returns (r: Outcome<Option<Target>>)
    ensures r == PackageTarget(args, cluster, picks)
  {
    var namespace := args.namespace;
    if !Given(namespace) {
      namespace := IterFzfSelect(cluster.namespaces, picks.namespace);
    }
    if !Given(namespace) {
      return Value(None);
    }
    var pod := args.pod;
    if !Given(pod) {
      pod := IterFzfSelect(Lookup(cluster.pods, namespace.value), picks.pod);
    }
    if !Given(pod) {
      return Value(None);
    }
    var containers := Lookup(cluster.containers, (namespace.value, pod.value));
    if containers == [] {
      return Exit(1);
    }
    var container := args.container;
    if !Given(container) {
      if |containers| == 1 {
        container := Some(containers[0]);
      } else {
        container := IterFzfSelect(containers, picks.container);
      }
    }
    if !Given(container) {
      return Value(None);
    }
    return Value(Some(Target(namespace.value, pod.value, container.value)));
  }

  /** The label, the command, the dry run or the launch, and the explicit cleanup. */
  method PackageLaunchStep(args: PackageArgs, cluster: Cluster, t: Target, uuidHex: string, kubectl: Run,
                           raises: nat -> bool, registry: Registry) returns (s: Session)
    modifies registry
    ensures s == PackageLaunch(args, cluster, t, uuidHex, kubectl)
    ensures registry.tasks == old(registry.tasks) + s.registered
    ensures registry.calls == old(registry.calls)
      + (if CleansUpItself(s) then Calls(RunOrder(registry.tasks), |old(registry.calls)|, raises) else [])
  {
    var labelApplied := false;
    var registered: seq<Task> := [];
    if t.namespace !in cluster.labelled {
      if t.namespace in cluster.labelable {
        labelApplied := true;
        var task := LabelRemoval(t.namespace, args.context);
        registry.Register(task);
        registered := [task];
      } else {
        return Session(1, NoEffect, []);
      }
    }
    var name := PackageContainerName(t.pod, uuidHex);
    var argv := BuildPackageArgv(args.context, t.namespace, t.pod, t.container, args.image, name,
                                 args.profile, args.commandArgs);
    if args.dryRun {
      s := Session(0, DryRun(Join(argv, ' ')), registered);
    } else {
      var ran := RunCaptured(false, kubectl);
      if ran.Exit? {
        return Session(ran.status, Launched(argv), registered);
      }
      s := Session(0, Launched(argv), registered);
    }
    if labelApplied {
      registry.RunCleanup(raises);
    }
  }

  /**
   * The whole program: `main`, then the exit hook's cleanup run. When `main`
   * applied the label and reached its end, every registered task runs twice,
   * newest first each time.
   */
  method PackageProgram(args: PackageArgs, cluster: Cluster, tools: PackageTools, picks: PackagePicks,
                        uuidHex: string, kubectl: Run, raises: nat -> bool, registry: Registry)
    returns (s: Session)
    modifies registry
    ensures s == PackageRun(args, cluster, tools, picks, uuidHex, kubectl)
    ensures registry.tasks == old(registry.tasks) + s.registered
    ensures |old(registry.calls)| <= |registry.calls|
    ensures Called(registry.calls[|old(registry.calls)|..])
         == (if CleansUpItself(s) then RunOrder(registry.tasks) + RunOrder(registry.tasks) else RunOrder(registry.tasks))
  {
    var before := registry.calls;
    s := PackageMain(args, cluster, tools, picks, uuidHex, kubectl, raises, registry);
    var mid := registry.calls;
    registry.RunCleanup(raises);
    CleanupCallsReplayed(before, mid, registry.calls, RunOrder(registry.tasks), raises, CleansUpItself(s));
  }

  /**
   * The calls a run of `main` and the exit hook make, read as tasks: the run
   * order once for the hook, and once more before it when `main` cleaned up
   * itself.
   */
  lemma CleanupCallsReplayed(before: seq<Call>, mid: seq<Call>, after: seq<Call>, order: seq<Task>,
                             raises: nat -> bool, twice: bool)
    requires mid == before + (if twice then Calls(order, |before|, raises) else [])
    requires after == mid + Calls(order, |mid|, raises)
    ensures |before| <= |after|
    ensures Called(after[|before|..]) == (if twice then order + order else order)
  {
    FailuresIsolated(order, |mid|, raises);
    if twice {
      FailuresIsolated(order, |before|, raises);
      assert after[|before|..] == Calls(order, |before|, raises) + Calls(order, |mid|, raises);
      CalledAppend(Calls(order, |before|, raises), Calls(order, |mid|, raises));
    } else {
      assert after[|before|..] == Calls(order, |mid|, raises);
    }
  }

  /* ---------------- what a run promises ---------------- */

  /** The packaged tool ends with status 0 or 1. */
  lemma PackageStatus(args: PackageArgs, cluster: Cluster, tools: PackageTools, picks: PackagePicks,
                      uuidHex: string, kubectl: Run)
    ensures PackageRun(args, cluster, tools, picks, uuidHex, kubectl).status in {0, 1}
  {
  }

  /** No namespace, pod or container chosen is a quiet exit with status 0: nothing is labelled or launched. */
  lemma NoChoiceExitsZero(args: PackageArgs, cluster: Cluster, tools: PackageTools, picks: PackagePicks,
                          uuidHex: string, kubectl: Run)
    requires tools.k8sAvailable && tools.kubectlOnPath && tools.fzfOnPath && tools.clientReady
    requires !Given(args.namespace) && (picks.namespace.Dismissed? || picks.namespace.Failed? || cluster.namespaces == [])
    ensures PackageRun(args, cluster, tools, picks, uuidHex, kubectl) == Session(0, NoEffect, [])
  {
  }

  /** A pod without containers ends the program with status 1. */
  lemma NoContainersExitsOne(args: PackageArgs, cluster: Cluster, tools: PackageTools, picks: PackagePicks,
                             uuidHex: string, kubectl: Run)
    requires tools.k8sAvailable && tools.kubectlOnPath && tools.fzfOnPath && tools.clientReady
    requires Given(args.namespace) && Given(args.pod)
    requires Lookup(cluster.containers, (args.namespace.value, args.pod.value)) == []
    ensures PackageRun(args, cluster, tools, picks, uuidHex, kubectl) == Session(1, NoEffect, [])
  {
  }

  /**
   * A namespace that lacks the label and refuses it ends the program with
   * status 1 before anything is launched (ks/ks.py only logs this and goes on).
   */
  lemma LabelFailureExitsOne(args: PackageArgs, cluster: Cluster, tools: PackageTools, picks: PackagePicks,
                             uuidHex: string, kubectl: Run)
    requires tools.k8sAvailable && tools.kubectlOnPath && tools.fzfOnPath && tools.clientReady
    requires PackageTarget(args, cluster, picks).Value? && PackageTarget(args, cluster, picks).value.Some?
    requires var ns := PackageTarget(args, cluster, picks).value.value.namespace;
      ns !in cluster.labelled && ns !in cluster.labelable
    ensures PackageRun(args, cluster, tools, picks, uuidHex, kubectl) == Session(1, NoEffect, [])
  {
  }

  /**
   * A launched command runs, after its first "--", exactly the user's command
   * with one leading "--" dropped, when the chosen names and options are not
   * "--" themselves.
   */
  lemma LaunchRunsUserCommand(args: PackageArgs, cluster: Cluster, tools: PackageTools, picks: PackagePicks,
                              uuidHex: string, kubectl: Run)
    requires PackageRun(args, cluster, tools, picks, uuidHex, kubectl).effect.Launched?
    requires args.context.Some? ==> args.context.value != "--"
    requires args.image != "--" && args.profile != "--"
    requires PackageTarget(args, cluster, picks).Value? && PackageTarget(args, cluster, picks).value.Some?
    requires var t := PackageTarget(args, cluster, picks).value.value;
      t.namespace != "--" && t.pod != "--" && t.container != "--"
    ensures AfterSeparator(PackageRun(args, cluster, tools, picks, uuidHex, kubectl).effect.argv)
         == DroppedSeparator(args.commandArgs)
  {
    var t := PackageTarget(args, cluster, picks).value.value;
    var name := PackageContainerName(t.pod, uuidHex);
    assert name != "--" by {
      assert name[0] == 'd';
    }
    PackageCommandReadsBack(args.context, t.namespace, t.pod, t.container, args.image, name, args.profile,
                            args.commandArgs);
  }

  /** A dry run prints the command and runs nothing; kubectl's own status never changes the exit status. */
  lemma DryRunPrintsOnly(args: PackageArgs, cluster: Cluster, tools: PackageTools, picks: PackagePicks,
                         uuidHex: string, kubectl: Run, code: int, out: string, err: string)
    ensures args.dryRun ==> !PackageRun(args, cluster, tools, picks, uuidHex, kubectl).effect.Launched?
    ensures PackageRun(args, cluster, tools, picks, uuidHex, Exited(code, out, err))
         == PackageRun(args, cluster, tools, picks, uuidHex, Exited(0, out, err))
  {
  }

  /* ---------------- which `.helpers` the packaged tool imports ---------------- */

  /** The names ks/src/ks/cli.py imports from `.helpers`, in the order it lists them. */
  const HelperImports: seq<string> :=
    ["run_command", "fzf_select", "register_cleanup", "run_cleanup", "check_command_availability"]

  /** The two definitions of `.helpers` side by side in ks/src/ks: the package directory and the module file. */
  datatype HelpersSource = HelpersPackage | HelpersModule

  /** The public functions each definition provides. */
  function HelperNames(src: HelpersSource): set<string>
  {
    match src
    case HelpersPackage => {"run_command", "fzf_select", "register_cleanup", "run_cleanup"}
    case HelpersModule => {"check_command_availability", "run_command", "fzf_select", "register_cleanup", "run_cleanup"}
  }

  /**
   * Python's path finder looks for a package directory before a module file
   * of the same name, so the directory wins when both exist.
   */
  function ResolveHelpers(packageDir: bool, moduleFile: bool): (r: Option<HelpersSource>)
    ensures r.None? <==> !packageDir && !moduleFile
    ensures r == Some(HelpersModule) <==> !packageDir && moduleFile
  {
    if packageDir then Some(HelpersPackage)
    else if moduleFile then Some(HelpersModule)
    else None
  }

  /** `from m import (…)`: the first requested name that `m` does not define, which raises ImportError. */
  function MissingName(defined: set<string>, wanted: seq<string>): (r: Option<string>)
    ensures r.None? <==> forall i :: 0 <= i < |wanted| ==> wanted[i] in defined
    ensures r.Some? ==> r.value in wanted && r.value !in defined
  {
    if wanted == [] then None
    else if wanted[0] !in defined then Some(wanted[0])
    else
      var r := MissingName(defined, wanted[1..]);
      assert forall i :: 1 <= i < |wanted| ==> wanted[i] == wanted[1..][i - 1];
      r
  }

  /**
   * The packaged tool as written: importing ks/src/ks/cli.py resolves
   * `.helpers` first; a missing name raises ImportError before `main` runs,
   * which ends the interpreter with status 1 having done nothing.
   */
  function ToolRunAsWritten(packageDir: bool, moduleFile: bool, args: PackageArgs, cluster: Cluster,
                            tools: PackageTools, picks: PackagePicks, uuidHex: string, kubectl: Run): (r: Session)
  {
    match ResolveHelpers(packageDir, moduleFile)
    case None => Session(1, NoEffect, [])
    case Some(src) =>
      if MissingName(HelperNames(src), HelperImports).Some? then Session(1, NoEffect, [])
      else PackageRun(args, cluster, tools, picks, uuidHex, kubectl)
  }

  /**
   * With both definitions present, as in the repository, the package
   * directory shadows helpers.py, lacks `check_command_availability`, and the
   * tool ends with status 1 before choosing, labelling or launching anything.
   */
  lemma HelpersImportShadowed(args: PackageArgs, cluster: Cluster, tools: PackageTools, picks: PackagePicks,
                              uuidHex: string, kubectl: Run)
    ensures ResolveHelpers(true, true) == Some(HelpersPackage)
    ensures MissingName(HelperNames(HelpersPackage), HelperImports) == Some("check_command_availability")
    ensures ToolRunAsWritten(true, true, args, cluster, tools, picks, uuidHex, kubectl) == Session(1, NoEffect, [])
  {
    var names := HelperNames(HelpersPackage);
    assert HelperImports[0] in names && HelperImports[1] in names && HelperImports[2] in names
        && HelperImports[3] in names;
    assert HelperImports[4] !in names by {
      assert |HelperImports[4]| == 26;
    }
    assert HelperImports[1..][1..][1..][1..] == ["check_command_availability"];
  }

  /**
   * Resolved to helpers.py, the import succeeds and the tool runs `main` as
   * `PackageRun` specifies: the run the rest of this module models.
   */
  lemma HelpersModuleImports(args: PackageArgs, cluster: Cluster, tools: PackageTools, picks: PackagePicks,
                             uuidHex: string, kubectl: Run)
    ensures MissingName(HelperNames(HelpersModule), HelperImports).None?
    ensures ToolRunAsWritten(false, true, args, cluster, tools, picks, uuidHex, kubectl)
         == PackageRun(args, cluster, tools, picks, uuidHex, kubectl)
  {
    var names := HelperNames(HelpersModule);
    assert forall i :: 0 <= i < |HelperImports| ==> HelperImports[i] in names;
  }
}
