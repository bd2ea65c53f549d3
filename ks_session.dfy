// The entry point of ks/ks.py and ks/cli.py: the `--completion` pre-check
// that runs before argument parsing, the hidden completion-listing flags, the
// cached Kubernetes client of ks/ks.py, the handler that ends the program on an
// API error, and `main`'s choice of namespace, pod and container followed by the
// `kubectl debug` launch.
//
// The cluster is a value: what the Kubernetes wrappers report through the
// chosen context (names, containers, which targets can be described, which
// namespaces carry or accept the privileged label). The fzf runs, the kubectl
// run and the UUID are inputs. ks/ks.py also checks that kubectl and fzf are on
// PATH before selecting; ks/cli.py does not, which `checkTools` tells apart.

module KsSession {
  import opened Wrappers
  import opened Text
  import opened KsProcess
  import opened KsArgv
  import opened KsCleanup

  /* ---------------- the --completion pre-check ---------------- */

  /** What the pre-check decides: go on to `main`, print a shell's script and exit 0, or exit 1. */
  datatype PreCheck = Proceed | PrintScript(shell: string) | Reject

  /** The shells a completion script exists for. */
  const Shells := ["bash", "zsh", "fish"]

  /** The first position of `w` in `words`, None when absent. */
  function IndexOf(words: seq<string>, w: string): (r: Option<nat>)
    ensures r.Some? ==> r.value < |words| && words[r.value] == w && Absent(words[..r.value], w)
    ensures r.None? ==> Absent(words, w)
    decreases |words|
  {
    if words == [] then None
    else if words[0] == w then Some(0)
    else match IndexOf(words[1..], w)
      case None => None
      case Some(i) => Some(i + 1)
  }

  /** The pre-check on the raw command line: the word after the first `--completion` names the shell. */
  function CompletionPreCheck(argv: seq<string>): (r: PreCheck)
  {
    match IndexOf(argv, "--completion")
    case None => Proceed
    case Some(i) =>
      if i + 1 < |argv| then
        if argv[i + 1] in Shells then PrintScript(argv[i + 1]) else Reject
      else Reject
  }

  /** The exit status the pre-check ends with, when it ends the program. */
  function PreCheckStatus(p: PreCheck): (status: Option<int>)
  {
    match p
    case Proceed => None
    case PrintScript(_) => Some(0)
    case Reject => Some(1)
  }

  /**
   * Without `--completion` the program goes on; with it, it prints the script of
   * a supported shell named next and exits 0, and exits 1 when the shell is
   * missing or unsupported.
   */
  lemma CompletionPreCheckTable(argv: seq<string>)
    ensures CompletionPreCheck(argv).Proceed? <==> Absent(argv, "--completion")
    ensures CompletionPreCheck(argv).PrintScript? <==>
      exists i :: 0 <= i < |argv| - 1 && argv[i] == "--completion" && Absent(argv[..i], "--completion")
                  && argv[i + 1] in Shells
    ensures CompletionPreCheck(argv).PrintScript? ==> CompletionPreCheck(argv).shell in Shells
    ensures PreCheckStatus(CompletionPreCheck(argv)) == Some(0) <==> CompletionPreCheck(argv).PrintScript?
  {
    var r := IndexOf(argv, "--completion");
    if r.Some? {
      var i := r.value;
      forall j | 0 <= j < |argv| - 1 && argv[j] == "--completion" && Absent(argv[..j], "--completion")
        ensures j == i
      {
      }
    } else {
      forall j | 0 <= j < |argv| - 1 && argv[j] == "--completion"
        ensures false
      {
      }
    }
  }

  /* ---------------- the cluster as the wrappers report it ---------------- */

  /** A chosen debugging target. */
  datatype Target = Target(namespace: string, pod: string, container: string)

  /**
   * What the Kubernetes wrappers report: context names, namespaces, pod names and
   * pod lines ("<pod> <node>") per namespace, containers per pod, the targets
   * whose metadata can be read, and the namespaces that carry the privileged
   * label or accept it.
   */
  datatype Cluster = Cluster(
    contexts: seq<string>,
    namespaces: seq<string>,
    pods: map<string, seq<string>>,
    podLines: map<string, seq<string>>,
    containers: map<(string, string), seq<string>>,
    described: set<Target>,
    labelled: set<string>,
    labelable: set<string>)

  /** A per-key listing; a key the wrappers know nothing about lists nothing. */
  function Lookup<K, V>(m: map<K, seq<V>>, k: K): (r: seq<V>)
    ensures k !in m ==> r == []
  {
    if k in m then m[k] else []
  }

  /* ---------------- the hidden completion-listing flags ---------------- */

  /** The arguments of ks/ks.py and ks/cli.py. */
  datatype SessionArgs = SessionArgs(
    context: Option<string>,
    namespace: Option<string>,
    pod: Option<string>,
    container: Option<string>,
    image: string,
    dryRun: bool,
    listContexts: bool,
    listNamespaces: bool,
    listPods: bool,
    listContainers: bool)

  /** What a listing flag does: nothing requested, a list printed (exit 0), or a refusal (exit 1). */
  datatype Listing = NotListing | Listed(text: string) | Refused

  /**
   * The listing flags, checked in order: each needs the Kubernetes library,
   * pods need a namespace and containers need a namespace and a pod.
   */
  function ListCompletions(args: SessionArgs, k8sAvailable: bool, cluster: Cluster): (r: Listing)
  {
    var any := args.listContexts || args.listNamespaces || args.listPods || args.listContainers;
    if any && !k8sAvailable then Refused
    else if args.listContexts then Listed(JoinWith(cluster.contexts, "\n"))
    else if args.listNamespaces then Listed(JoinWith(cluster.namespaces, "\n"))
    else if args.listPods then
      if !Given(args.namespace) then Refused
      else Listed(JoinWith(Lookup(cluster.pods, args.namespace.value), "\n"))
    else if args.listContainers then
      if !Given(args.namespace) || !Given(args.pod) then Refused
      else Listed(JoinWith(Lookup(cluster.containers, (args.namespace.value, args.pod.value)), "\n"))
    else NotListing
  }

  /**
   * The listing guards: no flag, no listing; a pod listing without a namespace,
   * or a container listing without both a namespace and a pod, is refused when
   * it is the first flag set; a listing never happens without the library.
   */
  lemma ListingGuards(args: SessionArgs, k8sAvailable: bool, cluster: Cluster)
    ensures ListCompletions(args, k8sAvailable, cluster).NotListing? <==>
      !(args.listContexts || args.listNamespaces || args.listPods || args.listContainers)
    ensures ListCompletions(args, k8sAvailable, cluster).Listed? ==> k8sAvailable
    ensures k8sAvailable && !args.listContexts && !args.listNamespaces && args.listPods && !Given(args.namespace)
      ==> ListCompletions(args, k8sAvailable, cluster).Refused?
    ensures k8sAvailable && !args.listContexts && !args.listNamespaces && !args.listPods && args.listContainers
      ==> (ListCompletions(args, k8sAvailable, cluster).Refused? <==> !Given(args.namespace) || !Given(args.pod))
  {
  }

  /* ---------------- the cached client of ks/ks.py ---------------- */

  /** True when some word of the command line asks for completion data or a completion script. */
  predicate CompletionRun(argv: seq<string>)
  {
    exists k :: 0 <= k < |argv| && (StartsWith(argv[k], "--_list") || argv[k] == "--completion")
  }

  /**
   * `init_k8s_client`'s module state: the context it last initialised (None also
   * before the first call) and whether the API object exists.
   */
  class KubeClient {
    var initialized: Option<string>
    var ready: bool

    constructor()
      ensures initialized == None && !ready
    {
      initialized := None;
      ready := false;
    }

    /**
     * Initialise for `context`. A call for the context already initialised,
     * without `forceReload`, answers from the cache. A failed configuration
     * load forgets the client and exits 1, except on a completion run.
     */
    method Init(context: Option<string>, forceReload: bool, k8sAvailable: bool, loads: bool, argv: seq<string>)
      returns (r: Outcome<bool>)
      modifies this
      ensures r == InitResult(old(initialized), old(ready), context, forceReload, k8sAvailable, loads, CompletionRun(argv))
      ensures (initialized, ready) == InitState(old(initialized), old(ready), context, forceReload, k8sAvailable, loads)
    {
      if initialized.Some? && initialized == context && !forceReload {
        return Value(ready);
      }
      if !k8sAvailable {
        return Value(false);
      }
      if loads {
        ready := true;
        initialized := context;
        return Value(true);
      }
      ready := false;
      initialized := None;
      if !CompletionRun(argv) {
        return Exit(1);
      }
      return Value(false);
    }
  }

  /** True when `Init` answers from the cache. */
  predicate Cached(initialized: Option<string>, context: Option<string>, forceReload: bool)
  {
    initialized.Some? && initialized == context && !forceReload
  }

  /** What `Init` returns. */
  function InitResult(initialized: Option<string>, ready: bool, context: Option<string>, forceReload: bool,
                      k8sAvailable: bool, loads: bool, completionRun: bool): (r: Outcome<bool>)
  {
    if Cached(initialized, context, forceReload) then Value(ready)
    else if !k8sAvailable then Value(false)
    else if loads then Value(true)
    else if completionRun then Value(false)
    else Exit(1)
  }

  /** The client state `Init` leaves. */
  function InitState(initialized: Option<string>, ready: bool, context: Option<string>, forceReload: bool,
                     k8sAvailable: bool, loads: bool): (r: (Option<string>, bool))
  {
    if Cached(initialized, context, forceReload) || !k8sAvailable then (initialized, ready)
    else if loads then (context, true)
    else (None, false)
  }

  /**
   * The cache guard: a second call for the context last initialised, without a
   * forced reload, neither loads nor changes anything and reports the first
   * call's success. A successful load is what makes the next call cached.
   */
  lemma InitCacheGuard(initialized: Option<string>, ready: bool, context: Option<string>, forceReload: bool,
                       k8sAvailable: bool, loads: bool, completionRun: bool)
    ensures Cached(initialized, context, forceReload) ==>
      InitResult(initialized, ready, context, forceReload, k8sAvailable, loads, completionRun) == Value(ready)
      && InitState(initialized, ready, context, forceReload, k8sAvailable, loads) == (initialized, ready)
    ensures var s := InitState(initialized, ready, context, forceReload, k8sAvailable, loads);
      (!Cached(initialized, context, forceReload) && k8sAvailable && loads && context.Some?)
        ==> Cached(s.0, context, false) && s.1
    ensures InitResult(initialized, ready, context, forceReload, k8sAvailable, loads, completionRun).Exit? ==>
      InitResult(initialized, ready, context, forceReload, k8sAvailable, loads, completionRun).status == 1
      && !completionRun && k8sAvailable && !loads
  {
  }

  /** The default context (None) is never answered from the cache: every call for it loads again. */
  lemma DefaultContextNeverCached(initialized: Option<string>, ready: bool, forceReload: bool,
                                  k8sAvailable: bool, loads: bool, completionRun: bool)
    ensures InitResult(initialized, ready, None, forceReload, k8sAvailable, loads, completionRun)
         == InitResult(None, false, None, false, k8sAvailable, loads, completionRun)
  {
  }

  /* ---------------- handle_api_exception_norm ---------------- */

  /** The suggestion logged after an API error. */
  datatype Hint = CheckPermissions | CheckNames | NoHint

  /** An API error is logged with a hint chosen by its HTTP status, and the program always exits 1. */
  function HandleApiException(status: int): (r: (Hint, Outcome<()>))
    ensures r.1 == Exit(1)
    ensures r.0 == CheckPermissions <==> status == 403
    ensures r.0 == CheckNames <==> status == 404
  {
    (if status == 403 then CheckPermissions else if status == 404 then CheckNames else NoHint, Exit(1))
  }

  /* ---------------- main: choosing the target ---------------- */

  /** The fzf runs the user's choices come from. */
  datatype Picks = Picks(namespace: Run, pod: Run, container: Run)

  /** Ask the user with fzf: an empty list, no choice or an empty choice all exit 1. */
  function AskFor(choices: seq<string>, fzfOnPath: bool, run: Run): (r: Outcome<string>)
    ensures r.Exit? ==> r.status == 1
    ensures r.Value? ==> r.value != ""
  {
    if choices == [] then Exit(1)
    else match FzfSelect(choices, fzfOnPath, run)
      case Exit(status) => Exit(status)
      case Value(selection) =>
        if selection.None? || selection.value == "" then Exit(1) else Value(selection.value)
  }

  /** The namespace: the one given, or the user's choice among all namespaces. */
  function PickNamespace(args: SessionArgs, cluster: Cluster, fzfOnPath: bool, picks: Picks): (r: Outcome<string>)
  {
    if Given(args.namespace) then Value(args.namespace.value)
    else AskFor(cluster.namespaces, fzfOnPath, picks.namespace)
  }

  /** The pod: the one given, or the first word of the line the user chose among the namespace's pod lines. */
  function PickPod(args: SessionArgs, namespace: string, cluster: Cluster, fzfOnPath: bool, picks: Picks): (r: Outcome<string>)
  {
    if Given(args.pod) then Value(args.pod.value)
    else match AskFor(Lookup(cluster.podLines, namespace), fzfOnPath, picks.pod)
      case Exit(status) => Exit(status)
      case Value(line) =>
        match FirstToken(line)
        case None => Exit(1)
        case Some(word) => Value(word)
  }

  /** The container: the one given, the pod's only container, or the user's choice among them. */
  function PickContainer(args: SessionArgs, namespace: string, pod: string, cluster: Cluster, fzfOnPath: bool,
                         picks: Picks): (r: Outcome<string>)
  {
    if Given(args.container) then Value(args.container.value)
    else
      var choices := Lookup(cluster.containers, (namespace, pod));
      if choices == [] then Exit(1)
      else if |choices| == 1 then Value(choices[0])
      else AskFor(choices, fzfOnPath, picks.container)
  }

  /** The whole choice: namespace, then pod, then container; the first exit ends it. */
  function SessionTarget(args: SessionArgs, cluster: Cluster, fzfOnPath: bool, picks: Picks): (r: Outcome<Target>)
  {
    match PickNamespace(args, cluster, fzfOnPath, picks)
    case Exit(status) => Exit(status)
    case Value(namespace) =>
      match PickPod(args, namespace, cluster, fzfOnPath, picks)
      case Exit(status) => Exit(status)
      case Value(pod) =>
        match PickContainer(args, namespace, pod, cluster, fzfOnPath, picks)
        case Exit(status) => Exit(status)
        case Value(container) => Value(Target(namespace, pod, container))
  }

  /** The choice step by step, reassigning the namespace, the pod and the container in turn. */
  method SelectTarget(args: SessionArgs, cluster: Cluster, fzfOnPath: bool, picks: Picks) returns (r: Outcome<Target>)
    ensures r == SessionTarget(args, cluster, fzfOnPath, picks)
  {
    var namespace := args.namespace;
    if !Given(namespace) {
      var chosen := AskFor(cluster.namespaces, fzfOnPath, picks.namespace);
      if chosen.Exit? {
        return Exit(chosen.status);
      }
      namespace := Some(chosen.value);
    }
    var ns := namespace.value;
    var pod := args.pod;
    if !Given(pod) {
      var line := AskFor(Lookup(cluster.podLines, ns), fzfOnPath, picks.pod);
      if line.Exit? {
        return Exit(line.status);
      }
      var word := FirstToken(line.value);
      if word.None? {
        return Exit(1);
      }
      pod := word;
    }
    var p := pod.value;
    var container := args.container;
    if !Given(container) {
      var choices := Lookup(cluster.containers, (ns, p));
      if choices == [] {
        return Exit(1);
      }
      if |choices| == 1 {
        container := Some(choices[0]);
      } else {
        var chosen := AskFor(choices, fzfOnPath, picks.container);
        if chosen.Exit? {
          return Exit(chosen.status);
        }
        container := Some(chosen.value);
      }
    }
    return Value(Target(ns, p, container.value));
  }

  /** A line fzf hands back has been stripped, so when it is not empty its first word exists. */
  lemma PickedLineHasPod(stdout: string)
    requires Strip(stdout) != ""
    ensures FirstToken(Strip(stdout)).Some?
  {
    var t := TrimLeft(stdout);
    TrimRightSpec(t);
    var u := Strip(stdout);
    FirstTokenSpec(u);
    assert !IsSpace(u[|u| - 1]);
  }

  /** The pod chosen from a line is that line's first word; a pod given on the command line is used as is. */
  lemma PodComesFromLine(args: SessionArgs, namespace: string, cluster: Cluster, fzfOnPath: bool, picks: Picks)
    requires !Given(args.pod) && Lookup(cluster.podLines, namespace) != [] && fzfOnPath
    requires picks.pod.Exited? && picks.pod.code == 0 && Strip(picks.pod.stdout) != ""
    ensures FirstToken(Strip(picks.pod.stdout)).Some?
    ensures PickPod(args, namespace, cluster, fzfOnPath, picks) == Value(FirstToken(Strip(picks.pod.stdout)).value)
  {
    PickedLineHasPod(picks.pod.stdout);
  }

  /** A pod with a single container needs no choice: that container is used, whatever fzf would say. */
  lemma SingleContainerAutoSelected(args: SessionArgs, namespace: string, pod: string, cluster: Cluster,
                                    fzfOnPath: bool, picks: Picks, other: Picks)
    requires !Given(args.container) && |Lookup(cluster.containers, (namespace, pod))| == 1
    ensures PickContainer(args, namespace, pod, cluster, fzfOnPath, picks)
         == PickContainer(args, namespace, pod, cluster, fzfOnPath, other)
         == Value(Lookup(cluster.containers, (namespace, pod))[0])
  {
  }

  /** A target given in full on the command line is used as is: fzf is never consulted. */
  lemma GivenTargetUsed(args: SessionArgs, cluster: Cluster, fzfOnPath: bool, picks: Picks, other: Picks)
    requires Given(args.namespace) && Given(args.pod) && Given(args.container)
    ensures SessionTarget(args, cluster, fzfOnPath, picks) == SessionTarget(args, cluster, fzfOnPath, other)
         == Value(Target(args.namespace.value, args.pod.value, args.container.value))
  {
  }

  /** Nothing to choose from ends the program with status 1: no namespaces, no pod lines, or no containers. */
  lemma EmptyChoiceExits(args: SessionArgs, cluster: Cluster, fzfOnPath: bool, picks: Picks)
    ensures !Given(args.namespace) && cluster.namespaces == [] ==>
      SessionTarget(args, cluster, fzfOnPath, picks) == Exit(1)
    ensures Given(args.namespace) && !Given(args.pod) && Lookup(cluster.podLines, args.namespace.value) == [] ==>
      SessionTarget(args, cluster, fzfOnPath, picks) == Exit(1)
    ensures (Given(args.namespace) && Given(args.pod) && !Given(args.container)
             && Lookup(cluster.containers, (args.namespace.value, args.pod.value)) == []) ==>
      SessionTarget(args, cluster, fzfOnPath, picks) == Exit(1)
  {
  }

  /** Every way the choice can fail exits with status 1. */
  lemma {:induction false} TargetExitsOne(args: SessionArgs, cluster: Cluster, fzfOnPath: bool, picks: Picks)
    ensures SessionTarget(args, cluster, fzfOnPath, picks).Exit? ==> SessionTarget(args, cluster, fzfOnPath, picks).status == 1
  {
  }

  /* ---------------- main: the launch ---------------- */

  /** What the program did besides exiting: nothing, a listing, a dry-run line, or a kubectl launch. */
  datatype Effect = NoEffect | ListedNames(text: string) | DryRun(line: string) | Launched(argv: seq<string>)

  /** How a run of the program ends: its exit status, what it did, and the cleanup tasks it registered. */
  datatype Session = Session(status: int, effect: Effect, registered: seq<Task>)

  /** The cleanup that removes the privileged label from a namespace through a context. */
  function LabelRemoval(namespace: string, context: Option<string>): (t: Task)
    ensures t.name == "remove_namespace_label" && |t.args| >= 1 && t.args[0] == namespace
  {
    Task("remove_namespace_label", [namespace] + (if context.Some? then [context.value] else []))
  }

  /** Which binaries and libraries are there, and whether the client initialised. */
  datatype Tools = Tools(k8sAvailable: bool, kubectlOnPath: bool, fzfOnPath: bool, clientReady: bool)

  /** The checks before any choice: the library, the binaries (ks/ks.py only), the client. */
  predicate Prepared(tools: Tools, checkTools: bool)
  {
    tools.k8sAvailable && (checkTools ==> tools.kubectlOnPath && tools.fzfOnPath) && tools.clientReady
  }

  /**
   * The label step: a namespace without the label that accepts it gets a
   * cleanup that removes it again; a failed apply is only logged.
   */
  function LabelCleanup(cluster: Cluster, namespace: string, context: Option<string>): (r: seq<Task>)
  {
    if namespace !in cluster.labelled && namespace in cluster.labelable then [LabelRemoval(namespace, context)] else []
  }

  /** Launching on a chosen target: a dry run logs the command; otherwise kubectl runs, and a failure exits 1. */
  function SessionLaunch(args: SessionArgs, cluster: Cluster, t: Target, uuidText: string, kubectl: Run): (r: Session)
  {
    var argv := SessionArgv(args.context, t.pod, t.namespace, t.container, args.image,
                            SessionContainerName(t.container, uuidText));
    var registered := LabelCleanup(cluster, t.namespace, args.context);
    if args.dryRun then Session(0, DryRun(Join(argv, ' ')), registered)
    else match RunChecked(true, false, kubectl)
      case Exit(status) => Session(status, Launched(argv), registered)
      case Value(_) => Session(0, Launched(argv), registered)
  }

  /** The whole run of `main` in ks/ks.py (`checkTools`) or ks/cli.py. */
  function SessionRun(args: SessionArgs, cluster: Cluster, tools: Tools, picks: Picks, uuidText: string,
                      kubectl: Run, checkTools: bool): (r: Session)
  {
    match ListCompletions(args, tools.k8sAvailable, cluster)
    case Listed(text) => Session(0, ListedNames(text), [])
    case Refused => Session(1, NoEffect, [])
    case NotListing =>
      if !Prepared(tools, checkTools) then Session(1, NoEffect, [])
      else match SessionTarget(args, cluster, tools.fzfOnPath, picks)
        case Exit(status) => Session(status, NoEffect, [])
        case Value(t) =>
          if t !in cluster.described then Session(1, NoEffect, [])
          else SessionLaunch(args, cluster, t, uuidText, kubectl)
  }

  /** `main` step by step: listing, checks, the choice, the metadata check, the label, then the launch. */
  method SessionMain(args: SessionArgs, cluster: Cluster, tools: Tools, picks: Picks, uuidText: string,
                     kubectl: Run, checkTools: bool, registry: Registry) returns (s: Session)
    modifies registry
    ensures s == SessionRun(args, cluster, tools, picks, uuidText, kubectl, checkTools)
    ensures registry.tasks == old(registry.tasks) + s.registered
    ensures registry.calls == old(registry.calls)
  {
    var listing := ListCompletions(args, tools.k8sAvailable, cluster);
    if listing.Listed? {
      return Session(0, ListedNames(listing.text), []);
    }
    if listing.Refused? {
      return Session(1, NoEffect, []);
    }
    if !tools.k8sAvailable {
      return Session(1, NoEffect, []);
    }
    if checkTools && !tools.kubectlOnPath {
      return Session(1, NoEffect, []);
    }
    if checkTools && !tools.fzfOnPath {
      return Session(1, NoEffect, []);
    }
    if !tools.clientReady {
      return Session(1, NoEffect, []);
    }
    var target := SelectTarget(args, cluster, tools.fzfOnPath, picks);
    if target.Exit? {
      return Session(target.status, NoEffect, []);
    }
    var t := target.value;
    if t !in cluster.described {
      return Session(1, NoEffect, []);
    }
    s := Launch(args, cluster, t, uuidText, kubectl, registry);
  }

  /** The label step and the launch, registering the label's removal when this run applied it. */
  method Launch(args: SessionArgs, cluster: Cluster, t: Target, uuidText: string, kubectl: Run, registry: Registry)
    returns (s: Session)
    modifies registry
    ensures s == SessionLaunch(args, cluster, t, uuidText, kubectl)
    ensures registry.tasks == old(registry.tasks) + s.registered
    ensures registry.calls == old(registry.calls)
  {
    var registered: seq<Task> := [];
    if t.namespace !in cluster.labelled {
      if t.namespace in cluster.labelable {
        var task := LabelRemoval(t.namespace, args.context);
        registry.Register(task);
        registered := [task];
      }
    }
    var name := SessionContainerName(t.container, uuidText);
    var argv := BuildSessionArgv(args.context, t.pod, t.namespace, t.container, args.image, name);
    if args.dryRun {
      return Session(0, DryRun(Join(argv, ' ')), registered);
    }
    var ran := RunChecked(true, false, kubectl);
    if ran.Exit? {
      return Session(ran.status, Launched(argv), registered);
    }
    return Session(0, Launched(argv), registered);
  }

  /* ---------------- what a run promises ---------------- */

  /** The program ends with status 0 or 1. */
  lemma SessionStatus(args: SessionArgs, cluster: Cluster, tools: Tools, picks: Picks, uuidText: string,
                      kubectl: Run, checkTools: bool)
    ensures SessionRun(args, cluster, tools, picks, uuidText, kubectl, checkTools).status in {0, 1}
  {
    TargetExitsOne(args, cluster, tools.fzfOnPath, picks);
  }

  /**
   * The label's removal is registered exactly when the run reached a target it
   * could describe, in a namespace that lacked the label and accepted it.
   */
  lemma CleanupOnlyWhenLabelApplied(args: SessionArgs, cluster: Cluster, tools: Tools, picks: Picks,
                                    uuidText: string, kubectl: Run, checkTools: bool)
    ensures var s := SessionRun(args, cluster, tools, picks, uuidText, kubectl, checkTools);
      var target := SessionTarget(args, cluster, tools.fzfOnPath, picks);
      s.registered != [] <==>
        ListCompletions(args, tools.k8sAvailable, cluster).NotListing? && Prepared(tools, checkTools)
        && target.Value? && target.value in cluster.described
        && target.value.namespace !in cluster.labelled && target.value.namespace in cluster.labelable
    ensures var s := SessionRun(args, cluster, tools, picks, uuidText, kubectl, checkTools);
      s.registered != [] ==> s.registered == [LabelRemoval(SessionTarget(args, cluster, tools.fzfOnPath, picks).value.namespace, args.context)]
  {
  }

  /**
   * A launch runs kubectl's debug subcommand on the chosen target, with a
   * container named after the chosen container; a failed label apply does not
   * stop it.
   */
  lemma LaunchTargetsChoice(args: SessionArgs, cluster: Cluster, tools: Tools, picks: Picks, uuidText: string,
                            kubectl: Run, checkTools: bool)
    requires SessionRun(args, cluster, tools, picks, uuidText, kubectl, checkTools).effect.Launched?
    ensures var t := SessionTarget(args, cluster, tools.fzfOnPath, picks);
      t.Value? && t.value in cluster.described && !args.dryRun
      && SessionRun(args, cluster, tools, picks, uuidText, kubectl, checkTools).effect.argv
         == SessionArgv(args.context, t.value.pod, t.value.namespace, t.value.container, args.image,
                        SessionContainerName(t.value.container, uuidText))
  {
  }

  /** A dry run never runs kubectl: it only logs the command line, and ends with status 0. */
  lemma DryRunDoesNotLaunch(args: SessionArgs, cluster: Cluster, tools: Tools, picks: Picks, uuidText: string,
                            kubectl: Run, checkTools: bool)
    requires args.dryRun
    ensures var s := SessionRun(args, cluster, tools, picks, uuidText, kubectl, checkTools);
      !s.effect.Launched? && (s.effect.DryRun? ==> s.status == 0)
  {
  }

  /**
   * Only ks/ks.py checks that kubectl is on PATH before choosing: there a
   * missing kubectl ends a non-listing run with status 1 and nothing done,
   * while the run of ks/cli.py does not depend on it until kubectl is started.
   */
  lemma PathCheckOnlyInScript(args: SessionArgs, cluster: Cluster, tools: Tools, picks: Picks, uuidText: string,
                              kubectl: Run)
    ensures SessionRun(args, cluster, tools, picks, uuidText, kubectl, false)
         == SessionRun(args, cluster, tools.(kubectlOnPath := true), picks, uuidText, kubectl, false)
    ensures ListCompletions(args, tools.k8sAvailable, cluster).NotListing? && !tools.kubectlOnPath ==>
      SessionRun(args, cluster, tools, picks, uuidText, kubectl, true) == Session(1, NoEffect, [])
  {
  }
}
