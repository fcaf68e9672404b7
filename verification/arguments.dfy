/** The positional-argument completer of kube/arguments.go: after the command
    word, which list is offered, filtered how, against which word. The decision
    is a `Plan`; running it against an `Env` of fetched names gives the
    suggestions. */
module Arguments {
  import opened GoStrings
  import opened Prompt
  import opened Results
  import opened Cluster

  /** The static suggestion tables of kube/arguments.go. */
  datatype TableName =
    | CommandTable | ResourceTypeTable | GetKindTable | CreateTable
    | RolloutTable | ConfigTable | ClusterInfoTable | TopKindTable

  /** The number of entries of each table. */
  function Size(t: TableName): nat
  {
    match t
    case CommandTable => 33
    case ResourceTypeTable => 48
    case GetKindTable => 47
    case CreateTable => 7
    case RolloutTable => 4
    case ConfigTable => 12
    case ClusterInfoTable => 1
    case TopKindTable => 4
  }

  /** The entry at position `i` of a table. */
  function Entry(t: TableName, i: nat): Suggest
    requires i < Size(t)
  {
    match t
    case CommandTable => CommandAt(i)
    // kube/arguments.go:47-98: "clusters", then the kinds get offers, in the same order
    case ResourceTypeTable => if i == 0 then Suggest("clusters", "") else KindAt(i - 1)
    case GetKindTable => KindAt(i)
    case CreateTable => CreateAt(i)
    case RolloutTable => RolloutAt(i)
    case ConfigTable => ConfigAt(i)
    case ClusterInfoTable => ClusterInfoAt(i)
    case TopKindTable => TopKindAt(i)
  }

  /** The entries of a table, in source order. */
  function Entries(t: TableName): (r: seq<Suggest>)
    ensures |r| == Size(t)
  {
    seq(Size(t), i requires 0 <= i < Size(t) => Entry(t, i))
  }

  /** The top-level commands (kube/arguments.go:9-45), by position. */
  function CommandAt(i: nat): Suggest
    requires i < 33
  {
    match i
    case 0 => Suggest("get", "Display one or many resources")
    case 1 => Suggest("describe", "Show details of a specific resource or group of resources")
    case 2 => Suggest("create", "Create a resource by filename or stdin")
    case 3 => Suggest("replace", "Replace a resource by filename or stdin.")
    case 4 => Suggest("patch", "Update field(s) of a resource using strategic merge patch.")
    case 5 => Suggest("delete", "Delete resources by filenames, stdin, resources and names, or by resources and label selector.")
    case 6 => Suggest("edit", "Edit a resource on the server")
    case 7 => Suggest("apply", "Apply a configuration to a resource by filename or stdin")
    case 8 => Suggest("namespace", "SUPERSEDED: Set and view the current Kubernetes namespace")
    case 9 => Suggest("logs", "Print the logs for a container in a pod.")
    case 10 => Suggest("rolling-update", "Perform a rolling update of the given ReplicationController.")
    case 11 => Suggest("scale", "Set a new size for a Deployment, ReplicaSet, Replication Controller, or Job.")
    case 12 => Suggest("cordon", "Mark node as unschedulable")
    case 13 => Suggest("drain", "Drain node in preparation for maintenance")
    case 14 => Suggest("uncordon", "Mark node as schedulable")
    case 15 => Suggest("attach", "Attach to a running container.")
    case 16 => Suggest("exec", "Execute a command in a container.")
    case 17 => Suggest("port-forward", "Forward one or more local ports to a pod.")
    case 18 => Suggest("proxy", "Run a proxy to the Kubernetes API server")
    case 19 => Suggest("run", "Run a particular image on the cluster.")
    case 20 => Suggest("expose", "Take a replication controller, service, or pod and expose it as a new Kubernetes Service")
    case 21 => Suggest("autoscale", "Auto-scale a Deployment, ReplicaSet, or ReplicationController")
    case 22 => Suggest("rollout", "rollout manages a deployment")
    case 23 => Suggest("label", "Update the labels on a resource")
    case 24 => Suggest("annotate", "Update the annotations on a resource")
    case 25 => Suggest("config", "config modifies kubeconfig files")
    case 26 => Suggest("cluster-info", "Display cluster info")
    case 27 => Suggest("api-versions", "Print the supported API versions on the server, in the form of 'group/version'.")
    case 28 => Suggest("version", "Print the client and server version information.")
    case 29 => Suggest("explain", "Documentation of resources.")
    case 30 => Suggest("convert", "Convert config files between different API versions")
    case 31 => Suggest("top", "Display Resource (CPU/Memory/Storage) usage")
    case _ => Suggest("exit", "Exit this program")
  }

  /** The resource kinds offered after get (kube/arguments.go:110-159), by position. */
  function KindAt(i: nat): Suggest
    requires i < 47
  {
    match i
    case 0 => Suggest("componentstatuses", "")
    case 1 => Suggest("configmaps", "")
    case 2 => Suggest("daemonsets", "")
    case 3 => Suggest("deployments", "")
    case 4 => Suggest("endpoints", "")
    case 5 => Suggest("events", "")
    case 6 => Suggest("horizontalpodautoscalers", "")
    case 7 => Suggest("ingresses", "")
    case 8 => Suggest("jobs", "")
    case 9 => Suggest("cronjobs", "")
    case 10 => Suggest("limitranges", "")
    case 11 => Suggest("namespaces", "")
    case 12 => Suggest("networkpolicies", "")
    case 13 => Suggest("nodes", "")
    case 14 => Suggest("persistentvolumeclaims", "")
    case 15 => Suggest("persistentvolumes", "")
    case 16 => Suggest("pod", "")
    case 17 => Suggest("podsecuritypolicies", "")
    case 18 => Suggest("podtemplates", "")
    case 19 => Suggest("replicasets", "")
    case 20 => Suggest("replicationcontrollers", "")
    case 21 => Suggest("resourcequotas", "")
    case 22 => Suggest("secrets", "")
    case 23 => Suggest("serviceaccounts", "")
    case 24 => Suggest("services", "")
    case 25 => Suggest("statefulsets", "")
    case 26 => Suggest("storageclasses", "")
    case 27 => Suggest("thirdpartyresources", "")
    case 28 => Suggest("cs", "")
    case 29 => Suggest("cm", "")
    case 30 => Suggest("ds", "")
    case 31 => Suggest("deploy", "")
    case 32 => Suggest("ep", "")
    case 33 => Suggest("hpa", "")
    case 34 => Suggest("ing", "")
    case 35 => Suggest("limits", "")
    case 36 => Suggest("ns", "")
    case 37 => Suggest("no", "")
    case 38 => Suggest("pvc", "")
    case 39 => Suggest("pv", "")
    case 40 => Suggest("po", "")
    case 41 => Suggest("psp", "")
    case 42 => Suggest("rs", "")
    case 43 => Suggest("rc", "")
    case 44 => Suggest("quota", "")
    case 45 => Suggest("sa", "")
    case _ => Suggest("svc", "")
  }

  /** The subcommands of create (kube/arguments.go:260-268), by position. */
  function CreateAt(i: nat): Suggest
    requires i < 7
  {
    match i
    case 0 => Suggest("configmap", "Create a configmap from a local file, directory or literal value")
    case 1 => Suggest("deployment", "Create a deployment with the specified name.")
    case 2 => Suggest("namespace", "Create a namespace with the specified name")
    case 3 => Suggest("quota", "Create a quota with the specified name.")
    case 4 => Suggest("secret", "Create a secret using specified subcommand")
    case 5 => Suggest("service", "Create a service using specified subcommand.")
    case _ => Suggest("serviceaccount", "Create a service account with the specified name")
  }

  /** The subcommands of rollout (kube/arguments.go:420-425), by position. */
  function RolloutAt(i: nat): Suggest
    requires i < 4
  {
    match i
    case 0 => Suggest("history", "view rollout history")
    case 1 => Suggest("pause", "Mark the provided resource as paused")
    case 2 => Suggest("resume", "Resume a paused resource")
    case _ => Suggest("undo", "undoes a previous rollout")
  }

  /** The subcommands of config (kube/arguments.go:431-444), by position. */
  function ConfigAt(i: nat): Suggest
    requires i < 12
  {
    match i
    case 0 => Suggest("current-context", "Displays the current-context")
    case 1 => Suggest("delete-cluster", "Delete the specified cluster from the kubeconfig")
    case 2 => Suggest("delete-context", "Delete the specified context from the kubeconfig")
    case 3 => Suggest("get-clusters", "Display clusters defined in the kubeconfig")
    case 4 => Suggest("get-contexts", "Describe one or many contexts")
    case 5 => Suggest("set", "Sets an individual value in a kubeconfig file")
    case 6 => Suggest("set-cluster", "Sets a cluster entry in kubeconfig")
    case 7 => Suggest("set-context", "Sets a context entry in kubeconfig")
    case 8 => Suggest("set-credentials", "Sets a user entry in kubeconfig")
    case 9 => Suggest("unset", "Unsets an individual value in a kubeconfig file")
    case 10 => Suggest("use-context", "Sets the current-context in a kubeconfig file")
    case _ => Suggest("view", "Display merged kubeconfig settings or a specified kubeconfig file")
  }

  /** The subcommands of cluster-info (kube/arguments.go:456-458), by position. */
  function ClusterInfoAt(i: nat): Suggest
    requires i < 1
  {
    match i
    case _ => Suggest("dump", "Dump lots of relevant info for debugging and diagnosis")
  }

  /** The kinds offered after top (kube/arguments.go:467-473), by position. */
  function TopKindAt(i: nat): Suggest
    requires i < 4
  {
    match i
    case 0 => Suggest("nodes", "")
    case 1 => Suggest("pod", "")
    case 2 => Suggest("no", "")
    case _ => Suggest("po", "")
  }

  /** A candidate list: a static table, or something read from the cluster or the kubeconfig. */
  datatype Listing = Static(table: TableName) | Fetched(source: Source)

  function List(env: Env, l: Listing): seq<Suggest>
  {
    match l
    case Static(t) => Entries(t)
    case Fetched(src) => Eval(env, src)
  }

  /** What a kind word selects: the names of one kind, or the known namespaces. */
  datatype Target = Names(kind: Kind) | KnownNamespaces

  /** The kinds listed without a namespace. */
  predicate ClusterScoped(kind: Kind)
  {
    kind == ComponentStatuses || kind == Nodes || kind == PersistentVolumes
  }

  /** The list a target names, read in the given namespace when the kind is namespaced. */
  function Resolve(t: Target, namespace: string): (r: Source)
    ensures r.NamespacedNames? ==> r.namespace == namespace
    ensures r.ClusterNames? || r.NamespacedNames? || r == NamespaceList
  {
    match t
    case Names(kind) => if ClusterScoped(kind) then ClusterNames(kind) else NamespacedNames(kind, namespace)
    case KnownNamespaces => NamespaceList
  }

  /** A switch on a word with constant cases: each row holds the words of one
      case and what it selects. The first case listing the word wins. */
  type Switch = seq<(seq<string>, Target)>

  function Select(cases: Switch, word: string): Option<Target>
  {
    if cases == [] then None
    else if word in cases[0].0 then Some(cases[0].1)
    else Select(cases[1..], word)
  }

  /** Select picks the first case listing the word, and nothing when no case lists it. */
  lemma {:induction false} SelectFirstCase(cases: Switch, word: string)
    ensures Select(cases, word).None? <==> forall i :: 0 <= i < |cases| ==> word !in cases[i].0
    ensures Select(cases, word).Some? ==>
      exists i :: (0 <= i < |cases| && word in cases[i].0 && Select(cases, word).value == cases[i].1 &&
                   forall j :: 0 <= j < i ==> word !in cases[j].0)
  {
    if cases != [] && word !in cases[0].0 {
      SelectFirstCase(cases[1..], word);
      assert forall i :: 1 <= i < |cases| ==> cases[i] == cases[1..][i - 1];
      if Select(cases, word).Some? {
        var i :| 0 <= i < |cases[1..]| && word in cases[1..][i].0 && Select(cases, word).value == cases[1..][i].1 &&
          (forall j :: 0 <= j < i ==> word !in cases[1..][j].0);
        assert word in cases[i + 1].0;
      }
    }
  }

  /** The kind switch shared by get, describe, delete and edit (kube/arguments.go:162-202). */
  const KindCases: Switch := [
    (["componentstatuses", "cs"], Names(ComponentStatuses)),
    (["configmaps", "cm"], Names(ConfigMaps)),
    (["daemonsets", "ds"], Names(DaemonSets)),
    (["deploy", "deployments"], Names(Deployments)),
    (["endpoints", "ep"], Names(Endpoints)),
    (["ingresses", "ing"], Names(Ingresses)),
    (["limitranges", "limits"], Names(LimitRanges)),
    (["namespaces", "ns"], KnownNamespaces),
    (["no", "nodes"], Names(Nodes)),
    (["po", "pod", "pods"], Names(Pods)),
    (["persistentvolumeclaims", "pvc"], Names(PersistentVolumeClaims)),
    (["persistentvolumes", "pv"], Names(PersistentVolumes)),
    (["podtemplates"], Names(PodTemplates)),
    (["replicasets", "rs"], Names(ReplicaSets)),
    (["replicationcontrollers", "rc"], Names(ReplicationControllers)),
    (["resourcequotas", "quota"], Names(ResourceQuotas)),
    (["secrets"], Names(Secrets)),
    (["sa", "serviceaccounts"], Names(ServiceAccounts)),
    (["svc", "services"], Names(Services)),
    (["job", "jobs"], Names(Jobs))
  ]

  /** The kind switch under top (kube/arguments.go:478-483), which also accepts "node". */
  const TopKindCases: Switch := [
    (["no", "node", "nodes"], Names(Nodes)),
    (["po", "pod", "pods"], Names(Pods))
  ]

  datatype Match = ByPrefix | BySubstring

  /** A completion decision: no suggestions, or one list filtered against one word. */
  datatype Plan = NoSuggestions | Filter(listing: Listing, word: string, mode: Match)

  /** Read the planned list and filter it, ignoring case, as prompt.FilterHasPrefix or prompt.FilterContains. */
  function Run(env: Env, plan: Plan): (r: seq<Suggest>)
    ensures plan.NoSuggestions? ==> r == []
    ensures plan.Filter? ==> Subsequence(r, List(env, plan.listing))
    ensures plan.Filter? && plan.word == "" ==> r == List(env, plan.listing)
    ensures plan.Filter? ==> forall s :: s in r <==> (s in List(env, plan.listing) &&
      if plan.mode == ByPrefix then HasPrefix(Upper(s.text), Upper(plan.word))
      else Contains(Upper(s.text), Upper(plan.word)))
  {
    match plan
    case NoSuggestions => []
    case Filter(l, word, ByPrefix) => FilterHasPrefix(List(env, l), word, true)
    case Filter(l, word, BySubstring) => FilterContains(List(env, l), word, true)
  }

  /** The promises a plan keeps about the word being completed: static tables
      are matched by prefix; fetched lists by substring, except node names and
      pod ports; what is read per namespace is read in the namespace in effect. */
  predicate Keeps(p: Plan, namespace: string, word: string)
  {
    p.Filter? ==>
      && p.word == word
      && (p.listing.Static? ==> p.mode == ByPrefix)
      && (p.mode == ByPrefix ==>
            p.listing.Static? || p.listing == Fetched(ClusterNames(Nodes)) || p.listing.source.PodPorts?)
      && (p.listing.Fetched? && (p.listing.source.NamespacedNames? || p.listing.source.PodPorts?) ==>
            p.listing.source.namespace == namespace)
  }

  function Offer(t: TableName, word: string): Plan
  {
    Filter(Static(t), word, ByPrefix)
  }

  function Search(src: Source, word: string): Plan
  {
    Filter(Fetched(src), word, BySubstring)
  }

  /** The names a selected kind lists, substring-filtered; nothing for a word no case names. */
  function NamesOf(kind: Option<Target>, word: string, namespace: string): (p: Plan)
    ensures p.Filter? ==> p.mode == BySubstring
    ensures Keeps(p, namespace, word)
  {
    match kind
    case None => NoSuggestions
    case Some(t) => Search(Resolve(t, namespace), word)
  }

  /** The cases of argumentsCompleter's switch on the command word; words
      that share a case (rolling-update and rollingupdate, scale and resize,
      cordon, drain and uncordon) select the same one. */
  datatype Command =
    | Get | Describe | Create | Delete | Edit | Namespace | Logs | RollingUpdate
    | Scale | Cordon | Attach | Exec | PortForward | Rollout | Annotate | Config
    | ClusterInfo | Explain | Top | Other

  /** The commands that complete only the word right after them. */
  const OneWordCommands: set<Command> := {Create, Namespace, Logs, Attach, Exec, Scale, Cordon, Rollout, ClusterInfo}

  /** The case a command word selects (kube/arguments.go:104-487). */
  function CommandOf(word: string): Command
  {
    if word == "get" then Get
    else if word == "describe" then Describe
    else if word == "create" then Create
    else if word == "delete" then Delete
    else if word == "edit" then Edit
    else if word == "namespace" then Namespace
    else if word == "logs" then Logs
    else if word == "rolling-update" || word == "rollingupdate" then RollingUpdate
    else if word == "scale" || word == "resize" then Scale
    else if word == "cordon" || word == "drain" || word == "uncordon" then Cordon
    else if word == "attach" then Attach
    else if word == "exec" then Exec
    else if word == "port-forward" then PortForward
    else if word == "rollout" then Rollout
    else if word == "annotate" then Annotate
    else if word == "config" then Config
    else if word == "cluster-info" then ClusterInfo
    else if word == "explain" then Explain
    else if word == "top" then Top
    else Other
  }

  /** The decision argumentsCompleter makes for the positional words `args`
      (the command first, the word being completed last). */
  function ArgumentsPlan(namespace: string, args: seq<string>): (p: Plan)
    requires |args| >= 1
    ensures |args| == 1 ==> p == Offer(CommandTable, args[0])
    ensures |args| >= 2 && CommandOf(args[0]) in {Annotate, Other} ==> p == NoSuggestions
    ensures |args| >= 4 && CommandOf(args[0]) != Explain ==> p == NoSuggestions
    ensures |args| >= 3 && CommandOf(args[0]) in OneWordCommands ==> p == NoSuggestions
    ensures |args| >= 3 && CommandOf(args[0]) == Config && args[1] != "use-context" ==> p == NoSuggestions
    ensures |args| >= 2 && CommandOf(args[0]) == Explain ==> p == Offer(ResourceTypeTable, args[1])
    ensures |args| == 1 || CommandOf(args[0]) != Explain ==> Keeps(p, namespace, Last(args))
  {
    if |args| == 1 then Offer(CommandTable, args[0])
    else CommandPlan(CommandOf(args[0]), namespace, args)
  }

  /** The plan for the words after a command that selects `command`. */
  function CommandPlan(command: Command, namespace: string, args: seq<string>): (p: Plan)
    requires |args| >= 2
    ensures command in {Annotate, Other} ==> p == NoSuggestions
    ensures |args| >= 4 && command != Explain ==> p == NoSuggestions
    ensures |args| >= 3 && command in OneWordCommands ==> p == NoSuggestions
    ensures |args| >= 3 && command == Config && args[1] != "use-context" ==> p == NoSuggestions
    ensures command == Explain ==> p == Offer(ResourceTypeTable, args[1])
    ensures command != Explain ==> Keeps(p, namespace, Last(args))
  {
    var n := |args|;
    match command
    case Get =>
      if n == 2 then Offer(GetKindTable, args[1])
      else if n == 3 then NamesOf(Select(KindCases, args[1]), args[2], namespace)
      else NoSuggestions
    case Describe | Delete | Edit =>
      if n == 2 then Offer(ResourceTypeTable, args[1])
      else if n == 3 then NamesOf(Select(KindCases, args[1]), args[2], namespace)
      else NoSuggestions
    case Create =>
      if n == 2 then Offer(CreateTable, args[1]) else NoSuggestions
    case Namespace =>
      if n == 2 then Search(NamespaceList, args[1]) else NoSuggestions
    case Logs | Attach | Exec =>
      if n == 2 then Search(NamespacedNames(Pods, namespace), args[1]) else NoSuggestions
    case RollingUpdate =>
      if n == 2 || n == 3 then Search(NamespacedNames(ReplicationControllers, namespace), args[n - 1])
      else NoSuggestions
    case Scale =>
      if n == 2 then Search(Scalable(namespace), args[1]) else NoSuggestions
    case Cordon =>
      if n == 2 then Filter(Fetched(ClusterNames(Nodes)), args[1], ByPrefix) else NoSuggestions
    case PortForward =>
      if n == 2 then Search(NamespacedNames(Pods, namespace), args[1])
      else if n == 3 then Filter(Fetched(PodPorts(namespace, args[1])), args[2], ByPrefix)
      else NoSuggestions
    case Rollout =>
      if n == 2 then Offer(RolloutTable, args[1]) else NoSuggestions
    case Config =>
      if n == 2 then Offer(ConfigTable, args[1])
      else if n == 3 && args[1] == "use-context" then Search(Contexts, args[2])
      else NoSuggestions
    case ClusterInfo =>
      if n == 2 then Offer(ClusterInfoTable, args[1]) else NoSuggestions
    case Explain =>
      Offer(ResourceTypeTable, args[1])
    case Top =>
      if n == 2 then Offer(TopKindTable, args[1])
      else if n == 3 then NamesOf(Select(TopKindCases, args[1]), args[2], namespace)
      else NoSuggestions
    case Annotate | Other =>
      NoSuggestions
  }

  /** What scale offers: deployments, then replica sets, then replication controllers. */
  function Scalable(namespace: string): Source
  {
    Append(Append(NamespacedNames(Deployments, namespace), NamespacedNames(ReplicaSets, namespace)),
      NamespacedNames(ReplicationControllers, namespace))
  }

  /** argumentsCompleter: the suggestions for the positional words `args`. Go
      indexes `args[0]` unguarded, so an empty `args` is outside its domain. */
  function ArgumentsCompleter(env: Env, namespace: string, args: seq<string>): (r: seq<Suggest>)
    requires |args| >= 1
    ensures |args| == 1 ==> r == FilterHasPrefix(Entries(CommandTable), args[0], true)
    ensures |args| >= 2 && CommandOf(args[0]) in {Annotate, Other} ==> r == []
    ensures |args| >= 4 && CommandOf(args[0]) != Explain ==> r == []
    ensures |args| >= 3 && CommandOf(args[0]) in OneWordCommands ==> r == []
    ensures |args| >= 3 && CommandOf(args[0]) == Config && args[1] != "use-context" ==> r == []
    ensures |args| >= 2 && CommandOf(args[0]) == Explain ==> r == FilterHasPrefix(Entries(ResourceTypeTable), args[1], true)
  {
    Run(env, ArgumentsPlan(namespace, args))
  }

  lemma FilterContainsAppend3(a: seq<Suggest>, b: seq<Suggest>, c: seq<Suggest>, word: string)
    ensures FilterContains(a + b + c, word, true) ==
      FilterContains(a, word, true) + FilterContains(b, word, true) + FilterContains(c, word, true)
  {
    var m := SubstringMatcher(word, true);
    KeepAppend(a + b, c, m);
    KeepAppend(a, b, m);
  }

  lemma ScalePlan(namespace: string, command: string, word: string)
    requires command == "scale" || command == "resize"
    ensures ArgumentsPlan(namespace, [command, word]) == Search(Scalable(namespace), word)
  {
    assert CommandOf(command) == Scale;
  }

  /** scale and resize offer deployments, then replica sets, then replication controllers. */
  lemma ScaleListsThreeKinds(env: Env, namespace: string, command: string, word: string)
    requires command == "scale" || command == "resize"
    ensures ArgumentsCompleter(env, namespace, [command, word]) ==
      FilterContains(env.namespacedNames(Deployments, namespace), word, true) +
      FilterContains(env.namespacedNames(ReplicaSets, namespace), word, true) +
      FilterContains(env.namespacedNames(ReplicationControllers, namespace), word, true)
  {
    var d, s, c := env.namespacedNames(Deployments, namespace), env.namespacedNames(ReplicaSets, namespace),
      env.namespacedNames(ReplicationControllers, namespace);
    ScalePlan(namespace, command, word);
    var first := Append(NamespacedNames(Deployments, namespace), NamespacedNames(ReplicaSets, namespace));
    assert Scalable(namespace) == Append(first, NamespacedNames(ReplicationControllers, namespace));
    assert Eval(env, first) == d + s;
    assert Eval(env, NamespacedNames(ReplicationControllers, namespace)) == c;
    assert Eval(env, Scalable(namespace)) == d + s + c;
    assert List(env, Fetched(Scalable(namespace))) == d + s + c;
    assert ArgumentsCompleter(env, namespace, [command, word]) == FilterContains(d + s + c, word, true);
    FilterContainsAppend3(d, s, c, word);
  }

  /** describe offers "clusters" and then exactly what get offers. */
  lemma DescribeIsGetPlusClusters(env: Env, namespace: string, word: string)
    ensures ArgumentsCompleter(env, namespace, ["describe", word]) ==
      FilterHasPrefix([Suggest("clusters", "")], word, true) + ArgumentsCompleter(env, namespace, ["get", word])
  {
    DescribeAndGetPlans(namespace, word);
    ResourceTypesExtendKinds();
    KeepAppend([Suggest("clusters", "")], Entries(GetKindTable), PrefixMatcher(word, true));
  }

  lemma DescribeAndGetPlans(namespace: string, word: string)
    ensures ArgumentsPlan(namespace, ["describe", word]) == Offer(ResourceTypeTable, word)
    ensures ArgumentsPlan(namespace, ["get", word]) == Offer(GetKindTable, word)
  {
    assert CommandOf("describe") == Describe && CommandOf("get") == Get;
  }

  /** The resource types are "clusters" followed by the kinds get offers. */
  lemma ResourceTypesExtendKinds()
    ensures Entries(ResourceTypeTable) == [Suggest("clusters", "")] + Entries(GetKindTable)
  {
  }

  /** top accepts "node" for nodes, besides the "no" and "nodes" of the other kind switch. */
  lemma TopAcceptsNode(env: Env, namespace: string, word: string)
    ensures ArgumentsCompleter(env, namespace, ["top", "node", word]) == FilterContains(env.clusterNames(Nodes), word, true)
  {
    assert CommandOf("top") == Top && Select(TopKindCases, "node") == Some(Names(Nodes));
    assert ArgumentsPlan(namespace, ["top", "node", word]) == Search(ClusterNames(Nodes), word);
  }

  /** cordon, drain and uncordon offer the node names that start with the word,
      ignoring case: the one prefix match among the names read from the cluster. */
  lemma CordonOffersNodesByPrefix(env: Env, namespace: string, command: string, word: string)
    requires command == "cordon" || command == "drain" || command == "uncordon"
    ensures ArgumentsCompleter(env, namespace, [command, word]) == FilterHasPrefix(env.clusterNames(Nodes), word, true)
  {
    assert CommandOf(command) == Cordon;
    assert ArgumentsPlan(namespace, [command, word]) == Filter(Fetched(ClusterNames(Nodes)), word, ByPrefix);
  }

  /** describe, delete and edit offer the resource types, by prefix. */
  lemma DeleteEditOfferResourceTypes(env: Env, namespace: string, command: string, word: string)
    requires command == "describe" || command == "delete" || command == "edit"
    ensures ArgumentsCompleter(env, namespace, [command, word]) == FilterHasPrefix(Entries(ResourceTypeTable), word, true)
  {
    assert CommandOf(command) in {Describe, Delete, Edit};
    assert ArgumentsPlan(namespace, [command, word]) == Offer(ResourceTypeTable, word);
  }

  /** The commands whose third word is completed through the kind switch. */
  const KindCommands: set<string> := {"get", "describe", "delete", "edit"}

  /** Each of them switches on its second word for the third. */
  lemma KindCommandPlan(namespace: string, command: string, kind: string, word: string)
    requires command in KindCommands
    ensures ArgumentsPlan(namespace, [command, kind, word]) == NamesOf(Select(KindCases, kind), word, namespace)
  {
    assert CommandOf(command) in {Get, Describe, Delete, Edit};
  }

  /** A kind word that no case of the switch lists gets no suggestions. */
  lemma UnknownKindOffersNothing(env: Env, namespace: string, command: string, kind: string, word: string)
    requires command in KindCommands
    requires forall i :: 0 <= i < |KindCases| ==> kind !in KindCases[i].0
    ensures ArgumentsCompleter(env, namespace, [command, kind, word]) == []
  {
    KindCommandPlan(namespace, command, kind, word);
    SelectFirstCase(KindCases, kind);
  }

  /** Events are offered as a kind after get, but their names are not. */
  lemma EventNamesNotOffered(env: Env, namespace: string, word: string)
    ensures ArgumentsCompleter(env, namespace, ["get", "events", word]) == []
  {
    UnknownKindOffersNothing(env, namespace, "get", "events", word);
  }

  /** A kind word selects the first case that lists it, and the names that
      case reads are offered when they contain the word, ignoring case. */
  lemma KindWordOffersNames(env: Env, namespace: string, command: string, kind: string, word: string, i: nat)
    requires command in KindCommands
    requires i < |KindCases| && kind in KindCases[i].0
    requires forall j :: 0 <= j < i ==> kind !in KindCases[j].0
    ensures ArgumentsCompleter(env, namespace, [command, kind, word])
      == FilterContains(Eval(env, Resolve(KindCases[i].1, namespace)), word, true)
  {
    KindCommandPlan(namespace, command, kind, word);
    SelectFirstCase(KindCases, kind);
    var k :| 0 <= k < |KindCases| && kind in KindCases[k].0 && Select(KindCases, kind).value == KindCases[k].1 &&
      forall j :: 0 <= j < k ==> kind !in KindCases[j].0;
    assert k == i;
  }
}
