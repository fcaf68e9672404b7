/** The cluster-side collaborators of the completer. Fetching object names
    through the Kubernetes client (kube/resource.go) is outside this model: each
    fetcher is an uninterpreted function of the resource kind and namespace,
    held in an `Env`. */
module Cluster {
  import opened Prompt

  /** The resource kinds whose object names the completer fetches. */
  datatype Kind =
    | ComponentStatuses | ConfigMaps | DaemonSets | Deployments | Endpoints
    | Ingresses | LimitRanges | Nodes | Pods | PersistentVolumeClaims
    | PersistentVolumes | PodTemplates | ReplicaSets | ReplicationControllers
    | ResourceQuotas | Secrets | ServiceAccounts | Services | Jobs

  /** What the completer can read from the cluster and the kubeconfig. */
  datatype Env = Env(
    /** Names of a cluster-wide kind (component statuses, nodes, persistent volumes). */
    clusterNames: Kind -> seq<Suggest>,
    /** Names of a namespaced kind in the given namespace. */
    namespacedNames: (Kind, string) -> seq<Suggest>,
    /** The namespaces listed when the completer was built. */
    namespaces: seq<Suggest>,
    /** The contexts of the kubeconfig. */
    contexts: seq<Suggest>,
    /** The container ports of a pod, by namespace and pod name. */
    podPorts: (string, string) -> seq<Suggest>
  )

  /** Where a candidate list comes from: a static table or a fetcher. */
  datatype Source =
    | Table(entries: seq<Suggest>)
    | ClusterNames(kind: Kind)
    | NamespacedNames(kind: Kind, namespace: string)
    | NamespaceList
    | Contexts
    | PodPorts(namespace: string, pod: string)
    | Append(first: Source, second: Source)

  /** The candidate list a source yields in a given environment. */
  function Eval(env: Env, src: Source): seq<Suggest>
  {
    match src
    case Table(entries) => entries
    case ClusterNames(kind) => env.clusterNames(kind)
    case NamespacedNames(kind, namespace) => env.namespacedNames(kind, namespace)
    case NamespaceList => env.namespaces
    case Contexts => env.contexts
    case PodPorts(namespace, pod) => env.podPorts(namespace, pod)
    case Append(first, second) => Eval(env, first) + Eval(env, second)
  }
}
