/** The API server's store of the objects the three programs share. Every write of a KernelManager
    takes a new version; writes that name an old version are refused; the status is a subresource. */
module ClusterStore {
  import opened Outcomes
  import opened KernelResource
  import opened ConfigMapSync
  import ConnectionAgreement

  /** A file of a ConfigMap: the JSON object its text encodes. */
  type File = map<string, ConnectionAgreement.Scalar>

  type Files = Fields<File>

  datatype ApiError = NotFound | Conflict | AlreadyExists | Unavailable

  datatype Cluster = Cluster(crs: map<Key, Cr>, pods: map<Key, Pod>, configMaps: map<Key, Files>,
                             nextVersion: nat, nextUid: nat, culls: nat)

  /** A new pod is pending until the kubelet says more. */
  const PENDING := PodStatus("Pending", "", [], [], "")

  /** A write that changes nothing keeps the version. */
  function Put(c: Cluster, key: Key, cr: Cr): Cluster {
    if key in c.crs && c.crs[key] == cr.(version := c.crs[key].version) then c
    else c.(crs := c.crs[key := cr.(version := c.nextVersion)], nextVersion := c.nextVersion + 1)
  }

  /** A status in the request is dropped. */
  function CreateCr(c: Cluster, key: Key, labels: map<string, string>, annotations: map<string, string>, spec: Spec)
    : Result<Cluster, ApiError>
  {
    if key in c.crs then Err(AlreadyExists)
    else Ok(Put(c, key, Cr(c.nextUid, 0, labels, annotations, spec, NO_STATUS)).(nextUid := c.nextUid + 1))
  }

  /** The main endpoint: labels, annotations and spec of the body, never its status. */
  function ReplaceCr(c: Cluster, key: Key, body: Cr): Result<Cluster, ApiError> {
    if key !in c.crs then Err(NotFound)
    else if body.version != c.crs[key].version then Err(Conflict)
    else Ok(Put(c, key, c.crs[key].(labels := body.labels, annotations := body.annotations, spec := body.spec)))
  }

  /** The status endpoint: the status of the body, and nothing else of it. */
  function UpdateStatus(c: Cluster, key: Key, body: Cr): Result<Cluster, ApiError> {
    if key !in c.crs then Err(NotFound)
    else if body.version != c.crs[key].version then Err(Conflict)
    else Ok(Put(c, key, c.crs[key].(status := body.status)))
  }

  function DeleteCr(c: Cluster, key: Key): Result<Cluster, ApiError> {
    if key !in c.crs then Err(NotFound) else Ok(c.(crs := c.crs - {key}))
  }

  function CreatePod(c: Cluster, key: Key, pod: Pod): Result<Cluster, ApiError> {
    if key in c.pods then Err(AlreadyExists) else Ok(c.(pods := c.pods[key := pod.(status := PENDING)]))
  }
}
