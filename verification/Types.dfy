/** The API objects of the operator (api/v1), as values. */
module Types {

  datatype Option<+T> = None | Some(value: T)

  /** status.phase; `NoPhase` is the empty string of a cluster that was never reconciled. */
  datatype Phase = NoPhase | Provisioning | Active | Scaling | Failed

  datatype BackupSpec = BackupSpec(
    enabled: bool,
    bucket: string,
    region: string,
    endpoint: string,
    prefix: string,
    schedule: string,
    credentials: Option<string>)

  datatype RemoteWrite = RemoteWrite(
    url: string,
    name: string,
    basicAuth: Option<string>,
    bearerToken: Option<string>)

  datatype Thanos = Thanos(enabled: bool, image: string, objstoreSecret: Option<string>)

  datatype SecretKey = SecretKey(name: string, key: string)

  datatype ScrapeConfigs = ScrapeConfigs(inline: string, secretRef: Option<SecretKey>)

  /** `storageSize` is the PVC size in bytes; 0 is the zero quantity. */
  datatype ClusterSpec = ClusterSpec(
    replicas: int,
    image: string,
    retention: string,
    storageClass: Option<string>,
    storageSize: nat,
    resources: map<string, string>,
    backup: BackupSpec,
    remoteWrite: seq<RemoteWrite>,
    thanos: Thanos,
    additionalScrape: Option<ScrapeConfigs>)

  datatype ClusterStatus = ClusterStatus(
    phase: Phase,
    ready: int,
    lastBackup: Option<nat>,
    lastFailover: Option<nat>)

  datatype Cluster = Cluster(
    ns: string,
    name: string,
    labels: map<string, string>,
    annotations: map<string, string>,
    finalizers: set<string>,
    deleting: bool,
    spec: ClusterSpec,
    status: ClusterStatus)

  const EMPTY_STATUS := ClusterStatus(NoPhase, 0, None, None)

  const FINALIZER := "observability.merlionos.org/finalizer"
  const OPT_OUT := "observability.merlionos.org/clusterset-opt-out"
  const MANAGED_BY := "observability.merlionos.org/clusterset"

  /** The parsers the operator calls but does not define: the five-field cron grammar
      (shared by the webhook and the scheduler) and "is a YAML list of maps". */
  datatype Parsers = Parsers(cron: string -> bool, yamlList: string -> bool)

  /** How a write call ends: stored and answered, stored with its answer lost, or not stored. */
  datatype Fate = Answered | Lost | Refused

  /** Optional timestamps, unset below every set one. */
  predicate NotAfter(a: Option<nat>, b: Option<nat>) {
    a.None? || (b.Some? && a.value <= b.value)
  }

  predicate OptedOut(c: Cluster) {
    OPT_OUT in c.annotations && c.annotations[OPT_OUT] == "true"
  }

  /** What overlayBackup writes into a member: the whole template, switched on,
      and the name of the Set. */
  function Overlaid(c: Cluster, template: BackupSpec, setName: string): Cluster {
    c.(annotations := c.annotations[MANAGED_BY := setName],
       spec := c.spec.(backup := template.(enabled := true)))
  }

  /** `b` is `a` in every field but the backup block, and in every annotation but the Set's. */
  ghost predicate BackupOnly(a: Cluster, b: Cluster) {
    && b == a.(annotations := b.annotations, spec := a.spec.(backup := b.spec.backup))
    && forall k :: k != MANAGED_BY ==>
         (k in a.annotations <==> k in b.annotations)
         && (k in a.annotations ==> a.annotations[k] == b.annotations[k])
  }

  /** The backup block is the template, switched on, and the annotation names the Set. */
  ghost predicate BackupFrom(b: Cluster, template: BackupSpec, setName: string) {
    && b.spec.backup == template.(enabled := true)
    && MANAGED_BY in b.annotations && b.annotations[MANAGED_BY] == setName
  }

  /** An overlay writes the backup block and one annotation, and nothing else. */
  lemma OverlayWritesBackup(c: Cluster, template: BackupSpec, setName: string)
    ensures BackupOnly(c, Overlaid(c, template, setName))
    ensures BackupFrom(Overlaid(c, template, setName), template, setName)
  {
  }
}
