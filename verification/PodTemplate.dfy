/** buildStatefulSet and buildThanosSidecar (internal/controller/prometheuscluster_controller.go). */
module PodTemplate {
  import opened Types
  import opened ConfigPrinter

  datatype Mount = Mount(name: string, path: string, readOnly: bool)

  datatype Port = Port(name: string, number: int)

  datatype Probe = Probe(path: string, port: int)

  datatype Container = Container(
    name: string,
    image: string,
    args: seq<string>,
    env: seq<string>,
    ports: seq<Port>,
    readiness: Option<Probe>,
    liveness: Option<Probe>,
    mounts: seq<Mount>,
    resources: map<string, string>)

  datatype Source = FromConfigMap(name: string) | FromSecret(name: string)

  datatype Volume = Volume(name: string, source: Source)

  datatype PodSpec = PodSpec(containers: seq<Container>, volumes: seq<Volume>)

  /** `labels` stands for the template's metadata. */
  datatype PodTemplate = PodTemplate(labels: map<string, string>, spec: PodSpec)

  datatype Claim = Claim(name: string, storageClass: Option<string>, size: nat)

  datatype StatefulSet = StatefulSet(
    serviceName: string,
    replicas: int,
    selector: map<string, string>,
    template: PodTemplate,
    claims: seq<Claim>,
    ready: int)

  const DEFAULT_SIZE := 20 * 1024 * 1024 * 1024
  const DEFAULT_IMAGE := "prom/prometheus:v2.55.1"
  const DEFAULT_RETENTION := "15d"
  const DEFAULT_THANOS := "quay.io/thanos/thanos:v0.37.2"
  const ADMIN_API := "--web.enable-admin-api"
  const EXPAND_LABELS := "--enable-feature=expand-external-labels"
  const CONFIG_DIR := "/etc/prometheus"

  function OrElse(s: string, default: string): string {
    if s == "" then default else s
  }

  function ConfigMapName(c: Cluster): string {
    c.name + "-config"
  }

  // ---------------------------------------------------------------- what is wanted

  function Reloader(): Container {
    Container(
      "config-reloader", "ghcr.io/jimmidyson/configmap-reload:v0.13.1",
      ["--volume-dir=/etc/prometheus", "--webhook-method=POST", "--webhook-url=http://127.0.0.1:9090/-/reload"],
      [], [], None, None, [Mount("config", CONFIG_DIR, true)], map["cpu" := "10m", "memory" := "16Mi"])
  }

  function PrometheusArgs(spec: ClusterSpec): seq<string> {
    ["--config.file=/etc/prometheus/prometheus.yml",
     "--storage.tsdb.path=/prometheus",
     "--storage.tsdb.retention.time=" + OrElse(spec.retention, DEFAULT_RETENTION),
     "--web.enable-lifecycle"]
    + (if spec.backup.enabled then [ADMIN_API] else [])
    + (if spec.thanos.enabled
       then ["--storage.tsdb.min-block-duration=2h", "--storage.tsdb.max-block-duration=2h", EXPAND_LABELS]
       else [])
  }

  function ExtraSecret(spec: ClusterSpec): Option<SecretKey> {
    if spec.additionalScrape.Some? then spec.additionalScrape.value.secretRef else None
  }

  function Prometheus(spec: ClusterSpec): Container {
    Container(
      "prometheus", OrElse(spec.image, DEFAULT_IMAGE), PrometheusArgs(spec), ["POD_NAME"],
      [Port("http", 9090)], Some(Probe("/-/ready", 9090)), Some(Probe("/-/healthy", 9090)),
      [Mount("data", "/prometheus", false), Mount("config", CONFIG_DIR, false)]
      + (if ExtraSecret(spec).Some? then [EXTRA_SECRET_MOUNT] else []),
      spec.resources)
  }

  function Sidecar(t: Thanos): Container {
    Container(
      "thanos-sidecar", OrElse(t.image, DEFAULT_THANOS),
      ["sidecar", "--tsdb.path=/prometheus", "--prometheus.url=http://localhost:9090",
       "--http-address=0.0.0.0:10902", "--grpc-address=0.0.0.0:10901"]
      + (if t.objstoreSecret.Some? then ["--objstore.config-file=/etc/thanos/objstore/objstore.yml"] else []),
      [], [Port("thanos-http", 10902), Port("thanos-grpc", 10901)], Some(Probe("/-/ready", 10902)), None,
      [Mount("data", "/prometheus", false)]
      + (if t.objstoreSecret.Some? then [Mount("thanos-objstore", "/etc/thanos/objstore", true)] else []),
      map[])
  }

  function DesiredPod(c: Cluster): PodSpec {
    PodSpec(
      [Reloader(), Prometheus(c.spec)] + (if c.spec.thanos.enabled then [Sidecar(c.spec.thanos)] else []),
      [Volume("config", FromConfigMap(ConfigMapName(c)))]
      + (if c.spec.thanos.enabled && c.spec.thanos.objstoreSecret.Some?
         then [Volume("thanos-objstore", FromSecret(c.spec.thanos.objstoreSecret.value))] else [])
      + (if ExtraSecret(c.spec).Some?
         then [Volume("extra-scrape-secret", FromSecret(ExtraSecret(c.spec).value.name))] else []))
  }

  function PodLabels(c: Cluster): map<string, string> {
    map["app.kubernetes.io/name" := "prometheus", "app.kubernetes.io/instance" := c.name]
  }

  function DesiredTemplate(c: Cluster): PodTemplate {
    PodTemplate(PodLabels(c), DesiredPod(c))
  }

  function DesiredStatefulSet(c: Cluster): StatefulSet {
    StatefulSet(
      c.name, c.spec.replicas, PodLabels(c), DesiredTemplate(c),
      [Claim("data", c.spec.storageClass, if c.spec.storageSize == 0 then DEFAULT_SIZE else c.spec.storageSize)],
      0)
  }

  // ---------------------------------------------------------------- how the parts hang together

  /** The container mounts the StatefulSet's one claim at `path`. */
  ghost predicate MountsClaim(s: StatefulSet, k: Container, path: string) {
    |s.claims| == 1 && exists m :: m in k.mounts && m.name == s.claims[0].name && m.path == path && !m.readOnly
  }

  /** The container mounts the volume from `source` at `path`. */
  ghost predicate MountsVolume(s: StatefulSet, k: Container, source: Source, path: string) {
    exists m, v :: m in k.mounts && v in s.template.spec.volumes && m.name == v.name
                   && v.source == source && m.path == path
  }

  /** Prometheus keeps its blocks on the claim, reads the file of the cluster's ConfigMap, and runs the
      image, for the retention, that the spec names. */
  ghost predicate PrometheusWired(c: Cluster, s: StatefulSet, k: Container) {
    && (exists d :: MountsClaim(s, k, d) && "--storage.tsdb.path=" + d in k.args)
    && (exists e :: MountsVolume(s, k, FromConfigMap(c.name + "-config"), e)
                    && "--config.file=" + e + "/prometheus.yml" in k.args)
    && (c.spec.additionalScrape.Some? && c.spec.additionalScrape.value.secretRef.Some? ==>
          MountsVolume(s, k, FromSecret(c.spec.additionalScrape.value.secretRef.value.name),
                       "/etc/prometheus/extra-secret"))
    && k.image == (if c.spec.image != "" then c.spec.image else "prom/prometheus:v2.55.1")
    && "--storage.tsdb.retention.time=" + (if c.spec.retention != "" then c.spec.retention else "15d") in k.args
    && k.resources == c.spec.resources
    && "--web.enable-lifecycle" in k.args
    && (c.spec.backup.enabled ==> "--web.enable-admin-api" in k.args)
    && (c.spec.thanos.enabled ==>
          && "--enable-feature=expand-external-labels" in k.args
          && "--storage.tsdb.min-block-duration=2h" in k.args && "--storage.tsdb.max-block-duration=2h" in k.args)
    && Port("http", 9090) in k.ports
    && k.readiness == Some(Probe("/-/ready", 9090)) && k.liveness == Some(Probe("/-/healthy", 9090))
  }

  /** The sidecar ships the same claim, with the object store of the referenced Secret. */
  ghost predicate SidecarWired(c: Cluster, s: StatefulSet, k: Container) {
    && (exists d :: MountsClaim(s, k, d) && "--tsdb.path=" + d in k.args)
    && (c.spec.thanos.objstoreSecret.Some? ==>
          exists e :: MountsVolume(s, k, FromSecret(c.spec.thanos.objstoreSecret.value), e)
                      && "--objstore.config-file=" + e + "/objstore.yml" in k.args)
    && "--prometheus.url=http://localhost:9090" in k.args
    && "--http-address=0.0.0.0:10902" in k.args && "--grpc-address=0.0.0.0:10901" in k.args
    && k.ports == [Port("thanos-http", 10902), Port("thanos-grpc", 10901)]
    && k.readiness == Some(Probe("/-/ready", 10902))
    && k.image == (if c.spec.thanos.image != "" then c.spec.thanos.image else "quay.io/thanos/thanos:v0.37.2")
  }

  /** The reloader watches the directory of the ConfigMap and posts to Prometheus. */
  ghost predicate ReloaderWired(c: Cluster, s: StatefulSet, k: Container) {
    && (exists e :: MountsVolume(s, k, FromConfigMap(c.name + "-config"), e) && "--volume-dir=" + e in k.args)
    && "--webhook-url=http://127.0.0.1:9090/-/reload" in k.args && "--webhook-method=POST" in k.args
  }

  ghost predicate HasContainer(s: StatefulSet, name: string) {
    exists i :: 0 <= i < |s.template.spec.containers| && s.template.spec.containers[i].name == name
  }

  ghost predicate ContainersWired(c: Cluster, s: StatefulSet) {
    && HasContainer(s, "prometheus") && HasContainer(s, "config-reloader")
    && (HasContainer(s, "thanos-sidecar") <==> c.spec.thanos.enabled)
    && forall i :: 0 <= i < |s.template.spec.containers| ==> ContainerWired(c, s, s.template.spec.containers[i])
  }

  ghost predicate ContainerWired(c: Cluster, s: StatefulSet, k: Container) {
    || (k.name == "prometheus" && PrometheusWired(c, s, k))
    || (k.name == "config-reloader" && ReloaderWired(c, s, k))
    || (k.name == "thanos-sidecar" && SidecarWired(c, s, k))
  }

  /** The pods are those the StatefulSet selects, one claim each of the size the spec names. */
  ghost predicate SetWired(c: Cluster, s: StatefulSet) {
    && s.replicas == c.spec.replicas && s.serviceName == c.name
    && s.selector == s.template.labels
    && s.template.labels == map["app.kubernetes.io/name" := "prometheus", "app.kubernetes.io/instance" := c.name]
    && |s.claims| == 1 && s.claims[0].storageClass == c.spec.storageClass
    && s.claims[0].size == (if c.spec.storageSize != 0 then c.spec.storageSize else 21_474_836_480)
  }

  /** Volumes and the claim have different names, so a mount means one of them. */
  ghost predicate NamesDistinct(s: StatefulSet) {
    var vs := s.template.spec.volumes;
    && (forall i, j :: 0 <= i < j < |vs| ==> vs[i].name != vs[j].name)
    && (forall i, j :: 0 <= i < |vs| && 0 <= j < |s.claims| ==> vs[i].name != s.claims[j].name)
  }

  lemma DesiredNamesDistinct(c: Cluster)
    ensures NamesDistinct(DesiredStatefulSet(c))
  {
    ThreeVolumes(c);
    NamesApart(DesiredStatefulSet(c));
  }

  lemma NamesApart(s: StatefulSet)
    requires |s.claims| == 1 && s.claims[0].name == "data"
    requires
      var vs := s.template.spec.volumes;
      && 1 <= |vs| <= 3 && vs[0].name == "config"
      && (|vs| >= 2 ==> vs[1].name == "thanos-objstore" || (|vs| == 2 && vs[1].name == "extra-scrape-secret"))
      && (|vs| == 3 ==> vs[2].name == "extra-scrape-secret")
    ensures NamesDistinct(s)
  {
    DistinctTexts();
  }

  lemma DistinctTexts()
    ensures "config"[0] == 'c' && "thanos-objstore"[0] == 't' && "extra-scrape-secret"[0] == 'e' && "data"[0] == 'd'
  {
  }

  lemma ThreeVolumes(c: Cluster)
    ensures
      var vs := DesiredPod(c).volumes;
      && 1 <= |vs| <= 3 && vs[0].name == "config"
      && (|vs| >= 2 ==> vs[1].name == "thanos-objstore" || (|vs| == 2 && vs[1].name == "extra-scrape-secret"))
      && (|vs| == 3 ==> vs[2].name == "extra-scrape-secret")
  {
  }

  lemma BlocksText()
    ensures "--storage.tsdb.path=" + "/prometheus" == "--storage.tsdb.path=/prometheus"
  {
  }

  lemma ConfigText()
    ensures "--config.file=" + CONFIG_DIR + "/prometheus.yml" == "--config.file=/etc/prometheus/prometheus.yml"
  {
  }

  lemma SidecarText()
    ensures "--tsdb.path=" + "/prometheus" == "--tsdb.path=/prometheus"
  {
  }

  lemma WatchText()
    ensures "--volume-dir=" + CONFIG_DIR == "--volume-dir=/etc/prometheus"
  {
  }

  lemma ObjstoreText()
    ensures "--objstore.config-file=" + "/etc/thanos/objstore" + "/objstore.yml"
            == "--objstore.config-file=/etc/thanos/objstore/objstore.yml"
  {
  }

  /** Every desired container mounts the claim at /prometheus, if it says so. */
  lemma ClaimMounted(c: Cluster, k: Container)
    requires Mount("data", "/prometheus", false) in k.mounts
    ensures MountsClaim(DesiredStatefulSet(c), k, "/prometheus")
  {
  }

  lemma VolumeMounted(c: Cluster, k: Container, m: Mount, v: Volume)
    requires m in k.mounts && v in DesiredPod(c).volumes && m.name == v.name
    ensures MountsVolume(DesiredStatefulSet(c), k, v.source, m.path)
  {
  }

  lemma DesiredPrometheusWired(c: Cluster)
    ensures PrometheusWired(c, DesiredStatefulSet(c), Prometheus(c.spec))
  {
    var k := Prometheus(c.spec);
    BlocksText();
    ConfigText();
    assert k.mounts[0] == Mount("data", "/prometheus", false) && k.mounts[1] == Mount("config", CONFIG_DIR, false);
    ClaimMounted(c, k);
    assert DesiredPod(c).volumes[0] == Volume("config", FromConfigMap(ConfigMapName(c)));
    VolumeMounted(c, k, k.mounts[1], DesiredPod(c).volumes[0]);
    PrometheusArgsHold(c.spec);
    if ExtraSecret(c.spec).Some? {
      var vs := DesiredPod(c).volumes;
      assert k.mounts[2] == EXTRA_SECRET_MOUNT;
      VolumeMounted(c, k, k.mounts[2], vs[|vs| - 1]);
    }
  }

  lemma PrometheusArgsHold(spec: ClusterSpec)
    ensures
      var args := PrometheusArgs(spec);
      && "--storage.tsdb.path=/prometheus" in args && "--config.file=/etc/prometheus/prometheus.yml" in args
      && "--web.enable-lifecycle" in args
      && (spec.backup.enabled ==> "--web.enable-admin-api" in args)
      && (spec.thanos.enabled ==>
            && "--enable-feature=expand-external-labels" in args
            && "--storage.tsdb.min-block-duration=2h" in args && "--storage.tsdb.max-block-duration=2h" in args)
      && "--storage.tsdb.retention.time=" + (if spec.retention != "" then spec.retention else "15d") in args
  {
    var args := PrometheusArgs(spec);
    assert args[0] == "--config.file=/etc/prometheus/prometheus.yml" && args[1] == "--storage.tsdb.path=/prometheus";
    assert args[2] == "--storage.tsdb.retention.time=" + OrElse(spec.retention, DEFAULT_RETENTION);
    assert args[3] == "--web.enable-lifecycle";
    assert spec.backup.enabled ==> args[4] == ADMIN_API;
    if spec.thanos.enabled {
      var n := |args|;
      assert args[n - 1] == EXPAND_LABELS && args[n - 2] == "--storage.tsdb.max-block-duration=2h"
          && args[n - 3] == "--storage.tsdb.min-block-duration=2h";
    }
  }

  lemma DesiredSidecarWired(c: Cluster)
    requires c.spec.thanos.enabled
    ensures SidecarWired(c, DesiredStatefulSet(c), Sidecar(c.spec.thanos))
  {
    var k := Sidecar(c.spec.thanos);
    SidecarArgsHold(c.spec.thanos);
    ClaimMounted(c, k);
    if c.spec.thanos.objstoreSecret.Some? {
      ObjstoreWired(c);
    }
  }

  lemma SidecarArgsHold(t: Thanos)
    ensures Mount("data", "/prometheus", false) in Sidecar(t).mounts
    ensures "--tsdb.path=" + "/prometheus" in Sidecar(t).args
    ensures "--prometheus.url=http://localhost:9090" in Sidecar(t).args
    ensures "--http-address=0.0.0.0:10902" in Sidecar(t).args && "--grpc-address=0.0.0.0:10901" in Sidecar(t).args
  {
    var k := Sidecar(t);
    SidecarText();
    assert k.mounts[0] == Mount("data", "/prometheus", false);
    assert k.args[1] == "--tsdb.path=/prometheus" && k.args[2] == "--prometheus.url=http://localhost:9090";
    assert k.args[3] == "--http-address=0.0.0.0:10902" && k.args[4] == "--grpc-address=0.0.0.0:10901";
  }

  lemma ObjstoreWired(c: Cluster)
    requires c.spec.thanos.enabled && c.spec.thanos.objstoreSecret.Some?
    ensures MountsVolume(DesiredStatefulSet(c), Sidecar(c.spec.thanos),
                         FromSecret(c.spec.thanos.objstoreSecret.value), "/etc/thanos/objstore")
    ensures "--objstore.config-file=" + "/etc/thanos/objstore" + "/objstore.yml" in Sidecar(c.spec.thanos).args
  {
    var k := Sidecar(c.spec.thanos);
    ObjstoreText();
    assert k.args[5] == "--objstore.config-file=/etc/thanos/objstore/objstore.yml";
    assert k.mounts[1] == Mount("thanos-objstore", "/etc/thanos/objstore", true);
    VolumeMounted(c, k, k.mounts[1], DesiredPod(c).volumes[1]);
  }

  lemma DesiredReloaderWired(c: Cluster)
    ensures ReloaderWired(c, DesiredStatefulSet(c), Reloader())
  {
    var k := Reloader();
    WatchText();
    assert k.mounts[0] == Mount("config", CONFIG_DIR, true) && k.args[0] == "--volume-dir=/etc/prometheus";
    assert k.args[1] == "--webhook-method=POST" && k.args[2] == "--webhook-url=http://127.0.0.1:9090/-/reload";
    assert DesiredPod(c).volumes[0] == Volume("config", FromConfigMap(ConfigMapName(c)));
    VolumeMounted(c, k, k.mounts[0], DesiredPod(c).volumes[0]);
  }

  lemma DesiredContainersWired(c: Cluster)
    ensures ContainersWired(c, DesiredStatefulSet(c))
  {
    var s := DesiredStatefulSet(c);
    ContainerNames(c);
    HasByName(c, s);
    forall i | 0 <= i < |s.template.spec.containers|
      ensures ContainerWired(c, s, s.template.spec.containers[i])
    {
      DesiredContainerWired(c, i);
    }
  }

  lemma DesiredContainerWired(c: Cluster, i: nat)
    requires i < |DesiredPod(c).containers|
    ensures ContainerWired(c, DesiredStatefulSet(c), DesiredPod(c).containers[i])
  {
    ContainerNames(c);
    if i == 0 {
      DesiredReloaderWired(c);
    } else if i == 1 {
      DesiredPrometheusWired(c);
    } else {
      DesiredSidecarWired(c);
    }
  }

  lemma ContainerNames(c: Cluster)
    ensures
      var ks := DesiredPod(c).containers;
      && |ks| == (if c.spec.thanos.enabled then 3 else 2)
      && ks[0] == Reloader() && ks[0].name == "config-reloader"
      && ks[1] == Prometheus(c.spec) && ks[1].name == "prometheus"
      && (c.spec.thanos.enabled ==> ks[2] == Sidecar(c.spec.thanos) && ks[2].name == "thanos-sidecar")
  {
  }

  lemma HasByName(c: Cluster, s: StatefulSet)
    requires
      var ks := s.template.spec.containers;
      && |ks| == (if c.spec.thanos.enabled then 3 else 2)
      && ks[0].name == "config-reloader" && ks[1].name == "prometheus"
      && (c.spec.thanos.enabled ==> ks[2].name == "thanos-sidecar")
    ensures HasContainer(s, "prometheus") && HasContainer(s, "config-reloader")
    ensures HasContainer(s, "thanos-sidecar") <==> c.spec.thanos.enabled
  {
    assert "config-reloader"[0] == 'c' && "prometheus"[0] == 'p' && "thanos-sidecar"[0] == 't';
  }

  // ---------------------------------------------------------------- how it is built

  method BuildThanosSidecar(t: Thanos) returns (c: Container, volume: Option<Volume>)
    ensures c == Sidecar(t)
    ensures volume == (if t.objstoreSecret.Some?
                       then Some(Volume("thanos-objstore", FromSecret(t.objstoreSecret.value))) else None)
  {
    var args := ["sidecar", "--tsdb.path=/prometheus", "--prometheus.url=http://localhost:9090",
                 "--http-address=0.0.0.0:10902", "--grpc-address=0.0.0.0:10901"];
    var mounts := [Mount("data", "/prometheus", false)];
    volume := None;
    if t.objstoreSecret.Some? {
      args := args + ["--objstore.config-file=/etc/thanos/objstore/objstore.yml"];
      mounts := mounts + [Mount("thanos-objstore", "/etc/thanos/objstore", true)];
      volume := Some(Volume("thanos-objstore", FromSecret(t.objstoreSecret.value)));
    }
    c := Container("thanos-sidecar", if t.image == "" then DEFAULT_THANOS else t.image, args, [],
                   [Port("thanos-http", 10902), Port("thanos-grpc", 10901)],
                   Some(Probe("/-/ready", 10902)), None, mounts, map[]);
  }

  /** Append `m` to the mounts of every container called `name`. */
  function WithMount(cs: seq<Container>, name: string, m: Mount): seq<Container> {
    seq(|cs|, i requires 0 <= i < |cs| =>
      if cs[i].name == name then cs[i].(mounts := cs[i].mounts + [m]) else cs[i])
  }

  /** The loop that finds the Prometheus container by name. */
  method MountOn(cs: seq<Container>, name: string, m: Mount) returns (r: seq<Container>)
    ensures r == WithMount(cs, name, m)
  {
    r := cs;
    for i := 0 to |cs|
      invariant |r| == |cs|
      invariant forall j :: 0 <= j < i ==> r[j] == WithMount(cs, name, m)[j]
      invariant forall j :: i <= j < |cs| ==> r[j] == cs[j]
    {
      if r[i].name == name {
        r := r[i := r[i].(mounts := r[i].mounts + [m])];
      }
    }
  }

  const EXTRA_SECRET_MOUNT := Mount("extra-scrape-secret", EXTRA_MOUNT, true)

  /** The Prometheus container before the extra Secret is mounted. */
  method BuildPrometheus(spec: ClusterSpec) returns (c: Container)
    ensures c.name == "prometheus"
    ensures Prometheus(spec) == if ExtraSecret(spec).Some? then c.(mounts := c.mounts + [EXTRA_SECRET_MOUNT]) else c
  {
    var args := ["--config.file=/etc/prometheus/prometheus.yml",
                 "--storage.tsdb.path=/prometheus",
                 "--storage.tsdb.retention.time=" + OrElse(spec.retention, DEFAULT_RETENTION),
                 "--web.enable-lifecycle"];
    if spec.backup.enabled {
      args := args + [ADMIN_API];
    }
    if spec.thanos.enabled {
      args := args + ["--storage.tsdb.min-block-duration=2h", "--storage.tsdb.max-block-duration=2h", EXPAND_LABELS];
    }
    c := Container(
      "prometheus", OrElse(spec.image, DEFAULT_IMAGE), args, ["POD_NAME"],
      [Port("http", 9090)], Some(Probe("/-/ready", 9090)), Some(Probe("/-/healthy", 9090)),
      [Mount("data", "/prometheus", false), Mount("config", CONFIG_DIR, false)], spec.resources);
  }

  lemma MountFindsPrometheus(prom: Container, rest: seq<Container>, m: Mount)
    requires prom.name == "prometheus"
    requires forall i :: 0 <= i < |rest| ==> rest[i].name == "thanos-sidecar"
    ensures WithMount([Reloader(), prom] + rest, "prometheus", m)
            == [Reloader(), prom.(mounts := prom.mounts + [m])] + rest
  {
    assert Reloader().name[0] == 'c';
    assert "thanos-sidecar" != "prometheus";
  }

  method BuildPod(c: Cluster) returns (pod: PodSpec)
    ensures pod == DesiredPod(c)
  {
    var prom := BuildPrometheus(c.spec);
    var sidecars: seq<Container> := [];
    var volumes := [Volume("config", FromConfigMap(ConfigMapName(c)))];
    if c.spec.thanos.enabled {
      var sidecar, extra := BuildThanosSidecar(c.spec.thanos);
      sidecars := [sidecar];
      if extra.Some? {
        volumes := volumes + [extra.value];
      }
    }
    var containers := [Reloader(), prom] + sidecars;
    var secret := ExtraSecret(c.spec);
    if secret.Some? {
      volumes := volumes + [Volume("extra-scrape-secret", FromSecret(secret.value.name))];
      MountFindsPrometheus(prom, sidecars, EXTRA_SECRET_MOUNT);
      containers := MountOn(containers, "prometheus", EXTRA_SECRET_MOUNT);
    }
    pod := PodSpec(containers, volumes);
    assert pod.volumes == DesiredPod(c).volumes;
    assert pod.containers == DesiredPod(c).containers;
  }

  method BuildStatefulSet(c: Cluster) returns (s: StatefulSet)
    ensures s == DesiredStatefulSet(c)
    ensures ContainersWired(c, s) && SetWired(c, s) && NamesDistinct(s)
  {
    DesiredContainersWired(c);
    DesiredNamesDistinct(c);
    var size := c.spec.storageSize;
    if size == 0 {
      size := DEFAULT_SIZE;
    }
    var pod := BuildPod(c);
    s := StatefulSet(c.name, c.spec.replicas, PodLabels(c), PodTemplate(PodLabels(c), pod),
                     [Claim("data", c.spec.storageClass, size)], 0);
  }
}
