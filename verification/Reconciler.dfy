/**
 PrometheusClusterReconciler (internal/controller/prometheuscluster_controller.go) for one cluster:
 Reconcile, finalize, updatePhase and the three owned objects.

 A Reconcile reads everything from caches, so any of it may be outdated; a write built on an outdated
 read fails. Any call may fail for reasons of its own, and a write may be stored while its answer is
 lost. The API server fills in defaults, which the comparison with the desired pod template does not
 know about.
 */
module Reconciler {
  import opened Types
  import opened PodTemplate
  import opened ConfigPrinter
  import opened Agreement
  import opened Scheduler
  import opened Metrics

  type Owner = (string, string)

  datatype ConfigMap = ConfigMap(owner: Option<Owner>, data: map<string, string>)

  datatype ServicePort = ServicePort(name: string, port: int, target: int, protocol: string)

  /** `rest` stands for the fields the operator never sets. */
  datatype Service = Service(
    owner: Option<Owner>,
    clusterIP: string,
    selector: map<string, string>,
    ports: seq<ServicePort>,
    rest: string)

  /** What the API server fills in on every write. */
  datatype Defaults = Defaults(
    template: PodTemplate -> PodTemplate,
    ports: seq<ServicePort> -> seq<ServicePort>,
    rest: string -> string)

  /** Defaulting what is already defaulted changes nothing. */
  ghost predicate Idempotent(d: Defaults) {
    && (forall t :: d.template(d.template(t)) == d.template(t))
    && (forall p :: d.ports(d.ports(p)) == d.ports(p))
    && (forall r :: d.rest(d.rest(r)) == d.rest(r))
  }

  /** `backups`: a backup scheduler is configured. */
  datatype Env = Env(parsers: Parsers, table: char -> bool, defaults: Defaults, backups: bool)

  /** The stored objects, the scheduler's cron table and the metrics. */
  datatype State = State(
    cluster: Option<Cluster>,
    configMap: Option<ConfigMap>,
    service: Option<Service>,
    sts: Option<StatefulSet>,
    cron: Table,
    gauges: map<Series, int>)

  datatype Call =
    | AddFinalizer | RemoveFinalizer | PutConfigMap | PutService | GetSts | CreateSts | UpdateSts | PutStatus

  /** A cached object: the one stored, or another one (or none). */
  datatype Seen<+T> = Current | Stale(copy: Option<T>)

  /** What this Reconcile got from its caches, and whether it is what is stored. */
  datatype Reads = Reads(
    cluster: Cluster,
    clusterCurrent: bool,
    sts: Option<StatefulSet>,
    stsCurrent: bool,
    configMap: Seen<ConfigMap>,
    service: Seen<Service>)

  function FateOf(faults: map<Call, Fate>, call: Call): Fate {
    if call in faults then faults[call] else Answered
  }

  /** `wrote` is the phase a status update stored, answered or not. */
  datatype Outcome = Outcome(state: State, wrote: Option<Phase>, failed: bool)

  ghost predicate Consistent(s: State, r: Reads) {
    && (r.clusterCurrent ==> s.cluster == Some(r.cluster))
    && (r.stsCurrent ==> s.sts == r.sts)
  }

  // ---------------------------------------------------------------- the desired objects

  datatype Wanted = Wanted(main: string, extra: Option<string>, sts: StatefulSet)

  function WantedFor(table: char -> bool, c: Cluster): Wanted {
    Wanted(Config(table, c), ExtraText(c.spec), DesiredStatefulSet(c))
  }

  /** SetControllerReference refuses an object another controller owns. */
  predicate MayOwn(owner: Option<Owner>, me: Owner) {
    owner.None? || owner.value == me
  }

  function ConfigMapAfter(want: Wanted, me: Owner, cm: Option<ConfigMap>): ConfigMap {
    ConfigMap(Some(me), PutFiles(if cm.Some? then cm.value.data else map[], want.main, want.extra))
  }

  const PORTS := [ServicePort("http", 9090, 9090, "")]

  function ServiceAfter(d: Defaults, me: Owner, svc: Option<Service>): Service {
    Service(Some(me), "None", map["app.kubernetes.io/instance" := me.1], d.ports(PORTS),
            d.rest(if svc.Some? then svc.value.rest else ""))
  }

  /** The Service is headless, selects the pods of the cluster's StatefulSet and no other label, and sends
      its port to the one Prometheus listens on. */
  lemma ServiceWired(c: Cluster, d: Defaults, svc: Service)
    ensures
      var w, s := ServiceWanted((c.ns, c.name), svc), DesiredStatefulSet(c);
      && w.owner == Some((c.ns, c.name)) && w.clusterIP == "None" && w.selector != map[] && w.rest == svc.rest
      && (forall k :: k in w.selector ==> k in s.template.labels && s.template.labels[k] == w.selector[k])
      && |w.ports| == 1 && w.ports[0].port == 9090
      && Port(w.ports[0].name, w.ports[0].target) in Prometheus(c.spec).ports
      && ServiceAfter(d, (c.ns, c.name), Some(svc)) == w.(ports := d.ports(w.ports), rest := d.rest(w.rest))
  {
    assert "app.kubernetes.io/instance" in ServiceWanted((c.ns, c.name), svc).selector;
    assert Prometheus(c.spec).ports[0] == Port("http", 9090);
  }

  // ---------------------------------------------------------------- Reconcile, as a function

  function Fail(s: State): Outcome {
    Outcome(s, None, true)
  }

  /** updatePhase. */
  function StatusStep(s: State, r: Reads, phase: Phase, ready: int, faults: map<Call, Fate>): Outcome {
    if !r.clusterCurrent || FateOf(faults, PutStatus).Refused? then Fail(s)
    else
      var c := r.cluster;
      var stored := s.(cluster := Some(c.(status := c.status.(phase := phase, ready := ready))));
      if FateOf(faults, PutStatus).Lost? then Outcome(stored, Some(phase), true)
      else Outcome(stored.(gauges := WithPhase(s.gauges, c.ns, c.name, phase)), Some(phase), false)
  }

  predicate ReplicasChanged(cur: StatefulSet, c: Cluster) {
    cur.replicas != c.spec.replicas
  }

  /** Only the pod spec is compared, and against the undefaulted template. */
  predicate TemplateChanged(cur: StatefulSet, want: Wanted) {
    cur.template.spec != want.sts.template.spec
  }

  function PhaseFor(cur: StatefulSet, c: Cluster): Phase {
    if ReplicasChanged(cur, c) then Scaling
    else if cur.ready < c.spec.replicas then Provisioning
    else Active
  }

  /** The StatefulSet and the status. */
  function StsStep(env: Env, want: Wanted, s: State, r: Reads, faults: map<Call, Fate>): Outcome {
    if GetSts in faults then Fail(s)
    else if r.sts.None? then
      if FateOf(faults, CreateSts).Refused? || s.sts.Some? then Fail(s)
      else
        var created := s.(sts := Some(want.sts.(template := env.defaults.template(want.sts.template))));
        if FateOf(faults, CreateSts).Lost? then Fail(created) else StatusStep(created, r, Provisioning, 0, faults)
    else
      var cur := r.sts.value;
      if !ReplicasChanged(cur, r.cluster) && !TemplateChanged(cur, want) then
        StatusStep(s, r, PhaseFor(cur, r.cluster), cur.ready, faults)
      else if FateOf(faults, UpdateSts).Refused? || !r.stsCurrent then Fail(s)
      else
        var updated := s.(sts := Some(cur.(replicas := r.cluster.spec.replicas,
                                           template := env.defaults.template(want.sts.template))));
        if FateOf(faults, UpdateSts).Lost? then Fail(updated)
        else StatusStep(updated, r, PhaseFor(cur, r.cluster), cur.ready, faults)
  }

  predicate ForeignConfigMap(s: State, me: Owner) {
    s.configMap.Some? && !MayOwn(s.configMap.value.owner, me)
  }

  predicate ForeignService(s: State, me: Owner) {
    s.service.Some? && !MayOwn(s.service.value.owner, me)
  }

  /** CreateOrUpdate on an outdated copy succeeds only if that already has the wanted content, and then
      writes nothing. */
  predicate ConfigMapLooksDone(want: Wanted, me: Owner, copy: Option<ConfigMap>) {
    copy == Some(ConfigMapAfter(want, me, copy))
  }

  predicate ServiceLooksDone(me: Owner, copy: Option<Service>) {
    copy.Some? && copy.value == ServiceWanted(me, copy.value)
  }

  /** The Service as the mutate function leaves it, before defaulting. */
  function ServiceWanted(me: Owner, svc: Service): Service {
    svc.(owner := Some(me), clusterIP := "None", selector := map["app.kubernetes.io/instance" := me.1], ports := PORTS)
  }

  function ConfigMapStep(want: Wanted, me: Owner, s: State, r: Reads, faults: map<Call, Fate>): Outcome {
    if r.configMap.Stale? then Outcome(s, None, !ConfigMapLooksDone(want, me, r.configMap.copy))
    else if FateOf(faults, PutConfigMap).Refused? || ForeignConfigMap(s, me) then Fail(s)
    else
      Outcome(s.(configMap := Some(ConfigMapAfter(want, me, s.configMap))), None, FateOf(faults, PutConfigMap).Lost?)
  }

  function ServiceStep(env: Env, me: Owner, s: State, r: Reads, faults: map<Call, Fate>): Outcome {
    if r.service.Stale? then Outcome(s, None, !ServiceLooksDone(me, r.service.copy))
    else if FateOf(faults, PutService).Refused? || ForeignService(s, me) then Fail(s)
    else
      Outcome(s.(service := Some(ServiceAfter(env.defaults, me, s.service))), None, FateOf(faults, PutService).Lost?)
  }

  /** ConfigMap, Service, then the rest. */
  function ChildrenStep(env: Env, want: Wanted, s: State, r: Reads, faults: map<Call, Fate>): Outcome {
    var me := (r.cluster.ns, r.cluster.name);
    var o1 := ConfigMapStep(want, me, s, r, faults);
    if o1.failed then o1
    else
      var o2 := ServiceStep(env, me, o1.state, r, faults);
      if o2.failed then o2 else StsStep(env, want, o2.state, r, faults)
  }

  predicate BadSchedule(env: Env, c: Cluster) {
    env.backups && Effective(c) && !env.parsers.cron(c.spec.backup.schedule)
  }

  function RegisterStep(env: Env, s: State, c: Cluster): State {
    if env.backups && c.spec.backup.enabled then s.(cron := Registered(env.parsers, s.cron, c)) else s
  }

  /** finalize. The server drops a deleting object with its last finalizer. */
  function FinalizeStep(s: State, r: Reads, faults: map<Call, Fate>): Outcome {
    if FINALIZER !in r.cluster.finalizers then Outcome(s, None, false)
    else if !r.clusterCurrent || FateOf(faults, RemoveFinalizer).Refused? then Fail(s)
    else
      var c := r.cluster.(finalizers := r.cluster.finalizers - {FINALIZER});
      var stored := s.(cluster := if c.finalizers == {} then None else Some(c));
      if FateOf(faults, RemoveFinalizer).Lost? then Fail(stored)
      else Outcome(stored.(gauges := WithoutCluster(s.gauges, c.ns, c.name)), None, false)
  }

  function FinalizerStep(s: State, r: Reads, faults: map<Call, Fate>): Outcome {
    if !r.clusterCurrent || FateOf(faults, AddFinalizer).Refused? then Fail(s)
    else
      Outcome(s.(cluster := Some(r.cluster.(finalizers := r.cluster.finalizers + {FINALIZER}))), None,
              FateOf(faults, AddFinalizer).Lost?)
  }

  function ReconcileOf(env: Env, s: State, r: Reads, faults: map<Call, Fate>): Outcome {
    if r.cluster.deleting then FinalizeStep(s, r, faults)
    else if FINALIZER !in r.cluster.finalizers then FinalizerStep(s, r, faults)
    else
      var s1 := RegisterStep(env, s, r.cluster);
      if BadSchedule(env, r.cluster) then Fail(s1)
      else ChildrenStep(env, WantedFor(env.table, r.cluster), s1, r, faults)
  }

  // ---------------------------------------------------------------- Reconcile, step by step

  class ClusterReconciler {
    const env: Env
    const scheduler: BackupScheduler
    const metrics: Registry
    var cluster: Option<Cluster>
    var configMap: Option<ConfigMap>
    var service: Option<Service>
    var sts: Option<StatefulSet>

    constructor (env: Env, scheduler: BackupScheduler, metrics: Registry)
      requires scheduler.cron.parsers == env.parsers
      ensures Valid() && this.env == env && this.scheduler == scheduler && this.metrics == metrics
    {
      this.env, this.scheduler, this.metrics := env, scheduler, metrics;
      cluster, configMap, service, sts := None, None, None, None;
    }

    ghost predicate Valid() {
      scheduler.cron.parsers == env.parsers
    }

    ghost function Snapshot(): State
      reads this, scheduler, scheduler.cron, metrics
    {
      State(cluster, configMap, service, sts, scheduler.State(), metrics.gauges)
    }

    method UpdatePhase(r: Reads, phase: Phase, ready: int, faults: map<Call, Fate>)
      returns (wrote: Option<Phase>, failed: bool)
      modifies this, metrics
      ensures Outcome(Snapshot(), wrote, failed) == StatusStep(old(Snapshot()), r, phase, ready, faults)
    {
      var fate := FateOf(faults, PutStatus);
      if !r.clusterCurrent || fate.Refused? {
        return None, true;
      }
      cluster := Some(r.cluster.(status := r.cluster.status.(phase := phase, ready := ready)));
      if fate.Lost? {
        return Some(phase), true;
      }
      metrics.SetPhase(r.cluster.ns, r.cluster.name, phase);
      return Some(phase), false;
    }

    method Finalize(r: Reads, faults: map<Call, Fate>) returns (failed: bool)
      modifies this, metrics
      ensures Outcome(Snapshot(), None, failed) == FinalizeStep(old(Snapshot()), r, faults)
    {
      if FINALIZER !in r.cluster.finalizers {
        return false;
      }
      var fate := FateOf(faults, RemoveFinalizer);
      if !r.clusterCurrent || fate.Refused? {
        return true;
      }
      var c := r.cluster.(finalizers := r.cluster.finalizers - {FINALIZER});
      cluster := if c.finalizers == {} then None else Some(c);
      if fate.Lost? {
        return true;
      }
      metrics.DeleteCluster(c.ns, c.name);
      return false;
    }

    method ReconcileStatefulSet(ghost want: Wanted, desired: StatefulSet, r: Reads, faults: map<Call, Fate>)
      returns (wrote: Option<Phase>, failed: bool)
      requires want.sts == desired
      modifies this, metrics
      ensures Outcome(Snapshot(), wrote, failed) == StsStep(env, want, old(Snapshot()), r, faults)
    {
      if GetSts in faults {
        return None, true;
      }
      if r.sts.None? {
        var fate := FateOf(faults, CreateSts);
        if fate.Refused? || sts.Some? {
          return None, true;
        }
        sts := Some(desired.(template := env.defaults.template(desired.template)));
        if fate.Lost? {
          return None, true;
        }
        wrote, failed := UpdatePhase(r, Provisioning, 0, faults);
        return;
      }
      var current := r.sts.value;
      var replicasChanged := current.replicas != r.cluster.spec.replicas;
      var templateChanged := current.template.spec != desired.template.spec;
      if replicasChanged || templateChanged {
        var fate := FateOf(faults, UpdateSts);
        if fate.Refused? || !r.stsCurrent {
          return None, true;
        }
        sts := Some(current.(replicas := r.cluster.spec.replicas,
                             template := env.defaults.template(desired.template)));
        if fate.Lost? {
          return None, true;
        }
      }
      var phase := Active;
      if replicasChanged {
        phase := Scaling;
      } else if current.ready < r.cluster.spec.replicas {
        phase := Provisioning;
      }
      wrote, failed := UpdatePhase(r, phase, current.ready, faults);
    }

    /** reconcileConfigMap: CreateOrUpdate reads, mutates and writes only what differs. */
    method ReconcileConfigMap(ghost want: Wanted, r: Reads, faults: map<Call, Fate>) returns (failed: bool)
      requires want.main == Config(env.table, r.cluster) && want.extra == ExtraText(r.cluster.spec)
      modifies this
      ensures Outcome(Snapshot(), None, failed)
              == ConfigMapStep(want, (r.cluster.ns, r.cluster.name), old(Snapshot()), r, faults)
    {
      var pc, fate := r.cluster, FateOf(faults, PutConfigMap);
      var me := (pc.ns, pc.name);
      var copy := if r.configMap.Current? then configMap else r.configMap.copy;
      if copy.Some? && !MayOwn(copy.value.owner, me) {
        return true;
      }
      var data := MutateData(pc, if copy.Some? then copy.value.data else map[]);
      var changed := ConfigMap(Some(me), data);
      if r.configMap.Stale? {
        return copy != Some(changed);
      }
      if fate.Refused? {
        return true;
      }
      configMap := Some(changed);
      return fate.Lost?;
    }

    /** The data part of the mutate function, key by key. */
    method MutateData(pc: Cluster, before: map<string, string>) returns (data: map<string, string>)
      ensures data == ConfigData(env.table, pc, before)
      ensures HoldsFiles(pc, data)
      ensures forall key :: key != "prometheus.yml" && key != "additional-scrape-configs.yml" ==>
        Lookup(data, key) == Lookup(before, key)
    {
      ConfigDataLookup(env.table, pc, before);
      FilesHeld(env.table, pc, ConfigData(env.table, pc, before));
      data := before;
      var main := RenderConfig(env.table, pc);
      data := data["prometheus.yml" := main];
      if pc.spec.additionalScrape.Some? && pc.spec.additionalScrape.value.inline != "" {
        var wrapped := WrapScrapeConfigs(pc.spec.additionalScrape.value.inline);
        data := data["additional-scrape-configs.yml" := wrapped];
      } else {
        data := data - {"additional-scrape-configs.yml"};
      }
    }

    /** reconcileHeadlessService: four fields are set, the rest is the server's. */
    method ReconcileService(r: Reads, faults: map<Call, Fate>) returns (failed: bool)
      modifies this
      ensures Outcome(Snapshot(), None, failed)
              == ServiceStep(env, (r.cluster.ns, r.cluster.name), old(Snapshot()), r, faults)
    {
      var pc, fate := r.cluster, FateOf(faults, PutService);
      var me := (pc.ns, pc.name);
      var copy := if r.service.Current? then service else r.service.copy;
      if copy.Some? && !MayOwn(copy.value.owner, me) {
        return true;
      }
      var svc := if copy.Some? then copy.value else Service(None, "", map[], [], "");
      svc := svc.(clusterIP := "None");
      svc := svc.(selector := map["app.kubernetes.io/instance" := pc.name]);
      svc := svc.(ports := [ServicePort("http", 9090, 9090, "")]);
      svc := svc.(owner := Some(me));
      if r.service.Stale? {
        return copy != Some(svc);
      }
      if fate.Refused? {
        return true;
      }
      service := Some(svc.(ports := env.defaults.ports(svc.ports), rest := env.defaults.rest(svc.rest)));
      return fate.Lost?;
    }

    method ReconcileChildren(r: Reads, faults: map<Call, Fate>) returns (wrote: Option<Phase>, failed: bool)
      modifies this, metrics
      ensures Outcome(Snapshot(), wrote, failed)
              == ChildrenStep(env, WantedFor(env.table, r.cluster), old(Snapshot()), r, faults)
    {
      failed := ReconcileConfigMap(WantedFor(env.table, r.cluster), r, faults);
      if failed {
        return None, true;
      }
      failed := ReconcileService(r, faults);
      if failed {
        return None, true;
      }
      var desired := BuildStatefulSet(r.cluster);
      wrote, failed := ReconcileStatefulSet(WantedFor(env.table, r.cluster), desired, r, faults);
    }

    method EnsureFinalizer(r: Reads, faults: map<Call, Fate>) returns (failed: bool)
      modifies this
      ensures Outcome(Snapshot(), None, failed) == FinalizerStep(old(Snapshot()), r, faults)
    {
      var fate := FateOf(faults, AddFinalizer);
      if !r.clusterCurrent || fate.Refused? {
        return true;
      }
      cluster := Some(r.cluster.(finalizers := r.cluster.finalizers + {FINALIZER}));
      return fate.Lost?;
    }

    method Reconcile(r: Reads, faults: map<Call, Fate>) returns (wrote: Option<Phase>, failed: bool)
      requires Valid()
      modifies this, scheduler, scheduler.cron, metrics
      ensures Outcome(Snapshot(), wrote, failed) == ReconcileOf(env, old(Snapshot()), r, faults)
    {
      if r.cluster.deleting {
        failed := Finalize(r, faults);
        return None, failed;
      }
      if FINALIZER !in r.cluster.finalizers {
        failed := EnsureFinalizer(r, faults);
        return None, failed;
      }
      if env.backups && r.cluster.spec.backup.enabled {
        var ok := scheduler.Register(r.cluster);
        if !ok {
          return None, true;
        }
      }
      wrote, failed := ReconcileChildren(r, faults);
    }
  }
}
