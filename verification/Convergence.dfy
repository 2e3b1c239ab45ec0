/** What Reconcile converges to, and how fast. */
module Convergence {
  import opened Types
  import opened ConfigPrinter
  import opened PodTemplate
  import opened Agreement
  import opened Reconciler
  import opened Scheduler

  /** Up-to-date caches. */
  function Fresh(s: State): Reads
    requires s.cluster.Some?
  {
    Reads(s.cluster.value, true, s.sts, true, Current, Current)
  }

  /** One Reconcile in which no call fails. */
  function Again(env: Env, s: State): Outcome
    requires s.cluster.Some?
  {
    ReconcileOf(env, s, Fresh(s), map[])
  }

  predicate Ours(s: State, c: Cluster) {
    !ForeignConfigMap(s, (c.ns, c.name)) && !ForeignService(s, (c.ns, c.name))
  }

  /** A cluster the API server would admit and that is not being deleted, whose object names are not
      taken by another controller. */
  predicate Healthy(env: Env, s: State) {
    s.cluster.Some? && !s.cluster.value.deleting && Ours(s, s.cluster.value) && !BadSchedule(env, s.cluster.value)
  }

  function StsAfter(env: Env, want: Wanted, c: Cluster, sts: Option<StatefulSet>): StatefulSet {
    if sts.None? then want.sts.(template := env.defaults.template(want.sts.template))
    else if !ReplicasChanged(sts.value, c) && !TemplateChanged(sts.value, want) then sts.value
    else sts.value.(replicas := c.spec.replicas, template := env.defaults.template(want.sts.template))
  }

  function StatusAfter(c: Cluster, sts: Option<StatefulSet>): ClusterStatus {
    if sts.None? then c.status.(phase := Provisioning, ready := 0)
    else c.status.(phase := PhaseFor(sts.value, c), ready := sts.value.ready)
  }

  predicate HasFinalizer(s: State) {
    s.cluster.Some? && FINALIZER in s.cluster.value.finalizers
  }

  /** Everything Reconcile stores, for a cluster that has its finalizer. */
  ghost predicate Stores(env: Env, want: Wanted, s: State, s': State)
    requires s.cluster.Some?
  {
    var c := s.cluster.value;
    && s'.configMap == Some(ConfigMapAfter(want, (c.ns, c.name), s.configMap))
    && s'.service == Some(ServiceAfter(env.defaults, (c.ns, c.name), s.service))
    && s'.sts == Some(StsAfter(env, want, c, s.sts))
    && s'.cluster == Some(c.(status := StatusAfter(c, s.sts)))
  }

  lemma ChildrenStored(env: Env, want: Wanted, s: State)
    requires s.cluster.Some? && Ours(s, s.cluster.value)
    ensures
      var o := ChildrenStep(env, want, s, Fresh(s), map[]);
      !o.failed && Stores(env, want, s, o.state) && o.state.cron == s.cron
  {
    var me := (s.cluster.value.ns, s.cluster.value.name);
    var s1 := s.(configMap := Some(ConfigMapAfter(want, me, s.configMap)));
    StsStored(env, want, s1.(service := Some(ServiceAfter(env.defaults, me, s.service))), Fresh(s));
  }

  lemma StsStored(env: Env, want: Wanted, s: State, r: Reads)
    requires s.cluster == Some(r.cluster) && r.clusterCurrent && s.sts == r.sts && r.stsCurrent
    ensures
      var o := StsStep(env, want, s, r, map[]);
      && !o.failed && o.state.configMap == s.configMap && o.state.service == s.service && o.state.cron == s.cron
      && o.state.sts == Some(StsAfter(env, want, r.cluster, s.sts))
      && o.state.cluster == Some(r.cluster.(status := StatusAfter(r.cluster, s.sts)))
  {
  }

  lemma FullPass(env: Env, s: State)
    requires Healthy(env, s) && HasFinalizer(s)
    ensures !Again(env, s).failed && Healthy(env, Again(env, s).state) && HasFinalizer(Again(env, s).state)
    ensures Stores(env, WantedFor(env.table, s.cluster.value), s, Again(env, s).state)
  {
    var want := WantedFor(env.table, s.cluster.value);
    var s1 := RegisterStep(env, s, s.cluster.value);
    ChildrenStored(env, want, s1);
  }

  lemma FirstPass(env: Env, s: State)
    requires Healthy(env, s) && !HasFinalizer(s)
    ensures
      var c := s.cluster.value;
      Again(env, s) == Outcome(s.(cluster := Some(c.(finalizers := c.finalizers + {FINALIZER}))), None, false)
    ensures Healthy(env, Again(env, s).state) && HasFinalizer(Again(env, s).state)
  {
  }

  /** The desired objects depend on the name and the spec only. */
  lemma WantedDependsOnSpec(table: char -> bool, a: Cluster, b: Cluster)
    requires a.name == b.name && a.spec == b.spec
    ensures WantedFor(table, a) == WantedFor(table, b)
  {
  }

  // ---------------------------------------------------------------- the children converge

  /** The stored template is the desired one, as written or as the server completed it. The code
      compares pod specs only, so template metadata is settled by a write and not by a comparison. */
  ghost predicate TemplateReached(env: Env, want: Wanted, sts: StatefulSet) {
    sts.template == env.defaults.template(want.sts.template) || sts.template.spec == want.sts.template.spec
  }

  ghost predicate ChildrenReached(env: Env, want: Wanted, c: Cluster, s: State) {
    && HasFinalizer(s)
    && s.configMap.Some?
    && s.configMap.value.owner == Some((c.ns, c.name))
    && MAIN_FILE in s.configMap.value.data && s.configMap.value.data[MAIN_FILE] == want.main
    && Lookup(s.configMap.value.data, EXTRA_FILE) == want.extra
    && s.service.Some?
    && s.service.value.owner == Some((c.ns, c.name)) && s.service.value.clusterIP == "None"
    && s.service.value.selector == map["app.kubernetes.io/instance" := c.name]
    && s.service.value.ports == env.defaults.ports(PORTS)
    && s.sts.Some?
    && s.sts.value.replicas == c.spec.replicas
    && TemplateReached(env, want, s.sts.value)
  }

  lemma StoresReaches(env: Env, want: Wanted, s: State, s': State)
    requires HasFinalizer(s) && Stores(env, want, s, s')
    requires want.sts.replicas == s.cluster.value.spec.replicas
    ensures ChildrenReached(env, want, s.cluster.value, s')
  {
  }

  lemma PutFilesTwice(data: map<string, string>, main: string, extra: Option<string>)
    ensures PutFiles(PutFiles(data, main, extra), main, extra) == PutFiles(data, main, extra)
  {
  }

  /** A pass over what a pass stored: same objects; only the phase may still move. */
  lemma StoresAgain(env: Env, want: Wanted, s: State, s1: State, s2: State)
    requires Idempotent(env.defaults)
    requires s.cluster.Some? && want.sts.replicas == s.cluster.value.spec.replicas && want.sts.ready == 0
    requires Stores(env, want, s, s1) && Stores(env, want, s1, s2)
    ensures s2.configMap == s1.configMap && s2.service == s1.service && s2.sts == s1.sts
    ensures s2.cluster == Some(s1.cluster.value.(status := StatusAfter(s1.cluster.value, s1.sts)))
    ensures s2.cluster.value.status.phase in {Active, Provisioning}
  {
    PutFilesTwice(if s.configMap.Some? then s.configMap.value.data else map[], want.main, want.extra);
  }

  /** The stored objects, without the in-memory cron table and metrics. */
  function Objects(s: State): (Option<Cluster>, Option<ConfigMap>, Option<Service>, Option<StatefulSet>) {
    (s.cluster, s.configMap, s.service, s.sts)
  }

  /** From a state with the finalizer: one Reconcile settles the children, a second the phase, and
      the third changes nothing stored. */
  lemma ConvergesWithFinalizer(env: Env, s: State)
    requires Idempotent(env.defaults) && Healthy(env, s) && HasFinalizer(s)
    ensures
      var o1 := Again(env, s);
      && !o1.failed && Healthy(env, o1.state)
      && ChildrenReached(env, WantedFor(env.table, s.cluster.value), s.cluster.value, o1.state)
      && var o2 := Again(env, o1.state);
      && !o2.failed && Healthy(env, o2.state)
      && ChildrenReached(env, WantedFor(env.table, s.cluster.value), s.cluster.value, o2.state)
      && o2.state.cluster.value.spec == s.cluster.value.spec
      && o2.state.cluster.value.status.phase in {Active, Provisioning}
      && var o3 := Again(env, o2.state);
      && !o3.failed && Objects(o3.state) == Objects(o2.state)
  {
    var c := s.cluster.value;
    var want := WantedFor(env.table, c);
    FullPass(env, s);
    var s1 := Again(env, s).state;
    StoresReaches(env, want, s, s1);
    WantedDependsOnSpec(env.table, c, s1.cluster.value);
    FullPass(env, s1);
    var s2 := Again(env, s1).state;
    StoresReaches(env, want, s1, s2);
    WantedDependsOnSpec(env.table, c, s2.cluster.value);
    FullPass(env, s2);
    StoresAgain(env, want, s, s1, s2);
    StoresAgain(env, want, s1, s2, Again(env, s2).state);
  }

  /** Two Reconciles bring the finalizer and the children to the desired values, one more settles the
      phase, and the fourth changes nothing stored. */
  lemma ConvergesInThree(env: Env, s: State)
    requires Idempotent(env.defaults) && Healthy(env, s)
    ensures
      var o1 := Again(env, s);
      && !o1.failed && Healthy(env, o1.state)
      && var o2 := Again(env, o1.state);
      && !o2.failed && Healthy(env, o2.state)
      && ChildrenReached(env, WantedFor(env.table, s.cluster.value), s.cluster.value, o2.state)
      && var o3 := Again(env, o2.state);
      && !o3.failed && Healthy(env, o3.state)
      && o3.state.cluster.value.spec == s.cluster.value.spec
      && ChildrenReached(env, WantedFor(env.table, s.cluster.value), s.cluster.value, o3.state)
      && o3.state.cluster.value.status.phase in {Active, Provisioning}
      && var o4 := Again(env, o3.state);
      && !o4.failed && Objects(o4.state) == Objects(o3.state)
  {
    var s1 := Again(env, s).state;
    if HasFinalizer(s) {
      FullPass(env, s);
      ConvergesWithFinalizer(env, s);
    } else {
      FirstPass(env, s);
    }
    WantedDependsOnSpec(env.table, s.cluster.value, s1.cluster.value);
    ConvergesWithFinalizer(env, s1);
    StillHealthy(env, Again(env, s1).state);
  }

  lemma StillHealthy(env: Env, s: State)
    requires Healthy(env, s) && HasFinalizer(s)
    ensures Healthy(env, Again(env, s).state)
  {
    FullPass(env, s);
  }

  /** The stored state after `n` Reconciles in which no call fails. */
  function Nth(env: Env, s: State, n: nat): State {
    if n == 0 then s
    else
      var t := Nth(env, s, n - 1);
      if t.cluster.None? then t else Again(env, t).state
  }

  /** What a pass stores is decided by what is stored; the cron table and the gauges play no part. */
  lemma ObjectsDecide(env: Env, a: State, b: State)
    requires Objects(a) == Objects(b) && Healthy(env, a) && HasFinalizer(a)
    ensures Objects(Again(env, a).state) == Objects(Again(env, b).state)
  {
    FullPass(env, a);
    FullPass(env, b);
  }

  lemma {:induction false} FirstFour(env: Env, s: State)
    requires Idempotent(env.defaults) && Healthy(env, s)
    ensures
      var s1 := Nth(env, s, 1);
      var s2 := Nth(env, s, 2);
      var s3 := Nth(env, s, 3);
      && Healthy(env, s1) && Healthy(env, s2) && Healthy(env, s3)
      && s1 == Again(env, s).state && s2 == Again(env, s1).state && s3 == Again(env, s2).state
      && Nth(env, s, 4) == Again(env, s3).state
  {
    ConvergesInThree(env, s);
    assert Nth(env, s, 0) == s;
  }

  lemma SpecKept(env: Env, s: State)
    requires Healthy(env, s)
    ensures Healthy(env, Again(env, s).state) && !Again(env, s).failed && HasFinalizer(Again(env, s).state)
    ensures Again(env, s).state.cluster.value.spec == s.cluster.value.spec
  {
    if HasFinalizer(s) {
      FullPass(env, s);
    } else {
      FirstPass(env, s);
    }
  }

  lemma NextPass(env: Env, s: State, n: nat)
    requires Nth(env, s, n).cluster.Some?
    ensures Nth(env, s, n + 1) == Again(env, Nth(env, s, n)).state
  {
  }

  /** Still a live cluster with the spec it had. */
  predicate KeptLive(env: Env, s: State, t: State)
    requires s.cluster.Some?
  {
    Healthy(env, t) && t.cluster.value.spec == s.cluster.value.spec
  }

  lemma NextHealthy(env: Env, s: State, n: nat)
    requires Healthy(env, Nth(env, s, n))
    ensures Healthy(env, Nth(env, s, n + 1)) && HasFinalizer(Nth(env, s, n + 1))
    ensures Nth(env, s, n + 1).cluster.value.spec == Nth(env, s, n).cluster.value.spec
  {
    NextPass(env, s, n);
    SpecKept(env, Nth(env, s, n));
  }

  lemma {:induction false} StaysHealthy(env: Env, s: State, n: nat)
    requires Healthy(env, s)
    ensures KeptLive(env, s, Nth(env, s, n))
    ensures n > 0 ==> HasFinalizer(Nth(env, s, n))
  {
    assert Nth(env, s, 0) == s;
    for i := 0 to n
      invariant KeptLive(env, s, Nth(env, s, i)) && (i > 0 ==> HasFinalizer(Nth(env, s, i)))
    {
      NextHealthy(env, s, i);
    }
  }

  lemma {:induction false} NothingNew(env: Env, s: State, n: nat)
    requires Idempotent(env.defaults) && Healthy(env, s) && n >= 3
    ensures Objects(Nth(env, s, n)) == Objects(Nth(env, s, 3))
  {
    if n > 3 {
      NothingNew(env, s, n - 1);
      StaysHealthy(env, s, n - 1);
      NextPass(env, s, n - 1);
      ObjectsDecide(env, Nth(env, s, n - 1), Nth(env, s, 3));
      FirstFour(env, s);
      ConvergesInThree(env, s);
    }
  }

  lemma SettledInThree(env: Env, s: State)
    requires Idempotent(env.defaults) && Healthy(env, s)
    ensures
      var want, c := WantedFor(env.table, s.cluster.value), s.cluster.value;
      ChildrenReached(env, want, c, Nth(env, s, 2)) && ChildrenReached(env, want, c, Nth(env, s, 3))
    ensures Nth(env, s, 3).cluster.Some? && Nth(env, s, 3).cluster.value.status.phase in {Active, Provisioning}
  {
    ConvergesInThree(env, s);
    FirstFour(env, s);
  }

  /** From any stored state of a live cluster, with its spec fixed and no failing call, for every n: no
      pass fails; from two passes on the finalizer and the children have the desired values; from three
      on the phase has settled and nothing stored changes any more. */
  lemma Converges(env: Env, s: State, n: nat)
    requires Idempotent(env.defaults) && Healthy(env, s)
    ensures
      var sn := Nth(env, s, n);
      && Healthy(env, sn) && !Again(env, sn).failed && sn.cluster.value.spec == s.cluster.value.spec
      && (n >= 2 ==> ChildrenReached(env, WantedFor(env.table, s.cluster.value), s.cluster.value, sn))
      && (n >= 3 ==> sn.cluster.value.status.phase in {Active, Provisioning} && Objects(sn) == Objects(Nth(env, s, 3)))
  {
    StaysHealthy(env, s, n);
    SpecKept(env, Nth(env, s, n));
    if n == 2 {
      SettledInThree(env, s);
    } else if n >= 3 {
      SettledForGood(env, s, n);
    }
  }

  lemma SettledForGood(env: Env, s: State, n: nat)
    requires Idempotent(env.defaults) && Healthy(env, s) && n >= 3
    ensures ChildrenReached(env, WantedFor(env.table, s.cluster.value), s.cluster.value, Nth(env, s, n))
    ensures Nth(env, s, n).cluster.Some? && Nth(env, s, n).cluster.value.status.phase in {Active, Provisioning}
    ensures Objects(Nth(env, s, n)) == Objects(Nth(env, s, 3))
  {
    SettledInThree(env, s);
    NothingNew(env, s, n);
    ReachedByObjects(env, WantedFor(env.table, s.cluster.value), s.cluster.value, Nth(env, s, 3), Nth(env, s, n));
  }

  /** From the second Reconcile on the ConfigMap holds the two files of the spec. */
  lemma FilesConverge(env: Env, s: State, n: nat)
    requires Idempotent(env.defaults) && Healthy(env, s) && n >= 2
    ensures Nth(env, s, n).configMap.Some? && HoldsFiles(s.cluster.value, Nth(env, s, n).configMap.value.data)
  {
    Converges(env, s, n);
    ReachedFiles(env, s.cluster.value, Nth(env, s, n));
  }

  lemma ReachedFiles(env: Env, c: Cluster, s: State)
    requires ChildrenReached(env, WantedFor(env.table, c), c, s)
    ensures HoldsFiles(c, s.configMap.value.data)
  {
    FilesHeld(env.table, c, s.configMap.value.data);
  }

  lemma ReachedByObjects(env: Env, want: Wanted, c: Cluster, a: State, b: State)
    requires Objects(a) == Objects(b) && ChildrenReached(env, want, c, a)
    ensures ChildrenReached(env, want, c, b)
  {
  }

  // ---------------------------------------------------------------- what server defaulting decides

  /** What the server stores is what its defaulting leaves alone. */
  ghost predicate ServerStored(env: Env, sts: Option<StatefulSet>) {
    sts.Some? ==> env.defaults.template(sts.value.template) == sts.value.template
  }

  /** The server adds something to the desired pod spec, whatever the metadata: no template it stores
      has that spec as written. The apps/v1 server always does (restartPolicy, dnsPolicy, ...). */
  ghost predicate ServerCompletes(env: Env, c: Cluster) {
    forall t: PodTemplate :: env.defaults.template(t) == t ==> t.spec != DesiredTemplate(c).spec
  }

  /** Every pass leaves the defaulted desired template, metadata included, whatever the server held. */
  ghost predicate DriftRepaired(env: Env, c: Cluster) {
    forall s: State :: s.cluster == Some(c) && Healthy(env, s) && ServerStored(env, s.sts) ==>
      && Again(env, s).state.sts.Some?
      && Again(env, s).state.sts.value.template == env.defaults.template(DesiredTemplate(c))
  }

  /** The state in which metadata drift stays: `t` is stored as it is and has the desired pod spec. */
  function Drifted(c: Cluster, t: PodTemplate): State {
    State(Some(c), None, None, Some(DesiredStatefulSet(c).(template := t)), EMPTY, map[])
  }

  /** Drift of any kind is repaired exactly when the server stores no other template with the desired
      pod spec as written; so on every server that completes pod specs. */
  lemma DriftRepairedExactly(env: Env, c: Cluster)
    requires !c.deleting && FINALIZER in c.finalizers && !BadSchedule(env, c)
    ensures DriftRepaired(env, c) <==>
      forall t: PodTemplate :: env.defaults.template(t) == t && t.spec == DesiredTemplate(c).spec ==>
        t == env.defaults.template(DesiredTemplate(c))
    ensures ServerCompletes(env, c) ==> DriftRepaired(env, c)
  {
    var want := env.defaults.template(DesiredTemplate(c));
    if t: PodTemplate :| env.defaults.template(t) == t && t.spec == DesiredTemplate(c).spec && t != want {
      var s := Drifted(c, t);
      TemplateExactlyReached(env, s);
      assert Healthy(env, s) && ServerStored(env, s.sts);
      assert !DriftRepaired(env, c);
    } else {
      forall s: State | s.cluster == Some(c) && Healthy(env, s) && ServerStored(env, s.sts)
        ensures Again(env, s).state.sts.Some? && Again(env, s).state.sts.value.template == want
      {
        TemplateExactlyReached(env, s);
      }
    }
  }

  /** Exactly when the whole template, metadata included, is the defaulted desired one after a pass:
      unless the stored StatefulSet already had the right replicas and pod spec but other metadata. */
  lemma TemplateExactlyReached(env: Env, s: State)
    requires Healthy(env, s) && HasFinalizer(s)
    ensures
      var want := WantedFor(env.table, s.cluster.value);
      Again(env, s).state.sts.Some?
      && (Again(env, s).state.sts.value.template == env.defaults.template(want.sts.template)
          <==>
          !(&& s.sts.Some?
            && !ReplicasChanged(s.sts.value, s.cluster.value)
            && !TemplateChanged(s.sts.value, want)
            && s.sts.value.template != env.defaults.template(want.sts.template)))
  {
    FullPass(env, s);
  }

  /** An enabled, parseable schedule has exactly the job of this cluster after a full pass. */
  lemma BackupRegistered(env: Env, s: State)
    requires Healthy(env, s) && HasFinalizer(s) && env.backups && Effective(s.cluster.value)
    ensures Again(env, s).state.cron == Registered(env.parsers, s.cron, s.cluster.value)
  {
    ChildrenStored(env, WantedFor(env.table, s.cluster.value), RegisterStep(env, s, s.cluster.value));
  }
}
