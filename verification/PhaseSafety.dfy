/** What the phases mean: for every stored state, every outdated read and every failing call. */
module PhaseSafety {
  import opened Types
  import opened PodTemplate
  import opened Reconciler
  import opened Metrics
  import Convergence

  /** The stored StatefulSet runs what the cluster asks for. */
  ghost predicate Matching(env: Env, sts: Option<StatefulSet>, c: Cluster) {
    && sts.Some?
    && sts.value.replicas == c.spec.replicas
    && Convergence.TemplateReached(env, WantedFor(env.table, c), sts.value)
  }

  /** What the StatefulSet part of a pass that wrote a phase has done. */
  ghost predicate StsWritten(env: Env, want: Wanted, s: State, r: Reads, o: Outcome) {
    match r.sts
    case None =>
      && s.sts.None? && o.wrote == Some(Provisioning)
      && o.state.sts == Some(want.sts.(template := env.defaults.template(want.sts.template)))
    case Some(cur) =>
      && o.wrote == Some(PhaseFor(cur, r.cluster))
      && if !ReplicasChanged(cur, r.cluster) && !TemplateChanged(cur, want) then o.state.sts == s.sts
         else
           && r.stsCurrent
           && o.state.sts == Some(cur.(replicas := r.cluster.spec.replicas,
                                       template := env.defaults.template(want.sts.template)))
  }

  /** What the status part has done; the gauges move only with an answer. */
  ghost predicate StatusWritten(s: State, r: Reads, faults: map<Call, Fate>, o: Outcome) {
    && r.clusterCurrent && o.wrote.Some? && (o.failed <==> FateOf(faults, PutStatus).Lost?)
    && o.state.cluster ==
         Some(r.cluster.(status := r.cluster.status.(
           phase := o.wrote.value, ready := if r.sts.None? then 0 else r.sts.value.ready)))
    && o.state.gauges ==
         (if o.failed then s.gauges else WithPhase(s.gauges, r.cluster.ns, r.cluster.name, o.wrote.value))
  }

  ghost predicate Wrote(env: Env, s: State, r: Reads, faults: map<Call, Fate>, o: Outcome) {
    && !r.cluster.deleting && FINALIZER in r.cluster.finalizers
    && StsWritten(env, WantedFor(env.table, r.cluster), s, r, o) && StatusWritten(s, r, faults, o)
  }

  lemma StatusStepWrites(s: State, r: Reads, phase: Phase, ready: int, faults: map<Call, Fate>)
    ensures
      var o := StatusStep(s, r, phase, ready, faults);
      && o.state.sts == s.sts
      && (o.wrote.Some? ==>
            && r.clusterCurrent && o.wrote == Some(phase) && (o.failed <==> FateOf(faults, PutStatus).Lost?)
            && o.state.cluster == Some(r.cluster.(status := r.cluster.status.(phase := phase, ready := ready)))
            && o.state.gauges ==
                 (if o.failed then s.gauges else WithPhase(s.gauges, r.cluster.ns, r.cluster.name, phase)))
  {
  }

  lemma StsStepWrites(env: Env, want: Wanted, s: State, r: Reads, faults: map<Call, Fate>)
    requires StsStep(env, want, s, r, faults).wrote.Some?
    ensures
      var o := StsStep(env, want, s, r, faults);
      StsWritten(env, want, s, r, o) && StatusWritten(s, r, faults, o)
  {
    var made := env.defaults.template(want.sts.template);
    match r.sts
    case None =>
      StatusStepWrites(s.(sts := Some(want.sts.(template := made))), r, Provisioning, 0, faults);
    case Some(cur) =>
      var phase := PhaseFor(cur, r.cluster);
      StatusStepWrites(s, r, phase, cur.ready, faults);
      StatusStepWrites(s.(sts := Some(cur.(replicas := r.cluster.spec.replicas, template := made))),
                       r, phase, cur.ready, faults);
  }

  /** A pass that writes a phase gets as far as the StatefulSet. */
  lemma ChildrenReach(env: Env, want: Wanted, s: State, r: Reads, faults: map<Call, Fate>)
    requires ChildrenStep(env, want, s, r, faults).wrote.Some?
    ensures
      var o := ChildrenStep(env, want, s, r, faults);
      StsWritten(env, want, s, r, o) && StatusWritten(s, r, faults, o)
  {
    var me := (r.cluster.ns, r.cluster.name);
    var s2 := ConfigMapStep(want, me, s, r, faults).state;
    var s3 := ServiceStep(env, me, s2, r, faults).state;
    assert s3.sts == s.sts && s3.gauges == s.gauges;
    StsStepWrites(env, want, s3, r, faults);
  }

  lemma WritesPhase(env: Env, s: State, r: Reads, faults: map<Call, Fate>)
    requires ReconcileOf(env, s, r, faults).wrote.Some?
    ensures Wrote(env, s, r, faults, ReconcileOf(env, s, r, faults))
  {
    ReachesChildren(env, s, r, faults);
    ChildrenReach(env, WantedFor(env.table, r.cluster), RegisterStep(env, s, r.cluster), r, faults);
  }

  lemma ReachesChildren(env: Env, s: State, r: Reads, faults: map<Call, Fate>)
    requires ReconcileOf(env, s, r, faults).wrote.Some?
    ensures !r.cluster.deleting && FINALIZER in r.cluster.finalizers
    ensures ReconcileOf(env, s, r, faults) ==
      ChildrenStep(env, WantedFor(env.table, r.cluster), RegisterStep(env, s, r.cluster), r, faults)
  {
  }

  /** A phase is written only on the stored spec: an outdated cluster copy stores nothing. The gauges
      follow exactly when the answer arrives. */
  lemma PhaseIsOfTheStoredSpec(env: Env, s: State, r: Reads, faults: map<Call, Fate>)
    requires Consistent(s, r) && ReconcileOf(env, s, r, faults).wrote.Some?
    ensures s.cluster == Some(r.cluster) && !r.cluster.deleting && FINALIZER in r.cluster.finalizers
    ensures StatusWritten(s, r, faults, ReconcileOf(env, s, r, faults))
  {
    WritesPhase(env, s, r, faults);
  }

  /** Which phase is written, and the ready count with it. */
  lemma PhaseExactly(env: Env, s: State, r: Reads, faults: map<Call, Fate>)
    requires ReconcileOf(env, s, r, faults).wrote.Some?
    ensures
      var o := ReconcileOf(env, s, r, faults);
      && o.state.cluster.Some?
      && var ready := o.state.cluster.value.status.ready;
      match r.sts
      case None => o.wrote.value == Provisioning && ready == 0
      case Some(cur) =>
        && ready == cur.ready
        && (o.wrote.value == Scaling <==> cur.replicas != r.cluster.spec.replicas)
        && (o.wrote.value == Provisioning <==>
              cur.replicas == r.cluster.spec.replicas && cur.ready < r.cluster.spec.replicas)
        && (o.wrote.value == Active <==>
              cur.replicas == r.cluster.spec.replicas && cur.ready >= r.cluster.spec.replicas)
  {
    WritesPhase(env, s, r, faults);
    WrittenPhase(env, s, r, faults, ReconcileOf(env, s, r, faults));
  }

  lemma WrittenPhase(env: Env, s: State, r: Reads, faults: map<Call, Fate>, o: Outcome)
    requires Wrote(env, s, r, faults, o)
    ensures o.state.cluster.Some?
    ensures
      var ready := o.state.cluster.value.status.ready;
      match r.sts
      case None => o.wrote.value == Provisioning && ready == 0
      case Some(cur) =>
        && ready == cur.ready
        && (o.wrote.value == Scaling <==> cur.replicas != r.cluster.spec.replicas)
        && (o.wrote.value == Provisioning <==>
              cur.replicas == r.cluster.spec.replicas && cur.ready < r.cluster.spec.replicas)
        && (o.wrote.value == Active <==>
              cur.replicas == r.cluster.spec.replicas && cur.ready >= r.cluster.spec.replicas)
  {
  }

  /** Active: the recorded ready count covers the replicas, and the stored StatefulSet has the spec's
      replicas and template exactly when the StatefulSet read was current (or the stored one happened
      to match already). */
  lemma ActiveIsSound(env: Env, s: State, r: Reads, faults: map<Call, Fate>)
    requires Consistent(s, r) && ReconcileOf(env, s, r, faults).wrote == Some(Active)
    ensures
      var o := ReconcileOf(env, s, r, faults);
      && o.state.cluster.Some?
      && o.state.cluster.value.status.ready >= o.state.cluster.value.spec.replicas
      && (Matching(env, o.state.sts, r.cluster) <==> r.stsCurrent || Matching(env, s.sts, r.cluster))
  {
    WritesPhase(env, s, r, faults);
    ActiveOutcome(env, s, r, faults, ReconcileOf(env, s, r, faults));
  }

  lemma ActiveOutcome(env: Env, s: State, r: Reads, faults: map<Call, Fate>, o: Outcome)
    requires Consistent(s, r) && Wrote(env, s, r, faults, o) && o.wrote == Some(Active)
    ensures r.sts.Some? && r.sts.value.ready >= r.cluster.spec.replicas
    ensures o.state.cluster.Some?
    ensures o.state.cluster.value.status.ready >= o.state.cluster.value.spec.replicas
    ensures Matching(env, o.state.sts, r.cluster) <==> r.stsCurrent || Matching(env, s.sts, r.cluster)
  {
  }

  lemma StsStepOnStaleMatch(env: Env, want: Wanted, s: State, r: Reads)
    requires r.clusterCurrent && r.sts.Some?
    requires !ReplicasChanged(r.sts.value, r.cluster) && !TemplateChanged(r.sts.value, want)
    requires r.sts.value.ready >= r.cluster.spec.replicas
    ensures StsStep(env, want, s, r, map[]).wrote == Some(Active) && StsStep(env, want, s, r, map[]).state.sts == s.sts
  {
  }

  /** Whatever is stored, an outdated StatefulSet whose pod spec is the desired one as written, and
      which is ready, makes Reconcile write Active and leave the stored one alone. */
  lemma StaleReadWritesActive(env: Env, s: State, r: Reads)
    requires Convergence.Healthy(env, s) && Convergence.HasFinalizer(s)
    requires r.cluster == s.cluster.value && r.clusterCurrent && !r.stsCurrent
    requires r.configMap.Current? && r.service.Current?
    requires Matching(env, r.sts, r.cluster) && r.sts.value.ready >= r.cluster.spec.replicas
    requires r.sts.value.template.spec == WantedFor(env.table, r.cluster).sts.template.spec
    ensures
      var o := ReconcileOf(env, s, r, map[]);
      o.wrote == Some(Active) && o.state.sts == s.sts
  {
    var s1 := RegisterStep(env, s, r.cluster);
    ChildrenOnStaleMatch(env, s1, r);
  }

  lemma ChildrenOnStaleMatch(env: Env, s: State, r: Reads)
    requires Convergence.Ours(s, r.cluster) && r.clusterCurrent && r.configMap.Current? && r.service.Current?
    requires r.sts.Some? && r.sts.value.replicas == r.cluster.spec.replicas
    requires r.sts.value.ready >= r.cluster.spec.replicas
    requires r.sts.value.template.spec == WantedFor(env.table, r.cluster).sts.template.spec
    ensures
      var o := ChildrenStep(env, WantedFor(env.table, r.cluster), s, r, map[]);
      o.wrote == Some(Active) && o.state.sts == s.sts
  {
    var want, me := WantedFor(env.table, r.cluster), (r.cluster.ns, r.cluster.name);
    var s2 := ConfigMapStep(want, me, s, r, map[]).state;
    StsStepOnStaleMatch(env, want, ServiceStep(env, me, s2, r, map[]).state, r);
  }

  /** A server that completes pod specs: every pass finds a difference and writes the StatefulSet, so
      Active needs a current read, and then the stored one is exactly the desired one, defaulted. */
  lemma ActiveNeedsCurrentRead(env: Env, s: State, r: Reads, faults: map<Call, Fate>)
    requires Consistent(s, r) && Convergence.ServerStored(env, r.sts) && Convergence.ServerCompletes(env, r.cluster)
    requires ReconcileOf(env, s, r, faults).wrote == Some(Active)
    ensures r.stsCurrent && Matching(env, ReconcileOf(env, s, r, faults).state.sts, r.cluster)
    ensures ReconcileOf(env, s, r, faults).state.sts.value.template == env.defaults.template(DesiredTemplate(r.cluster))
  {
    WritesPhase(env, s, r, faults);
    CompletedOutcome(env, s, r, faults, ReconcileOf(env, s, r, faults));
  }

  lemma CompletedOutcome(env: Env, s: State, r: Reads, faults: map<Call, Fate>, o: Outcome)
    requires Convergence.ServerStored(env, r.sts) && Convergence.ServerCompletes(env, r.cluster)
    requires Wrote(env, s, r, faults, o) && o.wrote == Some(Active)
    ensures r.stsCurrent && Matching(env, o.state.sts, r.cluster)
    ensures o.state.sts.value.template == env.defaults.template(DesiredTemplate(r.cluster))
  {
  }

  /** Whatever was read, Active means that the stored StatefulSet runs what the cluster asks for. */
  ghost predicate ActiveSafe(env: Env, c: Cluster) {
    forall s: State, r: Reads, faults: map<Call, Fate> ::
      && r.cluster == c && Consistent(s, r)
      && Convergence.ServerStored(env, s.sts) && Convergence.ServerStored(env, r.sts)
      && ReconcileOf(env, s, r, faults).wrote == Some(Active)
      ==> Matching(env, ReconcileOf(env, s, r, faults).state.sts, c)
  }

  /** The states in which it does not: the server keeps `t`, with the pod spec as desired, the stored
      StatefulSet has since got another number of replicas, and the cached one is ready. */
  lemma StaleActive(env: Env, c: Cluster, t: PodTemplate) returns (s: State, r: Reads)
    requires !c.deleting && FINALIZER in c.finalizers && !BadSchedule(env, c)
    requires env.defaults.template(t) == t && t.spec == DesiredTemplate(c).spec
    ensures r.cluster == c && Consistent(s, r)
    ensures Convergence.ServerStored(env, s.sts) && Convergence.ServerStored(env, r.sts)
    ensures ReconcileOf(env, s, r, map[]).wrote == Some(Active)
    ensures !Matching(env, ReconcileOf(env, s, r, map[]).state.sts, c)
  {
    var read := DesiredStatefulSet(c).(template := t, ready := c.spec.replicas);
    s := Convergence.Drifted(c, t).(sts := Some(read.(replicas := c.spec.replicas + 1)));
    r := Reads(c, true, Some(read), false, Current, Current);
    StaleReadWritesActive(env, s, r);
  }

  /** Active is safe under every stale read if and only if the server completes the desired pod spec. */
  lemma ActiveSafeExactly(env: Env, c: Cluster)
    requires !c.deleting && FINALIZER in c.finalizers && !BadSchedule(env, c)
    ensures ActiveSafe(env, c) <==> Convergence.ServerCompletes(env, c)
  {
    if Convergence.ServerCompletes(env, c) {
      forall s: State, r: Reads, faults: map<Call, Fate> |
        && r.cluster == c && Consistent(s, r)
        && Convergence.ServerStored(env, s.sts) && Convergence.ServerStored(env, r.sts)
        && ReconcileOf(env, s, r, faults).wrote == Some(Active)
        ensures Matching(env, ReconcileOf(env, s, r, faults).state.sts, c)
      {
        ActiveNeedsCurrentRead(env, s, r, faults);
      }
    } else {
      var t: PodTemplate :| env.defaults.template(t) == t && t.spec == DesiredTemplate(c).spec;
      var s, r := StaleActive(env, c, t);
    }
  }

  /** Scaling is written exactly by a pass that changed the replicas of an existing StatefulSet. */
  lemma ScalingMeansResized(env: Env, s: State, r: Reads, faults: map<Call, Fate>)
    requires Consistent(s, r) && ReconcileOf(env, s, r, faults).wrote.Some?
    ensures
      var o := ReconcileOf(env, s, r, faults);
      o.wrote == Some(Scaling) <==>
      s.sts.Some? && o.state.sts.Some? && s.sts.value.replicas != o.state.sts.value.replicas
  {
    WritesPhase(env, s, r, faults);
    ScalingOutcome(env, s, r, faults, ReconcileOf(env, s, r, faults));
  }

  lemma ScalingOutcome(env: Env, s: State, r: Reads, faults: map<Call, Fate>, o: Outcome)
    requires Consistent(s, r) && Wrote(env, s, r, faults, o)
    ensures o.wrote == Some(Scaling) <==>
      s.sts.Some? && o.state.sts.Some? && s.sts.value.replicas != o.state.sts.value.replicas
    ensures o.wrote == Some(Scaling) ==> o.state.sts.value.replicas == r.cluster.spec.replicas
    ensures s.sts.Some? ==>
      o.state.sts.Some? && o.state.sts.value.replicas in {s.sts.value.replicas, r.cluster.spec.replicas}
  {
  }

  /** A pass over a StatefulSet that has the replicas asked for never writes Scaling, stale reads and
      failures included; so a stored Scaling stays exactly as long as passes write no phase at all. */
  lemma SizedLeavesScaling(env: Env, s: State, r: Reads, faults: map<Call, Fate>)
    requires Consistent(s, r) && s.sts.Some? && s.sts.value.replicas == r.cluster.spec.replicas
    requires s.cluster.Some? && s.cluster.value.status.phase == Scaling
    ensures
      var o := ReconcileOf(env, s, r, faults);
      o.state.cluster.Some? ==> (o.state.cluster.value.status.phase == Scaling <==> o.wrote.None?)
  {
    var o := ReconcileOf(env, s, r, faults);
    if o.wrote.Some? {
      WritesPhase(env, s, r, faults);
      ScalingOutcome(env, s, r, faults, o);
    } else {
      NoPhaseKept(env, s, r, faults);
    }
  }

  lemma StsStepKeeps(env: Env, want: Wanted, s: State, r: Reads, faults: map<Call, Fate>)
    ensures
      var o := StsStep(env, want, s, r, faults);
      o.wrote.None? ==> o.state.gauges == s.gauges && o.state.cluster == s.cluster
  {
  }

  lemma ChildrenKeep(env: Env, want: Wanted, s: State, r: Reads, faults: map<Call, Fate>)
    ensures
      var o := ChildrenStep(env, want, s, r, faults);
      o.wrote.None? ==> o.state.gauges == s.gauges && o.state.cluster == s.cluster
  {
    var me := (r.cluster.ns, r.cluster.name);
    var s1 := ConfigMapStep(want, me, s, r, faults).state;
    StsStepKeeps(env, want, ServiceStep(env, me, s1, r, faults).state, r, faults);
  }

  /** What a pass without a phase may have done to the cluster: add the finalizer, or remove it. */
  ghost predicate FinalizerOnly(s: State, r: Reads, faults: map<Call, Fate>, o: Outcome) {
    || (o.state.cluster == s.cluster && o.state.gauges == s.gauges)
    || (&& r.clusterCurrent && !r.cluster.deleting && FINALIZER !in r.cluster.finalizers
        && o.state.cluster == Some(r.cluster.(finalizers := r.cluster.finalizers + {FINALIZER}))
        && o.state.gauges == s.gauges)
    || Removed(s, r, faults, o)
  }

  /** finalize has removed the finalizer; the gauges go only with an answer. */
  ghost predicate Removed(s: State, r: Reads, faults: map<Call, Fate>, o: Outcome) {
    && r.clusterCurrent && r.cluster.deleting && FINALIZER in r.cluster.finalizers
    && (o.failed <==> FateOf(faults, RemoveFinalizer).Lost?)
    && o.state.cluster ==
         (if r.cluster.finalizers == {FINALIZER} then None
          else Some(r.cluster.(finalizers := r.cluster.finalizers - {FINALIZER})))
    && o.state.gauges ==
         (if o.failed then s.gauges else WithoutCluster(s.gauges, r.cluster.ns, r.cluster.name))
  }

  lemma NoPhaseKept(env: Env, s: State, r: Reads, faults: map<Call, Fate>)
    requires ReconcileOf(env, s, r, faults).wrote.None?
    ensures FinalizerOnly(s, r, faults, ReconcileOf(env, s, r, faults))
    ensures r.cluster.deleting && ReconcileOf(env, s, r, faults).state != s ==>
      Removed(s, r, faults, ReconcileOf(env, s, r, faults))
  {
    if !r.cluster.deleting {
      ChildrenKeep(env, WantedFor(env.table, r.cluster), RegisterStep(env, s, r.cluster), r, faults);
    }
  }

  /** `b` is `a` but for phase, ready count and the operator's own finalizer. */
  ghost predicate ReconciledOnly(a: Cluster, b: Cluster) {
    && b == a.(finalizers := b.finalizers, status := a.status.(phase := b.status.phase, ready := b.status.ready))
    && b.finalizers - {FINALIZER} == a.finalizers - {FINALIZER}
  }

  /** Of the stored cluster a pass changes phase, ready count and its finalizer, and nothing else; the
      cluster goes only with its last finalizer. */
  lemma PassKeepsCluster(env: Env, s: State, r: Reads, faults: map<Call, Fate>)
    requires Consistent(s, r)
    ensures
      var o := ReconcileOf(env, s, r, faults);
      match o.state.cluster
      case Some(b) => s.cluster.Some? && ReconciledOnly(s.cluster.value, b)
      case None => s.cluster.Some? ==> s.cluster.value.deleting && s.cluster.value.finalizers == {FINALIZER}
  {
    if ReconcileOf(env, s, r, faults).wrote.Some? {
      WritesPhase(env, s, r, faults);
    } else {
      NoPhaseKept(env, s, r, faults);
    }
  }

  /** Of an existing StatefulSet a pass changes replicas and template only; a new one is the desired one,
      defaulted. */
  lemma PassKeepsStatefulSet(env: Env, s: State, r: Reads, faults: map<Call, Fate>)
    requires Consistent(s, r)
    ensures
      var sts := ReconcileOf(env, s, r, faults).state.sts;
      match s.sts
      case Some(a) => sts.Some? && sts.value == a.(replicas := sts.value.replicas, template := sts.value.template)
      case None =>
        sts.Some? ==>
          var made := DesiredStatefulSet(r.cluster);
          sts.value == made.(template := env.defaults.template(made.template))
  {
    if !r.cluster.deleting && FINALIZER in r.cluster.finalizers {
      ChildrenKeepSts(env, WantedFor(env.table, r.cluster), RegisterStep(env, s, r.cluster), r, faults);
    }
  }

  lemma ChildrenKeepSts(env: Env, want: Wanted, s: State, r: Reads, faults: map<Call, Fate>)
    requires r.stsCurrent ==> s.sts == r.sts
    ensures
      var sts := ChildrenStep(env, want, s, r, faults).state.sts;
      match s.sts
      case Some(a) => sts.Some? && sts.value == a.(replicas := sts.value.replicas, template := sts.value.template)
      case None => sts.Some? ==> sts.value == want.sts.(template := env.defaults.template(want.sts.template))
  {
    var me := (r.cluster.ns, r.cluster.name);
    var s1 := ConfigMapStep(want, me, s, r, faults).state;
    StsStepKeepsSts(env, want, ServiceStep(env, me, s1, r, faults).state, r, faults);
  }

  lemma StsStepKeepsSts(env: Env, want: Wanted, s: State, r: Reads, faults: map<Call, Fate>)
    requires r.stsCurrent ==> s.sts == r.sts
    ensures
      var sts := StsStep(env, want, s, r, faults).state.sts;
      match s.sts
      case Some(a) => sts.Some? && sts.value == a.(replicas := sts.value.replicas, template := sts.value.template)
      case None => sts.Some? ==> sts.value == want.sts.(template := env.defaults.template(want.sts.template))
  {
  }

  /** A ConfigMap or Service of another controller is left as it is. */
  lemma PassRespectsOwners(env: Env, s: State, r: Reads, faults: map<Call, Fate>)
    ensures
      var o, me := ReconcileOf(env, s, r, faults), (r.cluster.ns, r.cluster.name);
      && (s.configMap.Some? && s.configMap.value.owner.Some? && s.configMap.value.owner.value != me ==>
            o.state.configMap == s.configMap)
      && (s.service.Some? && s.service.value.owner.Some? && s.service.value.owner.value != me ==>
            o.state.service == s.service)
  {
    if !r.cluster.deleting && FINALIZER in r.cluster.finalizers {
      ChildrenRespectOwners(env, WantedFor(env.table, r.cluster), RegisterStep(env, s, r.cluster), r, faults);
    }
  }

  lemma ChildrenRespectOwners(env: Env, want: Wanted, s: State, r: Reads, faults: map<Call, Fate>)
    ensures
      var o, me := ChildrenStep(env, want, s, r, faults), (r.cluster.ns, r.cluster.name);
      && (s.configMap.Some? && s.configMap.value.owner.Some? && s.configMap.value.owner.value != me ==>
            o.state.configMap == s.configMap)
      && (s.service.Some? && s.service.value.owner.Some? && s.service.value.owner.value != me ==>
            o.state.service == s.service)
  {
    var me := (r.cluster.ns, r.cluster.name);
    var s1 := ConfigMapStep(want, me, s, r, faults).state;
    StsStepKeepsOthers(env, want, ServiceStep(env, me, s1, r, faults).state, r, faults);
  }

  lemma StsStepKeepsOthers(env: Env, want: Wanted, s: State, r: Reads, faults: map<Call, Fate>)
    ensures
      var o := StsStep(env, want, s, r, faults);
      o.state.configMap == s.configMap && o.state.service == s.service && o.state.cron == s.cron
  {
  }

  /** A schedule that Register refuses stops the pass before it stores anything; without a scheduler, or
      without backup, the cron table is left alone. */
  lemma RegisterDecides(env: Env, s: State, r: Reads, faults: map<Call, Fate>)
    requires !r.cluster.deleting && FINALIZER in r.cluster.finalizers
    ensures
      var o, b := ReconcileOf(env, s, r, faults), r.cluster.spec.backup;
      && (env.backups && b.enabled && b.schedule != "" && !env.parsers.cron(b.schedule) ==>
            o.failed && o.wrote.None? && o.state == s.(cron := o.state.cron))
      && (!env.backups || !b.enabled || b.schedule == "" ==> o.state.cron == s.cron)
  {
    ChildrenKeepCron(env, WantedFor(env.table, r.cluster), RegisterStep(env, s, r.cluster), r, faults);
  }

  lemma ChildrenKeepCron(env: Env, want: Wanted, s: State, r: Reads, faults: map<Call, Fate>)
    ensures ChildrenStep(env, want, s, r, faults).state.cron == s.cron
  {
    var me := (r.cluster.ns, r.cluster.name);
    var s1 := ConfigMapStep(want, me, s, r, faults).state;
    StsStepKeepsOthers(env, want, ServiceStep(env, me, s1, r, faults).state, r, faults);
  }

  /** The first failing write ends the pass: nothing behind it is stored. */
  lemma FirstFailureStops(env: Env, s: State, r: Reads, faults: map<Call, Fate>)
    requires !r.cluster.deleting && FINALIZER in r.cluster.finalizers
    requires
      || (FateOf(faults, PutConfigMap) != Answered && r.configMap.Current?)
      || (FateOf(faults, PutService) != Answered && r.service.Current?)
    ensures
      var o := ReconcileOf(env, s, r, faults);
      && o.failed && o.wrote.None? && o.state.sts == s.sts && o.state.cluster == s.cluster
      && (FateOf(faults, PutConfigMap) != Answered && r.configMap.Current? ==> o.state.service == s.service)
  {
    ChildrenStop(env, WantedFor(env.table, r.cluster), RegisterStep(env, s, r.cluster), r, faults);
  }

  lemma ChildrenStop(env: Env, want: Wanted, s: State, r: Reads, faults: map<Call, Fate>)
    requires
      || (FateOf(faults, PutConfigMap) != Answered && r.configMap.Current?)
      || (FateOf(faults, PutService) != Answered && r.service.Current?)
    ensures
      var o := ChildrenStep(env, want, s, r, faults);
      && o.failed && o.wrote.None? && o.state.sts == s.sts && o.state.cluster == s.cluster
      && (FateOf(faults, PutConfigMap) != Answered && r.configMap.Current? ==> o.state.service == s.service)
  {
  }

  /** A deleting cluster, and one that has yet to get the finalizer, leave the children and the cron table
      alone. */
  lemma PassLeavesChildren(env: Env, s: State, r: Reads, faults: map<Call, Fate>)
    requires r.cluster.deleting || FINALIZER !in r.cluster.finalizers
    ensures
      var o := ReconcileOf(env, s, r, faults);
      && o.state.configMap == s.configMap && o.state.service == s.service && o.state.sts == s.sts
      && o.state.cron == s.cron && o.wrote.None?
  {
  }

  /** With fresh reads and no failing call the pass writes Provisioning or Active instead. */
  lemma SizedFreshPass(env: Env, s: State)
    requires Convergence.Healthy(env, s) && Convergence.HasFinalizer(s)
    requires s.sts.Some? && s.sts.value.replicas == s.cluster.value.spec.replicas
    ensures
      var o := Convergence.Again(env, s);
      o.state.cluster.Some? && o.state.cluster.value.status.phase in {Provisioning, Active}
  {
    Convergence.FullPass(env, s);
  }

  /** Scaling does not survive. After a pass wrote it, and with the replicas not edited again, the next
      pass leaves Scaling stored if and only if it writes no phase; and a fresh pass without failures
      stores Provisioning or Active. */
  lemma ScalingDoesNotSurvive(env: Env, s: State, r: Reads, faults: map<Call, Fate>,
                              s': State, r': Reads, faults': map<Call, Fate>)
    requires Consistent(s, r) && ReconcileOf(env, s, r, faults).wrote == Some(Scaling)
    requires Consistent(s', r') && r'.cluster.spec.replicas == r.cluster.spec.replicas
    requires s'.sts.Some? && ReconcileOf(env, s, r, faults).state.sts.Some?
    requires s'.sts.value.replicas == ReconcileOf(env, s, r, faults).state.sts.value.replicas
    requires s'.cluster.Some? && s'.cluster.value.status.phase == Scaling
    ensures
      var o := ReconcileOf(env, s', r', faults');
      o.state.cluster.Some? ==> (o.state.cluster.value.status.phase == Scaling <==> o.wrote.None?)
    ensures Convergence.Healthy(env, s') && Convergence.HasFinalizer(s') && r'.cluster == s'.cluster.value ==>
      var o := Convergence.Again(env, s');
      o.state.cluster.Some? && o.state.cluster.value.status.phase in {Provisioning, Active}
  {
    WritesPhase(env, s, r, faults);
    ScalingOutcome(env, s, r, faults, ReconcileOf(env, s, r, faults));
    SizedLeavesScaling(env, s', r', faults');
    if Convergence.Healthy(env, s') && Convergence.HasFinalizer(s') && r'.cluster == s'.cluster.value {
      SizedFreshPass(env, s');
    }
  }
}
