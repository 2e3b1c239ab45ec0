/** Whether the phase gauges show the stored phase, over every sequence of Reconciles, user actions and
    failing calls. A gauge moves only once the write it reports has been answered, so a lost answer can
    leave it behind. */
module PhaseGauges {
  import opened Types
  import opened Reconciler
  import opened Metrics
  import opened PhaseSafety
  import Convergence

  /** What happens to one cluster between and at Reconciles. Users leave the operator's finalizer to
      the operator. */
  datatype Event =
    | Pass(r: Reads, faults: map<Call, Fate>)
    | Create(c: Cluster)
    | Edit(c: Cluster)
    | Delete
    | Kubelet(ready: int)
    | Stamp(lastBackup: Option<nat>, lastFailover: Option<nat>)

  ghost predicate Possible(s: State, e: Event, ns: string, name: string) {
    match e
    case Pass(r, _) => Consistent(s, r) && r.cluster.ns == ns && r.cluster.name == name
    case Create(c) =>
      s.cluster.None? && c.ns == ns && c.name == name && c.status == EMPTY_STATUS && !c.deleting
    case Edit(c) =>
      && s.cluster.Some? && c.ns == ns && c.name == name
      && c.status == s.cluster.value.status && c.deleting == s.cluster.value.deleting
      && (FINALIZER in c.finalizers <==> FINALIZER in s.cluster.value.finalizers)
    case Delete => s.cluster.Some?
    case Kubelet(_) => s.sts.Some?
    case Stamp(_, _) => s.cluster.Some?
  }

  function Reaped(c: Cluster): Option<Cluster> {
    if c.deleting && c.finalizers == {} then None else Some(c)
  }

  ghost function Happen(env: Env, s: State, e: Event, ns: string, name: string): State
    requires Possible(s, e, ns, name)
  {
    match e
    case Pass(r, faults) => ReconcileOf(env, s, r, faults).state
    case Create(c) => s.(cluster := Some(c))
    case Edit(c) => s.(cluster := Reaped(c))
    case Delete => s.(cluster := Reaped(s.cluster.value.(deleting := true)))
    case Kubelet(n) => s.(sts := Some(s.sts.value.(ready := n)))
    case Stamp(b, f) =>
      var c := s.cluster.value;
      s.(cluster := Some(c.(status := c.status.(lastBackup := b, lastFailover := f))))
  }

  // ---------------------------------------------------------------- honest gauges

  /** Gauges are either absent, or show exactly the stored phase of a cluster still finalized. */
  ghost predicate GaugesHonest(s: State, ns: string, name: string) {
    || Absent(s.gauges, ns, name)
    || (&& s.cluster.Some? && FINALIZER in s.cluster.value.finalizers
        && s.cluster.value.status.phase != NoPhase
        && Showing(s.gauges, ns, name, s.cluster.value.status.phase))
  }

  ghost predicate ShowingSome(s: State, ns: string, name: string) {
    exists q :: q != NoPhase && Showing(s.gauges, ns, name, q)
  }

  /** Honest or not: gauges show some one phase, and a cluster without the finalizer that has gauges is
      on its way out or was never reconciled. */
  ghost predicate Tracked(s: State, ns: string, name: string) {
    && (s.cluster.Some? ==> s.cluster.value.ns == ns && s.cluster.value.name == name)
    && (Absent(s.gauges, ns, name) || ShowingSome(s, ns, name))
    && (!Absent(s.gauges, ns, name) && s.cluster.Some? && FINALIZER !in s.cluster.value.finalizers ==>
          s.cluster.value.deleting || s.cluster.value.status.phase == NoPhase)
  }

  /** The pass stored a phase, or removed the finalizer. */
  ghost predicate Marks(s: State, r: Reads, o: Outcome) {
    o.wrote.Some? || (r.cluster.deleting && o.state.cluster != s.cluster)
  }

  /** The write that marks was answered, or there was nothing to tell. */
  ghost predicate Told(s: State, o: Outcome, ns: string, name: string) {
    || !o.failed
    || Absent(s.gauges, ns, name)
    || (o.wrote.Some? && Showing(s.gauges, ns, name, o.wrote.value))
  }

  lemma KnownPhase(env: Env, want: Wanted, s: State, r: Reads, o: Outcome)
    requires StsWritten(env, want, s, r, o) && o.wrote.Some?
    ensures o.wrote.value != NoPhase
  {
  }

  /** The gauges after a phase was stored. */
  lemma GaugesAfterPhase(g: map<Series, int>, g': map<Series, int>, ns: string, name: string, p: Phase, lost: bool)
    requires Absent(g, ns, name) || exists q :: q != NoPhase && Showing(g, ns, name, q)
    requires g' == if lost then g else WithPhase(g, ns, name, p)
    requires p != NoPhase
    ensures Absent(g', ns, name) || exists q :: q != NoPhase && Showing(g', ns, name, q)
    ensures Absent(g', ns, name) || Showing(g', ns, name, p) <==>
      !lost || Absent(g, ns, name) || Showing(g, ns, name, p)
  {
    if !lost {
      SetPhaseShows(g, ns, name, p);
    }
  }

  /** A phase was stored. */
  lemma PhaseDecides(s: State, r: Reads, faults: map<Call, Fate>, o: Outcome, ns: string, name: string)
    requires Tracked(s, ns, name) && StatusWritten(s, r, faults, o) && r.cluster.ns == ns && r.cluster.name == name
    requires FINALIZER in r.cluster.finalizers && o.wrote.value != NoPhase
    ensures Tracked(o.state, ns, name)
    ensures GaugesHonest(o.state, ns, name) <==> Told(s, o, ns, name)
  {
    GaugesAfterPhase(s.gauges, o.state.gauges, ns, name, o.wrote.value, o.failed);
  }

  /** The finalizer was removed. */
  lemma RemovalDecides(s: State, r: Reads, faults: map<Call, Fate>, o: Outcome, ns: string, name: string)
    requires Tracked(s, ns, name) && Removed(s, r, faults, o) && o.wrote.None?
    requires r.cluster.ns == ns && r.cluster.name == name
    ensures Tracked(o.state, ns, name)
    ensures GaugesHonest(o.state, ns, name) <==> Told(s, o, ns, name)
  {
  }

  /** A pass decides honesty anew if it marks, and leaves it as it was otherwise. */
  lemma PassDecides(env: Env, s: State, r: Reads, faults: map<Call, Fate>, ns: string, name: string)
    requires Tracked(s, ns, name) && Possible(s, Pass(r, faults), ns, name)
    ensures
      var o := ReconcileOf(env, s, r, faults);
      && Tracked(o.state, ns, name)
      && (GaugesHonest(o.state, ns, name) <==>
            if Marks(s, r, o) then Told(s, o, ns, name) else GaugesHonest(s, ns, name))
  {
    var o := ReconcileOf(env, s, r, faults);
    if o.wrote.Some? {
      WritesPhase(env, s, r, faults);
      KnownPhase(env, WantedFor(env.table, r.cluster), s, r, o);
      PhaseDecides(s, r, faults, o, ns, name);
    } else {
      NoPhaseKept(env, s, r, faults);
      QuietDecides(s, r, faults, o, ns, name);
    }
  }

  lemma QuietDecides(s: State, r: Reads, faults: map<Call, Fate>, o: Outcome, ns: string, name: string)
    requires Tracked(s, ns, name) && Possible(s, Pass(r, faults), ns, name)
    requires o.wrote.None? && FinalizerOnly(s, r, faults, o)
    ensures Tracked(o.state, ns, name)
    ensures GaugesHonest(o.state, ns, name) <==>
      if Marks(s, r, o) then Told(s, o, ns, name) else GaugesHonest(s, ns, name)
  {
    if Removed(s, r, faults, o) {
      RemovalDecides(s, r, faults, o, ns, name);
    }
  }

  /** Nothing else moves the gauges or the stored phase. */
  lemma OtherDecides(env: Env, s: State, e: Event, ns: string, name: string)
    requires Tracked(s, ns, name) && Possible(s, e, ns, name) && !e.Pass?
    ensures Tracked(Happen(env, s, e, ns, name), ns, name)
    ensures GaugesHonest(Happen(env, s, e, ns, name), ns, name) <==> GaugesHonest(s, ns, name)
  {
  }

  // ---------------------------------------------------------------- over runs

  ghost predicate PossibleRun(env: Env, s: State, es: seq<Event>, ns: string, name: string)
    decreases |es|
  {
    es != [] ==> Possible(s, es[0], ns, name) && PossibleRun(env, Happen(env, s, es[0], ns, name), es[1..], ns, name)
  }

  ghost function After(env: Env, s: State, es: seq<Event>, ns: string, name: string): State
    requires PossibleRun(env, s, es, ns, name)
    decreases |es|
  {
    if es == [] then s else After(env, Happen(env, s, es[0], ns, name), es[1..], ns, name)
  }

  /** Whether the event, if it marks, was told; `before` if it does not mark. */
  ghost predicate ToldBy(env: Env, s: State, e: Event, before: bool, ns: string, name: string) {
    if e.Pass? && Marks(s, e.r, ReconcileOf(env, s, e.r, e.faults))
    then Told(s, ReconcileOf(env, s, e.r, e.faults), ns, name)
    else before
  }

  /** Whether the last marking event of the run was told; `before` if there is none. */
  ghost predicate LastMarkTold(env: Env, s: State, es: seq<Event>, before: bool, ns: string, name: string)
    requires PossibleRun(env, s, es, ns, name)
    decreases |es|
  {
    if es == [] then before
    else
      LastMarkTold(env, Happen(env, s, es[0], ns, name), es[1..], ToldBy(env, s, es[0], before, ns, name), ns, name)
  }

  lemma EventDecides(env: Env, s: State, e: Event, ns: string, name: string)
    requires Tracked(s, ns, name) && Possible(s, e, ns, name)
    ensures Tracked(Happen(env, s, e, ns, name), ns, name)
    ensures GaugesHonest(Happen(env, s, e, ns, name), ns, name) <==>
      ToldBy(env, s, e, GaugesHonest(s, ns, name), ns, name)
  {
    if e.Pass? {
      PassDecides(env, s, e.r, e.faults, ns, name);
    } else {
      OtherDecides(env, s, e, ns, name);
    }
  }

  /** On every run, at every boundary: the gauges are honest (1 for the stored phase and 0 for the others,
      and none without the finalizer) if and only if the last write of a phase or removal of the
      finalizer was answered, or found the gauges absent or already showing that phase. */
  lemma {:induction false} GaugesHonestExactly(env: Env, s: State, es: seq<Event>, ns: string, name: string)
    requires Tracked(s, ns, name) && PossibleRun(env, s, es, ns, name)
    ensures Tracked(After(env, s, es, ns, name), ns, name)
    ensures GaugesHonest(After(env, s, es, ns, name), ns, name) <==>
      LastMarkTold(env, s, es, GaugesHonest(s, ns, name), ns, name)
    decreases |es|
  {
    if es != [] {
      EventDecides(env, s, es[0], ns, name);
      GaugesHonestExactly(env, Happen(env, s, es[0], ns, name), es[1..], ns, name);
    }
  }

  /** The next phase that is stored and answered repairs the gauges, whatever was lost before. */
  lemma NextPhaseRepairs(env: Env, s: State, r: Reads, faults: map<Call, Fate>, ns: string, name: string)
    requires Tracked(s, ns, name) && Possible(s, Pass(r, faults), ns, name)
    requires ReconcileOf(env, s, r, faults).wrote.Some? && !ReconcileOf(env, s, r, faults).failed
    ensures GaugesHonest(ReconcileOf(env, s, r, faults).state, ns, name)
  {
    PassDecides(env, s, r, faults, ns, name);
  }

  /** No answer to a status update or to a finalizer removal is lost. */
  predicate AllAnswered(es: seq<Event>) {
    forall i :: 0 <= i < |es| && es[i].Pass? ==>
      !FateOf(es[i].faults, PutStatus).Lost? && !FateOf(es[i].faults, RemoveFinalizer).Lost?
  }

  /** A marking pass fails only if its answer was lost. */
  lemma MarkFailsIfLost(env: Env, s: State, r: Reads, faults: map<Call, Fate>)
    requires Consistent(s, r) && Marks(s, r, ReconcileOf(env, s, r, faults)) && ReconcileOf(env, s, r, faults).failed
    ensures FateOf(faults, PutStatus).Lost? || FateOf(faults, RemoveFinalizer).Lost?
  {
    if ReconcileOf(env, s, r, faults).wrote.Some? {
      WritesPhase(env, s, r, faults);
    } else {
      NoPhaseKept(env, s, r, faults);
    }
  }

  /** So with all those answers arriving, stale reads, refused calls and lost answers elsewhere leave the
      gauges honest on every run. */
  lemma {:induction false} GaugesStayHonest(env: Env, s: State, es: seq<Event>, ns: string, name: string)
    requires Tracked(s, ns, name) && GaugesHonest(s, ns, name)
    requires PossibleRun(env, s, es, ns, name) && AllAnswered(es)
    ensures GaugesHonest(After(env, s, es, ns, name), ns, name)
    decreases |es|
  {
    if es != [] {
      EventDecides(env, s, es[0], ns, name);
      if es[0].Pass? && Marks(s, es[0].r, ReconcileOf(env, s, es[0].r, es[0].faults))
         && ReconcileOf(env, s, es[0].r, es[0].faults).failed {
        MarkFailsIfLost(env, s, es[0].r, es[0].faults);
      }
      assert AllAnswered(es[1..]);
      GaugesStayHonest(env, Happen(env, s, es[0], ns, name), es[1..], ns, name);
    }
  }

  // ---------------------------------------------------------------- what a lost answer leaves behind

  /** Once the cluster is gone, nothing but a new cluster of that name touches the gauges. */
  lemma {:induction false} GoneStays(env: Env, s: State, es: seq<Event>, ns: string, name: string)
    requires s.cluster.None? && PossibleRun(env, s, es, ns, name)
    requires forall i :: 0 <= i < |es| ==> !es[i].Create?
    ensures After(env, s, es, ns, name).cluster.None? && After(env, s, es, ns, name).gauges == s.gauges
    decreases |es|
  {
    if es != [] {
      if es[0].Pass? {
        GonePass(env, s, es[0].r, es[0].faults);
      }
      GoneStays(env, Happen(env, s, es[0], ns, name), es[1..], ns, name);
    }
  }

  lemma GonePass(env: Env, s: State, r: Reads, faults: map<Call, Fate>)
    requires s.cluster.None? && Consistent(s, r)
    ensures ReconcileOf(env, s, r, faults).state.cluster.None?
    ensures ReconcileOf(env, s, r, faults).state.gauges == s.gauges
  {
    if ReconcileOf(env, s, r, faults).wrote.Some? {
      WritesPhase(env, s, r, faults);
    } else {
      NoPhaseKept(env, s, r, faults);
    }
  }

  /** The leak: the removal of the last finalizer is stored and its answer lost. The cluster is gone, its
      series stay, and no later event but a new cluster of that name removes or changes them. */
  lemma LostRemovalLeaks(env: Env, s: State, gone: State, es: seq<Event>, ns: string, name: string)
    requires s.cluster.Some? && s.cluster.value.deleting && s.cluster.value.finalizers == {FINALIZER}
    requires Tracked(s, ns, name) && !Absent(s.gauges, ns, name)
    requires gone == ReconcileOf(env, s, Convergence.Fresh(s), map[RemoveFinalizer := Lost]).state
    requires PossibleRun(env, gone, es, ns, name) && forall i :: 0 <= i < |es| ==> !es[i].Create?
    ensures
      var last := After(env, gone, es, ns, name);
      && last.cluster.None? && last.gauges == s.gauges && !GaugesHonest(last, ns, name)
  {
    LostRemoval(env, s);
    GoneStays(env, gone, es, ns, name);
  }

  lemma LostRemoval(env: Env, s: State)
    requires s.cluster.Some? && s.cluster.value.deleting && s.cluster.value.finalizers == {FINALIZER}
    ensures
      var o := ReconcileOf(env, s, Convergence.Fresh(s), map[RemoveFinalizer := Lost]);
      o.failed && o.state == s.(cluster := None)
  {
  }
}
