/** From a Set's backup template to a cron job: the Set controller, the cluster controller and the
    backup scheduler together. */
module EndToEnd {
  import opened Types
  import opened Webhook
  import opened PodTemplate
  import opened Agreement
  import opened ClusterSet
  import opened Reconciler
  import opened Convergence
  import Scheduler
  import SetQueue
  import Store

  ghost predicate SameArgs(a: PodSpec, b: PodSpec) {
    && |a.containers| == |b.containers|
    && forall i :: 0 <= i < |a.containers| ==>
         a.containers[i].name == b.containers[i].name && a.containers[i].args == b.containers[i].args
  }

  /** Server defaulting leaves container names and arguments alone. */
  ghost predicate KeepsArgs(d: Defaults) {
    forall t :: SameArgs(d.template(t).spec, t.spec)
  }

  /** A container called prometheus is started with the admin API. */
  ghost predicate ServesAdminApi(pod: PodSpec) {
    exists i :: 0 <= i < |pod.containers|
                && pod.containers[i].name == "prometheus" && ADMIN_API in pod.containers[i].args
  }

  lemma DesiredServesAdminApi(c: Cluster)
    requires c.spec.backup.enabled
    ensures ServesAdminApi(DesiredPod(c))
  {
    FlagsInArgs(c.spec);
    var pod := DesiredPod(c);
    assert pod.containers[1] == Prometheus(c.spec);
    assert pod.containers[1].name == "prometheus";
  }

  lemma DefaultingKeepsAdminApi(d: Defaults, t: PodTemplate)
    requires KeepsArgs(d) && ServesAdminApi(t.spec)
    ensures ServesAdminApi(d.template(t).spec)
  {
    var i :| 0 <= i < |t.spec.containers| && t.spec.containers[i].name == "prometheus"
             && ADMIN_API in t.spec.containers[i].args;
    assert SameArgs(d.template(t).spec, t.spec);
    assert d.template(t).spec.containers[i].name == "prometheus";
  }

  /** A pass over a cluster with its finalizer leaves exactly one live job for it. */
  lemma PassSchedules(env: Env, s: State)
    requires Healthy(env, s) && HasFinalizer(s) && env.backups && Scheduler.Effective(s.cluster.value)
    requires Scheduler.Consistent(s.cron) && Scheduler.SlashFree(s.cluster.value.ns)
    ensures
      var c, s' := s.cluster.value, Again(env, s).state;
      && Scheduler.Consistent(s'.cron)
      && Scheduler.OnSchedule(s'.cron.jobs, c.ns, c.name, Some(c.spec.backup.schedule))
  {
    BackupRegistered(env, s);
    Scheduler.RegisterSchedules(env.parsers, s.cron, s.cluster.value);
  }

  /** Two Reconciles of a stored cluster with a backup schedule. */
  lemma ReconciledTwice(env: Env, s: State)
    requires Idempotent(env.defaults) && KeepsArgs(env.defaults) && Healthy(env, s) && env.backups
    requires Scheduler.Effective(s.cluster.value)
    requires Scheduler.Consistent(s.cron) && Scheduler.SlashFree(s.cluster.value.ns)
    ensures
      var c := s.cluster.value;
      && Healthy(env, Again(env, s).state)
      && var s2 := Again(env, Again(env, s).state).state;
      && s2.cluster.Some? && s2.cluster.value.spec == c.spec
      && s2.sts.Some? && ServesAdminApi(s2.sts.value.template.spec)
      && Scheduler.OnSchedule(s2.cron.jobs, c.ns, c.name, Some(c.spec.backup.schedule))
  {
    var c := s.cluster.value;
    var want := WantedFor(env.table, c);
    ConvergesInThree(env, s);
    var s1 := Again(env, s).state;
    if HasFinalizer(s) {
      FullPass(env, s);
      PassSchedules(env, s);
    } else {
      FirstPass(env, s);
    }
    FullPass(env, s1);
    PassSchedules(env, s1);
    DesiredServesAdminApi(c);
    DefaultingKeepsAdminApi(env.defaults, want.sts.template);
  }

  /** What an end-to-end run delivers for a member: the template as its backup block and the rest of its
      spec as it was, the admin API in the stored pods, and one cron job on the template's schedule. */
  ghost predicate Delivered(env: Env, c: Cluster, template: BackupSpec, s: State)
    requires s.cluster.Some?
  {
    && s.cluster.value.spec == c.spec.(backup := template.(enabled := true))
    && s.sts.Some? && ServesAdminApi(s.sts.value.template.spec)
    && Scheduler.OnSchedule(s.cron.jobs, c.ns, c.name, Some(template.schedule))
  }

  /** A stored cluster with an admissible overlay, whatever its status and finalizers. */
  ghost predicate HasOverlay(p: Parsers, s: State, c: Cluster, template: BackupSpec, setName: string) {
    && Valid(p, Overlaid(c, template, setName).spec)
    && s.cluster.Some?
    && SetQueue.Core(s.cluster.value) == SetQueue.Core(Overlaid(c, template, setName))
  }

  lemma OverlayHealthy(env: Env, s: State, c: Cluster, template: BackupSpec, setName: string)
    requires HasOverlay(env.parsers, s, c, template, setName) && template.schedule != ""
    requires !s.cluster.value.deleting && Ours(s, s.cluster.value)
    ensures s.cluster.value.spec == Overlaid(c, template, setName).spec
    ensures s.cluster.value.ns == c.ns && s.cluster.value.name == c.name
    ensures Healthy(env, s) && Scheduler.Effective(s.cluster.value)
  {
    assert SetQueue.Core(s.cluster.value).spec == s.cluster.value.spec;
    assert !Violates(env.parsers, Overlaid(c, template, setName).spec, FieldError.BadSchedule);
  }

  lemma OverlayDelivers(env: Env, s: State, c: Cluster, template: BackupSpec, setName: string)
    requires HasOverlay(env.parsers, s, c, template, setName) && template.schedule != ""
    requires !s.cluster.value.deleting && Ours(s, s.cluster.value)
    requires Idempotent(env.defaults) && KeepsArgs(env.defaults) && env.backups
    requires Scheduler.Consistent(s.cron) && Scheduler.SlashFree(s.cluster.value.ns)
    ensures Healthy(env, s) && Healthy(env, Again(env, s).state)
    ensures
      var s2 := Again(env, Again(env, s).state).state;
      s2.cluster.Some? && Delivered(env, c, template, s2)
  {
    OverlayHealthy(env, s, c, template, setName);
    ReconciledTwice(env, s);
  }

  /** A member that was not overlaid stays without backup. */
  lemma UndoneNotDelivered(env: Env, s: State, c: Cluster, template: BackupSpec)
    requires s.cluster.Some? && !s.cluster.value.deleting && Ours(s, s.cluster.value)
    requires !s.cluster.value.spec.backup.enabled
    ensures Healthy(env, s) && Healthy(env, Again(env, s).state)
    ensures
      var s2 := Again(env, Again(env, s).state).state;
      s2.cluster.Some? && !Delivered(env, c, template, s2)
  {
    SpecKept(env, s);
    SpecKept(env, Again(env, s).state);
  }

  /** One Set pass that got as far as the members and saw this one up to date, then the cluster
      controller: a selected, not opted-out member without backup gets the admissible template, the flag
      and exactly one job, if and only if its overlay was stored. */
  lemma TemplateReachesCron(env: Env, w: SetQueue.World, n: string, w': SetQueue.World,
                            refused: set<Key>, end: SetQueue.Ending, k: Key, s: State)
    requires SetQueue.Inv(env.parsers, w) && SetQueue.Pass(env.parsers, w, n, w', refused, end)
    requires SetQueue.Parseable(w.sets[n]) && !end.ListingFailed?
    requires k in w.store && w.cache[k] == w.store[k]
    requires OverlayDue(env.parsers, w.sets[n], w.nss, w.store[k].cluster)
    requires w.sets[n].spec.template.value.schedule != ""
    requires s.cluster == Some(w'.store[k].cluster)
    requires !s.cluster.value.deleting && Ours(s, s.cluster.value)
    requires Idempotent(env.defaults) && KeepsArgs(env.defaults) && env.backups
    requires Scheduler.Consistent(s.cron) && Scheduler.SlashFree(s.cluster.value.ns)
    ensures Healthy(env, s) && Healthy(env, Again(env, s).state)
    ensures
      var s2 := Again(env, Again(env, s).state).state;
      && s2.cluster.Some?
      && (Delivered(env, w.store[k].cluster, w.sets[n].spec.template.value, s2) <==> k !in refused)
  {
    SetQueue.OverlayAt(env.parsers, w, n, w', refused, k);
    OverlayDecides(env, s, w.store[k].cluster, w.sets[n].spec.template.value, n, k !in refused);
  }

  /** Delivered or not, by whether the overlay was stored. */
  lemma OverlayDecides(env: Env, s: State, c: Cluster, template: BackupSpec, setName: string, done: bool)
    requires s.cluster.Some? && !s.cluster.value.deleting && Ours(s, s.cluster.value)
    requires if done then HasOverlay(env.parsers, s, c, template, setName)
             else !s.cluster.value.spec.backup.enabled
    requires template.schedule != "" && env.backups
    requires Idempotent(env.defaults) && KeepsArgs(env.defaults)
    requires Scheduler.Consistent(s.cron) && Scheduler.SlashFree(s.cluster.value.ns)
    ensures Healthy(env, s) && Healthy(env, Again(env, s).state)
    ensures
      var s2 := Again(env, Again(env, s).state).state;
      s2.cluster.Some? && (Delivered(env, c, template, s2) <==> done)
  {
    if done {
      OverlayDelivers(env, s, c, template, setName);
    } else {
      UndoneNotDelivered(env, s, c, template);
    }
  }

  /** The same for a whole run of the Set controller, under any schedule, cache lag and failing calls
      included: once the run has stopped, a member that exactly one Set wants is delivered by two
      Reconciles, if and only if its overlay did not fail in that Set's last pass. */
  lemma SettledTemplateReachesCron(env: Env, run: seq<SetQueue.World>, n: string, k: Key, s: State)
    requires SetQueue.IsRun(env.parsers, run) && SetQueue.Inv(env.parsers, run[0]) && SetQueue.AllParse(run[0])
    requires SetQueue.Stuck(env.parsers, run[|run| - 1])
    requires SetQueue.OnlyWantedBy(env.parsers, run[0], k, n)
    requires run[0].sets[n].spec.template.value.schedule != ""
    requires k in run[|run| - 1].store && s.cluster == Some(run[|run| - 1].store[k].cluster)
    requires !s.cluster.value.deleting && Ours(s, s.cluster.value)
    requires Idempotent(env.defaults) && KeepsArgs(env.defaults) && env.backups
    requires Scheduler.Consistent(s.cron) && Scheduler.SlashFree(s.cluster.value.ns)
    ensures Healthy(env, s) && Healthy(env, Again(env, s).state)
    ensures
      var s2 := Again(env, Again(env, s).state).state;
      && s2.cluster.Some?
      && (Delivered(env, run[0].store[k].cluster, run[0].sets[n].spec.template.value, s2)
          <==> k !in SetQueue.Undone(run[|run| - 1], n))
  {
    SetQueue.StoppedRunOverlays(env.parsers, run, k, n);
    var c, done := run[0].store[k].cluster, k !in SetQueue.Undone(run[|run| - 1], n);
    assert !done ==> SetQueue.Core(s.cluster.value).spec == SetQueue.Core(c).spec;
    OverlayDecides(env, s, c, run[0].sets[n].spec.template.value, n, done);
  }

  /** Whatever interleaving of users and controllers stored it, a cluster with a schedule can be
      registered: Register does not fail on any version in the store. */
  lemma StoredClustersRegister(p: Parsers, steps: seq<Store.Step>, v: nat)
    requires Store.Legal(p, Store.INIT, steps) && v < |Store.Run(p, Store.INIT, steps).hist|
    ensures
      var stored := Store.Run(p, Store.INIT, steps).hist[v];
      stored.Some? && Scheduler.Effective(stored.value) ==> p.cron(stored.value.spec.backup.schedule)
  {
    Store.NoWriteLosesAnother(p, steps, v);
    var stored := Store.Run(p, Store.INIT, steps).hist[v];
    assert stored.Some? ==> !Violates(p, stored.value.spec, FieldError.BadSchedule);
  }
}
