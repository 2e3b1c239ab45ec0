/**
 Any number of health-check passes over the shared store.

 A pass over a cluster works on the copy it listed, which may be of any age. It probes the cluster's
 pods; after a failed probe it deletes the pod, stamps its copy and writes the status back. Each of these
 is a step of its own, with everybody else's steps in between; the store decides whether the write lands,
 and an error of any call is only logged.
 */
module FailoverProtocol {
  import opened Types
  import HealthCheck
  import Store

  type Pod = HealthCheck.Pod
  type Key = HealthCheck.Key

  /** Where a pass is: between pods, or inside triggerFailover. */
  datatype Position = Checking | Deleting(pod: Pod, answer: HealthCheck.Answer) | Stamping | Updating

  /** A pod deleted for cluster `key` after `answer`, with the number of cluster versions stored by then
      and the time. */
  datatype Deletion = Deletion(key: Key, pod: Pod, answer: HealthCheck.Answer, versions: nat, time: nat)

  /** `last` is the pass's last deletion. */
  datatype Pass = Pass(key: Key, pos: Position, last: Option<nat>, stamp: Option<nat>)

  /** Passes are the store's processes of the same number; `credits` names the deletion behind a version. */
  datatype World = World(
    store: Store.World,
    passes: map<nat, Pass>,
    deletions: seq<Deletion>,
    credits: map<nat, nat>)

  const INIT := World(Store.INIT, map[], [], map[])

  datatype Step =
    | Other(step: Store.Step)
    | Start(pass: nat, version: nat)
    | Probe(pass: nat, pod: Pod, answer: HealthCheck.Answer)
    | DeletePod(pass: nat, ok: bool)
    | Stamp(pass: nat)
    | Update(pass: nat, arrives: bool, answered: bool)

  function KeyOf(c: Cluster): Key {
    (c.ns, c.name)
  }

  // ---------------------------------------------------------------- steps

  ghost predicate At(w: World, q: nat, pos: Position) {
    q in w.passes && w.passes[q].pos == pos
  }

  ghost predicate Enabled(w: World, s: Step)
    requires Store.WellSized(w.store)
  {
    match s
    case Other(t) =>
      && Store.Enabled(w.store, t)
      && (Store.Pid(t).Some? ==> t.pid !in w.passes)
      && (t.Read? ==> t.actor != Store.FailoverPass)
    case Start(q, v) =>
      q !in w.passes && q !in w.store.copies && Store.Enabled(w.store, Store.Read(q, Store.FailoverPass, v))
    case Probe(q, pod, _) => At(w, q, Checking) && pod.ip != "" && HealthCheck.Belongs(pod, w.passes[q].key)
    case DeletePod(q, _) => q in w.passes && w.passes[q].pos.Deleting?
    case Stamp(q) => At(w, q, Stamping) && Store.Enabled(w.store, Store.StampFailover(q))
    case Update(q, _, answered) => At(w, q, Updating) && Store.Enabled(w.store, Store.WriteStatus(q, answered))
  }

  function Moved(w: World, q: nat, pass: Pass): World {
    w.(passes := w.passes[q := pass])
  }

  function AfterDelete(w: World, q: nat, ok: bool): World
    requires q in w.passes && w.passes[q].pos.Deleting?
  {
    var pass := w.passes[q];
    if !ok then Moved(w, q, pass.(pos := Checking))
    else
      var d := Deletion(pass.key, pass.pos.pod, pass.pos.answer, |w.store.hist|, w.store.clock);
      Moved(w, q, pass.(pos := Stamping, last := Some(|w.deletions|))).(deletions := w.deletions + [d])
  }

  /** The store has become `store'`; a new version is credited to the pass's last deletion. */
  function Landed(w: World, q: nat, store': Store.World): World
    requires q in w.passes
  {
    var pass, n := w.passes[q], |w.store.hist|;
    Moved(w, q, pass.(pos := Checking)).(
      store := store',
      credits := if |store'.hist| > n && pass.last.Some? then w.credits[n := pass.last.value] else w.credits)
  }

  ghost function Apply(p: Parsers, w: World, s: Step): World
    requires Store.WellSized(w.store) && Enabled(w, s)
  {
    match s
    case Other(t) => w.(store := Store.Apply(p, w.store, t))
    case Start(q, v) =>
      Moved(w, q, Pass(KeyOf(w.store.hist[v].value), Checking, None, None))
      .(store := Store.Apply(p, w.store, Store.Read(q, Store.FailoverPass, v)))
    case Probe(q, pod, answer) =>
      if HealthCheck.Failed(answer) then Moved(w, q, w.passes[q].(pos := Deleting(pod, answer))) else w
    case DeletePod(q, ok) => AfterDelete(w, q, ok)
    case Stamp(q) =>
      Moved(w, q, w.passes[q].(pos := Updating, stamp := Some(w.store.clock)))
      .(store := Store.Apply(p, w.store, Store.StampFailover(q)))
    case Update(q, arrives, answered) =>
      if !arrives then Moved(w, q, w.passes[q].(pos := Checking))
      else Landed(w, q, Store.Apply(p, w.store, Store.WriteStatus(q, answered)))
  }

  // ---------------------------------------------------------------- invariant

  /** A deletion is of one of the cluster's own pods with an address, after a failed probe. */
  ghost predicate DeletionOk(w: World, d: Deletion) {
    && HealthCheck.Failed(d.answer) && HealthCheck.Belongs(d.pod, d.key) && d.pod.ip != ""
    && d.versions <= |w.store.hist| && d.time <= w.store.clock
  }

  ghost predicate PassOk(w: World, q: nat, pass: Pass) {
    && q in w.store.copies && w.store.copies[q].actor == Store.FailoverPass
    && KeyOf(w.store.copies[q].obj) == pass.key
    && match pass.pos
       case Checking => true
       case Deleting(pod, answer) => HealthCheck.Failed(answer) && HealthCheck.Belongs(pod, pass.key) && pod.ip != ""
       case Stamping => LastOk(w, pass)
       case Updating =>
         && LastOk(w, pass) && pass.stamp.Some?
         && w.store.copies[q].obj.status.lastFailover == pass.stamp
         && w.deletions[pass.last.value].time <= pass.stamp.value
  }

  ghost predicate LastOk(w: World, pass: Pass) {
    pass.last.Some? && pass.last.value < |w.deletions| && w.deletions[pass.last.value].key == pass.key
  }

  /** `d` was done for the cluster `c`, when at most `v` versions were stored and no later than c's stamp. */
  ghost predicate Backs(d: Deletion, c: Cluster, v: nat) {
    && d.key == KeyOf(c) && d.versions <= v
    && c.status.lastFailover.Some? && d.time <= c.status.lastFailover.value
    && HealthCheck.Failed(d.answer) && HealthCheck.Belongs(d.pod, d.key) && d.pod.ip != ""
  }

  ghost predicate Credited(w: World, v: nat) {
    && v < |w.store.hist| && w.store.hist[v].Some?
    && v in w.credits && w.credits[v] < |w.deletions|
    && Backs(w.deletions[w.credits[v]], w.store.hist[v].value, v)
  }

  ghost predicate CreditsOk(w: World)
    requires Store.WellSized(w.store)
  {
    forall v: nat :: v < |w.store.writers| && w.store.writers[v] == Store.Operator(Store.FailoverPass) ==>
      Credited(w, v)
  }

  ghost predicate CopiesOk(w: World) {
    forall q: nat :: q in w.store.copies && w.store.copies[q].actor == Store.FailoverPass ==> q in w.passes
  }

  ghost predicate Inv(p: Parsers, w: World) {
    && Store.Inv(p, w.store)
    && (forall d :: d in w.deletions ==> DeletionOk(w, d))
    && (forall q: nat :: q in w.passes ==> PassOk(w, q, w.passes[q]))
    && CreditsOk(w) && CopiesOk(w)
  }

  // ---------------------------------------------------------------- frames

  /** History and deletions only grow; the other passes and their copies stay. */
  ghost predicate OthersKept(w: World, w': World, q: Option<nat>) {
    && Store.Grows(w.store, w'.store) && w.deletions <= w'.deletions
    && (forall r: nat :: r in w.passes && Some(r) != q ==>
          r in w'.passes && w'.passes[r] == w.passes[r] && Store.CopyKept(w.store, w'.store, r))
  }

  lemma OtherPassOk(w: World, w': World, q: Option<nat>, r: nat)
    requires OthersKept(w, w', q) && r in w.passes && Some(r) != q && PassOk(w, r, w.passes[r])
    ensures PassOk(w', r, w'.passes[r])
  {
    assert Store.CopyKept(w.store, w'.store, r);
  }

  lemma OldDeletionsOk(w: World, w': World)
    requires Store.Grows(w.store, w'.store) && forall d :: d in w.deletions ==> DeletionOk(w, d)
    ensures forall d :: d in w.deletions ==> DeletionOk(w', d)
  {
  }

  lemma CreditKept(w: World, w': World, v: nat)
    requires Credited(w, v) && Store.Grows(w.store, w'.store) && w.deletions <= w'.deletions
    requires v in w'.credits && w'.credits[v] == w.credits[v]
    ensures Credited(w', v)
  {
  }

  /** Every version a failover pass has written is credited: the old ones by `w`, the new one, if any, by
      the step. */
  lemma CreditsKept(w: World, w': World)
    requires Store.WellSized(w.store) && Store.WellSized(w'.store) && CreditsOk(w)
    requires Store.Grows(w.store, w'.store) && w.deletions <= w'.deletions
    requires forall v: nat :: v in w.credits && v < |w.store.hist| ==> v in w'.credits && w'.credits[v] == w.credits[v]
    requires forall v: nat ::
      |w.store.hist| <= v < |w'.store.hist| && w'.store.writers[v] == Store.Operator(Store.FailoverPass) ==>
        Credited(w', v)
    ensures CreditsOk(w')
  {
    forall v: nat | v < |w'.store.writers| && w'.store.writers[v] == Store.Operator(Store.FailoverPass)
      ensures Credited(w', v)
    {
      if v < |w.store.hist| {
        assert Credited(w, v);
        CreditKept(w, w', v);
      }
    }
  }

  /** A step of pass `q`: what is left to show is about that pass and what it has added. */
  lemma PassMoves(p: Parsers, w: World, w': World, q: nat, pass: Pass)
    requires Inv(p, w) && OthersKept(w, w', Some(q)) && w'.passes == w.passes[q := pass]
    requires Store.Inv(p, w'.store) && CopiesOk(w') && CreditsOk(w') && PassOk(w', q, pass)
    requires forall d :: d in w'.deletions ==> d in w.deletions || DeletionOk(w', d)
    ensures Inv(p, w')
  {
    OldDeletionsOk(w, w');
    forall r: nat | r in w'.passes ensures PassOk(w', r, w'.passes[r]) {
      if r != q {
        OtherPassOk(w, w', Some(q), r);
      }
    }
  }

  // ---------------------------------------------------------------- everybody else

  lemma OtherPreserves(p: Parsers, w: World, t: Store.Step)
    requires Inv(p, w) && Enabled(w, Other(t))
    ensures Inv(p, Apply(p, w, Other(t)))
  {
    var w' := Apply(p, w, Other(t));
    Store.StepPreserves(p, w.store, t);
    OtherFrame(p, w, t);
    OldDeletionsOk(w, w');
    CreditsKept(w, w');
    forall r: nat | r in w'.passes ensures PassOk(w', r, w'.passes[r]) {
      OtherPassOk(w, w', None, r);
    }
  }

  lemma OtherFrame(p: Parsers, w: World, t: Store.Step)
    requires Store.WellSized(w.store) && CopiesOk(w) && Enabled(w, Other(t))
    ensures
      var w' := Apply(p, w, Other(t));
      && OthersKept(w, w', None) && CopiesOk(w') && Store.WellSized(w'.store)
      && forall v: nat :: |w.store.hist| <= v < |w'.store.hist| ==>
           w'.store.writers[v] != Store.Operator(Store.FailoverPass)
  {
    Store.StepShape(p, w.store, t);
    assert Store.Author(w.store, t) != Store.Operator(Store.FailoverPass);
    OtherCopies(p, w, t);
  }

  lemma OtherCopies(p: Parsers, w: World, t: Store.Step)
    requires Store.WellSized(w.store) && CopiesOk(w) && Enabled(w, Other(t))
    ensures CopiesOk(Apply(p, w, Other(t)))
  {
    var w' := Apply(p, w, Other(t));
    Store.StepShape(p, w.store, t);
    forall q: nat | q in w'.store.copies && w'.store.copies[q].actor == Store.FailoverPass ensures q in w'.passes {
      if Store.Pid(t) == Some(q) {
        Store.StepActor(p, w.store, t);
      } else {
        assert Store.CopyKept(w.store, w'.store, q);
      }
    }
  }

  // ---------------------------------------------------------------- the steps of a pass

  /** A step that leaves the store alone. */
  lemma QuietMove(p: Parsers, w: World, w': World, q: nat, pass: Pass)
    requires Inv(p, w) && q in w.passes && w'.passes == w.passes[q := pass]
    requires w'.store == w.store && w'.credits == w.credits && w.deletions <= w'.deletions
    requires PassOk(w', q, pass) && forall d :: d in w'.deletions ==> d in w.deletions || DeletionOk(w', d)
    ensures Inv(p, w')
  {
    QuietFrame(w, w', q, pass);
    PassMoves(p, w, w', q, pass);
  }

  lemma QuietFrame(w: World, w': World, q: nat, pass: Pass)
    requires Store.WellSized(w.store) && CreditsOk(w) && CopiesOk(w) && w'.passes == w.passes[q := pass]
    requires w'.store == w.store && w'.credits == w.credits && w.deletions <= w'.deletions
    ensures OthersKept(w, w', Some(q)) && CopiesOk(w') && CreditsOk(w')
  {
    CreditsKept(w, w');
  }

  lemma ProbePreserves(p: Parsers, w: World, s: Step)
    requires Inv(p, w) && s.Probe? && Enabled(w, s)
    ensures Inv(p, Apply(p, w, s))
  {
    var w' := Apply(p, w, s);
    assert PassOk(w, s.pass, w.passes[s.pass]);
    if HealthCheck.Failed(s.answer) {
      QuietMove(p, w, w', s.pass, w'.passes[s.pass]);
    }
  }

  lemma DeletePreserves(p: Parsers, w: World, q: nat, ok: bool)
    requires Inv(p, w) && Enabled(w, DeletePod(q, ok))
    ensures Inv(p, AfterDelete(w, q, ok))
  {
    var w' := AfterDelete(w, q, ok);
    assert PassOk(w, q, w.passes[q]);
    DeletedPass(w, q, ok);
    QuietMove(p, w, w', q, w'.passes[q]);
  }

  lemma DeletedPass(w: World, q: nat, ok: bool)
    requires q in w.passes && w.passes[q].pos.Deleting? && PassOk(w, q, w.passes[q])
    ensures
      var w' := AfterDelete(w, q, ok);
      && PassOk(w', q, w'.passes[q]) && w.deletions <= w'.deletions
      && forall d :: d in w'.deletions ==> d in w.deletions || DeletionOk(w', d)
  {
  }

  lemma StartPreserves(p: Parsers, w: World, q: nat, v: nat)
    requires Inv(p, w) && Enabled(w, Start(q, v))
    ensures Inv(p, Apply(p, w, Start(q, v)))
  {
    var t, w' := Store.Read(q, Store.FailoverPass, v), Apply(p, w, Start(q, v));
    Store.StepPreserves(p, w.store, t);
    Store.StepShape(p, w.store, t);
    LocalFrame(w, w', q);
    PassMoves(p, w, w', q, w'.passes[q]);
  }

  lemma StampPreserves(p: Parsers, w: World, q: nat)
    requires Inv(p, w) && Enabled(w, Stamp(q))
    ensures Inv(p, Apply(p, w, Stamp(q)))
  {
    var t, w' := Store.StampFailover(q), Apply(p, w, Stamp(q));
    assert PassOk(w, q, w.passes[q]);
    assert DeletionOk(w, w.deletions[w.passes[q].last.value]);
    Store.StepPreserves(p, w.store, t);
    Store.StepShape(p, w.store, t);
    LocalFrame(w, w', q);
    PassMoves(p, w, w', q, w'.passes[q]);
  }

  /** A step of pass `q` that stores no version. */
  lemma LocalFrame(w: World, w': World, q: nat)
    requires Store.WellSized(w.store) && Store.WellSized(w'.store) && CreditsOk(w) && CopiesOk(w)
    requires Store.Grows(w.store, w'.store) && |w'.store.hist| == |w.store.hist|
    requires forall r: nat :: r != q ==> Store.CopyKept(w.store, w'.store, r)
    requires q in w'.passes && w'.passes == w.passes[q := w'.passes[q]]
    requires w'.deletions == w.deletions && w'.credits == w.credits
    ensures OthersKept(w, w', Some(q)) && CopiesOk(w') && CreditsOk(w')
  {
    CreditsKept(w, w');
    forall r: nat | r in w'.store.copies && w'.store.copies[r].actor == Store.FailoverPass ensures r in w'.passes {
      if r != q {
        assert Store.CopyKept(w.store, w'.store, r);
      }
    }
  }

  /** What a status update may have done to the store: nothing new, or one version of the same cluster
      with the stamp of the pass's copy. */
  ghost predicate Writes(w: World, q: nat, store': Store.World) {
    && q in w.store.copies && q in store'.copies
    && Store.Grows(w.store, store') && Store.WellSized(store') && |store'.hist| <= |w.store.hist| + 1
    && (forall r: nat :: r != q ==> Store.CopyKept(w.store, store', r))
    && store'.copies[q].actor == w.store.copies[q].actor
    && KeyOf(store'.copies[q].obj) == KeyOf(w.store.copies[q].obj)
    && (|store'.hist| > |w.store.hist| ==>
          && store'.hist[|w.store.hist|].Some?
          && KeyOf(store'.hist[|w.store.hist|].value) == KeyOf(w.store.copies[q].obj)
          && store'.hist[|w.store.hist|].value.status.lastFailover == w.store.copies[q].obj.status.lastFailover)
  }

  /** A current copy is of the cluster that is stored. */
  lemma SameCluster(p: Parsers, w: Store.World, q: nat)
    requires Store.Inv(p, w) && q in w.copies && w.copies[q].actor == Store.FailoverPass && Store.Current(w, q)
    ensures KeyOf(Store.Stored(w).value) == KeyOf(w.copies[q].obj)
  {
    assert Store.Faithful(w, w.copies[q]);
  }

  lemma StatusWrites(p: Parsers, w: World, q: nat, answered: bool)
    requires Store.Inv(p, w.store) && Store.Enabled(w.store, Store.WriteStatus(q, answered))
    requires w.store.copies[q].actor == Store.FailoverPass
    ensures Writes(w, q, Store.Apply(p, w.store, Store.WriteStatus(q, answered)))
  {
    Store.StepShape(p, w.store, Store.WriteStatus(q, answered));
    if Store.Current(w.store, q) {
      SameCluster(p, w.store, q);
    }
  }

  lemma LandedPreserves(p: Parsers, w: World, q: nat, store': Store.World)
    requires Inv(p, w) && At(w, q, Updating) && Writes(w, q, store') && Store.Inv(p, store')
    ensures Inv(p, Landed(w, q, store'))
  {
    var w' := Landed(w, q, store');
    assert PassOk(w, q, w.passes[q]);
    assert DeletionOk(w, w.deletions[w.passes[q].last.value]);
    LandedCredits(w, q, store');
    LandedCopies(w, q, store');
    PassMoves(p, w, w', q, w'.passes[q]);
  }

  lemma LandedCredits(w: World, q: nat, store': Store.World)
    requires At(w, q, Updating) && Writes(w, q, store') && PassOk(w, q, w.passes[q])
    requires Store.WellSized(w.store) && CreditsOk(w) && DeletionOk(w, w.deletions[w.passes[q].last.value])
    ensures CreditsOk(Landed(w, q, store'))
  {
    CreditsKept(w, Landed(w, q, store'));
  }

  lemma LandedCopies(w: World, q: nat, store': Store.World)
    requires q in w.passes && Writes(w, q, store') && CopiesOk(w)
    ensures CopiesOk(Landed(w, q, store')) && OthersKept(w, Landed(w, q, store'), Some(q))
  {
    forall r: nat | r in store'.copies && store'.copies[r].actor == Store.FailoverPass ensures r in w.passes {
      if r != q {
        assert Store.CopyKept(w.store, store', r);
      }
    }
  }

  lemma UpdatePreserves(p: Parsers, w: World, q: nat, arrives: bool, answered: bool)
    requires Inv(p, w) && Enabled(w, Update(q, arrives, answered))
    ensures Inv(p, Apply(p, w, Update(q, arrives, answered)))
  {
    var w' := Apply(p, w, Update(q, arrives, answered));
    assert PassOk(w, q, w.passes[q]);
    if !arrives {
      QuietMove(p, w, w', q, w'.passes[q]);
    } else {
      Store.StepPreserves(p, w.store, Store.WriteStatus(q, answered));
      StatusWrites(p, w, q, answered);
      LandedPreserves(p, w, q, Store.Apply(p, w.store, Store.WriteStatus(q, answered)));
    }
  }

  /** Every step of every pass and of everybody else keeps the invariant. */
  lemma StepPreserves(p: Parsers, w: World, s: Step)
    requires Inv(p, w) && Enabled(w, s)
    ensures Inv(p, Apply(p, w, s))
  {
    match s
    case Other(t) => OtherPreserves(p, w, t);
    case Start(q, v) => StartPreserves(p, w, q, v);
    case Probe(_, _, _) => ProbePreserves(p, w, s);
    case DeletePod(q, ok) => DeletePreserves(p, w, q, ok);
    case Stamp(q) => StampPreserves(p, w, q);
    case Update(q, arrives, answered) => UpdatePreserves(p, w, q, arrives, answered);
  }

  // ---------------------------------------------------------------- whole runs of the system

  ghost predicate Legal(p: Parsers, w: World, steps: seq<Step>)
    requires Store.WellSized(w.store)
    decreases |steps|
  {
    steps != [] ==>
      && Enabled(w, steps[0]) && Store.WellSized(Apply(p, w, steps[0]).store)
      && Legal(p, Apply(p, w, steps[0]), steps[1..])
  }

  ghost function After(p: Parsers, w: World, steps: seq<Step>): World
    requires Store.WellSized(w.store) && Legal(p, w, steps)
    decreases |steps|
  {
    if steps == [] then w else After(p, Apply(p, w, steps[0]), steps[1..])
  }

  /** The first version is no object, in every state of a run. */
  ghost predicate FromEmpty(w: World) {
    w.store.hist != [] && w.store.hist[0].None?
  }

  lemma StepGrows(p: Parsers, w: World, s: Step)
    requires Store.WellSized(w.store) && Enabled(w, s)
    ensures Store.Grows(w.store, Apply(p, w, s).store)
  {
    match s
    case Other(t) => Store.StepShape(p, w.store, t);
    case Start(q, v) => Store.StepShape(p, w.store, Store.Read(q, Store.FailoverPass, v));
    case Stamp(q) => Store.StepShape(p, w.store, Store.StampFailover(q));
    case Update(q, _, answered) => Store.StepShape(p, w.store, Store.WriteStatus(q, answered));
    case _ =>
  }

  lemma {:induction false} AfterPreserves(p: Parsers, w: World, steps: seq<Step>)
    requires Inv(p, w) && FromEmpty(w) && Legal(p, w, steps)
    ensures Inv(p, After(p, w, steps)) && FromEmpty(After(p, w, steps))
    decreases |steps|
  {
    if steps != [] {
      StepPreserves(p, w, steps[0]);
      StepGrows(p, w, steps[0]);
      AfterPreserves(p, Apply(p, w, steps[0]), steps[1..]);
    }
  }

  lemma Reached(p: Parsers, steps: seq<Step>)
    requires Legal(p, INIT, steps)
    ensures Inv(p, After(p, INIT, steps)) && FromEmpty(After(p, INIT, steps))
  {
    assert Store.GoodEntry(p, Store.INIT, 0);
    AfterPreserves(p, INIT, steps);
  }

  /** In every reachable state, a version that changes lastFailoverTime was written by a failover pass that
      had already deleted one of that cluster's pods, after a failed probe of it and no later than the
      time it stamped. */
  lemma StampFollowsDelete(p: Parsers, steps: seq<Step>, v: nat)
    requires Legal(p, INIT, steps) && 0 < v < |After(p, INIT, steps).store.hist|
    ensures
      var w := After(p, INIT, steps);
      && Store.WellSized(w.store)
      && (w.store.hist[v - 1].Some? && w.store.hist[v].Some?
          && w.store.hist[v].value.status.lastFailover != w.store.hist[v - 1].value.status.lastFailover ==>
            && w.store.writers[v] == Store.Operator(Store.FailoverPass)
            && exists d :: d in w.deletions && Backs(d, w.store.hist[v].value, v))
  {
    Reached(p, steps);
    var w := After(p, INIT, steps);
    assert Store.GoodEntry(p, w.store, v);
    if w.store.writers[v] == Store.Operator(Store.FailoverPass) {
      assert Credited(w, v);
      assert w.deletions[w.credits[v]] in w.deletions;
    }
  }

  /** Up to a cluster's namespace and name, which no write changes. */
  ghost predicate BackedStamp(w: World, v: nat)
    requires v < |w.store.hist| && w.store.hist[v].Some?
  {
    exists d :: d in w.deletions && Backs(d, w.store.hist[v].value, v)
  }

  lemma {:induction false} StampIsBacked(p: Parsers, w: World, v: nat)
    requires Inv(p, w) && FromEmpty(w) && v < |w.store.hist| && w.store.hist[v].Some?
    requires w.store.hist[v].value.status.lastFailover.Some?
    ensures BackedStamp(w, v)
  {
    assert Store.GoodEntry(p, w.store, v);
    if w.store.writers[v] == Store.Operator(Store.FailoverPass) {
      assert Credited(w, v);
      assert w.deletions[w.credits[v]] in w.deletions;
    } else if w.store.hist[v - 1].Some? {
      StampIsBacked(p, w, v - 1);
      var d :| d in w.deletions && Backs(d, w.store.hist[v - 1].value, v - 1);
      assert Backs(d, w.store.hist[v].value, v);
    }
  }

  /** And so every lastFailoverTime, at whatever version it is read, follows the deletion of a pod of that
      cluster that had failed its probe. */
  lemma EveryFailoverStampIsBacked(p: Parsers, steps: seq<Step>, v: nat)
    requires Legal(p, INIT, steps) && v < |After(p, INIT, steps).store.hist|
    ensures
      var w := After(p, INIT, steps);
      w.store.hist[v].Some? && w.store.hist[v].value.status.lastFailover.Some? ==> BackedStamp(w, v)
  {
    Reached(p, steps);
    var w := After(p, INIT, steps);
    if w.store.hist[v].Some? && w.store.hist[v].value.status.lastFailover.Some? {
      StampIsBacked(p, w, v);
    }
  }
}
