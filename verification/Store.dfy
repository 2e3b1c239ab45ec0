/**
 One PrometheusCluster object in the API server and everybody who writes it.

 The reconciler, any number of backup runs, health-check passes and Set overlays each read the
 object (from a cache, so from any earlier resourceVersion), change their own copy and later write
 the whole copy back. The server compares resourceVersions, runs the admission webhook on writes
 to the main resource, and keeps spec and status writes apart. Users create, edit and delete freely.

 A write may be stored while its answer is lost; the writer then goes on with its old copy.

 A write sends all of its copy, other writers' fields included; that nothing is lost is a property
 of the protocol and not of any one writer.
 */
module Store {
  import opened Types
  import opened Webhook

  datatype Actor = Reconciler | BackupRun | FailoverPass | SetOverlay

  datatype Writer = Operator(actor: Actor) | User

  /** An in-flight copy: the object as its actor has it, and the version it was read at. */
  datatype Copy = Copy(actor: Actor, version: nat, obj: Cluster)

  /** `hist[v]` is the object at resourceVersion v (`None`: no object), the last entry is the stored
      one; `writers[v]` is who stored it. */
  datatype World = World(
    hist: seq<Option<Cluster>>,
    writers: seq<Writer>,
    copies: map<nat, Copy>,
    clock: nat)

  datatype Step =
    | Tick
    | Read(pid: nat, actor: Actor, version: nat)
    | MarkPhase(pid: nat, phase: Phase, ready: int)
    | AddFinalizer(pid: nat)
    | RemoveFinalizer(pid: nat)
    | StampBackup(pid: nat)
    | StampFailover(pid: nat)
    | OverlayBackup(pid: nat, template: BackupSpec, setName: string)
    | WriteStatus(pid: nat, answered: bool)
    | WriteMain(pid: nat, answered: bool)
    | Create(obj: Cluster)
    | Edit(obj: Cluster)
    | Delete

  const INIT := World([None], [User], map[], 0)

  ghost predicate WellSized(w: World) {
    1 <= |w.hist| == |w.writers|
  }

  ghost function Stored(w: World): Option<Cluster>
    requires WellSized(w)
  {
    w.hist[|w.hist| - 1]
  }

  ghost predicate HasCopy(w: World, pid: nat, actors: set<Actor>) {
    pid in w.copies && w.copies[pid].actor in actors
  }

  /** Who may take which step; the guards of overlayBackup are the only data conditions. */
  ghost predicate Enabled(w: World, s: Step)
    requires WellSized(w)
  {
    match s
    case Tick => true
    case Read(pid, actor, v) => v < |w.hist| && w.hist[v].Some?
    case MarkPhase(pid, _, _) => HasCopy(w, pid, {Reconciler})
    case AddFinalizer(pid) => HasCopy(w, pid, {Reconciler})
    case RemoveFinalizer(pid) => HasCopy(w, pid, {Reconciler})
    case StampBackup(pid) => HasCopy(w, pid, {BackupRun})
    case StampFailover(pid) => HasCopy(w, pid, {FailoverPass})
    case OverlayBackup(pid, _, _) =>
      HasCopy(w, pid, {SetOverlay}) && !OptedOut(w.copies[pid].obj) && !w.copies[pid].obj.spec.backup.enabled
    case WriteStatus(pid, _) => HasCopy(w, pid, {Reconciler, BackupRun, FailoverPass})
    case WriteMain(pid, _) => HasCopy(w, pid, {Reconciler, SetOverlay})
    case Create(obj) => Stored(w).None?
    case Edit(obj) => Stored(w).Some? && obj.ns == Stored(w).value.ns && obj.name == Stored(w).value.name
    case Delete => Stored(w).Some?
  }

  /** A write that changes nothing stores no new version. */
  ghost function Commit(w: World, next: Option<Cluster>, who: Writer): World
    requires WellSized(w)
  {
    if next == Stored(w) then w else w.(hist := w.hist + [next], writers := w.writers + [who])
  }

  /** A deleting object goes away with its last finalizer. */
  ghost function Reap(c: Cluster): Option<Cluster> {
    if c.deleting && c.finalizers == {} then None else Some(c)
  }

  /** The main endpoint keeps the stored status and deletion mark, the status endpoint the rest. */
  ghost function MainWrite(stored: Cluster, obj: Cluster): Cluster {
    obj.(status := stored.status, deleting := stored.deleting)
  }

  ghost function StatusWrite(stored: Cluster, obj: Cluster): Cluster {
    stored.(status := obj.status)
  }

  /** Store `next` for copy `pid`, whose object becomes what the server answers. */
  ghost function CommitCopy(w: World, pid: nat, next: Option<Cluster>): World
    requires WellSized(w) && pid in w.copies
  {
    var w' := Commit(w, next, Operator(w.copies[pid].actor));
    if next.None? then w'
    else w'.(copies := w'.copies[pid := Copy(w.copies[pid].actor, |w'.hist| - 1, next.value)])
  }

  /** The same; a copy whose answer is lost stays as it is, at its old version. */
  ghost function Land(w: World, pid: nat, next: Option<Cluster>, answered: bool): World
    requires WellSized(w) && pid in w.copies
  {
    if answered then CommitCopy(w, pid, next) else Commit(w, next, Operator(w.copies[pid].actor))
  }

  ghost predicate Current(w: World, pid: nat)
    requires WellSized(w) && pid in w.copies
  {
    Stored(w).Some? && w.copies[pid].version == |w.hist| - 1
  }

  ghost function Local(w: World, pid: nat, obj: Cluster): World
    requires pid in w.copies
  {
    w.(copies := w.copies[pid := w.copies[pid].(obj := obj)])
  }

  ghost function Apply(p: Parsers, w: World, s: Step): World
    requires WellSized(w) && Enabled(w, s)
  {
    match s
    case Tick => w.(clock := w.clock + 1)
    case Read(pid, actor, v) => w.(copies := w.copies[pid := Copy(actor, v, w.hist[v].value)])
    case MarkPhase(pid, phase, ready) =>
      var o := w.copies[pid].obj;
      Local(w, pid, o.(status := o.status.(phase := phase, ready := ready)))
    case AddFinalizer(pid) =>
      var o := w.copies[pid].obj;
      Local(w, pid, o.(finalizers := o.finalizers + {FINALIZER}))
    case RemoveFinalizer(pid) =>
      var o := w.copies[pid].obj;
      Local(w, pid, o.(finalizers := o.finalizers - {FINALIZER}))
    case StampBackup(pid) =>
      var o := w.copies[pid].obj;
      Local(w, pid, o.(status := o.status.(lastBackup := Some(w.clock))))
    case StampFailover(pid) =>
      var o := w.copies[pid].obj;
      Local(w, pid, o.(status := o.status.(lastFailover := Some(w.clock))))
    case OverlayBackup(pid, t, setName) => Local(w, pid, Overlaid(w.copies[pid].obj, t, setName))
    case WriteStatus(pid, answered) =>
      if Current(w, pid)
      then Land(w, pid, Some(StatusWrite(Stored(w).value, w.copies[pid].obj)), answered)
      else w
    case WriteMain(pid, answered) =>
      if Current(w, pid) && Valid(p, w.copies[pid].obj.spec)
      then Land(w, pid, Reap(MainWrite(Stored(w).value, w.copies[pid].obj)), answered)
      else w
    case Create(obj) =>
      if Valid(p, obj.spec) then Commit(w, Some(obj.(status := EMPTY_STATUS, deleting := false)), User) else w
    case Edit(obj) =>
      if Valid(p, obj.spec) then Commit(w, Reap(MainWrite(Stored(w).value, obj)), User) else w
    case Delete => Commit(w, Reap(Stored(w).value.(deleting := true)), User)
  }

  // ---------------------------------------------------------------- what each writer may change

  /** `b` differs from `a` only in the fields `who` owns, and its stamps do not move back. */
  ghost predicate Within(who: Writer, a: Cluster, b: Cluster) {
    match who
    case User => b.ns == a.ns && b.name == a.name && b.status == a.status
    case Operator(Reconciler) =>
      && b == a.(finalizers := b.finalizers, status := a.status.(phase := b.status.phase, ready := b.status.ready))
      && b.finalizers - {FINALIZER} == a.finalizers - {FINALIZER}
    case Operator(BackupRun) =>
      && b == a.(status := a.status.(lastBackup := b.status.lastBackup))
      && NotAfter(a.status.lastBackup, b.status.lastBackup)
    case Operator(FailoverPass) =>
      && b == a.(status := a.status.(lastFailover := b.status.lastFailover))
      && NotAfter(a.status.lastFailover, b.status.lastFailover)
    case Operator(SetOverlay) =>
      b == a ||
      (&& !OptedOut(a) && !a.spec.backup.enabled
       && b.spec.backup.enabled && MANAGED_BY in b.annotations
       && b == Overlaid(a, b.spec.backup, b.annotations[MANAGED_BY]))
  }

  ghost predicate StampsBy(c: Cluster, clock: nat) {
    NotAfter(c.status.lastBackup, Some(clock)) && NotAfter(c.status.lastFailover, Some(clock))
  }

  /** A copy is the history at its version, except for its writer's own fields. */
  ghost predicate Faithful(w: World, c: Copy) {
    && c.version < |w.hist|
    && w.hist[c.version].Some?
    && Within(Operator(c.actor), w.hist[c.version].value, c.obj)
    && StampsBy(c.obj, w.clock)
  }

  ghost predicate GoodEntry(p: Parsers, w: World, v: nat)
    requires WellSized(w) && v < |w.hist|
  {
    && (w.hist[v].Some? ==> Valid(p, w.hist[v].value.spec) && StampsBy(w.hist[v].value, w.clock))
    && (v > 0 && w.hist[v - 1].Some? && w.hist[v].Some? ==>
          Within(w.writers[v], w.hist[v - 1].value, w.hist[v].value))
    && (v > 0 && w.hist[v - 1].None? && w.hist[v].Some? ==>
          w.writers[v] == User && w.hist[v].value.status == EMPTY_STATUS)
  }

  ghost predicate Inv(p: Parsers, w: World) {
    && WellSized(w)
    && (forall v: nat :: v < |w.hist| ==> GoodEntry(p, w, v))
    && (forall pid: nat :: pid in w.copies ==> Faithful(w, w.copies[pid]))
  }

  // ---------------------------------------------------------------- preservation

  lemma CommitPreserves(p: Parsers, w: World, next: Option<Cluster>, who: Writer)
    requires Inv(p, w)
    requires next.Some? ==> Valid(p, next.value.spec) && StampsBy(next.value, w.clock)
    requires next.Some? && Stored(w).Some? ==> Within(who, Stored(w).value, next.value)
    requires next.Some? && Stored(w).None? ==> who == User && next.value.status == EMPTY_STATUS
    ensures Inv(p, Commit(w, next, who))
    ensures Stored(Commit(w, next, who)) == next
  {
    var w' := Commit(w, next, who);
    forall v: nat | v < |w'.hist| ensures GoodEntry(p, w', v) {
      if v < |w.hist| {
        assert GoodEntry(p, w, v);
      }
    }
    forall pid: nat | pid in w'.copies ensures Faithful(w', w'.copies[pid]) {
      assert Faithful(w, w.copies[pid]);
    }
  }

  lemma CommitCopyPreserves(p: Parsers, w: World, pid: nat, next: Option<Cluster>)
    requires Inv(p, w) && pid in w.copies && Stored(w).Some?
    requires next.Some? ==> Valid(p, next.value.spec) && StampsBy(next.value, w.clock)
    requires next.Some? ==> Within(Operator(w.copies[pid].actor), Stored(w).value, next.value)
    ensures Inv(p, CommitCopy(w, pid, next))
  {
    var who := Operator(w.copies[pid].actor);
    CommitPreserves(p, w, next, who);
    if next.Some? {
      var w', w'' := Commit(w, next, who), CommitCopy(w, pid, next);
      assert Within(who, next.value, next.value);
      forall v: nat | v < |w''.hist| ensures GoodEntry(p, w'', v) {
        assert GoodEntry(p, w', v);
      }
      forall q: nat | q in w''.copies ensures Faithful(w'', w''.copies[q]) {
        if q != pid {
          assert Faithful(w', w'.copies[q]);
        }
      }
    }
  }

  lemma LandPreserves(p: Parsers, w: World, pid: nat, next: Option<Cluster>, answered: bool)
    requires Inv(p, w) && pid in w.copies && Stored(w).Some?
    requires next.Some? ==> Valid(p, next.value.spec) && StampsBy(next.value, w.clock)
    requires next.Some? ==> Within(Operator(w.copies[pid].actor), Stored(w).value, next.value)
    ensures Inv(p, Land(w, pid, next, answered))
  {
    if answered {
      CommitCopyPreserves(p, w, pid, next);
    } else {
      CommitPreserves(p, w, next, Operator(w.copies[pid].actor));
    }
  }

  lemma LocalPreserves(p: Parsers, w: World, pid: nat, obj: Cluster)
    requires Inv(p, w) && pid in w.copies
    requires Faithful(w, w.copies[pid].(obj := obj))
    ensures Inv(p, Local(w, pid, obj))
  {
    var w' := Local(w, pid, obj);
    forall v: nat | v < |w'.hist| ensures GoodEntry(p, w', v) {
      assert GoodEntry(p, w, v);
    }
    forall q: nat | q in w'.copies ensures Faithful(w', w'.copies[q]) {
      if q != pid {
        assert Faithful(w, w.copies[q]);
      }
    }
  }

  lemma TickPreserves(p: Parsers, w: World)
    requires Inv(p, w)
    ensures Inv(p, w.(clock := w.clock + 1))
  {
    var w' := w.(clock := w.clock + 1);
    forall v: nat | v < |w'.hist| ensures GoodEntry(p, w', v) {
      assert GoodEntry(p, w, v);
    }
    forall q: nat | q in w'.copies ensures Faithful(w', w'.copies[q]) {
      assert Faithful(w, w.copies[q]);
    }
  }

  lemma ReadPreserves(p: Parsers, w: World, pid: nat, actor: Actor, v: nat)
    requires Inv(p, w) && v < |w.hist| && w.hist[v].Some?
    ensures Inv(p, w.(copies := w.copies[pid := Copy(actor, v, w.hist[v].value)]))
  {
    var w' := w.(copies := w.copies[pid := Copy(actor, v, w.hist[v].value)]);
    assert GoodEntry(p, w, v);
    forall u: nat | u < |w'.hist| ensures GoodEntry(p, w', u) {
      assert GoodEntry(p, w, u);
    }
    forall q: nat | q in w'.copies ensures Faithful(w', w'.copies[q]) {
      if q != pid {
        assert Faithful(w, w.copies[q]);
      }
    }
  }

  ghost predicate IsLocal(s: Step) {
    s.MarkPhase? || s.AddFinalizer? || s.RemoveFinalizer? || s.StampBackup? || s.StampFailover? || s.OverlayBackup?
  }

  /** A change to one's own copy stays within one's own fields. */
  lemma LocalStepPreserves(p: Parsers, w: World, s: Step)
    requires Inv(p, w) && Enabled(w, s) && IsLocal(s)
    ensures Inv(p, Apply(p, w, s))
  {
    var o := w.copies[s.pid].obj;
    assert Faithful(w, w.copies[s.pid]);
    assert GoodEntry(p, w, w.copies[s.pid].version);
    match s
    case MarkPhase(pid, phase, ready) =>
      LocalPreserves(p, w, pid, o.(status := o.status.(phase := phase, ready := ready)));
    case AddFinalizer(pid) =>
      LocalPreserves(p, w, pid, o.(finalizers := o.finalizers + {FINALIZER}));
    case RemoveFinalizer(pid) =>
      LocalPreserves(p, w, pid, o.(finalizers := o.finalizers - {FINALIZER}));
    case StampBackup(pid) =>
      LocalPreserves(p, w, pid, o.(status := o.status.(lastBackup := Some(w.clock))));
    case StampFailover(pid) =>
      LocalPreserves(p, w, pid, o.(status := o.status.(lastFailover := Some(w.clock))));
    case OverlayBackup(pid, t, setName) =>
      LocalPreserves(p, w, pid, Overlaid(o, t, setName));
  }

  /** Every step keeps the invariant: the copies stay faithful although reads may be stale, and the
      new version, if any, changes only its writer's fields. */
  lemma StepPreserves(p: Parsers, w: World, s: Step)
    requires Inv(p, w) && Enabled(w, s)
    ensures Inv(p, Apply(p, w, s))
  {
    assert GoodEntry(p, w, |w.hist| - 1);
    if IsLocal(s) {
      LocalStepPreserves(p, w, s);
    } else {
      match s
      case Tick => TickPreserves(p, w);
      case Read(pid, actor, v) => ReadPreserves(p, w, pid, actor, v);
      case WriteStatus(pid, answered) =>
        assert Faithful(w, w.copies[pid]);
        if Current(w, pid) {
          LandPreserves(p, w, pid, Some(StatusWrite(Stored(w).value, w.copies[pid].obj)), answered);
        }
      case WriteMain(pid, answered) =>
        assert Faithful(w, w.copies[pid]);
        if Current(w, pid) && Valid(p, w.copies[pid].obj.spec) {
          LandPreserves(p, w, pid, Reap(MainWrite(Stored(w).value, w.copies[pid].obj)), answered);
        }
      case Create(obj) =>
        if Valid(p, obj.spec) {
          CommitPreserves(p, w, Some(obj.(status := EMPTY_STATUS, deleting := false)), User);
        }
      case Edit(obj) =>
        if Valid(p, obj.spec) {
          CommitPreserves(p, w, Reap(MainWrite(Stored(w).value, obj)), User);
        }
      case Delete =>
        CommitPreserves(p, w, Reap(Stored(w).value.(deleting := true)), User);
    }
  }

  // ---------------------------------------------------------------- the shape of a step

  function Pid(s: Step): Option<nat> {
    match s
    case Tick => None
    case Create(_) => None
    case Edit(_) => None
    case Delete => None
    case _ => Some(s.pid)
  }

  /** History, authors and clock only grow. */
  ghost predicate Grows(a: World, b: World) {
    && |a.hist| <= |b.hist| && |a.writers| <= |b.writers|
    && (forall v :: 0 <= v < |a.hist| ==> b.hist[v] == a.hist[v])
    && (forall v :: 0 <= v < |a.writers| ==> b.writers[v] == a.writers[v])
    && a.clock <= b.clock
  }

  ghost function Author(w: World, s: Step): Writer
    requires WellSized(w) && Enabled(w, s)
  {
    if s.WriteStatus? || s.WriteMain? then Operator(w.copies[s.pid].actor) else User
  }

  ghost predicate CopyKept(w: World, w': World, q: nat) {
    (q in w'.copies <==> q in w.copies) && (q in w.copies ==> w'.copies[q] == w.copies[q])
  }

  /** A step of the store appends at most one version, by its author, and touches one copy. */
  lemma StepShape(p: Parsers, w: World, s: Step)
    requires WellSized(w) && Enabled(w, s)
    ensures
      var w' := Apply(p, w, s);
      && Grows(w, w') && WellSized(w') && |w'.hist| <= |w.hist| + 1
      && (|w'.hist| > |w.hist| ==> w'.writers[|w.hist|] == Author(w, s))
      && (forall q: nat :: Some(q) != Pid(s) ==> CopyKept(w, w', q))
  {
  }

  /** A step keeps the actor of the copy it touches, unless it reads a new one. */
  lemma StepActor(p: Parsers, w: World, s: Step)
    requires WellSized(w) && Enabled(w, s) && Pid(s).Some? && s.pid in Apply(p, w, s).copies
    ensures Apply(p, w, s).copies[s.pid].actor ==
      if s.Read? then s.actor else w.copies[s.pid].actor
    ensures !s.Read? ==> s.pid in w.copies
  {
  }

  // ---------------------------------------------------------------- whole runs

  ghost predicate Legal(p: Parsers, w: World, steps: seq<Step>)
    requires WellSized(w)
    decreases |steps|
  {
    steps != [] ==>
      Enabled(w, steps[0]) && WellSized(Apply(p, w, steps[0])) && Legal(p, Apply(p, w, steps[0]), steps[1..])
  }

  ghost function Run(p: Parsers, w: World, steps: seq<Step>): World
    requires WellSized(w) && Legal(p, w, steps)
    decreases |steps|
  {
    if steps == [] then w else Run(p, Apply(p, w, steps[0]), steps[1..])
  }

  lemma {:induction false} RunPreserves(p: Parsers, w: World, steps: seq<Step>)
    requires Inv(p, w) && Legal(p, w, steps)
    ensures Inv(p, Run(p, w, steps))
    decreases |steps|
  {
    if steps != [] {
      StepPreserves(p, w, steps[0]);
      RunPreserves(p, Apply(p, w, steps[0]), steps[1..]);
    }
  }

  /** On every interleaving, from an empty store: each stored version differs from the one before it
      only in its writer's fields, and every stored spec passes admission, whoever wrote it. */
  lemma NoWriteLosesAnother(p: Parsers, steps: seq<Step>, v: nat)
    requires Legal(p, INIT, steps) && v < |Run(p, INIT, steps).hist|
    ensures
      var w := Run(p, INIT, steps);
      && WellSized(w)
      && (w.hist[v].Some? ==> Valid(p, w.hist[v].value.spec))
      && (v > 0 && w.hist[v - 1].Some? && w.hist[v].Some? ==>
            var a, b := w.hist[v - 1].value, w.hist[v].value;
            && Within(w.writers[v], a, b)
            && ((a.status.phase, a.status.ready) != (b.status.phase, b.status.ready) ==>
                  w.writers[v] == Operator(Reconciler))
            && (a.status.lastBackup != b.status.lastBackup ==> w.writers[v] == Operator(BackupRun))
            && (a.status.lastFailover != b.status.lastFailover ==> w.writers[v] == Operator(FailoverPass))
            && (a.spec != b.spec ==> w.writers[v] in {User, Operator(SetOverlay)} && a.status == b.status))
  {
    assert Inv(p, INIT) by {
      assert GoodEntry(p, INIT, 0);
    }
    RunPreserves(p, INIT, steps);
    var w := Run(p, INIT, steps);
    assert GoodEntry(p, w, v);
  }

  /** On every interleaving, what a Set overlay stores is the version before it but for the backup block
      and the Set's annotation; and it only ever switches backup on, for a cluster that has not opted out. */
  lemma OverlayStoresBackupOnly(p: Parsers, steps: seq<Step>, v: nat)
    requires Legal(p, INIT, steps) && 0 < v < |Run(p, INIT, steps).hist|
    ensures
      var w := Run(p, INIT, steps);
      && WellSized(w)
      && (w.writers[v] == Operator(SetOverlay) && w.hist[v - 1].Some? && w.hist[v].Some? ==>
            var a, b := w.hist[v - 1].value, w.hist[v].value;
            && BackupOnly(a, b)
            && (b != a ==>
                  && !a.spec.backup.enabled && b.spec.backup.enabled && MANAGED_BY in b.annotations
                  && !(OPT_OUT in a.annotations && a.annotations[OPT_OUT] == "true")))
  {
    assert Inv(p, INIT) by {
      assert GoodEntry(p, INIT, 0);
    }
    RunPreserves(p, INIT, steps);
    var w := Run(p, INIT, steps);
    assert GoodEntry(p, w, v);
    if w.writers[v] == Operator(SetOverlay) && w.hist[v - 1].Some? && w.hist[v].Some? && w.hist[v] != w.hist[v - 1] {
      var a, b := w.hist[v - 1].value, w.hist[v].value;
      OverlayWritesBackup(a, b.spec.backup, b.annotations[MANAGED_BY]);
    }
  }

  ghost predicate Alive(w: World, i: nat, j: nat) {
    j < |w.hist| && forall v :: i <= v <= j ==> w.hist[v].Some?
  }

  lemma {:induction false} StampsMonotone(p: Parsers, w: World, i: nat, j: nat)
    requires Inv(p, w) && i <= j && Alive(w, i, j)
    ensures NotAfter(w.hist[i].value.status.lastBackup, w.hist[j].value.status.lastBackup)
    ensures NotAfter(w.hist[i].value.status.lastFailover, w.hist[j].value.status.lastFailover)
    decreases j - i
  {
    if i < j {
      StampsMonotone(p, w, i, j - 1);
      assert GoodEntry(p, w, j);
    }
  }

  /** While the object lives, lastBackupTime and lastFailoverTime are never cleared and never move
      backward, on any run and between any two versions. */
  lemma StampsNeverMoveBack(p: Parsers, steps: seq<Step>, i: nat, j: nat)
    requires Legal(p, INIT, steps) && i <= j && Alive(Run(p, INIT, steps), i, j)
    ensures
      var h := Run(p, INIT, steps).hist;
      && NotAfter(h[i].value.status.lastBackup, h[j].value.status.lastBackup)
      && NotAfter(h[i].value.status.lastFailover, h[j].value.status.lastFailover)
  {
    assert Inv(p, INIT) by {
      assert GoodEntry(p, INIT, 0);
    }
    RunPreserves(p, INIT, steps);
    StampsMonotone(p, Run(p, INIT, steps), i, j);
  }

  /** The reconciler can always add or remove its finalizer: its copy passes the webhook in every
      reachable state, so only a newer version can stop the write. */
  lemma FinalizerWriteNeverRejected(p: Parsers, steps: seq<Step>, pid: nat)
    requires Legal(p, INIT, steps) && HasCopy(Run(p, INIT, steps), pid, {Reconciler})
    ensures Valid(p, Run(p, INIT, steps).copies[pid].obj.spec)
  {
    assert Inv(p, INIT) by {
      assert GoodEntry(p, INIT, 0);
    }
    RunPreserves(p, INIT, steps);
    var w := Run(p, INIT, steps);
    assert Faithful(w, w.copies[pid]);
    assert GoodEntry(p, w, w.copies[pid].version);
  }

  /** In every reachable state, overlaying a member yields an admissible object exactly when the
      template itself has a bucket and no bad schedule: the rest of the member was admitted before. */
  lemma OverlayAdmittedExactly(p: Parsers, w: World, pid: nat, t: BackupSpec, setName: string)
    requires Inv(p, w) && Enabled(w, OverlayBackup(pid, t, setName))
    ensures Valid(p, Overlaid(w.copies[pid].obj, t, setName).spec)
            <==> t.bucket != "" && (t.schedule == "" || p.cron(t.schedule))
  {
    var o := w.copies[pid].obj;
    assert Faithful(w, w.copies[pid]);
    assert GoodEntry(p, w, w.copies[pid].version);
    OverlayWritesBackup(o, t, setName);
    TemplateAdmittedExactly(p, o.spec, t);
  }

  /** A template that fails admission leaves the member as it is: the write of the overlaid copy stores
      nothing, and neither does any retry of it. */
  lemma InvalidTemplateLeavesMember(p: Parsers, w: World, pid: nat, t: BackupSpec, setName: string, answered: bool)
    requires Inv(p, w) && Enabled(w, OverlayBackup(pid, t, setName))
    requires t.bucket == "" || (t.schedule != "" && !p.cron(t.schedule))
    ensures
      var w' := Apply(p, w, OverlayBackup(pid, t, setName));
      && WellSized(w') && Enabled(w', WriteMain(pid, answered))
      && Apply(p, w', WriteMain(pid, answered)) == w' && w'.hist == w.hist
  {
    OverlayAdmittedExactly(p, w, pid, t, setName);
  }
}
