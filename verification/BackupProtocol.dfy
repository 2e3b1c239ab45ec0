/**
 Any number of backup runs over the shared store.

 A run reads the cluster at any past resourceVersion, asks for a snapshot, ships it through the tar pipe
 or uploads the response body, stamps its copy and writes the status back. Every one of these is a step
 of its own; between them other runs, the reconciler, failover passes, Set overlays and users take
 theirs. Whether the status update is accepted is decided by the store's compare-and-swap, and the
 object that tar's upload stores is the one the pipe has stored.
 */
module BackupProtocol {
  import opened Types
  import opened BackupRun
  import Store
  import TarPipe
  import Snapshots

  type Byte = TarPipe.Byte

  /** `hasExec`: a pod executor is configured. `civil` is the calendar: the second a time falls in. */
  datatype Config = Config(parsers: Parsers, hasExec: bool, civil: nat -> Snapshots.Time)

  /** The time as it appears in an object key. */
  function KeyStamp(c: Config, time: nat): string {
    Snapshots.Stamp(Snapshots.COMPACT, c.civil(time))
  }

  /** Where a run is in RunOnce. */
  datatype Position =
    | Snapshotting
    | Putting
    | Tarring(pipe: TarPipe.State)
    | Cleaning
    | Stamping
    | Updating
    | Finished(ok: bool)

  /** A stored object, with the number of cluster versions stored by then and the time. */
  datatype Upload = Upload(place: Place, bytes: seq<Byte>, versions: nat, time: nat)

  datatype Snap = Snap(name: string, holder: nat)

  /** `artifact` is what the run is to store at `place`, which it named at time `named`; `version` is where
      its stamp was stored; `input` collects the answers the run gets, as BackupRun.RunOnce takes them. */
  datatype Run = Run(
    pos: Position,
    log: seq<Effect>,
    snap: Option<Snap>,
    place: Place,
    named: nat,
    artifact: seq<Byte>,
    upload: Option<Upload>,
    stamp: Option<nat>,
    version: Option<nat>,
    input: Input)

  /** The pipe of a run that does not use it. */
  const NO_PIPE := TarPipe.State([], false, TarPipe.Sent(false), TarPipe.Done(false), [], [], false)

  const NO_ANSWERS := Input(None, None, None, 0, false, NO_PIPE, false, Refused, "", 0)

  const NEW := Run(Snapshotting, [], None, Place("", ""), 0, [], None, None, None, NO_ANSWERS)

  /** A run that has read `pc`. */
  function Reading(pc: Option<Cluster>): Run {
    NEW.(input := NO_ANSWERS.(pc := pc))
  }

  /** Runs are the store's processes of the same number. `disk` holds the snapshot directories, by
      replica; `credits` names the run that wrote a version. */
  datatype World = World(
    store: Store.World,
    runs: map<nat, Run>,
    disk: set<(nat, string)>,
    credits: map<nat, nat>,
    successes: nat,
    errors: nat)

  const INIT := World(Store.INIT, map[], {}, map[], 0, 0)

  datatype Response = Response(body: seq<Byte>, answer: Option<Answer>)

  /** `Responded`: the snapshot request comes back, or fails; `holder` is the replica it went to, `plan`
      and `planOk` what tar will then do. `Update`: the request may be lost, and so may its answer. */
  datatype Step =
    | Other(step: Store.Step)
    | Start(run: nat, version: Option<nat>)
    | Responded(run: nat, response: Option<Response>, holder: nat, plan: seq<seq<Byte>>, planOk: bool)
    | Put(run: nat, ok: bool)
    | Pipe(run: nat, move: TarPipe.Step)
    | Clean(run: nat, ok: bool)
    | Stamp(run: nat)
    | Update(run: nat, arrives: bool, answered: bool)

  // ---------------------------------------------------------------- steps

  ghost predicate At(w: World, run: nat, pos: Position) {
    run in w.runs && w.runs[run].pos == pos
  }

  /** Snapshot names are fresh, and tar can only succeed where the snapshot is: on replica 0. */
  ghost predicate Lands(w: World, name: string, holder: nat, planOk: bool) {
    && (forall h: nat :: (h, name) !in w.disk)
    && (forall r :: r in w.runs && w.runs[r].snap.Some? ==> w.runs[r].snap.value.name != name)
    && (planOk ==> (0, name) in w.disk + {(holder, name)})
  }

  ghost predicate Enabled(c: Config, w: World, s: Step)
    requires Store.WellSized(w.store)
  {
    match s
    case Other(t) =>
      && Store.Enabled(w.store, t)
      && (Store.Pid(t).Some? ==> t.pid !in w.runs)
      && (t.Read? ==> t.actor != Store.BackupRun)
    case Start(r, v) =>
      r !in w.runs && r !in w.store.copies
      && (v.Some? ==> Store.Enabled(w.store, Store.Read(r, Store.BackupRun, v.value)))
    case Responded(r, resp, holder, plan, planOk) =>
      At(w, r, Snapshotting) && r in w.store.copies
      && (resp.Some? && ParsedName(resp.value.answer) != "" ==> Lands(w, ParsedName(resp.value.answer), holder, planOk))
    case Put(r, _) => At(w, r, Putting)
    case Pipe(r, m) => r in w.runs && w.runs[r].pos.Tarring? && TarPipe.Enabled(w.runs[r].pos.pipe, m)
    case Clean(r, _) => At(w, r, Cleaning) && w.runs[r].snap.Some?
    case Stamp(r) => At(w, r, Stamping) && Store.Enabled(w.store, Store.StampBackup(r))
    case Update(r, _, answered) =>
      At(w, r, Updating) && Store.Enabled(w.store, Store.WriteStatus(r, answered)) && w.runs[r].stamp.Some?
  }

  function Moved(w: World, r: nat, run: Run): World {
    w.(runs := w.runs[r := run])
  }

  /** The deferred function counts the result. */
  function Finish(w: World, r: nat, run: Run, ok: bool): World {
    Moved(w, r, run.(pos := Finished(ok), log := run.log + [Counted(ok)]))
    .(successes := if ok then w.successes + 1 else w.successes,
      errors := if ok then w.errors else w.errors + 1)
  }

  function Uploaded(w: World, run: Run, bytes: seq<Byte>): Run {
    run.(upload := Some(Upload(run.place, bytes, |w.store.hist|, w.store.clock)),
         log := run.log + [Stored(run.place, bytes)])
  }

  function AfterAnswer(c: Config, w: World, r: nat, resp: Response, holder: nat,
                       plan: seq<seq<Byte>>, planOk: bool): World
    requires r in w.runs && r in w.store.copies
  {
    var name, obj := ParsedName(resp.answer), w.store.copies[r].obj;
    var stamp := KeyStamp(c, w.store.clock);
    var run := w.runs[r].(
      place := PlaceOf(obj, stamp),
      named := w.store.clock,
      input := w.runs[r].input.(pc := Some(obj), body := Some(resp.body), answer := resp.answer, holder := holder,
                                stamp := stamp));
    if name == "" then Moved(w, r, run.(pos := Putting, artifact := resp.body))
    else
      var taken := run.(snap := Some(Snap(name, holder)), log := run.log + [Snapshotted(name)]);
      Moved(w, r,
        if !c.hasExec then taken.(pos := Putting, artifact := resp.body)
        else taken.(pos := Tarring(TarPipe.Init(plan, planOk)), artifact := TarPipe.Flatten(plan)))
      .(disk := w.disk + {(holder, name)})
  }

  /** What the pipe has stored since is in the bucket. */
  function AfterTransfer(w: World, run: Run, pipe: TarPipe.State): Run
    requires run.pos.Tarring?
  {
    if pipe.stored == run.pos.pipe.stored || pipe.stored == [] then run
    else Uploaded(w, run, pipe.stored[|pipe.stored| - 1])
  }

  function AfterPipe(w: World, r: nat, pipe: TarPipe.State): World
    requires r in w.runs && w.runs[r].pos.Tarring?
  {
    var run := w.runs[r];
    var run' := AfterTransfer(w, run, pipe);
    var over := run'.(input := run'.input.(pipe := pipe));
    if !TarPipe.Final(pipe) then Moved(w, r, run'.(pos := Tarring(pipe)))
    else if pipe.caller.isNil then Moved(w, r, over.(pos := Cleaning))
    else Finish(w, r, over.(log := over.log + [TarFailed(ParsedName(run.input.answer))]), false)
  }

  function AfterClean(w: World, r: nat, ok: bool): World
    requires r in w.runs && w.runs[r].snap.Some?
  {
    var run := w.runs[r];
    var name := run.snap.value.name;
    Moved(w, r, run.(pos := Stamping, log := run.log + [if ok then Removed(name) else RmFailed(name)],
                     input := run.input.(rmOk := ok)))
    .(disk := if ok then w.disk - {(0, name)} else w.disk)
  }

  /** The store has accepted the run's status update and become `store'`. */
  ghost function Accepted(w: World, r: nat, store': Store.World, answered: bool): World
    requires r in w.runs && w.runs[r].stamp.Some? && |store'.hist| > 0
  {
    var run, n := w.runs[r], |w.store.hist|;
    var run' := run.(log := run.log + [Stamped(run.stamp.value)], version := Some(|store'.hist| - 1),
                     input := run.input.(update := if answered then Answered else Lost));
    Finish(w, r, run', answered)
    .(store := store', credits := if |store'.hist| > n then w.credits[n := r] else w.credits)
  }

  ghost function AfterUpdate(c: Config, w: World, r: nat, arrives: bool, answered: bool): World
    requires Store.WellSized(w.store) && Store.Enabled(w.store, Store.WriteStatus(r, answered))
    requires r in w.runs && w.runs[r].stamp.Some?
  {
    if !arrives || !Store.Current(w.store, r) then Finish(w, r, w.runs[r], false)
    else Accepted(w, r, Store.Apply(c.parsers, w.store, Store.WriteStatus(r, answered)), answered)
  }

  ghost function Apply(c: Config, w: World, s: Step): World
    requires Store.WellSized(w.store) && Enabled(c, w, s)
  {
    match s
    case Other(t) => w.(store := Store.Apply(c.parsers, w.store, t))
    case Start(r, v) =>
      if v.None? then Finish(w, r, NEW, false)
      else
        Moved(w, r, Reading(w.store.hist[v.value]))
        .(store := Store.Apply(c.parsers, w.store, Store.Read(r, Store.BackupRun, v.value)))
    case Responded(r, resp, holder, plan, planOk) =>
      if resp.None? then Finish(w, r, w.runs[r], false) else AfterAnswer(c, w, r, resp.value, holder, plan, planOk)
    case Put(r, ok) =>
      if ok then Moved(w, r, Uploaded(w, w.runs[r], w.runs[r].artifact).(
                               pos := Stamping, input := w.runs[r].input.(putOk := true)))
      else Finish(w, r, w.runs[r], false)
    case Pipe(r, m) => AfterPipe(w, r, TarPipe.Apply(w.runs[r].pos.pipe, m))
    case Clean(r, ok) => AfterClean(w, r, ok)
    case Stamp(r) =>
      Moved(w, r, w.runs[r].(pos := Updating, stamp := Some(w.store.clock),
                             input := w.runs[r].input.(now := w.store.clock)))
      .(store := Store.Apply(c.parsers, w.store, Store.StampBackup(r)))
    case Update(r, arrives, answered) => AfterUpdate(c, w, r, arrives, answered)
  }

  // ---------------------------------------------------------------- invariant

  /** The run's object, if it has stored one, is the artifact, and was stored before now. */
  ghost predicate UploadOk(w: World, run: Run) {
    && (run.upload.Some? <==> HasStored(run.log))
    && (run.upload.Some? ==>
          && run.upload.value.place == run.place && run.upload.value.bytes == run.artifact
          && run.upload.value.versions <= |w.store.hist| && run.upload.value.time <= w.store.clock)
  }

  ghost predicate LogOk(run: Run) {
    && Disciplined(run.log)
    && (run.pos.Finished? ==> Complete(run.log, run.pos.ok))
    && (!run.pos.Finished? ==> !Ended(run.log))
  }

  /** With an executor, the run's snapshot directory is gone, or a tar, upload or rm of it has failed. */
  ghost predicate AccountedFor(c: Config, w: World, run: Run) {
    c.hasExec && run.snap.Some? ==>
      || (run.snap.value.holder, run.snap.value.name) !in w.disk
      || TarFailed(run.snap.value.name) in run.log
      || RmFailed(run.snap.value.name) in run.log
  }

  ghost predicate PipeOk(run: Run, pipe: TarPipe.State) {
    && TarPipe.Inv(pipe) && !TarPipe.Final(pipe)
    && TarPipe.Flatten(pipe.plan) == run.artifact
    && (pipe.planOk ==> run.snap.Some? && run.snap.value.holder == 0)
    && (run.upload.Some? <==> pipe.stored != [])
  }

  /** The stamp follows the object and is in the run's copy. */
  ghost predicate StampOk(run: Run) {
    && run.upload.Some? && run.stamp.Some? && run.upload.value.time <= run.stamp.value
  }

  ghost predicate PositionOk(c: Config, w: World, r: nat, run: Run) {
    match run.pos
    case Snapshotting => run.snap.None? && run.upload.None?
    case Putting => run.upload.None? && (c.hasExec ==> run.snap.None?)
    case Tarring(pipe) =>
      run.snap.Some? && run.snap.value.name == ParsedName(run.input.answer) && PipeOk(run, pipe)
    case Cleaning => run.snap.Some? && run.snap.value.holder == 0 && run.upload.Some?
    case Stamping => run.upload.Some? && AccountedFor(c, w, run)
    case Updating =>
      && StampOk(run) && AccountedFor(c, w, run)
      && r in w.store.copies && w.store.copies[r].obj.status.lastBackup == run.stamp
    case Finished(ok) => AccountedFor(c, w, run) && (ok ==> StampOk(run) && run.version.Some?)
  }

  /** Where the run's status update was accepted, its stamp stands. */
  ghost predicate VersionOk(w: World, run: Run) {
    run.version.Some? ==>
      && run.pos.Finished? && StampOk(run)
      && run.version.value < |w.store.hist|
      && w.store.hist[run.version.value].Some?
      && w.store.hist[run.version.value].value.status.lastBackup == run.stamp
  }

  ghost predicate RunOk(c: Config, w: World, r: nat, run: Run) {
    && (!run.pos.Finished? ==> r in w.store.copies && w.store.copies[r].actor == Store.BackupRun)
    && UploadOk(w, run) && LogOk(run) && PositionOk(c, w, r, run) && VersionOk(w, run)
  }

  /** The run that wrote version `v` had stored its object when fewer versions were stored. */
  ghost predicate Credited(w: World, v: nat) {
    && v in w.credits && w.credits[v] in w.runs
    && var run := w.runs[w.credits[v]];
       && run.version == Some(v) && StampOk(run) && run.upload.value.versions <= v
  }

  ghost predicate CreditsOk(w: World)
    requires Store.WellSized(w.store)
  {
    forall v: nat :: v < |w.store.writers| && w.store.writers[v] == Store.Operator(Store.BackupRun) ==> Credited(w, v)
  }

  ghost predicate CopiesOk(w: World) {
    forall r: nat :: r in w.store.copies && w.store.copies[r].actor == Store.BackupRun ==> r in w.runs
  }

  ghost predicate NamesUnique(w: World) {
    forall q, r :: q in w.runs && r in w.runs && q != r && w.runs[q].snap.Some? && w.runs[r].snap.Some? ==>
      w.runs[q].snap.value.name != w.runs[r].snap.value.name
  }

  ghost function Over(w: World, ok: bool): set<nat> {
    set r | r in w.runs && w.runs[r].pos == Finished(ok)
  }

  ghost predicate CountersOk(w: World) {
    w.successes == |Over(w, true)| && w.errors == |Over(w, false)|
  }

  ghost predicate Inv(c: Config, w: World) {
    && Store.Inv(c.parsers, w.store)
    && (forall r: nat :: r in w.runs ==> RunOk(c, w, r, w.runs[r]))
    && CreditsOk(w) && CopiesOk(w) && NamesUnique(w) && CountersOk(w)
  }

  // ---------------------------------------------------------------- the other runs

  /** What a step of run `r` (or of nobody) leaves alone. */
  ghost predicate OthersKept(w: World, w': World, r: Option<nat>) {
    && Store.Grows(w.store, w'.store)
    && (forall q: nat :: q in w.runs && Some(q) != r ==>
          && q in w'.runs && w'.runs[q] == w.runs[q]
          && (q in w.store.copies ==> q in w'.store.copies && w'.store.copies[q] == w.store.copies[q])
          && (w.runs[q].snap.Some? ==>
                forall h: nat ::
                  (h, w.runs[q].snap.value.name) in w'.disk ==> (h, w.runs[q].snap.value.name) in w.disk))
  }

  lemma OtherRunOk(c: Config, w: World, w': World, r: Option<nat>, q: nat)
    requires OthersKept(w, w', r) && q in w.runs && Some(q) != r && RunOk(c, w, q, w.runs[q])
    ensures RunOk(c, w', q, w'.runs[q])
  {
  }

  lemma CreditKept(w: World, w': World, r: Option<nat>, v: nat)
    requires OthersKept(w, w', r) && Credited(w, v)
    requires r.Some? && r.value in w.runs ==> w.runs[r.value].version.None?
    requires v in w'.credits && w'.credits[v] == w.credits[v]
    ensures Credited(w', v)
  {
  }

  /** Everybody else writes no version as a backup run and takes no copy as one. */
  lemma OtherIsForeign(c: Config, w: World, t: Store.Step)
    requires Inv(c, w) && Enabled(c, w, Other(t))
    ensures
      var w' := Apply(c, w, Other(t));
      && OthersKept(w, w', None) && CopiesOk(w') && Store.WellSized(w'.store)
      && forall v: nat :: v < |w'.store.writers| && w'.store.writers[v] == Store.Operator(Store.BackupRun) ==>
           v < |w.store.writers| && w.store.writers[v] == Store.Operator(Store.BackupRun)
  {
    ForeignFrame(c, w, t);
    ForeignCopies(c, w, t);
    ForeignWriters(c, w, t);
  }

  lemma ForeignFrame(c: Config, w: World, t: Store.Step)
    requires Store.WellSized(w.store) && Enabled(c, w, Other(t))
    ensures OthersKept(w, Apply(c, w, Other(t)), None) && Store.WellSized(Apply(c, w, Other(t)).store)
  {
    Store.StepShape(c.parsers, w.store, t);
  }

  lemma ForeignCopies(c: Config, w: World, t: Store.Step)
    requires Store.WellSized(w.store) && CopiesOk(w) && Enabled(c, w, Other(t))
    ensures CopiesOk(Apply(c, w, Other(t)))
  {
    Store.StepShape(c.parsers, w.store, t);
    if Store.Pid(t).Some? && t.pid in Apply(c, w, Other(t)).store.copies {
      Store.StepActor(c.parsers, w.store, t);
    }
  }

  lemma ForeignWriters(c: Config, w: World, t: Store.Step)
    requires Store.WellSized(w.store) && CopiesOk(w) && Enabled(c, w, Other(t))
    ensures
      var w' := Apply(c, w, Other(t));
      forall v: nat :: v < |w'.store.writers| && w'.store.writers[v] == Store.Operator(Store.BackupRun) ==>
        v < |w.store.writers| && w.store.writers[v] == Store.Operator(Store.BackupRun)
  {
    Store.StepShape(c.parsers, w.store, t);
    assert Store.Author(w.store, t) != Store.Operator(Store.BackupRun);
  }

  /** A step that changes no run. */
  lemma OtherPreserves(c: Config, w: World, t: Store.Step)
    requires Inv(c, w) && Enabled(c, w, Other(t))
    ensures Inv(c, Apply(c, w, Other(t)))
  {
    var w' := Apply(c, w, Other(t));
    OtherIsForeign(c, w, t);
    Store.StepPreserves(c.parsers, w.store, t);
    forall q: nat | q in w'.runs ensures RunOk(c, w', q, w'.runs[q]) {
      OtherRunOk(c, w, w', None, q);
    }
    forall v: nat | v < |w'.store.writers| && w'.store.writers[v] == Store.Operator(Store.BackupRun)
      ensures Credited(w', v)
    {
      CreditKept(w, w', None, v);
    }
    assert forall ok :: Over(w', ok) == Over(w, ok);
  }

  /** The counters after run `r` moved to `run`. */
  ghost predicate CountsMove(w: World, w': World, run: Run) {
    && w'.successes == w.successes + (if run.pos == Finished(true) then 1 else 0)
    && w'.errors == w.errors + (if run.pos == Finished(false) then 1 else 0)
  }

  lemma CountersMove(w: World, w': World, r: nat, run: Run)
    requires CountersOk(w) && w'.runs == w.runs[r := run] && CountsMove(w, w', run)
    requires r in w.runs ==> !w.runs[r].pos.Finished?
    ensures CountersOk(w')
  {
    OverMoves(w, w', r, run, true);
    OverMoves(w, w', r, run, false);
  }

  lemma OverMoves(w: World, w': World, r: nat, run: Run, ok: bool)
    requires w'.runs == w.runs[r := run] && (r in w.runs ==> !w.runs[r].pos.Finished?)
    ensures r !in Over(w, ok)
    ensures Over(w', ok) == Over(w, ok) + (if run.pos == Finished(ok) then {r} else {})
  {
  }

  /** The snapshot name of run `r` stays, or is new to all. */
  ghost predicate NameMove(w: World, r: nat, run: Run) {
    run.snap.Some? ==>
      || (r in w.runs && w.runs[r].snap == run.snap)
      || (forall q :: q in w.runs && w.runs[q].snap.Some? ==> w.runs[q].snap.value.name != run.snap.value.name)
  }

  /** A step of run `r`: what is left to show is about that run and the version it may have written. */
  lemma RunMoves(c: Config, w: World, w': World, r: nat, run: Run)
    requires Inv(c, w) && OthersKept(w, w', Some(r)) && w'.runs == w.runs[r := run]
    requires r in w.runs ==> !w.runs[r].pos.Finished?
    requires Store.Inv(c.parsers, w'.store) && CopiesOk(w') && RunOk(c, w', r, run)
    requires NameMove(w, r, run) && CountsMove(w, w', run)
    requires forall v: nat ::
      v in w.credits && v < |w.store.writers| ==> v in w'.credits && w'.credits[v] == w.credits[v]
    requires forall v: nat ::
      |w.store.writers| <= v < |w'.store.writers| && w'.store.writers[v] == Store.Operator(Store.BackupRun) ==>
        Credited(w', v)
    ensures Inv(c, w')
  {
    forall q: nat | q in w'.runs ensures RunOk(c, w', q, w'.runs[q]) {
      if q != r {
        OtherRunOk(c, w, w', Some(r), q);
      }
    }
    CountersMove(w, w', r, run);
    OldCredits(c, w, w', r);
  }

  lemma OldCredits(c: Config, w: World, w': World, r: nat)
    requires Inv(c, w) && OthersKept(w, w', Some(r)) && Store.WellSized(w'.store)
    requires r in w.runs ==> !w.runs[r].pos.Finished?
    requires forall v: nat ::
      v in w.credits && v < |w.store.writers| ==> v in w'.credits && w'.credits[v] == w.credits[v]
    ensures forall v: nat ::
      v < |w.store.writers| && w'.store.writers[v] == Store.Operator(Store.BackupRun) ==> Credited(w', v)
  {
    forall v: nat | v < |w.store.writers| && w'.store.writers[v] == Store.Operator(Store.BackupRun)
      ensures Credited(w', v)
    {
      assert Credited(w, v);
      assert VersionOk(w, w.runs[w.credits[v]]);
      assert w.credits[v] != r;
    }
  }

  // ---------------------------------------------------------------- the steps of a run

  /** A step that leaves the store alone. */
  lemma QuietMove(c: Config, w: World, w': World, r: nat, run: Run)
    requires Inv(c, w) && r in w.runs && !w.runs[r].pos.Finished?
    requires w'.store == w.store && w'.credits == w.credits && w'.runs == w.runs[r := run] && w'.disk <= w.disk
    requires run.snap == w.runs[r].snap && RunOk(c, w', r, run) && CountsMove(w, w', run)
    ensures Inv(c, w')
  {
    SameStoreFrame(w, w', r, run, "");
    RunMoves(c, w, w', r, run);
  }

  lemma CountedLog(es: seq<Effect>, ok: bool)
    requires Disciplined(es) && !Ended(es)
    ensures Complete(es + [Counted(ok)], ok)
    ensures HasStored(es + [Counted(ok)]) <==> HasStored(es)
    ensures forall e :: e in es ==> e in es + [Counted(ok)]
  {
    Extend(es, Counted(ok));
  }

  /** Giving up, from any position in which the snapshot is accounted for. */
  lemma FailPreserves(c: Config, w: World, r: nat)
    requires Inv(c, w) && r in w.runs && !w.runs[r].pos.Finished? && AccountedFor(c, w, w.runs[r])
    ensures Inv(c, Finish(w, r, w.runs[r], false))
  {
    var w' := Finish(w, r, w.runs[r], false);
    FailedRun(c, w, w', r, w.runs[r]);
    QuietMove(c, w, w', r, w'.runs[r]);
  }

  lemma FailedRun(c: Config, w: World, w': World, r: nat, run: Run)
    requires RunOk(c, w, r, run) && !run.pos.Finished? && AccountedFor(c, w, run)
    requires w'.store == w.store && w'.disk <= w.disk
    ensures RunOk(c, w', r, run.(pos := Finished(false), log := run.log + [Counted(false)]))
  {
    CountedLog(run.log, false);
  }

  lemma StartPreserves(c: Config, w: World, r: nat, v: Option<nat>)
    requires Inv(c, w) && Enabled(c, w, Start(r, v))
    ensures Inv(c, Apply(c, w, Start(r, v)))
  {
    var w' := Apply(c, w, Start(r, v));
    NewRun(c, w', r, v.Some?, if v.Some? then w.store.hist[v.value] else None);
    if v.Some? {
      Store.StepPreserves(c.parsers, w.store, Store.Read(r, Store.BackupRun, v.value));
    }
    StartFrame(c, w, r, v);
    RunMoves(c, w, w', r, w'.runs[r]);
  }

  lemma StartFrame(c: Config, w: World, r: nat, v: Option<nat>)
    requires Store.WellSized(w.store) && CopiesOk(w) && Enabled(c, w, Start(r, v))
    ensures
      var w' := Apply(c, w, Start(r, v));
      && OthersKept(w, w', Some(r)) && CopiesOk(w') && |w'.store.writers| == |w.store.writers|
  {
    if v.Some? {
      Store.StepShape(c.parsers, w.store, Store.Read(r, Store.BackupRun, v.value));
    }
  }

  lemma NewRun(c: Config, w: World, r: nat, got: bool, pc: Option<Cluster>)
    requires got ==> r in w.store.copies && w.store.copies[r].actor == Store.BackupRun
    ensures RunOk(c, w, r, if got then Reading(pc) else NEW.(pos := Finished(false), log := NEW.log + [Counted(false)]))
  {
    CountedLog([], false);
  }

  lemma PutPreserves(c: Config, w: World, r: nat, ok: bool)
    requires Inv(c, w) && Enabled(c, w, Put(r, ok))
    ensures Inv(c, Apply(c, w, Put(r, ok)))
  {
    assert RunOk(c, w, r, w.runs[r]);
    if ok {
      var w' := Apply(c, w, Put(r, ok));
      PutRun(c, w, w', r, w.runs[r]);
      QuietMove(c, w, w', r, w'.runs[r]);
    } else {
      FailPreserves(c, w, r);
    }
  }

  lemma PutRun(c: Config, w: World, w': World, r: nat, run: Run)
    requires RunOk(c, w, r, run) && run.pos.Putting? && w'.store == w.store && w'.disk == w.disk
    ensures RunOk(c, w', r, Uploaded(w, run, run.artifact).(pos := Stamping, input := run.input.(putOk := true)))
  {
    Extend(run.log, Stored(run.place, run.artifact));
  }

  lemma RespondedPreserves(c: Config, w: World, s: Step)
    requires Inv(c, w) && s.Responded? && Enabled(c, w, s)
    ensures Inv(c, Apply(c, w, s))
  {
    var r, w' := s.run, Apply(c, w, s);
    assert RunOk(c, w, r, w.runs[r]);
    if s.response.None? {
      FailPreserves(c, w, r);
    } else {
      RespondedRun(c, w, s);
      RespondedFrame(c, w, s);
      RunMoves(c, w, w', r, w'.runs[r]);
    }
  }

  lemma RespondedFrame(c: Config, w: World, s: Step)
    requires s.Responded? && Store.WellSized(w.store) && Enabled(c, w, s) && s.response.Some?
    requires w.runs[s.run].snap.None?
    ensures OthersKept(w, Apply(c, w, s), Some(s.run)) && NameMove(w, s.run, Apply(c, w, s).runs[s.run])
  {
    var w' := Apply(c, w, s);
    SameStoreFrame(w, w', s.run, w'.runs[s.run], ParsedName(s.response.value.answer));
  }

  /** The disk loses directories, or gets some under a name no run has. */
  lemma SameStoreFrame(w: World, w': World, r: nat, run: Run, name: string)
    requires w'.store == w.store && w'.runs == w.runs[r := run]
    requires forall d :: d in w'.disk ==> d in w.disk || d.1 == name
    requires w'.disk <= w.disk || forall q :: q in w.runs && w.runs[q].snap.Some? ==> w.runs[q].snap.value.name != name
    ensures OthersKept(w, w', Some(r))
  {
  }

  lemma RespondedRun(c: Config, w: World, s: Step)
    requires s.Responded? && Store.WellSized(w.store) && Enabled(c, w, s) && s.response.Some?
    requires RunOk(c, w, s.run, w.runs[s.run])
    ensures RunOk(c, Apply(c, w, s), s.run, Apply(c, w, s).runs[s.run])
  {
    var name := ParsedName(s.response.value.answer);
    if name != "" {
      Extend(w.runs[s.run].log, Snapshotted(name));
    }
  }

  lemma CleanPreserves(c: Config, w: World, r: nat, ok: bool)
    requires Inv(c, w) && Enabled(c, w, Clean(r, ok))
    ensures Inv(c, Apply(c, w, Clean(r, ok)))
  {
    var w' := Apply(c, w, Clean(r, ok));
    assert RunOk(c, w, r, w.runs[r]);
    CleanRun(c, w, r, ok);
    QuietMove(c, w, w', r, w'.runs[r]);
  }

  lemma CleanRun(c: Config, w: World, r: nat, ok: bool)
    requires r in w.runs && RunOk(c, w, r, w.runs[r]) && w.runs[r].pos.Cleaning?
    ensures RunOk(c, AfterClean(w, r, ok), r, AfterClean(w, r, ok).runs[r])
  {
    var run := w.runs[r];
    var name := run.snap.value.name;
    Extend(run.log, if ok then Removed(name) else RmFailed(name));
  }

  lemma StampPreserves(c: Config, w: World, r: nat)
    requires Inv(c, w) && Enabled(c, w, Stamp(r))
    ensures Inv(c, Apply(c, w, Stamp(r)))
  {
    var w' := Apply(c, w, Stamp(r));
    assert RunOk(c, w, r, w.runs[r]);
    Store.StepShape(c.parsers, w.store, Store.StampBackup(r));
    Store.StepPreserves(c.parsers, w.store, Store.StampBackup(r));
    RunMoves(c, w, w', r, w'.runs[r]);
  }

  lemma PipePreserves(c: Config, w: World, r: nat, m: TarPipe.Step)
    requires Inv(c, w) && Enabled(c, w, Pipe(r, m))
    ensures Inv(c, Apply(c, w, Pipe(r, m)))
  {
    var run, w' := w.runs[r], Apply(c, w, Pipe(r, m));
    assert RunOk(c, w, r, run);
    TarPipe.StepPreserves(run.pos.pipe, m);
    PipeRun(c, w, r, m);
    PipeCounts(w, r, TarPipe.Apply(run.pos.pipe, m));
    QuietMove(c, w, w', r, w'.runs[r]);
  }

  lemma PipeCounts(w: World, r: nat, pipe: TarPipe.State)
    requires r in w.runs && w.runs[r].pos.Tarring?
    ensures
      var w' := AfterPipe(w, r, pipe);
      && r in w'.runs && w'.runs == w.runs[r := w'.runs[r]] && w'.runs[r].snap == w.runs[r].snap
      && w'.store == w.store && w'.credits == w.credits && w'.disk == w.disk && CountsMove(w, w', w'.runs[r])
  {
  }

  /** The object appears in the bucket exactly when the pipe's uploader completes, whole; when the pipe
      has run, nil means that it is there, and that the snapshot was on replica 0. */
  lemma PipeRun(c: Config, w: World, r: nat, m: TarPipe.Step)
    requires r in w.runs && RunOk(c, w, r, w.runs[r]) && w.runs[r].pos.Tarring?
    requires TarPipe.Enabled(w.runs[r].pos.pipe, m) && TarPipe.Inv(TarPipe.Apply(w.runs[r].pos.pipe, m))
    ensures
      var w' := AfterPipe(w, r, TarPipe.Apply(w.runs[r].pos.pipe, m));
      RunOk(c, w', r, w'.runs[r])
  {
    var run := w.runs[r];
    var pipe, pipe' := run.pos.pipe, TarPipe.Apply(run.pos.pipe, m);
    var run' := AfterTransfer(w, run, pipe');
    PipeStores(pipe, m);
    TransferRun(c, w, r, run, pipe');
    if TarPipe.Final(pipe') {
      TarPipe.EndedMeans(pipe');
      if !pipe'.caller.isNil {
        Extend(run'.log, TarFailed(run.snap.value.name));
        CountedLog(run'.log + [TarFailed(run.snap.value.name)], false);
      }
    }
  }

  /** A step of the pipe stores nothing, or all that tar was to write. */
  lemma PipeStores(pipe: TarPipe.State, m: TarPipe.Step)
    requires TarPipe.Inv(pipe) && TarPipe.Enabled(pipe, m) && TarPipe.Inv(TarPipe.Apply(pipe, m))
    ensures
      var pipe' := TarPipe.Apply(pipe, m);
      && pipe'.plan == pipe.plan && pipe'.planOk == pipe.planOk
      && (pipe'.stored == pipe.stored || (pipe.stored == [] && pipe'.stored == [TarPipe.Flatten(pipe.plan)]))
  {
    if m.ReadEnd? {
      assert pipe.taken + [] == pipe.taken;
    }
  }

  lemma TransferRun(c: Config, w: World, r: nat, run: Run, pipe': TarPipe.State)
    requires RunOk(c, w, r, run) && run.pos.Tarring?
    requires pipe'.stored == run.pos.pipe.stored || (run.pos.pipe.stored == [] && pipe'.stored == [run.artifact])
    ensures
      var run' := AfterTransfer(w, run, pipe');
      && UploadOk(w, run') && Disciplined(run'.log) && !Ended(run'.log)
      && (run'.upload.Some? <==> pipe'.stored != [])
  {
    if pipe'.stored != run.pos.pipe.stored {
      Extend(run.log, Stored(run.place, run.artifact));
    }
  }

  /** An accepted status update: what the store now holds has the stamp of the run's copy. */
  ghost predicate Accepts(w: World, r: nat, store': Store.World) {
    && Store.Grows(w.store, store') && Store.WellSized(store') && |store'.hist| <= |w.store.hist| + 1
    && store'.hist[|store'.hist| - 1].Some? && r in w.store.copies
    && store'.hist[|store'.hist| - 1].value.status.lastBackup == w.store.copies[r].obj.status.lastBackup
    && (forall q: nat :: q != r ==> Store.CopyKept(w.store, store', q))
  }

  lemma WriteAccepted(p: Parsers, w: World, r: nat, answered: bool)
    requires Store.WellSized(w.store) && Store.Enabled(w.store, Store.WriteStatus(r, answered))
    requires Store.Current(w.store, r)
    ensures Accepts(w, r, Store.Apply(p, w.store, Store.WriteStatus(r, answered)))
  {
    Store.StepShape(p, w.store, Store.WriteStatus(r, answered));
  }

  lemma UpdatedRun(c: Config, w: World, w': World, r: nat, run: Run, version: nat, answered: bool)
    requires RunOk(c, w, r, run) && run.pos.Updating? && Store.Grows(w.store, w'.store) && w'.disk == w.disk
    requires version < |w'.store.hist| && w'.store.hist[version].Some?
    requires w'.store.hist[version].value.status.lastBackup == run.stamp
    ensures
      var run' := run.(log := run.log + [Stamped(run.stamp.value)], version := Some(version),
                       input := run.input.(update := if answered then Answered else Lost));
      RunOk(c, w', r, run'.(pos := Finished(answered), log := run'.log + [Counted(answered)]))
  {
    Extend(run.log, Stamped(run.stamp.value));
    CountedLog(run.log + [Stamped(run.stamp.value)], answered);
  }

  lemma UpdatePreserves(c: Config, w: World, r: nat, arrives: bool, answered: bool)
    requires Inv(c, w) && Enabled(c, w, Update(r, arrives, answered))
    ensures Inv(c, Apply(c, w, Update(r, arrives, answered)))
  {
    assert RunOk(c, w, r, w.runs[r]);
    if !arrives || !Store.Current(w.store, r) {
      FailPreserves(c, w, r);
    } else {
      AcceptedPreserves(c, w, r, answered);
    }
  }

  lemma AcceptedPreserves(c: Config, w: World, r: nat, answered: bool)
    requires Inv(c, w) && Enabled(c, w, Update(r, true, answered)) && Store.Current(w.store, r)
    ensures Inv(c, AfterUpdate(c, w, r, true, answered))
  {
    var store' := Store.Apply(c.parsers, w.store, Store.WriteStatus(r, answered));
    WriteAccepted(c.parsers, w, r, answered);
    Store.StepPreserves(c.parsers, w.store, Store.WriteStatus(r, answered));
    AcceptedKeeps(c, w, r, store', answered);
  }

  lemma AcceptedKeeps(c: Config, w: World, r: nat, store': Store.World, answered: bool)
    requires Inv(c, w) && At(w, r, Updating) && w.runs[r].stamp.Some?
    requires Accepts(w, r, store') && Store.Inv(c.parsers, store')
    ensures Inv(c, Accepted(w, r, store', answered))
  {
    var w' := Accepted(w, r, store', answered);
    assert RunOk(c, w, r, w.runs[r]);
    AcceptedRun(c, w, r, store', answered);
    AcceptedFrame(w, r, store', answered);
    AcceptedCredit(w, r, store', answered);
    RunMoves(c, w, w', r, w'.runs[r]);
  }

  lemma AcceptedRun(c: Config, w: World, r: nat, store': Store.World, answered: bool)
    requires At(w, r, Updating) && RunOk(c, w, r, w.runs[r]) && Accepts(w, r, store')
    ensures RunOk(c, Accepted(w, r, store', answered), r, Accepted(w, r, store', answered).runs[r])
  {
    UpdatedRun(c, w, Accepted(w, r, store', answered), r, w.runs[r], |store'.hist| - 1, answered);
  }

  lemma AcceptedCredit(w: World, r: nat, store': Store.World, answered: bool)
    requires r in w.runs && StampOk(w.runs[r]) && UploadOk(w, w.runs[r])
    requires Store.WellSized(w.store) && Accepts(w, r, store')
    ensures
      var w' := Accepted(w, r, store', answered);
      && (forall v: nat :: v in w.credits && v < |w.store.writers| ==> v in w'.credits && w'.credits[v] == w.credits[v])
      && (forall v: nat :: |w.store.writers| <= v < |w'.store.writers| ==> Credited(w', v))
  {
  }

  lemma AcceptedFrame(w: World, r: nat, store': Store.World, answered: bool)
    requires r in w.runs && w.runs[r].stamp.Some? && Accepts(w, r, store') && CopiesOk(w)
    ensures
      var w' := Accepted(w, r, store', answered);
      && OthersKept(w, w', Some(r)) && CopiesOk(w')
      && w'.runs == w.runs[r := w'.runs[r]] && CountsMove(w, w', w'.runs[r]) && w'.runs[r].snap == w.runs[r].snap
  {
    forall q: nat | q != r
      ensures q in store'.copies <==> q in w.store.copies
      ensures q in w.store.copies ==> store'.copies[q] == w.store.copies[q]
    {
      assert Store.CopyKept(w.store, store', q);
    }
  }

  /** Every step of every run and of everybody else keeps the invariant. */
  lemma StepPreserves(c: Config, w: World, s: Step)
    requires Inv(c, w) && Enabled(c, w, s)
    ensures Inv(c, Apply(c, w, s))
  {
    match s
    case Other(t) => OtherPreserves(c, w, t);
    case Start(r, v) => StartPreserves(c, w, r, v);
    case Responded(_, _, _, _, _) => RespondedPreserves(c, w, s);
    case Put(r, ok) => PutPreserves(c, w, r, ok);
    case Pipe(r, m) => PipePreserves(c, w, r, m);
    case Clean(r, ok) => CleanPreserves(c, w, r, ok);
    case Stamp(r) => StampPreserves(c, w, r);
    case Update(r, arrives, answered) => UpdatePreserves(c, w, r, arrives, answered);
  }

  // ---------------------------------------------------------------- whole runs of the system

  ghost predicate Legal(c: Config, w: World, steps: seq<Step>)
    requires Store.WellSized(w.store)
    decreases |steps|
  {
    steps != [] ==>
      && Enabled(c, w, steps[0]) && Store.WellSized(Apply(c, w, steps[0]).store)
      && Legal(c, Apply(c, w, steps[0]), steps[1..])
  }

  ghost function After(c: Config, w: World, steps: seq<Step>): World
    requires Store.WellSized(w.store) && Legal(c, w, steps)
    decreases |steps|
  {
    if steps == [] then w else After(c, Apply(c, w, steps[0]), steps[1..])
  }

  lemma {:induction false} AfterPreserves(c: Config, w: World, steps: seq<Step>)
    requires Inv(c, w) && Legal(c, w, steps)
    ensures Inv(c, After(c, w, steps))
    decreases |steps|
  {
    if steps != [] {
      StepPreserves(c, w, steps[0]);
      AfterPreserves(c, Apply(c, w, steps[0]), steps[1..]);
    }
  }

  lemma Reached(c: Config, steps: seq<Step>)
    requires Legal(c, INIT, steps)
    ensures Inv(c, After(c, INIT, steps))
  {
    assert Store.GoodEntry(c.parsers, Store.INIT, 0);
    assert Over(INIT, true) == {} && Over(INIT, false) == {};
    AfterPreserves(c, INIT, steps);
  }

  /** `run` stamped `time` after it had stored its object, and the object was there when fewer than
      `v` + 1 versions were stored. */
  ghost predicate Backs(run: Run, time: Option<nat>, v: nat) {
    && run.upload.Some? && run.upload.value.bytes == run.artifact && run.upload.value.versions <= v
    && run.stamp.Some? && run.stamp == time && run.upload.value.time <= time.value
  }

  /** No phantom backup: in every reachable state, a version that changes lastBackupTime was written by
      a backup run that had already stored its object. */
  lemma NoPhantomBackup(c: Config, steps: seq<Step>, v: nat)
    requires Legal(c, INIT, steps)
    requires 0 < v < |After(c, INIT, steps).store.hist|
    ensures
      var w := After(c, INIT, steps);
      && Store.WellSized(w.store)
      && (w.store.hist[v - 1].Some? && w.store.hist[v].Some?
          && w.store.hist[v].value.status.lastBackup != w.store.hist[v - 1].value.status.lastBackup ==>
            && w.store.writers[v] == Store.Operator(Store.BackupRun)
            && exists r :: r in w.runs && w.runs[r].version == Some(v)
                           && Backs(w.runs[r], w.store.hist[v].value.status.lastBackup, v))
  {
    Reached(c, steps);
    var w := After(c, INIT, steps);
    assert Store.GoodEntry(c.parsers, w.store, v);
    if w.store.hist[v - 1].Some? && w.store.hist[v].Some?
       && w.store.hist[v].value.status.lastBackup != w.store.hist[v - 1].value.status.lastBackup {
      assert w.store.writers[v] == Store.Operator(Store.BackupRun);
      WriterBacks(c, w, v);
    }
  }

  lemma WriterBacks(c: Config, w: World, v: nat)
    requires Inv(c, w) && v < |w.store.hist| && w.store.writers[v] == Store.Operator(Store.BackupRun)
    ensures w.store.hist[v].Some?
    ensures exists r :: r in w.runs && w.runs[r].version == Some(v)
                        && Backs(w.runs[r], w.store.hist[v].value.status.lastBackup, v)
  {
    assert Credited(w, v);
    var r := w.credits[v];
    assert RunOk(c, w, r, w.runs[r]);
    assert Backs(w.runs[r], w.store.hist[v].value.status.lastBackup, v);
  }

  /** And so every stored lastBackupTime, at whatever version it is read, is backed by an object stored
      before, no later than the time it shows. */
  lemma {:induction false} StampIsBacked(c: Config, w: World, v: nat)
    requires Inv(c, w) && v < |w.store.hist|
    requires w.store.hist[v].Some? && w.store.hist[v].value.status.lastBackup.Some?
    requires w.store.hist[0].None?
    ensures exists r :: r in w.runs && Backs(w.runs[r], w.store.hist[v].value.status.lastBackup, v)
  {
    assert Store.GoodEntry(c.parsers, w.store, v);
    if w.store.writers[v] == Store.Operator(Store.BackupRun) {
      WriterBacks(c, w, v);
    } else if w.store.hist[v - 1].Some? {
      StampIsBacked(c, w, v - 1);
      var r :| r in w.runs && Backs(w.runs[r], w.store.hist[v - 1].value.status.lastBackup, v - 1);
      assert Backs(w.runs[r], w.store.hist[v].value.status.lastBackup, v);
    }
  }

  lemma {:induction false} FirstIsEmpty(c: Config, w: World, steps: seq<Step>)
    requires Inv(c, w) && Legal(c, w, steps) && w.store.hist[0].None?
    ensures After(c, w, steps).store.hist != [] && After(c, w, steps).store.hist[0].None?
    decreases |steps|
  {
    if steps != [] {
      StepPreserves(c, w, steps[0]);
      StepGrows(c, w, steps[0]);
      FirstIsEmpty(c, Apply(c, w, steps[0]), steps[1..]);
    }
  }

  lemma StepGrows(c: Config, w: World, s: Step)
    requires Store.WellSized(w.store) && Enabled(c, w, s)
    ensures Store.Grows(w.store, Apply(c, w, s).store)
  {
    match s
    case Other(t) => Store.StepShape(c.parsers, w.store, t);
    case Start(r, v) =>
      if v.Some? {
        Store.StepShape(c.parsers, w.store, Store.Read(r, Store.BackupRun, v.value));
      }
    case Stamp(r) => Store.StepShape(c.parsers, w.store, Store.StampBackup(r));
    case Update(r, _, answered) => Store.StepShape(c.parsers, w.store, Store.WriteStatus(r, answered));
    case _ =>
  }

  /** In every reachable state a set lastBackupTime is preceded by a stored object. */
  lemma EveryStampIsBacked(c: Config, steps: seq<Step>, v: nat)
    requires Legal(c, INIT, steps) && v < |After(c, INIT, steps).store.hist|
    ensures
      var w := After(c, INIT, steps);
      w.store.hist[v].Some? && w.store.hist[v].value.status.lastBackup.Some? ==>
        exists r :: r in w.runs && Backs(w.runs[r], w.store.hist[v].value.status.lastBackup, v)
  {
    Reached(c, steps);
    assert Inv(c, INIT) by {
      Reached(c, []);
    }
    FirstIsEmpty(c, INIT, steps);
    var w := After(c, INIT, steps);
    if w.store.hist[v].Some? && w.store.hist[v].value.status.lastBackup.Some? {
      StampIsBacked(c, w, v);
    }
  }

  /** The success and error counters together count exactly the runs that have finished, each once; a
      run counted as a success has its stamp stored, and every run's log is in order. */
  lemma CountersCountRuns(c: Config, steps: seq<Step>)
    requires Legal(c, INIT, steps)
    ensures
      var w := After(c, INIT, steps);
      && w.successes + w.errors == |set r | r in w.runs && w.runs[r].pos.Finished?|
      && (forall r :: r in w.runs ==> Disciplined(w.runs[r].log))
      && (forall r :: r in w.runs && w.runs[r].pos.Finished? ==> Complete(w.runs[r].log, w.runs[r].pos.ok))
      && (forall r :: r in w.runs && w.runs[r].pos == Finished(true) ==> StampStored(w, w.runs[r]))
  {
    Reached(c, steps);
    var w := After(c, INIT, steps);
    OversAdd(w);
    forall r | r in w.runs
      ensures Disciplined(w.runs[r].log)
      ensures w.runs[r].pos.Finished? ==> Complete(w.runs[r].log, w.runs[r].pos.ok)
      ensures w.runs[r].pos == Finished(true) ==> StampStored(w, w.runs[r])
    {
      assert RunOk(c, w, r, w.runs[r]);
    }
  }

  lemma OversAdd(w: World)
    ensures |set r | r in w.runs && w.runs[r].pos.Finished?| == |Over(w, true)| + |Over(w, false)|
  {
    assert (set r | r in w.runs && w.runs[r].pos.Finished?) == Over(w, true) + Over(w, false);
  }

  ghost predicate StampStored(w: World, run: Run) {
    exists v: nat :: v < |w.store.hist| && w.store.hist[v].Some? && run.stamp.Some?
                     && w.store.hist[v].value.status.lastBackup == run.stamp
  }

  /** With an executor, in every reachable state a finished run's snapshot, if its name was parsed, is
      gone from the replica it landed on, or a tar, upload or rm of it has failed. */
  lemma SnapshotsAccountedFor(c: Config, steps: seq<Step>, r: nat)
    requires Legal(c, INIT, steps) && r in After(c, INIT, steps).runs && c.hasExec
    ensures
      var w := After(c, INIT, steps);
      var run := w.runs[r];
      run.pos.Finished? && run.snap.Some? ==>
        || (run.snap.value.holder, run.snap.value.name) !in w.disk
        || TarFailed(run.snap.value.name) in run.log
        || RmFailed(run.snap.value.name) in run.log
  {
    Reached(c, steps);
    var w := After(c, INIT, steps);
    assert RunOk(c, w, r, w.runs[r]);
  }
}
