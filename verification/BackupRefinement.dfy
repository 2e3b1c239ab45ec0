/** The runs of BackupProtocol are runs of RunOnce: whatever is interleaved, a finished run has done what
    BackupRun.RunOnce does on the answers the run got. */
module BackupRefinement {
  import opened Types
  import opened BackupRun
  import opened BackupProtocol
  import Store
  import TarPipe
  import Snapshots

  /** The log holds only the snapshot and, perhaps, the artifact. */
  ghost predicate Plain(run: Run) {
    forall e :: e in run.log ==> e.Snapshotted? || e == Stored(run.place, run.artifact)
  }

  /** The place is made of the answers so far. */
  predicate Keyed(run: Run) {
    && run.input.pc.Some? && run.input.body.Some?
    && run.place == PlaceOf(run.input.pc.value, run.input.stamp)
  }

  predicate Landed(run: Run) {
    run.snap == Some(Snap(ParsedName(run.input.answer), run.input.holder))
  }

  /** The object is stored, and nothing is stamped yet. */
  ghost predicate ShippedLog(c: Config, run: Run) {
    && Shipped(c.hasExec, run.input) && IsArtifact(c.hasExec, run.input, Stored(run.place, run.artifact))
    && (forall e :: e in run.log ==> !e.Stamped? && (e.Stored? ==> e == Stored(run.place, run.artifact)))
  }

  /** With tar working only on replica 0, the snapshot is accounted for in the log. */
  ghost predicate LogAccounts(c: Config, run: Run) {
    Tarred(c.hasExec, run.input) && (run.input.pipe.planOk ==> run.input.holder == 0) ==> Accounted(run.input, run.log)
  }

  /** The answers so far, and what the run has made of them. */
  ghost predicate Follows(c: Config, run: Run) {
    var i := run.input;
    && TarPipe.Ended(i.pipe)
    && (!run.pos.Finished? ==> i.update.Refused?)
    && match run.pos
       case Snapshotting => i.pc.Some? && i.body.None? && !i.putOk && run.log == []
       case Putting => Keyed(run) && !Tarred(c.hasExec, i) && !i.putOk && Plain(run) && run.artifact == i.body.value
       case Tarring(pipe) =>
         Keyed(run) && Tarred(c.hasExec, i) && Landed(run) && Plain(run) && run.artifact == TarPipe.Flatten(pipe.plan)
       case Cleaning => Tarred(c.hasExec, i) && Landed(run) && ShippedLog(c, run)
       case Stamping => ShippedLog(c, run) && LogAccounts(c, run)
       case Updating => ShippedLog(c, run) && LogAccounts(c, run) && run.stamp == Some(i.now)
       case Finished(ok) => Ran(c.hasExec, i, run.log, ok)
  }

  ghost predicate AllFollow(c: Config, w: World) {
    forall r :: r in w.runs ==> Follows(c, w.runs[r])
  }

  /** The count ends a run that has done what its answers ask for. */
  lemma EndRun(hasExec: bool, i: Input, log: seq<Effect>, ok: bool)
    requires Disciplined(log) && !Ended(log) && (HasStored(log) <==> Shipped(hasExec, i))
    requires ok <==> Shipped(hasExec, i) && i.update.Answered?
    requires forall e :: e in log && e.Stored? ==> IsArtifact(hasExec, i, e)
    requires forall t :: Stamped(t) in log <==> Shipped(hasExec, i) && !i.update.Refused? && t == i.now
    requires Tarred(hasExec, i) && (i.pipe.planOk ==> i.holder == 0) ==> Accounted(i, log)
    ensures Ran(hasExec, i, log + [Counted(ok)], ok)
  {
    CountedLog(log, ok);
    Extend(log, Counted(ok));
    if i.pc.Some? {
      PlaceLiesUnder(i.pc.value, i.stamp);
    }
  }

  lemma NoObject(log: seq<Effect>)
    requires !HasStored(log)
    ensures forall e :: e in log ==> !e.Stored?
  {
  }

  // ---------------------------------------------------------------- one key, one cluster

  /** The place was named, in the second of `named`, for the cluster the run read. */
  ghost predicate Named(c: Config, run: Run) {
    && (run.pos.Putting? || run.pos.Tarring? || run.upload.Some? ==>
          && run.input.pc.Some? && run.place == PlaceOf(run.input.pc.value, KeyStamp(c, run.named)))
    && (run.upload.Some? ==> run.upload.value.place == run.place)
  }

  ghost predicate AllNamed(c: Config, w: World) {
    forall r :: r in w.runs ==> Named(c, w.runs[r])
  }

  lemma StepNames(c: Config, w: World, s: Step)
    requires Store.WellSized(w.store) && Enabled(c, w, s) && AllNamed(c, w)
    requires forall r: nat :: r in w.runs && w.runs[r].pos.Snapshotting? ==> w.runs[r].upload.None?
    ensures AllNamed(c, Apply(c, w, s))
  {
    OneRunMoves(c, w, s);
    if !s.Other? {
      RunNamed(c, w, s);
    }
  }

  lemma RunNamed(c: Config, w: World, s: Step)
    requires Store.WellSized(w.store) && Enabled(c, w, s) && !s.Other?
    requires s.run in w.runs ==> Named(c, w.runs[s.run])
    requires s.run in w.runs && w.runs[s.run].pos.Snapshotting? ==> w.runs[s.run].upload.None?
    ensures s.run in Apply(c, w, s).runs && Named(c, Apply(c, w, s).runs[s.run])
  {
    match s
    case Update(r, arrives, answered) => UpdateNames(c, w, r, arrives, answered);
    case Stamp(r) => StampNames(c, w, r);
    case Pipe(r, m) => PipeNames(c, w, r, TarPipe.Apply(w.runs[r].pos.pipe, m));
    case _ =>
  }

  lemma PipeNames(c: Config, w: World, r: nat, pipe: TarPipe.State)
    requires r in w.runs && w.runs[r].pos.Tarring? && Named(c, w.runs[r])
    ensures Named(c, AfterPipe(w, r, pipe).runs[r])
  {
  }

  lemma StampNames(c: Config, w: World, r: nat)
    requires Store.WellSized(w.store) && Enabled(c, w, Stamp(r)) && Named(c, w.runs[r])
    ensures r in Apply(c, w, Stamp(r)).runs && Named(c, Apply(c, w, Stamp(r)).runs[r])
  {
  }

  lemma UpdateNames(c: Config, w: World, r: nat, arrives: bool, answered: bool)
    requires Store.WellSized(w.store) && Enabled(c, w, Update(r, arrives, answered)) && Named(c, w.runs[r])
    ensures r in AfterUpdate(c, w, r, arrives, answered).runs
    ensures Named(c, AfterUpdate(c, w, r, arrives, answered).runs[r])
  {
  }

  lemma {:induction false} AfterNames(c: Config, w: World, steps: seq<Step>)
    requires Inv(c, w) && AllNamed(c, w) && Legal(c, w, steps)
    ensures AllNamed(c, After(c, w, steps))
    decreases |steps|
  {
    if steps != [] {
      forall r: nat | r in w.runs && w.runs[r].pos.Snapshotting? ensures w.runs[r].upload.None? {
        assert RunOk(c, w, r, w.runs[r]);
      }
      StepNames(c, w, steps[0]);
      StepPreserves(c, w, steps[0]);
      AfterNames(c, Apply(c, w, steps[0]), steps[1..]);
    }
  }

  /** In every reachable state an uploaded object lies in its cluster's bucket under the prefix and the
      cluster's name. */
  lemma UploadsLieUnder(c: Config, steps: seq<Step>, r: nat)
    requires Legal(c, INIT, steps) && r in After(c, INIT, steps).runs
    ensures
      var run := After(c, INIT, steps).runs[r];
      run.upload.Some? ==> run.input.pc.Some? && LiesUnder(run.input.pc.value, run.upload.value.place)
  {
    Reached(c, []);
    assert After(c, INIT, []) == INIT;
    AfterNames(c, INIT, steps);
    var run := After(c, INIT, steps).runs[r];
    assert Named(c, run);
    if run.upload.Some? {
      PlaceLiesUnder(run.input.pc.value, KeyStamp(c, run.named));
    }
  }

  /** In every reachable state, two uploads under one key come from runs that read clusters of the same
      prefix and name and named their objects in the same second. */
  lemma OneKeyOneCluster(c: Config, steps: seq<Step>, q: nat, r: nat)
    requires Legal(c, INIT, steps) && q in After(c, INIT, steps).runs && r in After(c, INIT, steps).runs
    requires forall t: nat :: Snapshots.FourDigitYear(c.civil(t))
    ensures
      var a, b := After(c, INIT, steps).runs[q], After(c, INIT, steps).runs[r];
      a.upload.Some? && b.upload.Some? && a.upload.value.place.key == b.upload.value.place.key ==>
        && a.input.pc.Some? && b.input.pc.Some?
        && (Snapshots.SlashFree(a.input.pc.value.name) && Snapshots.SlashFree(b.input.pc.value.name) ==>
              && a.input.pc.value.spec.backup.prefix == b.input.pc.value.spec.backup.prefix
              && a.input.pc.value.name == b.input.pc.value.name
              && c.civil(a.named) == c.civil(b.named))
  {
    Reached(c, []);
    assert After(c, INIT, []) == INIT;
    AfterNames(c, INIT, steps);
    var a, b := After(c, INIT, steps).runs[q], After(c, INIT, steps).runs[r];
    assert Named(c, a) && Named(c, b);
    if a.upload.Some? && b.upload.Some? && a.upload.value.place.key == b.upload.value.place.key {
      SameKey(c, a.input.pc.value, a.named, b.input.pc.value, b.named);
    }
  }

  lemma SameKey(c: Config, a: Cluster, t: nat, b: Cluster, u: nat)
    requires Snapshots.FourDigitYear(c.civil(t)) && Snapshots.FourDigitYear(c.civil(u))
    requires PlaceOf(a, KeyStamp(c, t)).key == PlaceOf(b, KeyStamp(c, u)).key
    ensures Snapshots.SlashFree(a.name) && Snapshots.SlashFree(b.name) ==>
      a.spec.backup.prefix == b.spec.backup.prefix && a.name == b.name && c.civil(t) == c.civil(u)
  {
    if Snapshots.SlashFree(a.name) && Snapshots.SlashFree(b.name) {
      Snapshots.BackupKeysDistinct(a.spec.backup.prefix, a.name, c.civil(t), b.spec.backup.prefix, b.name, c.civil(u));
    }
  }

  // ---------------------------------------------------------------- the steps

  lemma NoPipeEnded()
    ensures TarPipe.Ended(NO_PIPE)
  {
  }

  lemma StartFollows(c: Config, w: World, r: nat, v: Option<nat>)
    requires Store.WellSized(w.store) && Enabled(c, w, Start(r, v))
    ensures r in Apply(c, w, Start(r, v)).runs && Follows(c, Apply(c, w, Start(r, v)).runs[r])
  {
    NoPipeEnded();
    EndRun(c.hasExec, NO_ANSWERS, [], false);
  }

  /** Giving up before anything is stored. */
  lemma FailFollows(c: Config, w: World, r: nat)
    requires r in w.runs && RunOk(c, w, r, w.runs[r]) && Follows(c, w.runs[r])
    requires w.runs[r].pos.Snapshotting? || w.runs[r].pos.Putting?
    ensures Follows(c, Finish(w, r, w.runs[r], false).runs[r])
  {
    NoObject(w.runs[r].log);
    EndRun(c.hasExec, w.runs[r].input, w.runs[r].log, false);
  }

  lemma RespondedFollows(c: Config, w: World, s: Step)
    requires s.Responded? && Store.WellSized(w.store) && Enabled(c, w, s) && s.response.Some?
    requires RunOk(c, w, s.run, w.runs[s.run]) && Follows(c, w.runs[s.run])
    ensures Follows(c, Apply(c, w, s).runs[s.run])
  {
  }

  lemma PutFollows(c: Config, w: World, r: nat)
    requires At(w, r, Putting) && RunOk(c, w, r, w.runs[r]) && Follows(c, w.runs[r])
    ensures Follows(c, Uploaded(w, w.runs[r], w.runs[r].artifact).(
                         pos := Stamping, input := w.runs[r].input.(putOk := true)))
  {
    NoObject(w.runs[r].log);
  }

  lemma CleanFollows(c: Config, w: World, r: nat, ok: bool)
    requires At(w, r, Cleaning) && RunOk(c, w, r, w.runs[r]) && Follows(c, w.runs[r])
    ensures Follows(c, AfterClean(w, r, ok).runs[r])
  {
    var name := w.runs[r].snap.value.name;
    var e := if ok then Removed(name) else RmFailed(name);
    Extend(w.runs[r].log, e);
  }

  /** The outcome of the status update plays no part in what is shipped. */
  lemma UpdateAside(hasExec: bool, i: Input, j: Input)
    requires j == i.(update := j.update)
    ensures Tarred(hasExec, i) <==> Tarred(hasExec, j)
    ensures Shipped(hasExec, i) <==> Shipped(hasExec, j)
    ensures forall e :: IsArtifact(hasExec, i, e) <==> IsArtifact(hasExec, j, e)
    ensures forall log :: Accounted(i, log) <==> Accounted(j, log)
  {
  }

  lemma UpdateFollows(c: Config, run: Run, j: Input, log: seq<Effect>)
    requires run.pos.Updating? && Follows(c, run) && LogOk(run) && HasStored(run.log)
    requires j == run.input.(update := j.update)
    requires log == run.log + if j.update.Refused? then [] else [Stamped(j.now)]
    ensures Ran(c.hasExec, j, log + [Counted(j.update.Answered?)], j.update.Answered?)
  {
    UpdateAside(c.hasExec, run.input, j);
    if j.update.Refused? {
      assert log == run.log;
    } else {
      Extend(run.log, Stamped(j.now));
    }
    EndRun(c.hasExec, j, log, j.update.Answered?);
  }

  // ---------------------------------------------------------------- the pipe

  lemma TransferFollows(c: Config, w: World, r: nat, run: Run, pipe: TarPipe.State)
    requires Follows(c, run) && RunOk(c, w, r, run) && run.pos.Tarring?
    requires pipe.stored == run.pos.pipe.stored || (run.pos.pipe.stored == [] && pipe.stored == [run.artifact])
    ensures Plain(AfterTransfer(w, run, pipe))
  {
  }

  /** tar has failed, or the upload has. */
  lemma TarFails(c: Config, run: Run, pipe: TarPipe.State)
    requires Keyed(run) && Tarred(c.hasExec, run.input) && Plain(run) && run.input.update.Refused?
    requires Disciplined(run.log) && !Ended(run.log) && !HasStored(run.log)
    requires TarPipe.Ended(pipe) && !pipe.caller.isNil
    ensures
      var i := run.input.(pipe := pipe);
      Ran(c.hasExec, i, run.log + [TarFailed(ParsedName(i.answer))] + [Counted(false)], false)
  {
    TarPipe.EndedMeans(pipe);
    var i := run.input.(pipe := pipe);
    var e := TarFailed(ParsedName(i.answer));
    NoObject(run.log);
    Extend(run.log, e);
    EndRun(c.hasExec, i, run.log + [e], false);
  }

  lemma TarSucceeds(c: Config, run: Run, pipe: TarPipe.State)
    requires Keyed(run) && Tarred(c.hasExec, run.input) && Plain(run)
    requires TarPipe.Ended(pipe) && pipe.caller.isNil && run.artifact == TarPipe.Flatten(pipe.plan)
    ensures ShippedLog(c, run.(input := run.input.(pipe := pipe)))
  {
    TarPipe.EndedMeans(pipe);
  }

  lemma PipeFollows(c: Config, w: World, r: nat, m: TarPipe.Step)
    requires r in w.runs && RunOk(c, w, r, w.runs[r]) && Follows(c, w.runs[r]) && w.runs[r].pos.Tarring?
    requires TarPipe.Enabled(w.runs[r].pos.pipe, m) && TarPipe.Inv(TarPipe.Apply(w.runs[r].pos.pipe, m))
    ensures Follows(c, AfterPipe(w, r, TarPipe.Apply(w.runs[r].pos.pipe, m)).runs[r])
  {
    var run := w.runs[r];
    var pipe := TarPipe.Apply(run.pos.pipe, m);
    var run' := AfterTransfer(w, run, pipe);
    PipeStores(run.pos.pipe, m);
    TransferRun(c, w, r, run, pipe);
    TransferFollows(c, w, r, run, pipe);
    if TarPipe.Final(pipe) {
      TarPipe.EndedMeans(pipe);
      if pipe.caller.isNil {
        TarSucceeds(c, run', pipe);
      } else {
        TarFails(c, run', pipe);
      }
    }
  }

  // ---------------------------------------------------------------- all of them

  lemma UpdateStepFollows(c: Config, w: World, r: nat, arrives: bool, answered: bool)
    requires Store.WellSized(w.store) && Enabled(c, w, Update(r, arrives, answered))
    requires RunOk(c, w, r, w.runs[r]) && Follows(c, w.runs[r])
    ensures r in AfterUpdate(c, w, r, arrives, answered).runs
    ensures Follows(c, AfterUpdate(c, w, r, arrives, answered).runs[r])
  {
    if !arrives || !Store.Current(w.store, r) {
      RejectedFollows(c, w, r);
    } else {
      AcceptedFollows(c, w, r, Store.Apply(c.parsers, w.store, Store.WriteStatus(r, answered)), answered);
    }
  }

  lemma RejectedFollows(c: Config, w: World, r: nat)
    requires At(w, r, Updating) && RunOk(c, w, r, w.runs[r]) && Follows(c, w.runs[r])
    ensures Follows(c, Finish(w, r, w.runs[r], false).runs[r])
  {
    UpdateFollows(c, w.runs[r], w.runs[r].input, w.runs[r].log);
  }

  lemma AcceptedFollows(c: Config, w: World, r: nat, store': Store.World, answered: bool)
    requires At(w, r, Updating) && RunOk(c, w, r, w.runs[r]) && Follows(c, w.runs[r]) && |store'.hist| > 0
    ensures Follows(c, Accepted(w, r, store', answered).runs[r])
  {
    var run := w.runs[r];
    var j := run.input.(update := if answered then Answered else Lost);
    UpdateFollows(c, run, j, run.log + [Stamped(run.stamp.value)]);
  }

  lemma PutStepFollows(c: Config, w: World, r: nat, ok: bool)
    requires Store.WellSized(w.store) && Enabled(c, w, Put(r, ok))
    requires RunOk(c, w, r, w.runs[r]) && Follows(c, w.runs[r])
    ensures r in Apply(c, w, Put(r, ok)).runs && Follows(c, Apply(c, w, Put(r, ok)).runs[r])
  {
    if ok {
      PutFollows(c, w, r);
    } else {
      FailFollows(c, w, r);
    }
  }

  lemma StampFollows(c: Config, w: World, r: nat)
    requires Store.WellSized(w.store) && Enabled(c, w, Stamp(r)) && Follows(c, w.runs[r])
    ensures r in Apply(c, w, Stamp(r)).runs && Follows(c, Apply(c, w, Stamp(r)).runs[r])
  {
    var run := w.runs[r];
    var j := run.input.(now := w.store.clock);
    assert IsArtifact(c.hasExec, j, Stored(run.place, run.artifact)) <==>
           IsArtifact(c.hasExec, run.input, Stored(run.place, run.artifact));
  }

  /** A step changes the record of its own run only. */
  lemma OneRunMoves(c: Config, w: World, s: Step)
    requires Store.WellSized(w.store) && Enabled(c, w, s)
    ensures
      var w' := Apply(c, w, s);
      if s.Other? then w'.runs == w.runs else s.run in w'.runs && w'.runs == w.runs[s.run := w'.runs[s.run]]
  {
  }

  lemma StepFollows(c: Config, w: World, s: Step)
    requires Inv(c, w) && Enabled(c, w, s) && AllFollow(c, w)
    ensures AllFollow(c, Apply(c, w, s))
  {
    OneRunMoves(c, w, s);
    if !s.Other? {
      assert s.run in w.runs ==> RunOk(c, w, s.run, w.runs[s.run]);
      RunFollows(c, w, s);
    }
  }

  ghost predicate Good(c: Config, w: World, r: nat) {
    r in w.runs ==> RunOk(c, w, r, w.runs[r]) && Follows(c, w.runs[r])
  }

  lemma RunFollows(c: Config, w: World, s: Step)
    requires Store.WellSized(w.store) && Enabled(c, w, s) && !s.Other? && Good(c, w, s.run)
    ensures s.run in Apply(c, w, s).runs && Follows(c, Apply(c, w, s).runs[s.run])
  {
    if s.Start? || s.Responded? || s.Put? {
      EarlyFollows(c, w, s);
    } else {
      LateFollows(c, w, s);
    }
  }

  lemma EarlyFollows(c: Config, w: World, s: Step)
    requires Store.WellSized(w.store) && Enabled(c, w, s) && (s.Start? || s.Responded? || s.Put?) && Good(c, w, s.run)
    ensures s.run in Apply(c, w, s).runs && Follows(c, Apply(c, w, s).runs[s.run])
  {
    match s
    case Start(r, v) => StartFollows(c, w, r, v);
    case Responded(r, resp, _, _, _) =>
      if resp.None? {
        FailFollows(c, w, r);
      } else {
        RespondedFollows(c, w, s);
      }
    case Put(r, ok) => PutStepFollows(c, w, r, ok);
  }

  lemma LateFollows(c: Config, w: World, s: Step)
    requires Store.WellSized(w.store) && Enabled(c, w, s) && (s.Pipe? || s.Clean? || s.Stamp? || s.Update?)
    requires Good(c, w, s.run)
    ensures s.run in Apply(c, w, s).runs && Follows(c, Apply(c, w, s).runs[s.run])
  {
    match s
    case Pipe(r, m) =>
      TarPipe.StepPreserves(w.runs[r].pos.pipe, m);
      PipeFollows(c, w, r, m);
    case Clean(r, ok) => CleanFollows(c, w, r, ok);
    case Stamp(r) => StampFollows(c, w, r);
    case Update(r, arrives, answered) => UpdateStepFollows(c, w, r, arrives, answered);
  }

  lemma {:induction false} AfterFollows(c: Config, w: World, steps: seq<Step>)
    requires Inv(c, w) && AllFollow(c, w) && Legal(c, w, steps)
    ensures AllFollow(c, After(c, w, steps))
    decreases |steps|
  {
    if steps != [] {
      StepPreserves(c, w, steps[0]);
      StepFollows(c, w, steps[0]);
      AfterFollows(c, Apply(c, w, steps[0]), steps[1..]);
    }
  }

  /** In every reachable state, each finished run has done exactly what RunOnce is proved to do on the
      answers that run got, whatever other runs and actors did in between. */
  lemma FinishedRunsAreRunOnce(c: Config, steps: seq<Step>, r: nat)
    requires Legal(c, INIT, steps) && r in After(c, INIT, steps).runs
    ensures
      var run := After(c, INIT, steps).runs[r];
      run.pos.Finished? ==> TarPipe.Ended(run.input.pipe) && Ran(c.hasExec, run.input, run.log, run.pos.ok)
  {
    Reached(c, []);
    assert After(c, INIT, []) == INIT;
    AfterFollows(c, INIT, steps);
    assert Follows(c, After(c, INIT, steps).runs[r]);
  }
}
