/** Scheduler.RunOnce and snapshot (internal/backup/backup.go): what one run does, with the answers it
    gets as inputs. Runs interleaved over the shared store are in BackupProtocol. */
module BackupRun {
  import opened Types
  import TarPipe

  /** The admin API's JSON answer, if the body decodes. */
  datatype Answer = Answer(status: string, name: string)

  /** Everything a run does not decide: the cluster it reads, the answers it gets, how tar's pipe went,
      the clock. `holder` is the replica whose disk the snapshot landed on, since the request went to
      the Service. */
  datatype Input = Input(
    pc: Option<Cluster>,
    body: Option<seq<TarPipe.Byte>>,
    answer: Option<Answer>,
    holder: nat,
    putOk: bool,
    pipe: TarPipe.State,
    rmOk: bool,
    update: Fate,
    stamp: string,
    now: nat)

  /** Where an object is stored. */
  datatype Place = Place(bucket: string, key: string)

  datatype Effect =
    | Snapshotted(name: string)
    | Stored(place: Place, bytes: seq<TarPipe.Byte>)
    | TarFailed(name: string)
    | Removed(name: string)
    | RmFailed(name: string)
    | Stamped(time: nat)
    | Counted(success: bool)

  function BackupKey(prefix: string, name: string, stamp: string): string {
    prefix + "/" + name + "/" + stamp + ".tar"
  }

  /** The place of a cluster's object. */
  function PlaceOf(pc: Cluster, stamp: string): Place {
    Place(pc.spec.backup.bucket, BackupKey(pc.spec.backup.prefix, pc.name, stamp))
  }

  /** The object lies in the cluster's bucket, under the prefix and the cluster's name. */
  predicate LiesUnder(pc: Cluster, place: Place) {
    place.bucket == pc.spec.backup.bucket && pc.spec.backup.prefix + "/" + pc.name + "/" <= place.key
  }

  lemma PlaceLiesUnder(pc: Cluster, stamp: string)
    ensures LiesUnder(pc, PlaceOf(pc, stamp))
  {
    var head := pc.spec.backup.prefix + "/" + pc.name + "/";
    assert PlaceOf(pc, stamp).key == head + (stamp + ".tar");
  }

  /** The snapshot name, "" unless the answer decodes and says success. */
  function ParsedName(answer: Option<Answer>): string {
    if answer.Some? && answer.value.status == "success" then answer.value.name else ""
  }

  // ---------------------------------------------------------------- order of effects

  predicate HasStored(es: seq<Effect>) {
    exists k :: 0 <= k < |es| && es[k].Stored?
  }

  predicate Late(e: Effect) {
    e.Stamped? || e.Removed? || e.RmFailed?
  }

  /** The stamp and the rm come after a stored object, there is at most one object, and nothing follows
      the count. */
  predicate Disciplined(es: seq<Effect>) {
    && (forall k :: 0 <= k < |es| && Late(es[k]) ==> HasStored(es[..k]))
    && (forall k :: 0 <= k < |es| && es[k].Stored? ==> !HasStored(es[..k]))
    && (forall k :: 0 <= k < |es| - 1 ==> !es[k].Counted?)
  }

  predicate Ended(es: seq<Effect>) {
    es != [] && es[|es| - 1].Counted?
  }

  /** A whole run: disciplined, with its count at the end. */
  predicate Complete(es: seq<Effect>, success: bool) {
    Disciplined(es) && Ended(es) && es[|es| - 1] == Counted(success)
  }

  lemma Extend(es: seq<Effect>, e: Effect)
    requires Disciplined(es) && !Ended(es)
    requires (Late(e) ==> HasStored(es)) && (e.Stored? ==> !HasStored(es))
    ensures Disciplined(es + [e]) && (Ended(es + [e]) <==> e.Counted?)
    ensures HasStored(es + [e]) <==> HasStored(es) || e.Stored?
    ensures forall x :: x in es + [e] <==> x in es || x == e
  {
    var es' := es + [e];
    assert es'[..|es|] == es;
    forall k | 0 <= k < |es| ensures es'[..k] == es[..k] {
    }
    if k :| 0 <= k < |es| && es[k].Stored? {
      assert es'[k].Stored?;
    }
    if e.Stored? {
      assert es'[|es|].Stored?;
    }
  }

  // ---------------------------------------------------------------- one run

  /** The snapshot is shipped by tar: there is an executor, and the answer says success and names it.
      Anything else goes to the fallback upload of the response body. */
  predicate Tarred(hasExec: bool, i: Input) {
    && i.pc.Some? && i.body.Some? && hasExec
    && i.answer.Some? && i.answer.value.status == "success" && i.answer.value.name != ""
  }

  /** The object a run may store. */
  predicate IsArtifact(hasExec: bool, i: Input, e: Effect) {
    && i.pc.Some? && i.body.Some?
    && e == Stored(PlaceOf(i.pc.value, i.stamp),
                   if Tarred(hasExec, i) then TarPipe.Flatten(i.pipe.plan) else i.body.value)
  }

  /** snapshot. */
  method Snapshot(i: Input) returns (ok: bool, name: string)
    ensures ok <==> i.body.Some?
    ensures ok ==> name == ParsedName(i.answer)
  {
    if i.body.None? {
      return false, "";
    }
    if i.answer.Some? && i.answer.value.status == "success" {
      return true, i.answer.value.name;
    }
    return true, "";
  }

  /** The snapshot directory is gone from the replica that held it, or a tar, upload or rm of it failed. */
  predicate Accounted(i: Input, log: seq<Effect>) {
    var name := ParsedName(i.answer);
    (i.holder == 0 && Removed(name) in log) || TarFailed(name) in log || RmFailed(name) in log
  }

  /** tarStreamToS3, after its pipe has run. */
  method TarStreamToS3(pipe: TarPipe.State, place: Place, name: string, before: seq<Effect>)
    returns (log: seq<Effect>, ok: bool)
    requires TarPipe.Ended(pipe) && Disciplined(before) && !Ended(before) && !HasStored(before)
    ensures Disciplined(log) && !Ended(log) && (ok <==> HasStored(log))
    ensures ok <==> pipe.planOk && !pipe.gaveUp
    ensures forall e :: e in log <==>
      e in before || e == if ok then Stored(place, TarPipe.Flatten(pipe.plan)) else TarFailed(name)
  {
    TarPipe.EndedMeans(pipe);
    ok := pipe.caller.isNil;
    log := Add(before, if ok then Stored(place, pipe.stored[0]) else TarFailed(name));
  }

  /** cleanupSnapshot: a failure is noted and not reported. */
  method CleanupSnapshot(name: string, rmOk: bool, before: seq<Effect>) returns (log: seq<Effect>)
    requires Disciplined(before) && !Ended(before) && HasStored(before)
    ensures Disciplined(log) && !Ended(log) && HasStored(log)
    ensures forall e :: e in log <==> e in before || e == if rmOk then Removed(name) else RmFailed(name)
  {
    log := Add(before, if rmOk then Removed(name) else RmFailed(name));
  }

  /** The upload and the cleanup: RunOnce between the snapshot and the status update. */
  method Ship(hasExec: bool, i: Input, before: seq<Effect>) returns (log: seq<Effect>, ok: bool)
    requires TarPipe.Ended(i.pipe) && i.pc.Some? && i.body.Some?
    requires Disciplined(before) && !Ended(before) && !HasStored(before)
    requires forall e :: e in before ==> e.Snapshotted?
    ensures Disciplined(log) && !Ended(log) && (ok <==> HasStored(log))
    ensures ok <==> if Tarred(hasExec, i) then i.pipe.planOk && !i.pipe.gaveUp else i.putOk
    ensures forall e :: e in log ==> !e.Stamped? && (e.Stored? ==> IsArtifact(hasExec, i, e))
    ensures Tarred(hasExec, i) && (i.pipe.planOk ==> i.holder == 0) ==> Accounted(i, log)
  {
    var name := ParsedName(i.answer);
    var pc := i.pc.value;
    var place := Place(pc.spec.backup.bucket, BackupKey(pc.spec.backup.prefix, pc.name, i.stamp));
    if !hasExec || name == "" {
      if !i.putOk {
        return before, false;
      }
      log := Add(before, Stored(place, i.body.value));
    } else {
      log, ok := TarStreamToS3(i.pipe, place, name, before);
      if !ok {
        return;
      }
      log := CleanupSnapshot(name, i.rmOk, log);
    }
    return log, true;
  }

  /** The status update, if the object is stored, and the deferred count. */
  method Conclude(before: seq<Effect>, ok: bool, update: Fate, now: nat) returns (log: seq<Effect>, success: bool)
    requires Disciplined(before) && !Ended(before) && (ok ==> HasStored(before))
    requires forall e :: e in before ==> !e.Stamped?
    ensures Complete(log, success) && (success <==> ok && update.Answered?)
    ensures forall t :: Stamped(t) in log <==> ok && !update.Refused? && t == now
    ensures forall e :: e in before ==> e in log
    ensures forall e :: e in log && e.Stored? ==> e in before
    ensures HasStored(log) <==> HasStored(before)
  {
    success := ok && update.Answered?;
    log := UpdateStatus(before, ok && !update.Refused?, now);
    log := Add(log, Counted(success));
  }

  /** The status update; `stamps` if there is one to make and the store takes it. */
  method UpdateStatus(before: seq<Effect>, stamps: bool, now: nat) returns (log: seq<Effect>)
    requires Disciplined(before) && !Ended(before) && (stamps ==> HasStored(before))
    ensures Disciplined(log) && !Ended(log) && (HasStored(log) <==> HasStored(before))
    ensures forall e :: e in log <==> e in before || (stamps && e == Stamped(now))
  {
    log := before;
    if stamps {
      log := Add(log, Stamped(now));
    }
  }

  /** The object is stored: every call up to the status update that is needed has succeeded. */
  predicate Shipped(hasExec: bool, i: Input) {
    && i.pc.Some? && i.body.Some?
    && if Tarred(hasExec, i) then i.pipe.planOk && !i.pipe.gaveUp else i.putOk
  }

  /** What a run that got the answers `i` has done. It succeeds exactly when every call it needs does; an
      answer other than success is not an error but leads to the fallback. The only object it stores is
      what tar wrote, or the response body; the stamp stands exactly when the object is stored and the
      status update reaches the store, answered or not. */
  ghost predicate Ran(hasExec: bool, i: Input, log: seq<Effect>, success: bool) {
    && Complete(log, success)
    && (success <==> Shipped(hasExec, i) && i.update.Answered?)
    && (HasStored(log) <==> Shipped(hasExec, i))
    && (forall e :: e in log && e.Stored? ==> IsArtifact(hasExec, i, e) && LiesUnder(i.pc.value, e.place))
    && (forall t :: Stamped(t) in log <==> Shipped(hasExec, i) && !i.update.Refused? && t == i.now)
    && (Tarred(hasExec, i) && (i.pipe.planOk ==> i.holder == 0) ==> Accounted(i, log))
  }

  method RunOnce(hasExec: bool, i: Input) returns (log: seq<Effect>, success: bool)
    requires TarPipe.Ended(i.pipe)
    ensures Ran(hasExec, i, log, success)
  {
    if i.pc.None? {
      return [Counted(false)], false;
    }
    var ok, name := Snapshot(i);
    if !ok {
      return [Counted(false)], false;
    }
    log, ok := Ship(hasExec, i, if name == "" then [] else [Snapshotted(name)]);
    PlaceLiesUnder(i.pc.value, i.stamp);
    log, success := Conclude(log, ok, i.update, i.now);
  }

  method Add(es: seq<Effect>, e: Effect) returns (es': seq<Effect>)
    requires Disciplined(es) && !Ended(es)
    requires (Late(e) ==> HasStored(es)) && (e.Stored? ==> !HasStored(es))
    ensures es' == es + [e]
    ensures Disciplined(es') && (Ended(es') <==> e.Counted?)
    ensures HasStored(es') <==> HasStored(es) || e.Stored?
    ensures forall x :: x in es' <==> x in es || x == e
  {
    Extend(es, e);
    es' := es + [e];
  }

  // ---------------------------------------------------------------- byteReader

  /** The reader over the response body that the fallback upload consumes. */
  class ByteReader {
    const b: seq<TarPipe.Byte>
    var i: nat

    ghost predicate Valid()
      reads this
    {
      i <= |b|
    }

    /** What has not been read yet. */
    ghost function Rest(): seq<TarPipe.Byte>
      reads this
      requires Valid()
    {
      b[i..]
    }

    constructor (b: seq<TarPipe.Byte>)
      ensures Valid() && this.b == b && Rest() == b
    {
      this.b, i := b, 0;
    }

    /** Read: fills the front of `p` and moves on; EOF only when nothing is left. */
    method Read(p: array<TarPipe.Byte>) returns (n: nat, eof: bool)
      requires Valid()
      modifies this, p
      ensures Valid() && n <= p.Length
      ensures eof <==> old(Rest()) == []
      ensures n == (if |old(Rest())| < p.Length then |old(Rest())| else p.Length)
      ensures old(Rest()) == p[..n] + Rest()
      ensures p[n..] == old(p[..])[n..]
    {
      if i >= |b| {
        return 0, true;
      }
      n := if |b| - i < p.Length then |b| - i else p.Length;
      eof := false;
      for k := 0 to n
        invariant i == old(i) && i + n <= |b|
        invariant p[..k] == b[i..i + k]
        invariant p[k..] == old(p[..])[k..]
      {
        p[k] := b[i + k];
      }
      i := i + n;
    }
  }
}
