/**
 tarStreamToS3 (internal/backup/backup.go): an exec goroutine writes a tar stream into an io.Pipe
 while the caller uploads from the other end.

 The pipe has no buffer: a Write returns only when readers have taken all of it or the read end is
 closed. The goroutine runs tar, closes the write end with tar's error, and sends the error on a
 channel of capacity one. The caller uploads, closes the read end, and receives from the channel.
 Assumed of the two sides: a command fails if one of its writes fails; an upload succeeds only after
 it has read to EOF, stores what it read, and reads into non-empty buffers.
 */
module TarPipe {
  type Byte = b: int | 0 <= b < 256

  /** The goroutine: between writes, inside a Write with `rest` untaken, returned, write end closed,
      error sent. */
  datatype Exec =
    | Running(todo: seq<seq<Byte>>)
    | Writing(rest: seq<Byte>, todo: seq<seq<Byte>>)
    | Returned(ok: bool)
    | Closed(ok: bool)
    | Sent(ok: bool)

  /** The caller: inside StreamUpload, upload returned, read end closed, function returned. */
  datatype Caller =
    | Uploading
    | Uploaded(ok: bool)
    | ReadClosed(ok: bool)
    | Done(isNil: bool)

  /** `plan` is what tar will write, chunk by chunk, and `planOk` how it then exits; `taken` is what
      the uploader has read; `gaveUp` records an abort, or a failure to complete after EOF. */
  datatype State = State(
    plan: seq<seq<Byte>>,
    planOk: bool,
    exec: Exec,
    caller: Caller,
    taken: seq<Byte>,
    stored: seq<seq<Byte>>,
    gaveUp: bool)

  datatype Step =
    | BeginWrite
    | Transfer(n: nat)
    | WriteFails
    | ExecEnds
    | CloseWrite
    | SendError
    | ReadEnd(completes: bool)
    | Abort
    | CloseRead
    | Receive

  function Init(plan: seq<seq<Byte>>, planOk: bool): State {
    State(plan, planOk, Running(plan), Uploading, [], [], false)
  }

  predicate Enabled(s: State, t: Step) {
    match t
    case BeginWrite => s.exec.Running? && s.exec.todo != []
    case Transfer(n) =>
      && s.exec.Writing? && s.caller.Uploading?
      && n <= |s.exec.rest| && (n == 0 ==> s.exec.rest == [])
    case WriteFails => s.exec.Writing? && (s.caller.ReadClosed? || s.caller.Done?)
    case ExecEnds => s.exec.Running? && s.exec.todo == []
    case CloseWrite => s.exec.Returned?
    case SendError => s.exec.Closed?
    case ReadEnd(completes) => s.caller.Uploading? && (s.exec.Closed? || s.exec.Sent?)
    case Abort => s.caller.Uploading?
    case CloseRead => s.caller.Uploaded?
    case Receive => s.caller.ReadClosed? && s.exec.Sent?
  }

  function Apply(s: State, t: Step): State
    requires Enabled(s, t)
  {
    match t
    case BeginWrite => s.(exec := Writing(s.exec.todo[0], s.exec.todo[1..]))
    case Transfer(n) =>
      s.(taken := s.taken + s.exec.rest[..n],
         exec := if n == |s.exec.rest| then Running(s.exec.todo) else Writing(s.exec.rest[n..], s.exec.todo))
    case WriteFails => s.(exec := Returned(false))
    case ExecEnds => s.(exec := Returned(s.planOk))
    case CloseWrite => s.(exec := Closed(s.exec.ok))
    case SendError => s.(exec := Sent(s.exec.ok))
    case ReadEnd(completes) =>
      // CloseWithError(nil) reads as EOF, any other error as itself
      if s.exec.ok && completes then s.(caller := Uploaded(true), stored := s.stored + [s.taken])
      else s.(caller := Uploaded(false), gaveUp := s.gaveUp || s.exec.ok)
    case Abort => s.(caller := Uploaded(false), gaveUp := true)
    case CloseRead => s.(caller := ReadClosed(s.caller.ok))
    case Receive => s.(caller := Done(s.exec.ok && s.caller.ok))
  }

  function Flatten(chunks: seq<seq<Byte>>): seq<Byte> {
    if chunks == [] then [] else chunks[0] + Flatten(chunks[1..])
  }

  // ---------------------------------------------------------------- invariant

  /** What tar has still to hand over. */
  function Pending(e: Exec): seq<Byte> {
    match e
    case Running(todo) => Flatten(todo)
    case Writing(rest, todo) => rest + Flatten(todo)
    case _ => []
  }

  predicate ExecOver(e: Exec, ok: bool) {
    (e.Returned? || e.Closed? || e.Sent?) && e.ok == ok
  }

  predicate WriteEndClosed(e: Exec, ok: bool) {
    (e.Closed? || e.Sent?) && e.ok == ok
  }

  predicate UploadOver(c: Caller, ok: bool) {
    (c.Uploaded? || c.ReadClosed?) && c.ok == ok
  }

  ghost predicate Inv(s: State) {
    // conservation: nothing lost or invented while tar has not failed
    && (!ExecOver(s.exec, false) ==> s.taken + Pending(s.exec) == Flatten(s.plan))
    // tar only fails by itself, or because the uploader had gone
    && (ExecOver(s.exec, true) ==> s.planOk)
    && (ExecOver(s.exec, false) ==> !s.planOk || s.gaveUp)
    // an upload is complete only behind a clean EOF
    && (UploadOver(s.caller, true) ==>
          WriteEndClosed(s.exec, true) && s.stored == [s.taken] && !s.gaveUp)
    && (UploadOver(s.caller, false) ==> s.stored == [] && (s.gaveUp || WriteEndClosed(s.exec, false)))
    && (s.caller.Uploading? ==> s.stored == [] && !s.gaveUp)
    && (s.caller.Done? ==>
          && s.exec.Sent?
          && (s.caller.isNil ==> s.exec.ok && s.stored == [s.taken] && !s.gaveUp)
          && (!s.caller.isNil ==> s.stored == [] && (s.gaveUp || !s.exec.ok)))
  }

  lemma StepPreserves(s: State, t: Step)
    requires Inv(s) && Enabled(s, t)
    ensures Inv(Apply(s, t))
    ensures Apply(s, t).plan == s.plan && Apply(s, t).planOk == s.planOk
  {
    if t.Transfer? {
      assert s.exec.rest == s.exec.rest[..t.n] + s.exec.rest[t.n..];
      assert s.taken + s.exec.rest[..t.n] + (s.exec.rest[t.n..] + Flatten(s.exec.todo))
          == s.taken + (s.exec.rest + Flatten(s.exec.todo));
    }
  }

  // ---------------------------------------------------------------- termination

  function Weight(chunks: seq<seq<Byte>>): nat {
    if chunks == [] then 0 else |chunks[0]| + 2 + Weight(chunks[1..])
  }

  function Measure(s: State): nat {
    (match s.exec
     case Running(todo) => 3 + Weight(todo)
     case Writing(rest, todo) => 4 + |rest| + Weight(todo)
     case Returned(_) => 2
     case Closed(_) => 1
     case Sent(_) => 0)
    +
    (match s.caller
     case Uploading => 3
     case Uploaded(_) => 2
     case ReadClosed(_) => 1
     case Done(_) => 0)
  }

  lemma StepDecreases(s: State, t: Step)
    requires Enabled(s, t)
    ensures Measure(Apply(s, t)) < Measure(s)
  {
  }

  predicate Final(s: State) {
    s.exec.Sent? && s.caller.Done?
  }

  /** No deadlock: unless both parties are finished, one of them can move. */
  lemma SomeStepEnabled(s: State) returns (t: Step)
    requires !Final(s)
    ensures Enabled(s, t)
  {
    if s.caller.Uploaded? {
      t := CloseRead;
    } else if s.exec.Running? {
      t := if s.exec.todo == [] then ExecEnds else BeginWrite;
    } else if s.exec.Returned? {
      t := CloseWrite;
    } else if s.exec.Closed? {
      t := SendError;
    } else if s.exec.Sent? {
      t := if s.caller.Uploading? then ReadEnd(true) else Receive;
    } else {
      t := if s.caller.Uploading? then Transfer(|s.exec.rest|) else WriteFails;
    }
  }

  // ---------------------------------------------------------------- runs

  ghost predicate Legal(s: State, steps: seq<Step>)
    decreases |steps|
  {
    steps != [] ==> Enabled(s, steps[0]) && Legal(Apply(s, steps[0]), steps[1..])
  }

  ghost function Run(s: State, steps: seq<Step>): State
    requires Legal(s, steps)
    decreases |steps|
  {
    if steps == [] then s else Run(Apply(s, steps[0]), steps[1..])
  }

  lemma {:induction false} RunFacts(s: State, steps: seq<Step>)
    requires Inv(s) && Legal(s, steps)
    ensures Inv(Run(s, steps)) && Run(s, steps).plan == s.plan && Run(s, steps).planOk == s.planOk
    ensures |steps| + Measure(Run(s, steps)) <= Measure(s)
    decreases |steps|
  {
    if steps != [] {
      StepPreserves(s, steps[0]);
      StepDecreases(s, steps[0]);
      RunFacts(Apply(s, steps[0]), steps[1..]);
    }
  }

  /** Every interleaving of goroutine and uploader, for every chunking, every read size and every
      abort, is finite, and where it cannot go on both have finished. */
  lemma AlwaysFinishes(plan: seq<seq<Byte>>, planOk: bool, steps: seq<Step>)
    requires Legal(Init(plan, planOk), steps)
    ensures |steps| <= Weight(plan) + 6
    ensures (forall t :: !Enabled(Run(Init(plan, planOk), steps), t)) ==> Final(Run(Init(plan, planOk), steps))
  {
    RunFacts(Init(plan, planOk), steps);
    var s := Run(Init(plan, planOk), steps);
    if !Final(s) {
      var t := SomeStepEnabled(s);
    }
  }

  /** What a run of the two parties ends in. */
  ghost predicate Ended(s: State) {
    Inv(s) && Final(s)
  }

  lemma EndedMeans(s: State)
    requires Ended(s)
    ensures s.caller.isNil <==> s.planOk && !s.gaveUp
    ensures s.stored == (if s.caller.isNil then [Flatten(s.plan)] else [])
  {
    assert s.taken + [] == s.taken;
  }

  /** tarStreamToS3 returns nil exactly when tar exits cleanly and the uploader neither aborts nor
      fails to complete. Then exactly one object is stored, byte for byte what tar wrote; otherwise
      none is. */
  lemma NilMeansStoredExactly(plan: seq<seq<Byte>>, planOk: bool, steps: seq<Step>)
    requires Legal(Init(plan, planOk), steps) && Final(Run(Init(plan, planOk), steps))
    ensures
      var s := Run(Init(plan, planOk), steps);
      && (s.caller.isNil <==> planOk && !s.gaveUp)
      && s.stored == (if s.caller.isNil then [Flatten(plan)] else [])
  {
    RunFacts(Init(plan, planOk), steps);
    EndedMeans(Run(Init(plan, planOk), steps));
  }
}
