/** internal/audit: the audit table, its retention pruner and their counters. Times are nanoseconds. */
module Audit {
  import opened Types

  datatype Entry = Entry(
    cluster: string,
    operation: string,
    operator: string,
    timestamp: Option<int>,
    result: string,
    detail: string)

  datatype Row = Row(entry: Entry, timestamp: int)

  const TWO63 := 0x8000_0000_0000_0000
  const TWO64 := 0x1_0000_0000_0000_0000
  const HOUR := 3_600_000_000_000
  const DAY := 24 * HOUR

  /** int64 arithmetic wraps around. */
  function Wrap64(x: int): (r: int)
    ensures -TWO63 <= r < TWO63
    ensures -TWO63 <= x < TWO63 ==> r == x
  {
    (x + TWO63) % TWO64 - TWO63
  }

  /** -time.Duration(days) * 24 * time.Hour. */
  function RetentionOffset(days: int): int {
    Wrap64(Wrap64(Wrap64(-days) * 24) * HOUR)
  }

  function Cutoff(now: int, days: int): int {
    now + RetentionOffset(days)
  }

  function Kept(rows: seq<Row>, before: int): seq<Row> {
    if rows == [] then []
    else (if rows[0].timestamp < before then [] else [rows[0]]) + Kept(rows[1..], before)
  }

  // ---------------------------------------------------------------- the logger

  /** The table with the two totals the metrics keep. */
  datatype State = State(rows: seq<Row>, recorded: nat, pruned: nat)

  /** `fate`: an INSERT may commit although its call returns an error. `ok`: the DELETE has committed;
      `reported`: and its number of rows came back. */
  datatype Op =
    | Record(e: Entry, now: int, fate: Fate)
    | Tick(now: int, ok: bool, reported: bool)

  const EMPTY := State([], 0, 0)

  function Stamped(e: Entry, now: int): Row {
    Row(e, if e.timestamp.Some? then e.timestamp.value else now)
  }

  function Deleted(rows: seq<Row>, before: int): int {
    |rows| - |Kept(rows, before)|
  }

  function Apply(days: int, s: State, op: Op): State {
    match op
    case Record(e, now, fate) =>
      if fate.Refused? then s
      else s.(rows := s.rows + [Stamped(e, now)], recorded := if fate.Answered? then s.recorded + 1 else s.recorded)
    case Tick(now, ok, reported) =>
      if !ok then s
      else
        KeptShorter(s.rows, Cutoff(now, days));
        State(Kept(s.rows, Cutoff(now, days)), s.recorded,
              if reported then s.pruned + Deleted(s.rows, Cutoff(now, days)) else s.pruned)
  }

  lemma KeptShorter(rows: seq<Row>, before: int)
    ensures |Kept(rows, before)| <= |rows|
  {
  }

  class Logger {
    const retentionDays: int
    var rows: seq<Row>
    var recorded: nat
    var pruned: nat
    var rowsGauge: int

    constructor (days: int)
      ensures retentionDays == days && Contents() == EMPTY
    {
      retentionDays, rows, recorded, pruned, rowsGauge := days, [], 0, 0, 0;
    }

    ghost function Contents(): State
      reads this
    {
      State(rows, recorded, pruned)
    }

    /** Record: only an answered INSERT is counted. */
    method Insert(e: Entry, now: int, fate: Fate) returns (ok: bool)
      modifies this
      ensures Contents() == Apply(retentionDays, old(Contents()), Record(e, now, fate)) && (ok <==> fate.Answered?)
      ensures rows == old(rows) +
        (if fate == Refused then [] else [Row(e, if e.timestamp == None then now else e.timestamp.value)])
    {
      var ts := now;
      if e.timestamp.Some? {
        ts := e.timestamp.value;
      }
      if fate.Refused? {
        return false;
      }
      rows := rows + [Row(e, ts)];
      if fate.Lost? {
        return false;
      }
      recorded := recorded + 1;
      return true;
    }

    /** Prune: the rows may be gone although their number could not be read. */
    method Prune(before: int, ok: bool, reported: bool) returns (n: int, err: bool)
      modifies this
      ensures rows == (if ok then Kept(old(rows), before) else old(rows)) && recorded == old(recorded)
      ensures err <==> !(ok && reported)
      ensures n == (if err then 0 else Deleted(old(rows), before)) && pruned == old(pruned) + n
      ensures rowsGauge == old(rowsGauge)
    {
      if !ok {
        return 0, true;
      }
      var kept := Kept(rows, before);
      KeptShorter(rows, before);
      n := |rows| - |kept|;
      rows := kept;
      if !reported {
        return 0, true;
      }
      pruned := pruned + n;
      return n, false;
    }

    /** tick. */
    method PruneTick(now: int, ok: bool, reported: bool, counted: bool)
      modifies this
      ensures Contents() == Apply(retentionDays, old(Contents()), Tick(now, ok, reported))
      ensures rowsGauge == if ok && reported && counted then |rows| else old(rowsGauge)
    {
      var cutoff := now + Wrap64(Wrap64(Wrap64(-retentionDays) * 24) * HOUR);
      var n, err := Prune(cutoff, ok, reported);
      if err {
        return;
      }
      if counted {
        rowsGauge := |rows|;
      }
    }
  }

  // ---------------------------------------------------------------- retention

  lemma {:induction false} KeptExactly(rows: seq<Row>, before: int, r: Row)
    ensures r in Kept(rows, before) <==> r in rows && r.timestamp >= before
  {
    if rows != [] {
      KeptExactly(rows[1..], before, r);
      assert rows == [rows[0]] + rows[1..];
    }
  }

  /** Row by row, copies included: a prune keeps those at or after the cutoff and takes all the others. */
  lemma {:induction false} KeptCopies(rows: seq<Row>, before: int, r: Row)
    ensures multiset(Kept(rows, before))[r] == if r.timestamp >= before then multiset(rows)[r] else 0
  {
    if rows != [] {
      KeptCopies(rows[1..], before, r);
      assert rows == [rows[0]] + rows[1..];
    }
  }

  /** The retention promise: a prune removes only rows older than `days` days. */
  ghost predicate KeepsWindow(days: int) {
    forall rows: seq<Row>, now: int, r: Row ::
      r in rows && r.timestamp >= now - days * DAY ==> r in Kept(rows, Cutoff(now, days))
  }

  /** It is kept exactly up to 106751 days; from there on the int64 product wraps and rows inside the
      window go. */
  lemma WindowKeptUpTo106751Days(days: int)
    requires 0 < days < TWO63
    ensures KeepsWindow(days) <==> days <= 106751
    ensures days <= 106751 ==> forall now :: Cutoff(now, days) == now - days * DAY
  {
    if days <= 106751 {
      forall rows: seq<Row>, now: int, r: Row | r in rows && r.timestamp >= now - days * DAY
        ensures r in Kept(rows, Cutoff(now, days))
      {
        KeptExactly(rows, Cutoff(now, days), r);
      }
    } else {
      assert days * DAY > TWO63;
      var r := Row(Entry("", "", "", None, "", ""), -days * DAY);
      assert r in [r] && r.timestamp >= 0 - days * DAY;
      KeptExactly([r], Cutoff(0, days), r);
    }
  }

  // ---------------------------------------------------------------- conservation

  function After(days: int, ops: seq<Op>): State {
    if ops == [] then EMPTY else Apply(days, After(days, ops[..|ops| - 1]), ops[|ops| - 1])
  }

  /** Rows deleted by prunes whose row count the driver did not report. */
  function Unreported(days: int, ops: seq<Op>): int {
    if ops == [] then 0
    else
      var before, op := ops[..|ops| - 1], ops[|ops| - 1];
      Unreported(days, before)
      + if op.Tick? && op.ok && !op.reported then Deleted(After(days, before).rows, Cutoff(op.now, days)) else 0
  }

  /** Rows inserted whose call returned an error. */
  function Unanswered(ops: seq<Op>): nat {
    if ops == [] then 0
    else
      var op := ops[|ops| - 1];
      Unanswered(ops[..|ops| - 1]) + if op.Record? && op.fate.Lost? then 1 else 0
  }

  /** Every row ever inserted, counted or not, is live, counted as pruned, or pruned without a count. */
  lemma {:induction false} RowsConserved(days: int, ops: seq<Op>)
    ensures
      var s := After(days, ops);
      s.recorded + Unanswered(ops) == |s.rows| + s.pruned + Unreported(days, ops)
    decreases |ops|
  {
    if ops != [] {
      RowsConserved(days, ops[..|ops| - 1]);
    }
  }

  /** The INSERT or the prune at step `i` has not escaped the counters. */
  predicate NotLost(days: int, ops: seq<Op>, i: nat)
    requires i < |ops|
  {
    match ops[i]
    case Record(_, _, fate) => !fate.Lost?
    case Tick(now, ok, reported) => ok && !reported ==> Deleted(After(days, ops[..i]).rows, Cutoff(now, days)) == 0
  }

  lemma {:induction false} NothingLost(days: int, ops: seq<Op>)
    ensures Unreported(days, ops) >= 0
    ensures Unreported(days, ops) == 0 && Unanswered(ops) == 0 <==> forall i: nat :: i < |ops| ==> NotLost(days, ops, i)
    decreases |ops|
  {
    if ops != [] {
      var n := |ops| - 1;
      var before := ops[..n];
      NothingLost(days, before);
      KeptShorter(After(days, before).rows, if ops[n].Tick? then Cutoff(ops[n].now, days) else 0);
      assert NotLost(days, ops, n) <==>
        Unreported(days, ops) == Unreported(days, before) && Unanswered(ops) == Unanswered(before);
      forall i: nat | i < n ensures NotLost(days, ops, i) <==> NotLost(days, before, i) {
        assert before[..i] == ops[..i];
      }
    }
  }

  /** The counters and the table agree exactly when as many rows came in without being counted as went
      out without being counted; so they do when neither ever happens, and when every call is answered
      and every row count reported. */
  lemma CountersAgree(days: int, ops: seq<Op>)
    ensures
      var s := After(days, ops);
      s.recorded == |s.rows| + s.pruned <==> Unanswered(ops) == Unreported(days, ops)
    ensures (forall i: nat :: i < |ops| ==> NotLost(days, ops, i)) ==>
      var s := After(days, ops);
      s.recorded == |s.rows| + s.pruned
    ensures (forall i :: 0 <= i < |ops| ==>
               (ops[i].Record? ==> !ops[i].fate.Lost?) && (ops[i].Tick? && ops[i].ok ==> ops[i].reported)) ==>
      var s := After(days, ops);
      s.recorded == |s.rows| + s.pruned
  {
    RowsConserved(days, ops);
    NothingLost(days, ops);
    if forall i :: 0 <= i < |ops| ==>
         (ops[i].Record? ==> !ops[i].fate.Lost?) && (ops[i].Tick? && ops[i].ok ==> ops[i].reported) {
      assert forall i: nat :: i < |ops| ==> NotLost(days, ops, i);
    }
  }

  /** With only one kind of loss the condition is per step: when no INSERT is lost, the counters agree
      exactly if no prune without a count removed a row, and when every count is reported, exactly if no
      INSERT is lost. */
  lemma OneKindOfLoss(days: int, ops: seq<Op>)
    requires Unanswered(ops) == 0 || Unreported(days, ops) == 0
    ensures
      var s := After(days, ops);
      s.recorded == |s.rows| + s.pruned <==> forall i: nat :: i < |ops| ==> NotLost(days, ops, i)
  {
    RowsConserved(days, ops);
    NothingLost(days, ops);
  }
}
