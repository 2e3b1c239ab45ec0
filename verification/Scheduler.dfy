/** The cron side of internal/backup/backup.go: Scheduler.Register over the cron library's table. */
module Scheduler {
  import opened Types

  /** What a cron entry runs, and when: RunOnce(ns, name). */
  datatype Job = Job(schedule: string, ns: string, name: string)

  /** The cron table and the scheduler's map of entry ids, as one value. */
  datatype Table = Table(lastId: nat, jobs: map<nat, Job>, entries: map<string, nat>)

  const EMPTY := Table(0, map[], map[])

  function EntryKey(ns: string, name: string): string {
    ns + "/" + name
  }

  predicate Effective(pc: Cluster) {
    pc.spec.backup.enabled && pc.spec.backup.schedule != ""
  }

  function JobOf(pc: Cluster): Job {
    Job(pc.spec.backup.schedule, pc.ns, pc.name)
  }

  /** The table without the job the cluster's entry points to. */
  function Dropped(t: Table, key: string): Table {
    if key in t.entries then t.(jobs := t.jobs - {t.entries[key]}) else t
  }

  /** The table with a new job under a new id. */
  function Added(t: Table, key: string, job: Job): Table {
    Table(t.lastId + 1, t.jobs[t.lastId + 1 := job], t.entries[key := t.lastId + 1])
  }

  /** The table after one Register call. A schedule that does not parse removes the old job, adds
      none and leaves the old id in the map. */
  function Registered(p: Parsers, t: Table, pc: Cluster): Table {
    if !Effective(pc) then t
    else
      var key := EntryKey(pc.ns, pc.name);
      if p.cron(pc.spec.backup.schedule) then Added(Dropped(t, key), key, JobOf(pc)) else Dropped(t, key)
  }

  /** The cron library: ids count up and are never reused; removing an unknown id does nothing. */
  class Cron {
    const parsers: Parsers
    var lastId: nat
    var jobs: map<nat, Job>

    constructor (p: Parsers)
      ensures parsers == p && lastId == 0 && jobs == map[]
    {
      parsers, lastId, jobs := p, 0, map[];
    }

    method AddFunc(job: Job) returns (id: nat, ok: bool)
      modifies this
      ensures ok <==> parsers.cron(job.schedule)
      ensures ok ==> id == lastId == old(lastId) + 1 && jobs == old(jobs)[id := job]
      ensures !ok ==> lastId == old(lastId) && jobs == old(jobs)
    {
      ok := parsers.cron(job.schedule);
      id := 0;
      if ok {
        lastId := lastId + 1;
        id := lastId;
        jobs := jobs[id := job];
      }
    }

    method Remove(id: nat)
      modifies this
      ensures lastId == old(lastId) && jobs == old(jobs) - {id}
    {
      jobs := jobs - {id};
    }
  }

  class BackupScheduler {
    const cron: Cron
    var entries: map<string, nat>

    constructor (c: Cron)
      ensures cron == c && entries == map[]
    {
      cron, entries := c, map[];
    }

    ghost function State(): Table
      reads this, cron
    {
      Table(cron.lastId, cron.jobs, entries)
    }

    method Register(pc: Cluster) returns (ok: bool)
      modifies this, cron
      ensures State() == Registered(cron.parsers, old(State()), pc)
      ensures !pc.spec.backup.enabled || pc.spec.backup.schedule == "" ==> ok && State() == old(State())
      ensures pc.spec.backup.enabled && pc.spec.backup.schedule != "" ==>
        (ok <==> cron.parsers.cron(pc.spec.backup.schedule))
    {
      if !pc.spec.backup.enabled || pc.spec.backup.schedule == "" {
        return true;
      }
      var key := pc.ns + "/" + pc.name;
      if key in entries {
        cron.Remove(entries[key]);
      }
      var id, added := cron.AddFunc(Job(pc.spec.backup.schedule, pc.ns, pc.name));
      if !added {
        return false;
      }
      entries := entries[key := id];
      return true;
    }
  }

  // ---------------------------------------------------------------- the meaning of a history

  function After(p: Parsers, calls: seq<Cluster>): Table {
    if calls == [] then EMPTY else Registered(p, After(p, calls[..|calls| - 1]), calls[|calls| - 1])
  }

  /** The schedule the cluster should be on: that of its last effective Register call, if it parsed. */
  function LastSchedule(p: Parsers, calls: seq<Cluster>, ns: string, name: string): Option<string> {
    if calls == [] then None
    else
      var last := calls[|calls| - 1];
      if last.ns == ns && last.name == name && Effective(last)
      then if p.cron(last.spec.backup.schedule) then Some(last.spec.backup.schedule) else None
      else LastSchedule(p, calls[..|calls| - 1], ns, name)
  }

  predicate Owns(j: Job, ns: string, name: string) {
    j.ns == ns && j.name == name
  }

  function JobsFor(jobs: map<nat, Job>, ns: string, name: string): set<nat> {
    set id | id in jobs && Owns(jobs[id], ns, name)
  }

  /** Namespace names carry no slash, so entry keys tell clusters apart. */
  predicate SlashFree(s: string) {
    '/' !in s
  }

  lemma EntryKeyInjective(ns: string, name: string, ns': string, name': string)
    requires SlashFree(ns) && SlashFree(ns') && EntryKey(ns, name) == EntryKey(ns', name')
    ensures ns == ns' && name == name'
  {
    var k, k' := EntryKey(ns, name), EntryKey(ns', name');
    assert k[|ns|] == '/' && k'[|ns'|] == '/';
    assert forall i :: 0 <= i < |ns| ==> k[i] == ns[i];
    assert forall i :: 0 <= i < |ns'| ==> k'[i] == ns'[i];
    assert ns == k[..|ns|] && ns' == k'[..|ns'|];
    assert name == k[|ns| + 1..] && name' == k'[|ns'| + 1..];
  }

  ghost predicate LiveEntry(t: Table, id: nat, j: Job) {
    && SlashFree(j.ns)
    && EntryKey(j.ns, j.name) in t.entries
    && t.entries[EntryKey(j.ns, j.name)] == id
  }

  /** Every live job is the one its cluster's entry points to; entries may also hold dead ids, but no
      two entries hold the same id. */
  ghost predicate Consistent(t: Table) {
    && (forall id :: id in t.jobs ==> LiveEntry(t, id, t.jobs[id]))
    && (forall k :: k in t.entries ==> t.entries[k] <= t.lastId)
    && (forall k, k' :: k in t.entries && k' in t.entries && t.entries[k] == t.entries[k'] ==> k == k')
  }

  /** The jobs of all other clusters. */
  function OtherJobs(jobs: map<nat, Job>, ns: string, name: string): map<nat, Job> {
    map id | id in jobs && !Owns(jobs[id], ns, name) :: jobs[id]
  }

  /** The id in the cluster's entry, dead or alive, is no other cluster's job. */
  lemma OwnEntry(t: Table, ns: string, name: string, id: nat)
    requires Consistent(t) && SlashFree(ns) && id in t.jobs
    ensures
      var key := EntryKey(ns, name);
      Owns(t.jobs[id], ns, name) <==> key in t.entries && id == t.entries[key]
  {
    var j := t.jobs[id];
    assert LiveEntry(t, id, j);
    if EntryKey(j.ns, j.name) == EntryKey(ns, name) {
      EntryKeyInjective(j.ns, j.name, ns, name);
    }
  }

  lemma DropIsLocal(t: Table, ns: string, name: string)
    requires Consistent(t) && SlashFree(ns)
    ensures Dropped(t, EntryKey(ns, name)) == t.(jobs := OtherJobs(t.jobs, ns, name))
    ensures Consistent(Dropped(t, EntryKey(ns, name)))
  {
    var t' := Dropped(t, EntryKey(ns, name));
    forall id | id in t.jobs ensures id in t'.jobs <==> !Owns(t.jobs[id], ns, name) {
      OwnEntry(t, ns, name, id);
    }
    assert t'.jobs == OtherJobs(t.jobs, ns, name);
    forall id | id in t'.jobs ensures LiveEntry(t', id, t'.jobs[id]) {
      assert LiveEntry(t, id, t.jobs[id]);
    }
  }

  lemma AddIsConsistent(t: Table, j: Job)
    requires Consistent(t) && SlashFree(j.ns)
    requires forall id :: id in t.jobs ==> !Owns(t.jobs[id], j.ns, j.name)
    ensures Consistent(Added(t, EntryKey(j.ns, j.name), j))
  {
    var key := EntryKey(j.ns, j.name);
    var t' := Added(t, key, j);
    forall id | id in t'.jobs ensures LiveEntry(t', id, t'.jobs[id]) {
      if id != t'.lastId {
        assert LiveEntry(t, id, t.jobs[id]);
        OwnEntry(t, j.ns, j.name, id);
      }
    }
  }

  /** Register keeps every other cluster's jobs, stale ids included, and replaces its own by the new
      one, or by nothing if the schedule does not parse. */
  lemma RegisterIsLocal(p: Parsers, t: Table, pc: Cluster)
    requires Consistent(t) && SlashFree(pc.ns) && Effective(pc)
    ensures Consistent(Registered(p, t, pc))
    ensures
      var others := OtherJobs(t.jobs, pc.ns, pc.name);
      Registered(p, t, pc).jobs ==
        (if p.cron(pc.spec.backup.schedule) then others[t.lastId + 1 := JobOf(pc)] else others)
    ensures t.lastId + 1 !in t.jobs
  {
    DropIsLocal(t, pc.ns, pc.name);
    if p.cron(pc.spec.backup.schedule) {
      AddIsConsistent(Dropped(t, EntryKey(pc.ns, pc.name)), JobOf(pc));
    }
    assert t.lastId + 1 in t.jobs ==> LiveEntry(t, t.lastId + 1, t.jobs[t.lastId + 1]);
  }

  /** The cluster's live jobs are what `want` says: none, or one on that schedule. */
  ghost predicate OnSchedule(jobs: map<nat, Job>, ns: string, name: string, want: Option<string>) {
    match want
    case None => JobsFor(jobs, ns, name) == {}
    case Some(schedule) =>
      exists id :: id in jobs && JobsFor(jobs, ns, name) == {id} && jobs[id] == Job(schedule, ns, name)
  }

  lemma OthersStayOnSchedule(jobs: map<nat, Job>, id: nat, j: Job, ns: string, name: string, want: Option<string>)
    requires OnSchedule(jobs, ns, name, want) && !Owns(j, ns, name) && id !in jobs
    ensures OnSchedule(OtherJobs(jobs, j.ns, j.name), ns, name, want)
    ensures OnSchedule(OtherJobs(jobs, j.ns, j.name)[id := j], ns, name, want)
  {
    var others := OtherJobs(jobs, j.ns, j.name);
    assert JobsFor(others, ns, name) == JobsFor(jobs, ns, name) == JobsFor(others[id := j], ns, name);
    if want.Some? {
      var k :| k in jobs && JobsFor(jobs, ns, name) == {k} && jobs[k] == Job(want.value, ns, name);
      assert k in others && k in others[id := j];
    }
  }

  lemma OwnOnSchedule(jobs: map<nat, Job>, id: nat, j: Job)
    ensures OnSchedule(OtherJobs(jobs, j.ns, j.name), j.ns, j.name, None)
    ensures OnSchedule(OtherJobs(jobs, j.ns, j.name)[id := j], j.ns, j.name, Some(j.schedule))
  {
    assert JobsFor(OtherJobs(jobs, j.ns, j.name)[id := j], j.ns, j.name) == {id};
  }

  predicate SlashFreeCalls(calls: seq<Cluster>) {
    forall i :: 0 <= i < |calls| ==> SlashFree(calls[i].ns)
  }

  lemma {:induction false} AlwaysConsistent(p: Parsers, calls: seq<Cluster>)
    requires SlashFreeCalls(calls)
    ensures Consistent(After(p, calls))
    decreases |calls|
  {
    if calls != [] {
      AlwaysConsistent(p, calls[..|calls| - 1]);
      if Effective(calls[|calls| - 1]) {
        RegisterIsLocal(p, After(p, calls[..|calls| - 1]), calls[|calls| - 1]);
      }
    }
  }

  lemma RegisterOnSchedule(p: Parsers, t: Table, pc: Cluster, ns: string, name: string, want: Option<string>)
    requires Consistent(t) && SlashFree(pc.ns) && Effective(pc) && OnSchedule(t.jobs, ns, name, want)
    ensures Owns(JobOf(pc), ns, name) ==>
      OnSchedule(Registered(p, t, pc).jobs, ns, name,
        if p.cron(pc.spec.backup.schedule) then Some(pc.spec.backup.schedule) else None)
    ensures !Owns(JobOf(pc), ns, name) ==> OnSchedule(Registered(p, t, pc).jobs, ns, name, want)
  {
    RegisterIsLocal(p, t, pc);
    if Owns(JobOf(pc), ns, name) {
      OwnOnSchedule(t.jobs, t.lastId + 1, JobOf(pc));
    } else {
      OthersStayOnSchedule(t.jobs, t.lastId + 1, JobOf(pc), ns, name, want);
    }
  }

  /** A Register call with a parseable schedule leaves exactly one live job for the cluster, on it. */
  lemma RegisterSchedules(p: Parsers, t: Table, pc: Cluster)
    requires Consistent(t) && SlashFree(pc.ns) && Effective(pc) && p.cron(pc.spec.backup.schedule)
    ensures Consistent(Registered(p, t, pc))
    ensures OnSchedule(Registered(p, t, pc).jobs, pc.ns, pc.name, Some(pc.spec.backup.schedule))
  {
    RegisterIsLocal(p, t, pc);
    OwnOnSchedule(t.jobs, t.lastId + 1, JobOf(pc));
  }

  /** The cron table refines the Register history: after any calls, a cluster has a live job exactly
      when its last effective Register succeeded, only one, and on that schedule. */
  lemma {:induction false} TableRefinesHistory(p: Parsers, calls: seq<Cluster>, ns: string, name: string)
    requires SlashFreeCalls(calls)
    ensures OnSchedule(After(p, calls).jobs, ns, name, LastSchedule(p, calls, ns, name))
    decreases |calls|
  {
    if calls == [] {
      assert JobsFor(EMPTY.jobs, ns, name) == {};
    } else {
      var before, last := calls[..|calls| - 1], calls[|calls| - 1];
      TableRefinesHistory(p, before, ns, name);
      if Effective(last) {
        AlwaysConsistent(p, before);
        RegisterOnSchedule(p, After(p, before), last, ns, name, LastSchedule(p, before, ns, name));
      }
    }
  }
}
