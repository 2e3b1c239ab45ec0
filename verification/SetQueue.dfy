/**
 The work queue of the Set controller and the feedback its own writes produce.

 A Set is reconciled from the informer cache, which may lag behind the stored clusters by any
 amount; an overlay on an outdated copy fails on its resourceVersion. A stored cluster change
 reaches the cache later and then enqueues every Set (prometheusclusterset_helpers.go); a Set status
 that changes enqueues that Set. Users are quiet: no cluster or Set is created, edited or deleted. The
 other controllers are not: phases, stamps and finalizers are written in between, at any time and any
 finite number of times. Calls may fail, also any finite number of times: a failed listing or status
 update puts the Set back on the queue, a failed overlay is only logged.
 */
module SetQueue {
  import opened Types
  import opened ClusterSet

  /** `foreign` and `faults`: writes of the other controllers, and failing calls, still to come.
      `undone`: the clusters whose overlay failed in the Set's last pass. */
  datatype World = World(
    store: map<Key, Rec>,
    cache: map<Key, Rec>,
    sets: map<string, Set>,
    nss: seq<Namespace>,
    queue: set<string>,
    foreign: nat,
    faults: nat,
    undone: map<string, set<Key>>)

  /** How a pass ends. A status update that fails may have been stored. */
  datatype Ending = Completed | ListingFailed | StatusFailed(stored: bool)

  /** The part of a cluster that the other controllers never write. */
  function Core(c: Cluster): Cluster {
    c.(status := EMPTY_STATUS, finalizers := {})
  }

  ghost function Cached(w: World): set<Cluster> {
    set k | k in w.cache :: w.cache[k].cluster
  }

  ghost predicate Parseable(s: Set) {
    Parses(s.spec.clusterSelector) && Parses(s.spec.namespaceSelector)
  }

  ghost predicate UpToDate(w: World, name: string)
    requires name in w.sets
  {
    IsStatus(w.sets[name].status, w.sets[name].spec, w.nss, Cached(w))
  }

  // ---------------------------------------------------------------- steps

  ghost predicate Deliverable(w: World, k: Key) {
    k in w.store && k in w.cache && w.cache[k] != w.store[k]
  }

  /** The informer catches up on cluster k and enqueues every Set. */
  ghost predicate Deliver(w: World, k: Key, w': World) {
    && Deliverable(w, k)
    && w' == w.(cache := w.cache[k := w.store[k]], queue := w.sets.Keys)
  }

  ghost function Undone(w: World, name: string): set<Key> {
    if name in w.undone then w.undone[name] else {}
  }

  /** The overlay of k would be stored now. */
  ghost predicate DueNow(p: Parsers, w: World, name: string, k: Key)
    requires name in w.sets
  {
    && k in w.store && k in w.cache && w.cache[k].version == w.store[k].version
    && OverlayDue(p, w.sets[name], w.nss, w.cache[k].cluster)
  }

  /** The overlays of a pass, all written but the `refused` ones. */
  ghost predicate Overlays(p: Parsers, w: World, name: string, w': World, refused: set<Key>)
    requires name in w.sets
  {
    && (forall k :: k in refused ==> DueNow(p, w, name, k))
    && w'.store.Keys == w.store.Keys
    && (forall k :: k in w.store && k in w.cache ==>
          w'.store[k] == AfterWrite(p, w.sets[name], w.nss, if k in refused then Refused else Answered,
                                    w.cache[k], w.store[k]))
    && w'.cache == w.cache && w'.nss == w.nss && w'.foreign == w.foreign
    && w'.undone == w.undone[name := refused]
  }

  /** The status update of a pass. */
  ghost predicate Reports(w: World, name: string, w': World, end: Ending)
    requires name in w.sets
  {
    && w'.sets.Keys == w.sets.Keys
    && (forall n :: n in w.sets && n != name ==> w'.sets[n] == w.sets[n])
    && w'.sets[name] == w.sets[name].(status := w'.sets[name].status)
    && (if end.StatusFailed? && !end.stored then w'.sets[name] == w.sets[name] else UpToDate(w', name))
    && w'.queue == (if end.Completed? && w'.sets[name] == w.sets[name] then w.queue - {name} else w.queue)
  }

  function Cost(refused: set<Key>, end: Ending): nat {
    |refused| + if end.Completed? then 0 else 1
  }

  /** One pass over Set `name`, as ClusterSet.Reconcile specifies it; every error but that of an overlay
      puts the request back on the queue. */
  ghost predicate Pass(p: Parsers, w: World, name: string, w': World, refused: set<Key>, end: Ending) {
    && name in w.queue && name in w.sets
    && if !Parseable(w.sets[name]) then w' == w
       else if end.ListingFailed? then w.faults > 0 && w' == w.(faults := w.faults - 1)
       else
         && Overlays(p, w, name, w', refused) && Reports(w, name, w', end)
         && Cost(refused, end) <= w.faults && w'.faults == w.faults - Cost(refused, end)
  }

  /** Another controller writes the status or the finalizers of cluster k. */
  ghost predicate Touch(w: World, k: Key, w': World) {
    && w.foreign > 0 && k in w.store && k in w'.store
    && Core(w'.store[k].cluster) == Core(w.store[k].cluster)
    && w' == w.(store := w.store[k := Rec(w.store[k].version + 1, w'.store[k].cluster)], foreign := w.foreign - 1)
  }

  /** The queue's own work. */
  ghost predicate Own(p: Parsers, w: World, w': World) {
    || (exists k: Key :: Deliver(w, k, w'))
    || (exists name: string, refused: set<Key>, end: Ending :: Pass(p, w, name, w', refused, end))
  }

  ghost predicate Next(p: Parsers, w: World, w': World) {
    Own(p, w, w') || exists k: Key :: Touch(w, k, w')
  }

  ghost predicate AllParse(w: World) {
    forall n :: n in w.sets ==> Parseable(w.sets[n])
  }

  // ---------------------------------------------------------------- invariant

  /** Nothing left to overlay for Set `name` except on copies that a delivery will refresh, and where the
      overlay failed, which is still due. */
  ghost predicate Settled(p: Parsers, w: World, name: string)
    requires name in w.sets
  {
    && UpToDate(w, name)
    && (forall k :: k in w.cache && OverlayDue(p, w.sets[name], w.nss, w.cache[k].cluster) ==>
          Deliverable(w, k) || k in Undone(w, name))
    && (forall k :: k in Undone(w, name) ==>
          k in w.cache && OverlayDue(p, w.sets[name], w.nss, w.cache[k].cluster))
  }

  ghost predicate Inv(p: Parsers, w: World) {
    && w.store.Keys == w.cache.Keys
    && (forall k :: k in w.store ==>
          Coherent(w.cache[k], w.store[k]) && KeyOf(w.cache[k].cluster) == k && KeyOf(w.store[k].cluster) == k)
    && (forall n :: n in w.sets ==> w.sets[n].name == n)
    && w.queue <= w.sets.Keys
    && (forall n :: n in w.sets && n !in w.queue ==> Settled(p, w, n))
  }

  lemma DeliverPreserves(p: Parsers, w: World, k: Key, w': World)
    requires Inv(p, w) && Deliver(w, k, w')
    ensures Inv(p, w')
  {
  }

  lemma TouchPreserves(p: Parsers, w: World, k: Key, w': World)
    requires Inv(p, w) && Touch(w, k, w')
    ensures Inv(p, w')
  {
    TouchCoheres(w, k, w');
    forall n | n in w'.sets && n !in w'.queue ensures Settled(p, w', n) {
      SettledAfterTouch(p, w, k, w', n);
    }
  }

  lemma TouchCoheres(w: World, k: Key, w': World)
    requires Touch(w, k, w') && k in w.cache && Coherent(w.cache[k], w.store[k])
    ensures Coherent(w'.cache[k], w'.store[k]) && KeyOf(w'.store[k].cluster) == KeyOf(w.store[k].cluster)
    ensures Deliverable(w', k)
  {
    assert Core(w'.store[k].cluster).ns == w'.store[k].cluster.ns;
    assert Core(w'.store[k].cluster).name == w'.store[k].cluster.name;
  }

  lemma SettledAfterTouch(p: Parsers, w: World, k: Key, w': World, n: string)
    requires Touch(w, k, w') && n in w.sets && Settled(p, w, n) && (k in w.cache ==> Deliverable(w', k))
    ensures Settled(p, w', n)
  {
    assert Cached(w') == Cached(w);
  }

  /** What overlays may do to the store: the next version of a cluster, with backup switched on. */
  ghost predicate MovedAt(w: World, w': World, k: Key)
    requires k in w.store && k in w'.store
  {
    || w'.store[k] == w.store[k]
    || (&& w'.store[k].version == w.store[k].version + 1
        && KeyOf(w'.store[k].cluster) == KeyOf(w.store[k].cluster)
        && !w.store[k].cluster.spec.backup.enabled && w'.store[k].cluster.spec.backup.enabled)
  }

  ghost predicate Moved(w: World, w': World) {
    w'.store.Keys == w.store.Keys && w'.cache == w.cache && forall k :: k in w.store ==> MovedAt(w, w', k)
  }

  /** What the overlays of a pass do to one cluster. */
  lemma OverlayAt(p: Parsers, w: World, name: string, w': World, refused: set<Key>, k: Key)
    requires Inv(p, w) && name in w.sets && Overlays(p, w, name, w', refused) && k in w.store
    ensures k in w'.store && w'.store[k] ==
      if DueNow(p, w, name, k) && k !in refused
      then Rec(w.store[k].version + 1, Overlaid(w.store[k].cluster, w.sets[name].spec.template.value, name))
      else w.store[k]
    ensures DueNow(p, w, name, k) ==> w.cache[k] == w.store[k]
  {
  }

  lemma OverlaysMove(p: Parsers, w: World, name: string, w': World, refused: set<Key>)
    requires Inv(p, w) && name in w.sets && Overlays(p, w, name, w', refused)
    ensures Moved(w, w')
  {
    forall k | k in w.store ensures MovedAt(w, w', k) {
      OverlayAt(p, w, name, w', refused, k);
    }
  }

  /** Overlays keep the cache coherent, and what it is behind on. */
  lemma MoveKeeps(w: World, w': World, k: Key)
    requires Moved(w, w') && k in w.store && k in w.cache && Coherent(w.cache[k], w.store[k])
    ensures Coherent(w'.cache[k], w'.store[k]) && KeyOf(w'.store[k].cluster) == KeyOf(w.store[k].cluster)
    ensures Deliverable(w, k) ==> Deliverable(w', k)
  {
    assert MovedAt(w, w', k);
  }

  lemma SettledAfterPass(p: Parsers, w: World, name: string, w': World, refused: set<Key>, end: Ending, n: string)
    requires Inv(p, w) && name in w.sets && Overlays(p, w, name, w', refused) && Reports(w, name, w', end)
    requires n in w'.sets && n !in w'.queue
    ensures Settled(p, w', n)
  {
    assert Cached(w') == Cached(w);
    forall k | k in w'.cache && OverlayDue(p, w'.sets[n], w'.nss, w'.cache[k].cluster)
      ensures Deliverable(w', k) || k in Undone(w', n)
    {
      OverlayLeft(p, w, name, w', refused, end, n, k);
    }
    SettledUndone(p, w, name, w', refused, end, n);
  }

  /** What is due after the pass is deliverable, or has just failed. */
  lemma OverlayLeft(p: Parsers, w: World, name: string, w': World, refused: set<Key>, end: Ending, n: string, k: Key)
    requires Inv(p, w) && name in w.sets && Overlays(p, w, name, w', refused) && Reports(w, name, w', end)
    requires n in w'.sets && n !in w'.queue && k in w.cache
    requires OverlayDue(p, w'.sets[n], w'.nss, w'.cache[k].cluster)
    ensures Deliverable(w', k) || k in Undone(w', n)
  {
    OverlaysMove(p, w, name, w', refused);
    MoveKeeps(w, w', k);
    if n == name {
      OverlayAt(p, w, name, w', refused, k);
      DueBySpec(p, w.sets[n], w'.sets[n], w.nss, w.cache[k].cluster);
    } else {
      assert Settled(p, w, n);
    }
  }

  lemma SettledUndone(p: Parsers, w: World, name: string, w': World, refused: set<Key>, end: Ending, n: string)
    requires Inv(p, w) && name in w.sets && Overlays(p, w, name, w', refused) && Reports(w, name, w', end)
    requires n in w'.sets && n !in w'.queue
    ensures UpToDate(w', n)
    ensures forall k :: k in Undone(w', n) ==>
      k in w'.cache && OverlayDue(p, w'.sets[n], w'.nss, w'.cache[k].cluster)
  {
    assert Cached(w') == Cached(w);
    if n != name {
      assert Settled(p, w, n);
    } else {
      forall k | k in refused ensures OverlayDue(p, w'.sets[n], w'.nss, w'.cache[k].cluster) {
        DueBySpec(p, w.sets[n], w'.sets[n], w.nss, w.cache[k].cluster);
      }
    }
  }

  /** A pass settles its Set, and leaves the others settled: it does not touch the cache, and a
      cluster it overlays becomes deliverable. */
  lemma PassPreserves(p: Parsers, w: World, name: string, w': World, refused: set<Key>, end: Ending)
    requires Inv(p, w) && Pass(p, w, name, w', refused, end)
    ensures Inv(p, w')
  {
    if !Parseable(w.sets[name]) {
    } else if end.ListingFailed? {
      forall n | n in w'.sets && n !in w'.queue ensures Settled(p, w', n) {
        assert Settled(p, w, n);
      }
    } else {
      OverlayingPassPreserves(p, w, name, w', refused, end);
    }
  }

  lemma OverlayingPassPreserves(p: Parsers, w: World, name: string, w': World, refused: set<Key>, end: Ending)
    requires Inv(p, w) && name in w.sets && Overlays(p, w, name, w', refused) && Reports(w, name, w', end)
    ensures Inv(p, w')
  {
    OverlaysMove(p, w, name, w', refused);
    forall k | k in w'.store
      ensures Coherent(w'.cache[k], w'.store[k]) && KeyOf(w'.store[k].cluster) == k
    {
      MoveKeeps(w, w', k);
    }
    forall n | n in w'.sets && n !in w'.queue ensures Settled(p, w', n) {
      SettledAfterPass(p, w, name, w', refused, end, n);
    }
  }

  // ---------------------------------------------------------------- measure

  ghost function Unbacked(w: World): set<Key> {
    set k | k in w.store && !w.store[k].cluster.spec.backup.enabled
  }

  ghost function Behind(w: World): set<Key> {
    set k | k in w.store && Deliverable(w, k)
  }

  ghost function OutOfDate(w: World): set<string> {
    set n | n in w.sets && !UpToDate(w, n)
  }

  /** `budget` counts the foreign writes and failing calls still to come. */
  datatype Rank = Rank(budget: nat, unbacked: nat, behind: nat, outOfDate: nat, queued: nat)

  ghost function RankOf(w: World): Rank {
    Rank(w.foreign + w.faults, |Unbacked(w)|, |Behind(w)|, |OutOfDate(w)|, |w.queue|)
  }

  /** Lexicographic. */
  predicate Below(a: Rank, b: Rank) {
    if a.budget != b.budget then a.budget < b.budget
    else if a.unbacked != b.unbacked then a.unbacked < b.unbacked
    else if a.behind != b.behind then a.behind < b.behind
    else if a.outOfDate != b.outOfDate then a.outOfDate < b.outOfDate
    else a.queued < b.queued
  }

  ghost predicate Decreases(w: World, w': World) {
    Below(RankOf(w'), RankOf(w))
  }

  lemma Shrinks<T>(a: set<T>, b: set<T>, x: T)
    requires a <= b && x in b && x !in a
    ensures |a| < |b|
  {
    assert a <= b - {x};
    SubsetSize(a, b - {x});
  }

  lemma SubsetSize<T>(a: set<T>, b: set<T>)
    requires a <= b
    ensures |a| <= |b|
  {
    if a != {} {
      var x :| x in a;
      SubsetSize(a - {x}, b - {x});
    }
  }

  lemma DeliverDecreases(p: Parsers, w: World, k: Key, w': World)
    requires Inv(p, w) && Deliver(w, k, w')
    ensures Decreases(w, w')
  {
    assert Unbacked(w') == Unbacked(w);
    Shrinks(Behind(w'), Behind(w), k);
  }

  lemma QuietPassDecreases(p: Parsers, w: World, name: string, w': World)
    requires Inv(p, w) && name in w.queue && name in w.sets && w'.faults == w.faults && w'.store == w.store
    requires Overlays(p, w, name, w', {}) && Reports(w, name, w', Completed)
    ensures Decreases(w, w')
  {
    assert Cached(w') == Cached(w);
    assert Unbacked(w') == Unbacked(w) && Behind(w') == Behind(w);
    if UpToDate(w, name) {
      StatusUnique(w.sets[name].status, w'.sets[name].status, w.sets[name].spec, w.nss, Cached(w));
      assert w'.sets == w.sets;
      assert OutOfDate(w') == OutOfDate(w);
      Shrinks(w'.queue, w.queue, name);
    } else {
      Shrinks(OutOfDate(w'), OutOfDate(w), name);
    }
  }

  lemma OverlayingPassDecreases(w: World, w': World, k: Key)
    requires Moved(w, w') && w'.faults == w.faults && w'.foreign == w.foreign
    requires k in w.store && w'.store[k] != w.store[k]
    ensures Decreases(w, w')
  {
    assert MovedAt(w, w', k);
    forall j | j in Unbacked(w') ensures j in Unbacked(w) {
      assert MovedAt(w, w', j);
    }
    assert Unbacked(w') <= Unbacked(w);
    Shrinks(Unbacked(w'), Unbacked(w), k);
  }

  lemma PassDecreases(p: Parsers, w: World, name: string, w': World, refused: set<Key>, end: Ending)
    requires Inv(p, w) && AllParse(w) && Pass(p, w, name, w', refused, end)
    ensures Decreases(w, w')
  {
    if w'.faults == w.faults {
      NoFaults(p, w, name, w', refused, end);
      GoodPassDecreases(p, w, name, w');
    }
  }

  lemma NoFaults(p: Parsers, w: World, name: string, w': World, refused: set<Key>, end: Ending)
    requires AllParse(w) && Pass(p, w, name, w', refused, end) && w'.faults == w.faults
    ensures Overlays(p, w, name, w', {}) && Reports(w, name, w', Completed)
  {
    assert refused == {} && end == Completed;
  }

  lemma GoodPassDecreases(p: Parsers, w: World, name: string, w': World)
    requires Inv(p, w) && name in w.queue && name in w.sets && w'.faults == w.faults
    requires Overlays(p, w, name, w', {}) && Reports(w, name, w', Completed)
    ensures Decreases(w, w')
  {
    OverlaysMove(p, w, name, w', {});
    if k :| k in w.store && w'.store[k] != w.store[k] {
      OverlayingPassDecreases(w, w', k);
    } else {
      assert w'.store == w.store;
      QuietPassDecreases(p, w, name, w');
    }
  }

  lemma NextPreservesAndDecreases(p: Parsers, w: World, w': World)
    requires Inv(p, w) && AllParse(w) && Next(p, w, w')
    ensures Inv(p, w') && AllParse(w') && Decreases(w, w')
  {
    if k: Key :| Touch(w, k, w') {
      TouchPreserves(p, w, k, w');
    } else if k: Key :| Deliver(w, k, w') {
      DeliverPreserves(p, w, k, w');
      DeliverDecreases(p, w, k, w');
    } else {
      var name: string, refused, end :| Pass(p, w, name, w', refused, end);
      PassPreserves(p, w, name, w', refused, end);
      PassDecreases(p, w, name, w', refused, end);
      PassParses(p, w, name, w', refused, end);
    }
  }

  lemma PassParses(p: Parsers, w: World, name: string, w': World, refused: set<Key>, end: Ending)
    requires AllParse(w) && Pass(p, w, name, w', refused, end)
    ensures AllParse(w')
  {
  }

  // ---------------------------------------------------------------- draining

  lemma {:induction false} StopsFrom(p: Parsers, run: nat -> World, i: nat, r: Rank)
    requires Inv(p, run(i)) && AllParse(run(i)) && r == RankOf(run(i))
    ensures exists n: nat :: !Next(p, run(n), run(n + 1))
    decreases r.budget, r.unbacked, r.behind, r.outOfDate, r.queued
  {
    if Next(p, run(i), run(i + 1)) {
      NextPreservesAndDecreases(p, run(i), run(i + 1));
      StopsFrom(p, run, i + 1, RankOf(run(i + 1)));
    }
  }

  ghost predicate StopsOnEverySchedule(p: Parsers, w: World) {
    forall run: nat -> World :: run(0) == w ==> exists n: nat :: !Next(p, run(n), run(n + 1))
  }

  /** From a controller start (every Set queued), and whatever the other controllers write and whatever
      calls fail meanwhile, the queue work stops on every schedule exactly when the selectors of all Sets
      parse. A Set with a bad selector is retried for ever. */
  lemma DrainsExactlyWhenSelectorsParse(p: Parsers, w: World)
    requires Inv(p, w) && w.queue == w.sets.Keys
    ensures StopsOnEverySchedule(p, w) <==> AllParse(w)
  {
    if AllParse(w) {
      forall run: nat -> World | run(0) == w
        ensures exists n: nat :: !Next(p, run(n), run(n + 1))
      {
        StopsFrom(p, run, 0, RankOf(w));
      }
    } else {
      var name :| name in w.sets && !Parseable(w.sets[name]);
      assert Pass(p, w, name, w, {}, Completed) && Next(p, w, w);
      var run: nat -> World := _ => w;
      assert run(0) == w && forall n: nat :: Next(p, run(n), run(n + 1));
    }
  }

  ghost predicate Stuck(p: Parsers, w: World) {
    forall w': World :: !Own(p, w, w')
  }

  lemma PassPossible(p: Parsers, w: World, name: string) returns (w': World)
    requires Inv(p, w) && AllParse(w) && name in w.queue
    ensures Pass(p, w, name, w', {}, Completed)
  {
    CacheUnique(p, w);
    var st := StatusExists(w.sets[name].spec, w.nss, Cached(w));
    var s := w.sets[name].(status := st);
    var overlaid := OverlaysPossible(p, w, name);
    w' := overlaid.(sets := w.sets[name := s], queue := if s == w.sets[name] then w.queue - {name} else w.queue);
    ReportPossible(w, name, w', st);
    OverlaysAside(p, w, name, overlaid, w');
  }

  lemma OverlaysPossible(p: Parsers, w: World, name: string) returns (w': World)
    requires Inv(p, w) && name in w.sets
    ensures Overlays(p, w, name, w', {})
    ensures w' == w.(store := w'.store, undone := w'.undone)
  {
    w' := w.(store := map k | k in w.store :: AfterOverlay(p, w.sets[name], w.nss, w.cache[k], w.store[k]),
             undone := w.undone[name := {}]);
  }

  lemma ReportPossible(w: World, name: string, w': World, st: SetStatus)
    requires name in w.sets && IsStatus(st, w.sets[name].spec, w.nss, Cached(w))
    requires w'.cache == w.cache && w'.nss == w.nss && w'.sets == w.sets[name := w.sets[name].(status := st)]
    requires w'.queue == if w'.sets[name] == w.sets[name] then w.queue - {name} else w.queue
    ensures Reports(w, name, w', Completed)
  {
    assert Cached(w') == Cached(w);
  }

  lemma OverlaysAside(p: Parsers, w: World, name: string, a: World, b: World)
    requires name in w.sets && Overlays(p, w, name, a, {}) && b == a.(sets := b.sets, queue := b.queue)
    ensures Overlays(p, w, name, b, {})
  {
  }

  lemma CacheUnique(p: Parsers, w: World)
    requires Inv(p, w)
    ensures UniqueKeys(Cached(w))
  {
  }

  /** Where the queue has no work left: it is empty, the cache has caught up, every Set status describes
      the stored clusters, and the overlays left undone are exactly those that failed in their Set's last
      pass. Nothing has been delivered since, or the Set would have had another pass. */
  lemma StuckMeansConverged(p: Parsers, w: World)
    requires Inv(p, w) && AllParse(w) && Stuck(p, w)
    ensures w.queue == {} && w.cache == w.store
    ensures forall n :: n in w.sets ==> UpToDate(w, n)
    ensures forall n, k :: n in w.sets && k in w.store ==>
      (OverlayDue(p, w.sets[n], w.nss, w.store[k].cluster) <==> k in Undone(w, n))
  {
    if name :| name in w.queue {
      var w' := PassPossible(p, w, name);
      assert Own(p, w, w');
      assert false;
    }
    if k :| k in w.store && w.cache[k] != w.store[k] {
      var w' := w.(cache := w.cache[k := w.store[k]], queue := w.sets.Keys);
      assert Deliver(w, k, w');
      assert Own(p, w, w');
      assert false;
    }
    forall n | n in w.sets ensures Settled(p, w, n) {
    }
  }

  /** The failing case: one queued Set with an up-to-date status, a cache that has caught up and one
      cluster to overlay. If that write fails, the pass ends the work with the overlay undone. */
  lemma FailedOverlayStaysUndone(p: Parsers, w: World, name: string, k: Key) returns (w': World)
    requires Inv(p, w) && AllParse(w) && w.queue == {name} && UpToDate(w, name) && w.cache == w.store && w.faults > 0
    requires DueNow(p, w, name, k)
    requires forall j :: DueNow(p, w, name, j) ==> j == k
    ensures Pass(p, w, name, w', {k}, Completed) && Stuck(p, w')
    ensures w'.store == w.store && OverlayDue(p, w'.sets[name], w'.nss, w'.store[k].cluster)
  {
    w' := w.(queue := {}, faults := w.faults - 1, undone := w.undone[name := {k}]);
    assert Cached(w') == Cached(w);
    assert |{k}| == 1;
    NotDueNow(p, w, name, k);
    assert Overlays(p, w, name, w', {k}) && Reports(w, name, w', Completed);
  }

  lemma NotDueNow(p: Parsers, w: World, name: string, k: Key)
    requires Inv(p, w) && name in w.sets && forall j :: DueNow(p, w, name, j) ==> j == k
    ensures forall j :: j in w.store && j != k ==>
      AfterOverlay(p, w.sets[name], w.nss, w.cache[j], w.store[j]) == w.store[j]
  {
    forall j | j in w.store && j != k
      ensures AfterOverlay(p, w.sets[name], w.nss, w.cache[j], w.store[j]) == w.store[j]
    {
      assert !DueNow(p, w, name, j);
    }
  }

  // ---------------------------------------------------------------- overlays along a run

  /** Up to other controllers' writes, `b` is `a`, or `a` overlaid once by a Set of `w` that was
      allowed to. */
  ghost predicate OverlaidAtMostOnce(p: Parsers, w: World, a: Cluster, b: Cluster) {
    || Core(b) == Core(a)
    || (&& MANAGED_BY in b.annotations
        && var n := b.annotations[MANAGED_BY];
           && n in w.sets
           && OverlayDue(p, w.sets[n], w.nss, a)
           && Core(b) == Core(Overlaid(a, w.sets[n].spec.template.value, n)))
  }

  ghost predicate Since(p: Parsers, w0: World, w: World) {
    && w.store.Keys == w0.store.Keys
    && w.nss == w0.nss
    && w.sets.Keys == w0.sets.Keys
    && (forall n :: n in w0.sets ==> w.sets[n].spec == w0.sets[n].spec)
    && (forall k :: k in w0.store ==> OverlaidAtMostOnce(p, w0, w0.store[k].cluster, w.store[k].cluster))
  }

  ghost predicate OverlayBarred(c: Cluster) {
    OptedOut(c) || c.spec.backup.enabled
  }

  ghost predicate StepOf(p: Parsers, run: seq<World>, i: nat)
    requires i + 1 < |run|
  {
    Next(p, run[i], run[i + 1])
  }

  ghost predicate IsRun(p: Parsers, run: seq<World>) {
    run != [] && forall i: nat :: i + 1 < |run| ==> StepOf(p, run, i)
  }

  /** The overlay rules and the overlay itself look at the core only. */
  lemma DueByCore(p: Parsers, set_: Set, nss: seq<Namespace>, a: Cluster, b: Cluster)
    requires Core(a) == Core(b)
    ensures OverlayDue(p, set_, nss, a) <==> OverlayDue(p, set_, nss, b)
    ensures forall t, n :: Core(Overlaid(a, t, n)) == Core(Overlaid(b, t, n))
  {
    assert a.spec == b.spec && a.annotations == b.annotations && a.labels == b.labels && a.ns == b.ns;
  }

  /** What one pass does to one stored cluster. */
  lemma PassOverlays(p: Parsers, w: World, name: string, w': World, refused: set<Key>, end: Ending, k: Key)
    requires Inv(p, w) && Pass(p, w, name, w', refused, end) && k in w.store
    ensures k in w'.store
    ensures w'.store[k] == w.store[k] ||
      (&& OverlayDue(p, w.sets[name], w.nss, w.store[k].cluster)
       && w'.store[k].cluster == Overlaid(w.store[k].cluster, w.sets[name].spec.template.value, name))
  {
    if Parseable(w.sets[name]) && !end.ListingFailed? {
      OverlayAt(p, w, name, w', refused, k);
    }
  }

  lemma OverlaidOnceMore(p: Parsers, w0: World, w: World, name: string, w': World, refused: set<Key>, end: Ending,
                         k: Key)
    requires Inv(p, w0) && Inv(p, w) && Since(p, w0, w) && Pass(p, w, name, w', refused, end) && k in w0.store
    ensures k in w'.store && OverlaidAtMostOnce(p, w0, w0.store[k].cluster, w'.store[k].cluster)
  {
    var a, b := w0.store[k].cluster, w.store[k].cluster;
    assert OverlaidAtMostOnce(p, w0, a, b);
    PassOverlays(p, w, name, w', refused, end, k);
    if w'.store[k] != w.store[k] {
      OverlaidFromCore(p, w0, a, b, w.sets[name], w'.store[k].cluster);
    }
  }

  lemma OverlaidFromCore(p: Parsers, w0: World, a: Cluster, b: Cluster, set_: Set, b': Cluster)
    requires OverlaidAtMostOnce(p, w0, a, b) && OverlayDue(p, set_, w0.nss, b)
    requires set_.name in w0.sets && w0.sets[set_.name].name == set_.name && w0.sets[set_.name].spec == set_.spec
    requires b' == Overlaid(b, set_.spec.template.value, set_.name)
    ensures OverlaidAtMostOnce(p, w0, a, b')
  {
    assert Core(b).spec == b.spec && Core(b).annotations == b.annotations;
    assert Core(b) == Core(a);
    DueByCore(p, set_, w0.nss, a, b);
    DueBySpec(p, w0.sets[set_.name], set_, w0.nss, a);
  }

  lemma DueBySpec(p: Parsers, x: Set, y: Set, nss: seq<Namespace>, c: Cluster)
    requires x.name == y.name && x.spec == y.spec
    ensures OverlayDue(p, x, nss, c) <==> OverlayDue(p, y, nss, c)
  {
  }

  lemma SinceStep(p: Parsers, w0: World, w: World, w': World)
    requires Inv(p, w0) && Inv(p, w) && Since(p, w0, w) && Next(p, w, w')
    ensures Inv(p, w') && Since(p, w0, w')
  {
    if k: Key :| Touch(w, k, w') {
      TouchPreserves(p, w, k, w');
      TouchSince(p, w0, w, k, w');
    } else if k: Key :| Deliver(w, k, w') {
      DeliverPreserves(p, w, k, w');
      SinceByStore(p, w0, w, w');
    } else {
      var name: string, refused, end :| Pass(p, w, name, w', refused, end);
      PassPreserves(p, w, name, w', refused, end);
      PassSince(p, w0, w, name, w', refused, end);
    }
  }

  lemma SinceByStore(p: Parsers, w0: World, w: World, w': World)
    requires Since(p, w0, w) && w'.store == w.store && w'.nss == w.nss && w'.sets == w.sets
    ensures Since(p, w0, w')
  {
  }

  lemma PassSince(p: Parsers, w0: World, w: World, name: string, w': World, refused: set<Key>, end: Ending)
    requires Inv(p, w0) && Inv(p, w) && Since(p, w0, w) && Pass(p, w, name, w', refused, end)
    ensures Since(p, w0, w')
  {
    forall k | k in w0.store
      ensures OverlaidAtMostOnce(p, w0, w0.store[k].cluster, w'.store[k].cluster)
    {
      OverlaidOnceMore(p, w0, w, name, w', refused, end, k);
    }
  }

  lemma TouchSince(p: Parsers, w0: World, w: World, k: Key, w': World)
    requires Since(p, w0, w) && Touch(w, k, w')
    ensures Since(p, w0, w')
  {
    var b, b' := w.store[k].cluster, w'.store[k].cluster;
    assert Core(b').annotations == Core(b).annotations;
    forall j | j in w0.store ensures OverlaidAtMostOnce(p, w0, w0.store[j].cluster, w'.store[j].cluster) {
      assert OverlaidAtMostOnce(p, w0, w0.store[j].cluster, w.store[j].cluster);
    }
  }

  lemma {:induction false} Along(p: Parsers, run: seq<World>, i: nat)
    requires IsRun(p, run) && Inv(p, run[0]) && i < |run|
    ensures Inv(p, run[i]) && Since(p, run[0], run[i])
  {
    if i > 0 {
      Along(p, run, i - 1);
      assert StepOf(p, run, i - 1);
      SinceStep(p, run[0], run[i - 1], run[i]);
    }
  }

  /** Step `i` overlays cluster `k`. */
  ghost predicate OverlaidAt(run: seq<World>, i: nat, k: Key) {
    && i + 1 < |run| && k in run[i].store && k in run[i + 1].store
    && Core(run[i + 1].store[k].cluster) != Core(run[i].store[k].cluster)
  }

  /** A step changes the core of a cluster only by switching its backup on. */
  lemma CoreChangesOnce(p: Parsers, w: World, w': World, k: Key)
    requires Inv(p, w) && Next(p, w, w') && k in w.store
    ensures k in w'.store
    ensures Core(w'.store[k].cluster) != Core(w.store[k].cluster) ==>
      !w.store[k].cluster.spec.backup.enabled && w'.store[k].cluster.spec.backup.enabled
  {
    if j: Key :| Touch(w, j, w') {
    } else if j: Key :| Deliver(w, j, w') {
    } else {
      var name: string, refused, end :| Pass(p, w, name, w', refused, end);
      PassOverlays(p, w, name, w', refused, end, k);
    }
  }

  lemma StepKeepsEnabled(p: Parsers, w: World, w': World, k: Key)
    requires Inv(p, w) && Next(p, w, w') && k in w.store && w.store[k].cluster.spec.backup.enabled
    ensures k in w'.store && w'.store[k].cluster.spec.backup.enabled
  {
    CoreChangesOnce(p, w, w', k);
    assert Core(w'.store[k].cluster).spec == w'.store[k].cluster.spec;
  }

  lemma EnabledNext(p: Parsers, run: seq<World>, i: nat, k: Key)
    requires IsRun(p, run) && Inv(p, run[0]) && i + 1 < |run|
    requires k in run[i].store && run[i].store[k].cluster.spec.backup.enabled
    ensures k in run[i + 1].store && run[i + 1].store[k].cluster.spec.backup.enabled
  {
    Along(p, run, i);
    assert StepOf(p, run, i);
    StepKeepsEnabled(p, run[i], run[i + 1], k);
  }

  lemma {:induction false} EnabledStays(p: Parsers, run: seq<World>, i: nat, j: nat, k: Key)
    requires IsRun(p, run) && Inv(p, run[0]) && i <= j < |run|
    requires k in run[i].store && run[i].store[k].cluster.spec.backup.enabled
    ensures k in run[j].store && run[j].store[k].cluster.spec.backup.enabled
    decreases j
  {
    if i < j {
      EnabledStays(p, run, i, j - 1, k);
      EnabledNext(p, run, j - 1, k);
    }
  }

  /** On any run each cluster is overlaid by at most one step, with the whole template of the Set its
      annotation names; a cluster that was opted out or already enabled keeps its core as stored. */
  lemma MembersOverlaidAtMostOnce(p: Parsers, run: seq<World>)
    requires IsRun(p, run) && Inv(p, run[0])
    ensures Inv(p, run[|run| - 1]) && Since(p, run[0], run[|run| - 1])
    ensures forall i: nat, j: nat, k :: i < j && OverlaidAt(run, i, k) ==> !OverlaidAt(run, j, k)
    ensures forall k :: k in run[0].store && OverlayBarred(run[0].store[k].cluster) ==>
      k in run[|run| - 1].store && Core(run[|run| - 1].store[k].cluster) == Core(run[0].store[k].cluster)
  {
    Along(p, run, |run| - 1);
    forall i: nat, j: nat, k | i < j && OverlaidAt(run, i, k) ensures !OverlaidAt(run, j, k) {
      NoSecondOverlay(p, run, i, j, k);
    }
    forall k | k in run[0].store && OverlayBarred(run[0].store[k].cluster)
      ensures Core(run[|run| - 1].store[k].cluster) == Core(run[0].store[k].cluster)
    {
      assert OverlaidAtMostOnce(p, run[0], run[0].store[k].cluster, run[|run| - 1].store[k].cluster);
    }
  }

  lemma NoSecondOverlay(p: Parsers, run: seq<World>, i: nat, j: nat, k: Key)
    requires IsRun(p, run) && Inv(p, run[0]) && i < j && OverlaidAt(run, i, k)
    ensures !OverlaidAt(run, j, k)
  {
    if OverlaidAt(run, j, k) {
      Along(p, run, i);
      assert StepOf(p, run, i) && StepOf(p, run, j);
      CoreChangesOnce(p, run[i], run[i + 1], k);
      EnabledStays(p, run, i + 1, j, k);
      Along(p, run, j);
      CoreChangesOnce(p, run[j], run[j + 1], k);
    }
  }

  /** Written out: the cluster keeps every field but status, finalizers, the backup block and the Set's
      annotation; and these two are as they were, or the template of one Set and its name. */
  ghost predicate KeptOrBackedUp(w: World, a: Cluster, b: Cluster) {
    && b.ns == a.ns && b.name == a.name && b.labels == a.labels && b.deleting == a.deleting
    && b.spec == a.spec.(backup := b.spec.backup)
    && (|| (b.spec == a.spec && b.annotations == a.annotations)
        || (&& !a.spec.backup.enabled && !(OPT_OUT in a.annotations && a.annotations[OPT_OUT] == "true")
            && (forall k :: k != MANAGED_BY ==>
                  (k in a.annotations <==> k in b.annotations)
                  && (k in a.annotations ==> a.annotations[k] == b.annotations[k]))
            && MANAGED_BY in b.annotations
            && var n := b.annotations[MANAGED_BY];
               n in w.sets && w.sets[n].spec.template.Some?
               && b.spec.backup == w.sets[n].spec.template.value.(enabled := true)))
  }

  lemma AtMostOnceKeeps(p: Parsers, w: World, a: Cluster, b: Cluster)
    requires OverlaidAtMostOnce(p, w, a, b)
    ensures KeptOrBackedUp(w, a, b)
  {
    if Core(b) == Core(a) {
      assert Core(a).spec == a.spec && Core(a).annotations == a.annotations && Core(a).labels == a.labels;
    } else {
      var n := b.annotations[MANAGED_BY];
      var o := Overlaid(a, w.sets[n].spec.template.value, n);
      OverlayWritesBackup(a, w.sets[n].spec.template.value, n);
      assert Core(o).spec == o.spec && Core(o).annotations == o.annotations && Core(o).labels == o.labels;
    }
  }

  /** At the end of every run each member is as at the start in every field but status, finalizers, the
      backup block and the Set's annotation, and those two come whole from one Set. */
  lemma MembersKeptOrBackedUp(p: Parsers, run: seq<World>)
    requires IsRun(p, run) && Inv(p, run[0])
    ensures run[|run| - 1].store.Keys == run[0].store.Keys
    ensures forall k :: k in run[0].store ==>
      KeptOrBackedUp(run[0], run[0].store[k].cluster, run[|run| - 1].store[k].cluster)
  {
    Along(p, run, |run| - 1);
    forall k | k in run[0].store
      ensures KeptOrBackedUp(run[0], run[0].store[k].cluster, run[|run| - 1].store[k].cluster)
    {
      AtMostOnceKeeps(p, run[0], run[0].store[k].cluster, run[|run| - 1].store[k].cluster);
    }
  }

  /** Of all Sets, exactly Set n is to overlay cluster k. */
  ghost predicate OnlyWantedBy(p: Parsers, w: World, k: Key, n: string) {
    && k in w.store && n in w.sets && OverlayDue(p, w.sets[n], w.nss, w.store[k].cluster)
    && forall m :: m in w.sets && m != n ==> !OverlayDue(p, w.sets[m], w.nss, w.store[k].cluster)
  }

  /** Up to other controllers' writes, cluster k of `w0` ends in `w` with the whole template of Set n, or as
      it was if that overlay is undone. */
  ghost predicate EndsOverlaid(w0: World, w: World, k: Key, n: string)
    requires k in w0.store && n in w0.sets && w0.sets[n].spec.template.Some?
  {
    && k in w.store
    && Core(w.store[k].cluster) ==
         if k in Undone(w, n) then Core(w0.store[k].cluster)
         else Core(Overlaid(w0.store[k].cluster, w0.sets[n].spec.template.value, n))
  }

  /** A run that has stopped has given a cluster that exactly one Set wants exactly that Set's template,
      if and only if the overlay did not fail in the Set's last pass. */
  lemma StoppedRunOverlays(p: Parsers, run: seq<World>, k: Key, n: string)
    requires IsRun(p, run) && Inv(p, run[0]) && AllParse(run[0]) && Stuck(p, run[|run| - 1])
    requires OnlyWantedBy(p, run[0], k, n)
    ensures EndsOverlaid(run[0], run[|run| - 1], k, n)
  {
    Along(p, run, |run| - 1);
    StoppedWorld(p, run[0], run[|run| - 1], k, n);
  }

  lemma StoppedWorld(p: Parsers, w0: World, w: World, k: Key, n: string)
    requires Inv(p, w0) && AllParse(w0) && Inv(p, w) && Since(p, w0, w) && Stuck(p, w) && OnlyWantedBy(p, w0, k, n)
    ensures EndsOverlaid(w0, w, k, n)
  {
    ParsesSince(p, w0, w);
    StuckMeansConverged(p, w);
    StoppedMember(p, w0, w, k, n);
  }

  lemma ParsesSince(p: Parsers, w0: World, w: World)
    requires Since(p, w0, w) && AllParse(w0)
    ensures AllParse(w)
  {
  }

  lemma StoppedMember(p: Parsers, w0: World, w: World, k: Key, n: string)
    requires Inv(p, w0) && Since(p, w0, w) && OnlyWantedBy(p, w0, k, n) && w.sets[n].name == w0.sets[n].name
    requires OverlayDue(p, w.sets[n], w.nss, w.store[k].cluster) <==> k in Undone(w, n)
    ensures EndsOverlaid(w0, w, k, n)
  {
    var a, b := w0.store[k].cluster, w.store[k].cluster;
    assert OverlaidAtMostOnce(p, w0, a, b);
    DueBySpec(p, w0.sets[n], w.sets[n], w.nss, a);
    if Core(b) == Core(a) {
      DueByCore(p, w.sets[n], w.nss, a, b);
    } else {
      assert Core(b).spec == b.spec && b.spec.backup.enabled;
    }
  }
}
