/** internal/ha: health-check passes, and what a whole history of them can have done. */
module HealthCheck {
  import opened Types

  type Key = (string, string)

  datatype Pod = Pod(ns: string, name: string, labels: map<string, string>, ip: string)

  datatype Answer = Unreachable | Status(code: int)

  /** Everything a pass meets but does not decide: the clusters and the pods there are (None: the listing
      failed), the probe answers, which deletes and status updates succeed, and the clock. */
  datatype Pass = Pass(
    clusters: Option<seq<Cluster>>,
    pods: Cluster -> Option<seq<Pod>>,
    probe: Pod -> Answer,
    deletes: Pod -> bool,
    updates: Pod -> bool,
    now: nat)

  datatype Effect =
    | Probed(key: Key, pod: Pod, answer: Answer)
    | Counted(key: Key)
    | DeleteTried(key: Key, pod: Pod, ok: bool)
    | StampTried(key: Key, time: nat, ok: bool)

  predicate Failed(a: Answer) {
    a.Unreachable? || a.code >= 500
  }

  /** The pods the API server lists for a cluster: same namespace, instance label equal to its name. */
  predicate Belongs(pod: Pod, key: Key) {
    pod.ns == key.0 && "app.kubernetes.io/instance" in pod.labels && pod.labels["app.kubernetes.io/instance"] == key.1
  }

  function FailoverEffects(pass: Pass, key: Key, pod: Pod): seq<Effect> {
    [Counted(key), DeleteTried(key, pod, pass.deletes(pod))]
    + if pass.deletes(pod) then [StampTried(key, pass.now, pass.updates(pod))] else []
  }

  function PodEffects(pass: Pass, key: Key, pod: Pod): seq<Effect> {
    if !Belongs(pod, key) || pod.ip == "" then []
    else
      [Probed(key, pod, pass.probe(pod))]
      + if Failed(pass.probe(pod)) then FailoverEffects(pass, key, pod) else []
  }

  function PodsEffects(pass: Pass, key: Key, pods: seq<Pod>): seq<Effect> {
    if pods == [] then []
    else PodsEffects(pass, key, pods[..|pods| - 1]) + PodEffects(pass, key, pods[|pods| - 1])
  }

  function ClusterEffects(pass: Pass, pc: Cluster): seq<Effect> {
    match pass.pods(pc)
    case None => []
    case Some(pods) => PodsEffects(pass, (pc.ns, pc.name), pods)
  }

  function ClustersEffects(pass: Pass, cs: seq<Cluster>): seq<Effect> {
    if cs == [] then [] else ClustersEffects(pass, cs[..|cs| - 1]) + ClusterEffects(pass, cs[|cs| - 1])
  }

  function PassEffects(pass: Pass): seq<Effect> {
    if pass.clusters.None? then [] else ClustersEffects(pass, pass.clusters.value)
  }

  function HistoryEffects(passes: seq<Pass>): seq<Effect> {
    if passes == [] then [] else HistoryEffects(passes[..|passes| - 1]) + PassEffects(passes[|passes| - 1])
  }

  // ---------------------------------------------------------------- counters and stamps of a log

  function Get(m: map<Key, nat>, k: Key): nat {
    if k in m then m[k] else 0
  }

  /** The failover counters after a log. */
  function Tally(log: seq<Effect>): map<Key, nat> {
    if log == [] then map[]
    else
      var m, e := Tally(log[..|log| - 1]), log[|log| - 1];
      if e.Counted? then m[e.key := Get(m, e.key) + 1] else m
  }

  /** lastFailoverTime of every cluster after a log. */
  function Stamps(log: seq<Effect>): map<Key, nat> {
    if log == [] then map[]
    else
      var m, e := Stamps(log[..|log| - 1]), log[|log| - 1];
      if e.StampTried? && e.ok then m[e.key := e.time] else m
  }

  class HealthChecker {
    var failovers: map<Key, nat>
    var stamps: map<Key, nat>
    ghost var log: seq<Effect>

    ghost predicate Valid()
      reads this
    {
      failovers == Tally(log) && stamps == Stamps(log)
    }

    constructor ()
      ensures Valid() && log == []
    {
      failovers, stamps, log := map[], map[], [];
    }

    method TriggerFailover(pass: Pass, key: Key, pod: Pod)
      requires Valid()
      modifies this
      ensures Valid() && log == old(log) + FailoverEffects(pass, key, pod)
    {
      Snoc(Counted(key));
      failovers := failovers[key := Get(failovers, key) + 1];
      var deleted := pass.deletes(pod);
      Snoc(DeleteTried(key, pod, deleted));
      if deleted {
        StampFailover(key, pass.now, pass.updates(pod));
      }
    }

    /** The status update of triggerFailover, after a delete that succeeded. */
    method StampFailover(key: Key, now: nat, updated: bool)
      requires Valid()
      modifies this
      ensures Valid() && log == old(log) + [StampTried(key, now, updated)]
    {
      Snoc(StampTried(key, now, updated));
      if updated {
        stamps := stamps[key := now];
      }
    }

    ghost method Snoc(e: Effect)
      modifies this`log
      ensures log == old(log) + [e]
      ensures Tally(log) ==
        if e.Counted? then old(Tally(log))[e.key := Get(old(Tally(log)), e.key) + 1] else old(Tally(log))
      ensures Stamps(log) == if e.StampTried? && e.ok then old(Stamps(log))[e.key := e.time] else old(Stamps(log))
    {
      ghost var was := log;
      log := log + [e];
      assert log[..|log| - 1] == was;
    }

    /** The body of checkCluster's loop; the server lists only the pods that belong to the cluster. */
    method CheckPod(pass: Pass, key: Key, pod: Pod)
      requires Valid()
      modifies this
      ensures Valid() && log == old(log) + PodEffects(pass, key, pod)
    {
      if !Belongs(pod, key) || pod.ip == "" {
        return;
      }
      var answer := pass.probe(pod);
      Snoc(Probed(key, pod, answer));
      if answer.Unreachable? || answer.code >= 500 {
        TriggerFailover(pass, key, pod);
      }
    }

    method CheckCluster(pass: Pass, pc: Cluster)
      requires Valid()
      modifies this
      ensures Valid() && log == old(log) + ClusterEffects(pass, pc)
    {
      var listing := pass.pods(pc);
      if listing.None? {
        return;
      }
      var key := (pc.ns, pc.name);
      var pods := listing.value;
      ghost var before := log;
      for i := 0 to |pods|
        invariant Valid() && log == before + PodsEffects(pass, key, pods[..i])
      {
        CheckPod(pass, key, pods[i]);
        PodsGrow(before, pass, key, pods, i);
      }
      assert pods[..|pods|] == pods;
    }

    method CheckAll(pass: Pass) returns (ok: bool)
      requires Valid()
      modifies this
      ensures Valid() && log == old(log) + PassEffects(pass)
      ensures old(log) <= log && Complete(pass, log[|old(log)|..])
      ensures ok <==> pass.clusters.Some?
    {
      PassComplete(pass);
      if pass.clusters.None? {
        return false;
      }
      var cs := pass.clusters.value;
      ghost var before := log;
      for i := 0 to |cs|
        invariant Valid() && log == before + ClustersEffects(pass, cs[..i])
      {
        CheckCluster(pass, cs[i]);
        ClustersGrow(before, pass, cs, i);
      }
      assert cs[..|cs|] == cs;
      return true;
    }
  }

  lemma PodsGrow(before: seq<Effect>, pass: Pass, key: Key, pods: seq<Pod>, i: nat)
    requires i < |pods|
    ensures before + PodsEffects(pass, key, pods[..i]) + PodEffects(pass, key, pods[i])
            == before + PodsEffects(pass, key, pods[..i + 1])
  {
    assert pods[..i + 1][..i] == pods[..i];
  }

  lemma ClustersGrow(before: seq<Effect>, pass: Pass, cs: seq<Cluster>, i: nat)
    requires i < |cs|
    ensures before + ClustersEffects(pass, cs[..i]) + ClusterEffects(pass, cs[i])
            == before + ClustersEffects(pass, cs[..i + 1])
  {
    assert cs[..i + 1][..i] == cs[..i];
  }

  // ---------------------------------------------------------------- what a log can contain

  /** Every effect on a pod is on one of the cluster's own pods with an address; a count follows a
      failed probe of the cluster, a delete follows that count and is of the pod probed, and a stamp
      follows a delete that succeeded. */
  ghost predicate Justified(log: seq<Effect>, i: nat)
    requires i < |log|
  {
    match log[i]
    case Probed(key, pod, answer) =>
      Belongs(pod, key) && pod.ip != "" && (Failed(answer) ==> i + 1 < |log| && log[i + 1] == Counted(key))
    case Counted(key) =>
      i >= 1 && log[i - 1].Probed? && Failed(log[i - 1].answer) && log[i - 1].key == key
      && i + 1 < |log| && log[i + 1].DeleteTried? && log[i + 1].pod == log[i - 1].pod && log[i + 1].key == key
    case DeleteTried(key, pod, ok) =>
      i >= 2 && log[i - 1] == Counted(key)
      && log[i - 2].Probed? && log[i - 2].key == key && log[i - 2].pod == pod && Failed(log[i - 2].answer)
    case StampTried(key, time, ok) =>
      i >= 1 && log[i - 1].DeleteTried? && log[i - 1].key == key && log[i - 1].ok
  }

  ghost predicate AllJustified(log: seq<Effect>) {
    forall i: nat :: i < |log| ==> Justified(log, i)
  }

  lemma JustifiedConcat(a: seq<Effect>, b: seq<Effect>)
    requires AllJustified(a) && AllJustified(b)
    ensures AllJustified(a + b)
  {
    forall i: nat | i < |a + b| ensures Justified(a + b, i) {
      if i < |a| {
        assert Justified(a, i);
      } else {
        assert Justified(b, i - |a|);
      }
    }
  }

  lemma PodJustified(pass: Pass, key: Key, pod: Pod)
    ensures AllJustified(PodEffects(pass, key, pod))
  {
  }

  lemma {:induction false} PodsJustified(pass: Pass, key: Key, pods: seq<Pod>)
    ensures AllJustified(PodsEffects(pass, key, pods))
    decreases |pods|
  {
    if pods != [] {
      var n := |pods| - 1;
      PodsJustified(pass, key, pods[..n]);
      PodJustified(pass, key, pods[n]);
      JustifiedConcat(PodsEffects(pass, key, pods[..n]), PodEffects(pass, key, pods[n]));
    }
  }

  lemma {:induction false} ClustersJustified(pass: Pass, cs: seq<Cluster>)
    ensures AllJustified(ClustersEffects(pass, cs))
    decreases |cs|
  {
    if cs != [] {
      var n := |cs| - 1;
      var key := (cs[n].ns, cs[n].name);
      ClustersJustified(pass, cs[..n]);
      if pass.pods(cs[n]).Some? {
        PodsJustified(pass, key, pass.pods(cs[n]).value);
      }
      JustifiedConcat(ClustersEffects(pass, cs[..n]), ClusterEffects(pass, cs[n]));
    }
  }

  /** Over any sequence of passes: a pod is deleted only right after a failed or 5xx probe of that very
      pod and one counter increment of its cluster; pods without an address and pods of other clusters
      are never touched; lastFailoverTime is written only after a delete that succeeded. */
  lemma {:induction false} EveryEffectJustified(passes: seq<Pass>)
    ensures AllJustified(HistoryEffects(passes))
    decreases |passes|
  {
    if passes != [] {
      var n := |passes| - 1;
      EveryEffectJustified(passes[..n]);
      if passes[n].clusters.Some? {
        ClustersJustified(passes[n], passes[n].clusters.value);
      }
      JustifiedConcat(HistoryEffects(passes[..n]), PassEffects(passes[n]));
    }
  }

  // ---------------------------------------------------------------- every pod is checked

  /** A pod with an address that is the cluster's own: in its namespace, with the instance label its name. */
  predicate OwnPod(pc: Cluster, pod: Pod) {
    && pod.ns == pc.ns && pod.ip != ""
    && "app.kubernetes.io/instance" in pod.labels && pod.labels["app.kubernetes.io/instance"] == pc.name
  }

  /** At `x` the log has the probe of the pod; if it found the pod unreachable or got a code of at least
      500, the count and the delete attempt follow, and after a successful delete the stamp attempt. */
  predicate Handled(pass: Pass, pc: Cluster, pod: Pod, log: seq<Effect>, x: nat) {
    var key, answer := (pc.ns, pc.name), pass.probe(pod);
    && x < |log| && log[x] == Probed(key, pod, answer)
    && (answer == Unreachable || (answer.Status? && answer.code >= 500) ==>
          && x + 2 < |log| && log[x + 1] == Counted(key) && log[x + 2] == DeleteTried(key, pod, pass.deletes(pod))
          && (pass.deletes(pod) ==> x + 3 < |log| && log[x + 3] == StampTried(key, pass.now, pass.updates(pod))))
  }

  /** `at` gives each own pod of the listing a place of its own in the log, in order, where it is handled;
      and every probe in the log is at one of these places. */
  ghost predicate PodsCovered(pass: Pass, pc: Cluster, pods: seq<Pod>, log: seq<Effect>, at: map<nat, nat>) {
    && (forall j: nat :: j in at <==> j < |pods| && OwnPod(pc, pods[j]))
    && (forall j :: j in at ==> Handled(pass, pc, pods[j], log, at[j]))
    && (forall j, k :: j in at && k in at && j < k ==> at[j] < at[k])
    && (forall x: nat :: x < |log| && log[x].Probed? ==> exists j :: j in at && at[j] == x)
  }

  /** Position `j` of the listing for cluster `i` holds an own pod. */
  ghost predicate Due(pass: Pass, cs: seq<Cluster>, i: nat, j: nat) {
    && i < |cs| && pass.pods(cs[i]).Some? && j < |pass.pods(cs[i]).value|
    && OwnPod(cs[i], pass.pods(cs[i]).value[j])
  }

  /** And that pod is handled at `x`. */
  ghost predicate DueHandled(pass: Pass, cs: seq<Cluster>, log: seq<Effect>, i: nat, j: nat, x: nat) {
    Due(pass, cs, i, j) && Handled(pass, cs[i], pass.pods(cs[i]).value[j], log, x)
  }

  /** The same for the pods of all listed clusters. */
  ghost predicate Covered(pass: Pass, cs: seq<Cluster>, log: seq<Effect>, at: map<(nat, nat), nat>) {
    && (forall i: nat, j: nat :: Due(pass, cs, i, j) ==> (i, j) in at)
    && (forall i: nat, j: nat :: (i, j) in at ==> DueHandled(pass, cs, log, i, j, at[(i, j)]))
    && (forall p, q :: p in at && q in at && at[p] == at[q] ==> p == q)
    && (forall x: nat :: x < |log| && log[x].Probed? ==> exists p :: p in at && at[p] == x)
  }

  /** A pass has checked every pod it should, each once, and no other. */
  ghost predicate Complete(pass: Pass, log: seq<Effect>) {
    if pass.clusters.None? then log == []
    else exists at: map<(nat, nat), nat> :: Covered(pass, pass.clusters.value, log, at)
  }

  lemma HandledLater(pass: Pass, pc: Cluster, pod: Pod, a: seq<Effect>, b: seq<Effect>, x: nat)
    ensures Handled(pass, pc, pod, a, x) ==> Handled(pass, pc, pod, a + b, x)
    ensures Handled(pass, pc, pod, b, x) ==> Handled(pass, pc, pod, a + b, |a| + x)
  {
  }

  lemma PodHandled(pass: Pass, pc: Cluster, pod: Pod)
    ensures
      var es := PodEffects(pass, (pc.ns, pc.name), pod);
      if OwnPod(pc, pod) then
        Handled(pass, pc, pod, es, 0) && forall x: nat :: 0 < x < |es| ==> !es[x].Probed?
      else es == []
  {
  }

  lemma {:induction false} PodsComplete(pass: Pass, pc: Cluster, pods: seq<Pod>) returns (at: map<nat, nat>)
    ensures PodsCovered(pass, pc, pods, PodsEffects(pass, (pc.ns, pc.name), pods), at)
    ensures forall j :: j in at ==> at[j] < |PodsEffects(pass, (pc.ns, pc.name), pods)|
    decreases |pods|
  {
    if pods == [] {
      at := map[];
    } else {
      var n := |pods| - 1;
      var before := PodsComplete(pass, pc, pods[..n]);
      at := OneMorePod(pass, pc, pods, PodsEffects(pass, (pc.ns, pc.name), pods[..n]), before);
    }
  }

  lemma OneMorePod(pass: Pass, pc: Cluster, pods: seq<Pod>, log: seq<Effect>, before: map<nat, nat>)
    returns (at: map<nat, nat>)
    requires pods != [] && PodsCovered(pass, pc, pods[..|pods| - 1], log, before)
    ensures PodsCovered(pass, pc, pods, log + PodEffects(pass, (pc.ns, pc.name), pods[|pods| - 1]), at)
    ensures forall j :: j in at ==> at[j] < |log + PodEffects(pass, (pc.ns, pc.name), pods[|pods| - 1])|
  {
    var n := |pods| - 1;
    var pod := pods[n];
    var es := PodEffects(pass, (pc.ns, pc.name), pod);
    PodHandled(pass, pc, pod);
    HandledLater(pass, pc, pod, log, es, 0);
    OlderPods(pass, pc, pods, log, es, before);
    at := if OwnPod(pc, pod) then before[n := |log|] else before;
    PlacesOrdered(before, n, |log|, at);
    ProbesFound(pods, log, es, before, at);
    forall j | j in at ensures Handled(pass, pc, pods[j], log + es, at[j]) {
      assert j != n ==> at[j] == before[j];
    }
  }

  lemma PlacesOrdered(before: map<nat, nat>, n: nat, k: nat, at: map<nat, nat>)
    requires at == before || at == before[n := k]
    requires forall j :: j in before ==> j < n && before[j] < k
    requires forall i, j :: i in before && j in before && i < j ==> before[i] < before[j]
    ensures forall i, j :: i in at && j in at && i < j ==> at[i] < at[j]
  {
  }

  lemma OlderPods(pass: Pass, pc: Cluster, pods: seq<Pod>, log: seq<Effect>, es: seq<Effect>, before: map<nat, nat>)
    requires pods != [] && PodsCovered(pass, pc, pods[..|pods| - 1], log, before)
    ensures forall j :: j in before ==>
      j < |pods| - 1 && before[j] < |log| && Handled(pass, pc, pods[j], log + es, before[j])
  {
    forall j | j in before
      ensures j < |pods| - 1 && before[j] < |log| && Handled(pass, pc, pods[j], log + es, before[j])
    {
      assert Handled(pass, pc, pods[..|pods| - 1][j], log, before[j]);
      HandledLater(pass, pc, pods[j], log, es, before[j]);
    }
  }

  /** Each probe in the longer log has its place. */
  lemma ProbesFound(pods: seq<Pod>, log: seq<Effect>, es: seq<Effect>, before: map<nat, nat>, at: map<nat, nat>)
    requires pods != [] && |pods| - 1 !in before
    requires es == [] ==> at == before
    requires es != [] ==> at == before[|pods| - 1 := |log|]
    requires forall x: nat :: 0 < x < |es| ==> !es[x].Probed?
    requires forall x: nat :: x < |log| && log[x].Probed? ==> exists j :: j in before && before[j] == x
    ensures forall x: nat :: x < |log + es| && (log + es)[x].Probed? ==> exists j :: j in at && at[j] == x
  {
    forall x: nat | x < |log + es| && (log + es)[x].Probed? ensures exists j :: j in at && at[j] == x {
      if x < |log| {
        var j :| j in before && before[j] == x;
        assert at[j] == x;
      } else {
        assert (log + es)[x] == es[x - |log|];
        assert at[|pods| - 1] == x;
      }
    }
  }

  lemma {:induction false} ClustersComplete(pass: Pass, cs: seq<Cluster>) returns (at: map<(nat, nat), nat>)
    ensures Covered(pass, cs, ClustersEffects(pass, cs), at)
    ensures forall p :: p in at ==> at[p] < |ClustersEffects(pass, cs)|
    decreases |cs|
  {
    if cs == [] {
      at := map[];
    } else {
      var n := |cs| - 1;
      var before := ClustersComplete(pass, cs[..n]);
      var own: map<nat, nat> := map[];
      if pass.pods(cs[n]).Some? {
        own := PodsComplete(pass, cs[n], pass.pods(cs[n]).value);
      }
      at := OneMoreCluster(pass, cs, ClustersEffects(pass, cs[..n]), ClusterEffects(pass, cs[n]), before, own);
    }
  }

  ghost predicate ClusterCovered(pass: Pass, pc: Cluster, log: seq<Effect>, own: map<nat, nat>) {
    if pass.pods(pc).None? then log == [] && own == map[]
    else PodsCovered(pass, pc, pass.pods(pc).value, log, own)
  }

  /** `at` is `before` with the places of cluster `n` added, moved by `k`. */
  ghost predicate Extends(before: map<(nat, nat), nat>, own: map<nat, nat>, n: nat, k: nat, at: map<(nat, nat), nat>) {
    && (forall p :: p in before ==> p.0 != n && p in at && at[p] == before[p])
    && (forall j :: j in own ==> (n, j) in at && at[(n, j)] == k + own[j])
    && (forall p :: p in at ==> p in before || (p.0 == n && p.1 in own && at[p] == k + own[p.1]))
  }

  lemma ExtendPlaces(before: map<(nat, nat), nat>, own: map<nat, nat>, n: nat, k: nat)
    returns (at: map<(nat, nat), nat>)
    requires forall p :: p in before ==> p.0 != n
    ensures Extends(before, own, n, k, at)
  {
    at := before + map j | j in own :: (n, j) := k + own[j];
  }

  lemma OneMoreCluster(pass: Pass, cs: seq<Cluster>, log: seq<Effect>, es: seq<Effect>,
                       before: map<(nat, nat), nat>, own: map<nat, nat>)
    returns (at: map<(nat, nat), nat>)
    requires cs != [] && Covered(pass, cs[..|cs| - 1], log, before)
    requires forall p :: p in before ==> before[p] < |log|
    requires ClusterCovered(pass, cs[|cs| - 1], es, own) && forall j :: j in own ==> own[j] < |es|
    ensures Covered(pass, cs, log + es, at)
    ensures forall p :: p in at ==> at[p] < |log + es|
  {
    var n := |cs| - 1;
    OlderPlaces(pass, cs, log, before);
    at := ExtendPlaces(before, own, n, |log|);
    AllHandled(pass, cs, log, es, before, own, at);
    AllDue(pass, cs, es, log, before, own, at);
    LastFound(pass, cs[n], es, own);
    PlacesDistinct(|log|, n, before, own, at);
    PlacesFound(log, es, n, before, own, at);
  }

  lemma OlderPlaces(pass: Pass, cs: seq<Cluster>, log: seq<Effect>, before: map<(nat, nat), nat>)
    requires cs != [] && Covered(pass, cs[..|cs| - 1], log, before)
    ensures forall p :: p in before ==> p.0 != |cs| - 1
  {
    forall p | p in before ensures p.0 != |cs| - 1 {
      var (i, j) := p;
      assert DueHandled(pass, cs[..|cs| - 1], log, i, j, before[(i, j)]);
    }
  }

  lemma AllHandled(pass: Pass, cs: seq<Cluster>, log: seq<Effect>, es: seq<Effect>, before: map<(nat, nat), nat>,
                   own: map<nat, nat>, at: map<(nat, nat), nat>)
    requires cs != [] && Extends(before, own, |cs| - 1, |log|, at) && ClusterCovered(pass, cs[|cs| - 1], es, own)
    requires forall i: nat, j: nat :: (i, j) in before ==>
      DueHandled(pass, cs[..|cs| - 1], log, i, j, before[(i, j)])
    ensures forall i: nat, j: nat :: (i, j) in at ==> DueHandled(pass, cs, log + es, i, j, at[(i, j)])
  {
    forall i: nat, j: nat | (i, j) in at ensures DueHandled(pass, cs, log + es, i, j, at[(i, j)]) {
      if (i, j) in before {
        OldHandled(pass, cs, log, es, i, j, before[(i, j)]);
      } else {
        PlaceIsNew(before, own, |cs| - 1, |log|, at, (i, j));
        NewHandled(pass, cs, log, es, j, own);
      }
    }
  }

  lemma PlaceIsNew(before: map<(nat, nat), nat>, own: map<nat, nat>, n: nat, k: nat, at: map<(nat, nat), nat>,
                   p: (nat, nat))
    requires Extends(before, own, n, k, at) && p in at && p !in before
    ensures p.0 == n && p.1 in own && at[p] == k + own[p.1]
  {
  }

  lemma NewHandled(pass: Pass, cs: seq<Cluster>, log: seq<Effect>, es: seq<Effect>, j: nat, own: map<nat, nat>)
    requires cs != [] && ClusterCovered(pass, cs[|cs| - 1], es, own) && j in own
    ensures DueHandled(pass, cs, log + es, |cs| - 1, j, |log| + own[j])
  {
    var pc := cs[|cs| - 1];
    HandledLater(pass, pc, pass.pods(pc).value[j], log, es, own[j]);
  }

  lemma OldHandled(pass: Pass, cs: seq<Cluster>, log: seq<Effect>, es: seq<Effect>, i: nat, j: nat, x: nat)
    requires cs != [] && DueHandled(pass, cs[..|cs| - 1], log, i, j, x)
    ensures DueHandled(pass, cs, log + es, i, j, x)
  {
    HandledLater(pass, cs[i], pass.pods(cs[i]).value[j], log, es, x);
  }

  lemma AllDue(pass: Pass, cs: seq<Cluster>, es: seq<Effect>, log: seq<Effect>, before: map<(nat, nat), nat>,
               own: map<nat, nat>, at: map<(nat, nat), nat>)
    requires cs != [] && Extends(before, own, |cs| - 1, |log|, at) && ClusterCovered(pass, cs[|cs| - 1], es, own)
    requires forall i: nat, j: nat :: Due(pass, cs[..|cs| - 1], i, j) ==> (i, j) in before
    ensures forall i: nat, j: nat :: Due(pass, cs, i, j) ==> (i, j) in at
  {
    forall i: nat, j: nat | Due(pass, cs, i, j) ensures (i, j) in at {
      DueSomewhere(pass, cs, es, i, j, own);
    }
  }

  lemma DueSomewhere(pass: Pass, cs: seq<Cluster>, es: seq<Effect>, i: nat, j: nat, own: map<nat, nat>)
    requires cs != [] && ClusterCovered(pass, cs[|cs| - 1], es, own) && Due(pass, cs, i, j)
    ensures if i < |cs| - 1 then Due(pass, cs[..|cs| - 1], i, j) else i == |cs| - 1 && j in own
  {
  }

  lemma LastFound(pass: Pass, pc: Cluster, es: seq<Effect>, own: map<nat, nat>)
    requires ClusterCovered(pass, pc, es, own)
    ensures forall j, k :: j in own && k in own && j < k ==> own[j] < own[k]
    ensures forall x: nat :: x < |es| && es[x].Probed? ==> exists j :: j in own && own[j] == x
  {
  }

  lemma PlacesDistinct(k: nat, n: nat, before: map<(nat, nat), nat>, own: map<nat, nat>, at: map<(nat, nat), nat>)
    requires Extends(before, own, n, k, at) && forall p :: p in before ==> before[p] < k
    requires forall p, q :: p in before && q in before && before[p] == before[q] ==> p == q
    requires forall i, j :: i in own && j in own && i < j ==> own[i] < own[j]
    ensures forall p, q :: p in at && q in at && at[p] == at[q] ==> p == q
  {
  }

  lemma PlacesFound(log: seq<Effect>, es: seq<Effect>, n: nat, before: map<(nat, nat), nat>, own: map<nat, nat>,
                    at: map<(nat, nat), nat>)
    requires Extends(before, own, n, |log|, at)
    requires forall x: nat :: x < |log| && log[x].Probed? ==> exists p :: p in before && before[p] == x
    requires forall x: nat :: x < |es| && es[x].Probed? ==> exists j :: j in own && own[j] == x
    ensures forall x: nat :: x < |log + es| && (log + es)[x].Probed? ==> exists p :: p in at && at[p] == x
  {
    forall x: nat | x < |log + es| && (log + es)[x].Probed? ensures exists p :: p in at && at[p] == x {
      if x < |log| {
        var p :| p in before && before[p] == x;
        assert at[p] == x;
      } else {
        var j :| j in own && own[j] == x - |log|;
        assert at[(n, j)] == x;
      }
    }
  }

  /** Every pass is complete: each listed pod of a listed cluster that is its own and has an address is
      probed, once; the failover follows exactly where the probe asks for it; nothing else is probed. */
  lemma PassComplete(pass: Pass)
    ensures Complete(pass, PassEffects(pass))
  {
    if pass.clusters.Some? {
      var at := ClustersComplete(pass, pass.clusters.value);
    }
  }

  // ---------------------------------------------------------------- one count and one delete per failed probe

  function FailedProbes(log: seq<Effect>, key: Key): nat {
    if log == [] then 0
    else
      var e := log[|log| - 1];
      FailedProbes(log[..|log| - 1], key) + if e.Probed? && e.key == key && Failed(e.answer) then 1 else 0
  }

  function Deletes(log: seq<Effect>, key: Key): nat {
    if log == [] then 0
    else
      var e := log[|log| - 1];
      Deletes(log[..|log| - 1], key) + if e.DeleteTried? && e.key == key then 1 else 0
  }

  predicate IsFailure(e: Effect) {
    e.Probed? && Failed(e.answer)
  }

  /** Failed probe, count and delete of a cluster follow each other; the last may still be due. */
  ghost predicate InStep(log: seq<Effect>, i: nat)
    requires i < |log|
  {
    && (log[i].Counted? <==> i >= 1 && IsFailure(log[i - 1]))
    && (log[i].DeleteTried? <==> i >= 1 && log[i - 1].Counted?)
    && (log[i].Counted? || log[i].DeleteTried? ==> log[i - 1].key == log[i].key)
  }

  lemma JustifiedInStep(log: seq<Effect>, i: nat)
    requires AllJustified(log) && i < |log|
    ensures InStep(log, i)
  {
    assert Justified(log, i);
    if i >= 1 {
      assert Justified(log, i - 1);
    }
  }

  lemma {:induction false} Balance(log: seq<Effect>, key: Key)
    requires forall i: nat :: i < |log| ==> InStep(log, i)
    ensures FailedProbes(log, key) ==
      Get(Tally(log), key) + if log != [] && IsFailure(log[|log| - 1]) && log[|log| - 1].key == key then 1 else 0
    ensures Get(Tally(log), key) ==
      Deletes(log, key) + if log != [] && log[|log| - 1] == Counted(key) then 1 else 0
    decreases |log|
  {
    if log != [] {
      var n := |log| - 1;
      forall i: nat | i < n ensures InStep(log[..n], i) {
        assert InStep(log, i);
      }
      Balance(log[..n], key);
      assert InStep(log, n);
    }
  }

  /** After any passes each cluster's failover counter equals its failed probes, and its delete
      attempts. */
  lemma OneCountOneDeletePerFailure(passes: seq<Pass>, key: Key)
    ensures
      var log := HistoryEffects(passes);
      FailedProbes(log, key) == Get(Tally(log), key) == Deletes(log, key)
  {
    var log := HistoryEffects(passes);
    EveryEffectJustified(passes);
    forall i: nat | i < |log| ensures InStep(log, i) {
      JustifiedInStep(log, i);
    }
    Balance(log, key);
    if log != [] {
      assert Justified(log, |log| - 1);
    }
  }
}
