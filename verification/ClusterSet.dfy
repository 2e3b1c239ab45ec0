/** internal/controller/prometheusclusterset_controller.go: membership, status and backup overlay of a Set. */
module ClusterSet {
  import opened Types
  import opened Text
  import opened Webhook

  // ---------------------------------------------------------------- selectors

  datatype Operator = In | NotIn | Exists | DoesNotExist | Unknown

  datatype Requirement = Requirement(key: string, op: Operator, values: set<string>)

  datatype LabelSelector = LabelSelector(matchLabels: map<string, string>, exprs: seq<Requirement>)

  predicate RequirementParses(r: Requirement) {
    match r.op
    case In => r.values != {}
    case NotIn => r.values != {}
    case Exists => r.values == {}
    case DoesNotExist => r.values == {}
    case Unknown => false
  }

  predicate RequirementMatches(r: Requirement, labels: map<string, string>) {
    match r.op
    case In => r.key in labels && labels[r.key] in r.values
    case NotIn => r.key in labels ==> labels[r.key] !in r.values
    case Exists => r.key in labels
    case DoesNotExist => r.key !in labels
    case Unknown => false
  }

  /** selectorFor succeeds; an absent selector selects everything. */
  predicate Parses(s: Option<LabelSelector>) {
    s.Some? ==> forall i :: 0 <= i < |s.value.exprs| ==> RequirementParses(s.value.exprs[i])
  }

  predicate Matches(s: Option<LabelSelector>, labels: map<string, string>) {
    s.Some? ==>
      && (forall k :: k in s.value.matchLabels ==> k in labels && labels[k] == s.value.matchLabels[k])
      && (forall i :: 0 <= i < |s.value.exprs| ==> RequirementMatches(s.value.exprs[i], labels))
  }

  /** labels.Selector.Empty. */
  predicate SelectsAll(s: Option<LabelSelector>) {
    s.Some? ==> s.value.matchLabels == map[] && s.value.exprs == []
  }

  // ---------------------------------------------------------------- objects

  datatype Namespace = Namespace(name: string, labels: map<string, string>)

  datatype SetSpec = SetSpec(
    clusterSelector: Option<LabelSelector>,
    namespaceSelector: Option<LabelSelector>,
    template: Option<BackupSpec>)

  datatype SetMember = SetMember(ns: string, name: string, phase: Phase)

  datatype SetStatus = SetStatus(memberCount: int, phaseCount: map<Phase, int>, members: seq<SetMember>)

  datatype Set = Set(name: string, spec: SetSpec, status: SetStatus)

  type Key = (string, string)

  function KeyOf(c: Cluster): Key {
    (c.ns, c.name)
  }

  function MemberOf(c: Cluster): SetMember {
    SetMember(c.ns, c.name, c.status.phase)
  }

  // ---------------------------------------------------------------- membership

  predicate NamespaceMatches(sel: Option<LabelSelector>, nss: seq<Namespace>, ns: string) {
    exists i :: 0 <= i < |nss| && nss[i].name == ns && Matches(sel, nss[i].labels)
  }

  /** The membership rule, without the nil-map shortcut. */
  predicate InNamespaces(spec: SetSpec, nss: seq<Namespace>, c: Cluster) {
    NamespaceMatches(spec.namespaceSelector, nss, c.ns)
  }

  /** The rule the code runs: an empty selector skips the namespace listing. */
  predicate Selected(spec: SetSpec, nss: seq<Namespace>, c: Cluster) {
    && (SelectsAll(spec.namespaceSelector) || InNamespaces(spec, nss, c))
    && Matches(spec.clusterSelector, c.labels)
  }

  /** allowedNamespaces: `None` for an empty selector, otherwise the names of matching namespaces. */
  method AllowedNamespaces(sel: Option<LabelSelector>, nss: seq<Namespace>) returns (r: Option<set<string>>)
    ensures r.None? <==> SelectsAll(sel)
    ensures r.Some? ==> forall ns :: ns in r.value <==> NamespaceMatches(sel, nss, ns)
  {
    if SelectsAll(sel) {
      return None;
    }
    var out: set<string> := {};
    for i := 0 to |nss|
      invariant forall ns :: ns in out <==> NamespaceMatches(sel, nss[..i], ns)
    {
      forall ns
        ensures NamespaceMatches(sel, nss[..i + 1], ns) <==>
                NamespaceMatches(sel, nss[..i], ns) || (nss[i].name == ns && Matches(sel, nss[i].labels))
      {
        assert nss[..i + 1][i] == nss[i];
        assert forall j :: 0 <= j < i ==> nss[..i + 1][j] == nss[..i][j];
        if NamespaceMatches(sel, nss[..i], ns) {
          var j :| 0 <= j < |nss[..i]| && nss[..i][j].name == ns && Matches(sel, nss[..i][j].labels);
          assert nss[..i + 1][j].name == ns;
        }
      }
      if Matches(sel, nss[i].labels) {
        out := out + {nss[i].name};
      }
    }
    assert nss[..|nss|] == nss;
    return Some(out);
  }

  /** The shortcut agrees with filtering every namespace exactly when every cluster it lets through
      lives in a listed namespace. */
  lemma ShortcutAgrees(spec: SetSpec, nss: seq<Namespace>, cs: set<Cluster>)
    requires SelectsAll(spec.namespaceSelector)
    ensures
      (forall c :: c in cs ==>
         (Selected(spec, nss, c) <==> InNamespaces(spec, nss, c) && Matches(spec.clusterSelector, c.labels)))
      <==>
      (forall c :: c in cs && Matches(spec.clusterSelector, c.labels) ==>
         exists i :: 0 <= i < |nss| && nss[i].name == c.ns)
  {
    forall c | c in cs
      ensures InNamespaces(spec, nss, c) <==> exists i :: 0 <= i < |nss| && nss[i].name == c.ns
    {
      if i :| 0 <= i < |nss| && nss[i].name == c.ns {
        assert Matches(spec.namespaceSelector, nss[i].labels);
      }
    }
  }

  // ---------------------------------------------------------------- status, as a property

  predicate Before(a: SetMember, b: SetMember) {
    if a.ns != b.ns then Less(a.ns, b.ns) else Less(a.name, b.name)
  }

  predicate Sorted(ms: seq<SetMember>) {
    forall i, j :: 0 <= i < j < |ms| ==> Before(ms[i], ms[j])
  }

  function CountPhase(ms: seq<SetMember>, p: Phase): nat {
    if ms == [] then 0 else (if ms[0].phase == p then 1 else 0) + CountPhase(ms[1..], p)
  }

  predicate UniqueKeys(cs: set<Cluster>) {
    forall a, b :: a in cs && b in cs && KeyOf(a) == KeyOf(b) ==> a == b
  }

  ghost predicate Histogram(h: map<Phase, int>, ms: seq<SetMember>) {
    forall p :: (p in h <==> p != NoPhase && CountPhase(ms, p) > 0) && (p in h ==> h[p] == CountPhase(ms, p))
  }

  ghost function Elements(ms: seq<SetMember>): set<SetMember> {
    set m | m in ms
  }

  ghost function MemberSet(spec: SetSpec, nss: seq<Namespace>, cs: set<Cluster>): set<SetMember> {
    set c | c in cs && Selected(spec, nss, c) :: MemberOf(c)
  }

  /** `st` reports the clusters `cs`: members is strictly sorted and lists exactly the selected
      clusters, and the counts count it. Nothing here mentions the order of the listing. */
  ghost predicate IsStatus(st: SetStatus, spec: SetSpec, nss: seq<Namespace>, cs: set<Cluster>) {
    && Sorted(st.members)
    && Elements(st.members) == MemberSet(spec, nss, cs)
    && st.memberCount == |st.members|
    && Histogram(st.phaseCount, st.members)
  }

  lemma BeforeOrder(a: SetMember, b: SetMember)
    ensures !(Before(a, b) && Before(b, a)) && !Before(a, a)
    ensures Before(a, b) || Before(b, a) || (a.ns == b.ns && a.name == b.name)
  {
    LessAsymmetric(a.ns, b.ns);
    LessAsymmetric(a.name, b.name);
    LessTotal(a.ns, b.ns);
    LessTotal(a.name, b.name);
  }

  lemma BeforeTransitive(a: SetMember, b: SetMember, c: SetMember)
    requires Before(a, b) && Before(b, c)
    ensures Before(a, c)
  {
    if a.ns == b.ns == c.ns {
      LessTransitive(a.name, b.name, c.name);
    } else if a.ns != b.ns && b.ns != c.ns {
      LessTransitive(a.ns, b.ns, c.ns);
      LessAsymmetric(a.ns, b.ns);
    }
  }

  lemma SortedTail(ms: seq<SetMember>)
    requires Sorted(ms) && ms != []
    ensures Sorted(ms[1..]) && ms[0] !in ms[1..]
    ensures Elements(ms[1..]) == Elements(ms) - {ms[0]}
  {
    forall i | 0 <= i < |ms[1..]| ensures ms[1..][i] != ms[0] {
      BeforeOrder(ms[0], ms[i + 1]);
    }
    assert forall m :: m in ms <==> m == ms[0] || m in ms[1..];
  }

  /** A strictly sorted sequence is determined by its elements. */
  lemma {:induction false} SortedUnique(a: seq<SetMember>, b: seq<SetMember>)
    requires Sorted(a) && Sorted(b)
    requires Elements(a) == Elements(b)
    ensures a == b
  {
    assert a == [] || a[0] in Elements(a);
    assert b == [] || b[0] in Elements(b);
    if a != [] {
      BeforeOrder(a[0], b[0]);
      assert a[0] == b[0];
      SortedTail(a);
      SortedTail(b);
      SortedUnique(a[1..], b[1..]);
      assert a == [a[0]] + a[1..] && b == [b[0]] + b[1..];
    }
  }

  /** The Set status is a function of the set of clusters alone. */
  lemma StatusUnique(x: SetStatus, y: SetStatus, spec: SetSpec, nss: seq<Namespace>, cs: set<Cluster>)
    requires IsStatus(x, spec, nss, cs) && IsStatus(y, spec, nss, cs)
    ensures x == y
  {
    SortedUnique(x.members, y.members);
    assert x.phaseCount.Keys == y.phaseCount.Keys;
  }

  lemma {:induction false} CountsPartition(ms: seq<SetMember>)
    ensures CountPhase(ms, Provisioning) + CountPhase(ms, Active) + CountPhase(ms, Scaling)
            + CountPhase(ms, Failed) + CountPhase(ms, NoPhase) == |ms|
  {
    if ms != [] {
      CountsPartition(ms[1..]);
    }
  }

  ghost function CountOf(st: SetStatus, p: Phase): int {
    if p in st.phaseCount then st.phaseCount[p] else 0
  }

  /** The phase counts add up to the members with a non-empty phase. */
  lemma CountsSum(st: SetStatus, spec: SetSpec, nss: seq<Namespace>, cs: set<Cluster>)
    requires IsStatus(st, spec, nss, cs)
    ensures CountOf(st, Provisioning) + CountOf(st, Active) + CountOf(st, Scaling) + CountOf(st, Failed)
            == st.memberCount - CountPhase(st.members, NoPhase)
  {
    CountsPartition(st.members);
    assert forall p :: p != NoPhase ==> CountOf(st, p) == CountPhase(st.members, p);
  }

  /** Counting members is counting clusters. */
  lemma {:induction false} CountsClusters(ms: seq<SetMember>, cs: set<Cluster>, p: Phase)
    requires Sorted(ms) && UniqueKeys(cs) && Elements(ms) == set c | c in cs :: MemberOf(c)
    ensures |ms| == |cs| && CountPhase(ms, p) == |InPhase(cs, p)|
    decreases |ms|
  {
    if ms == [] {
      assert forall c :: c in cs ==> MemberOf(c) in Elements(ms);
      assert cs == {};
    } else {
      assert ms[0] in Elements(ms);
      var c :| c in cs && MemberOf(c) == ms[0];
      SortedTail(ms);
      TailOf(ms, cs, c);
      CountsClusters(ms[1..], cs - {c}, p);
      InPhaseLess(cs, c, p);
    }
  }

  ghost function InPhase(cs: set<Cluster>, p: Phase): set<Cluster> {
    set c | c in cs && c.status.phase == p
  }

  lemma InPhaseLess(cs: set<Cluster>, c: Cluster, p: Phase)
    requires c in cs
    ensures |InPhase(cs, p)| == |InPhase(cs - {c}, p)| + if c.status.phase == p then 1 else 0
  {
    assert InPhase(cs, p) == if c.status.phase == p then InPhase(cs - {c}, p) + {c} else InPhase(cs - {c}, p);
  }

  lemma TailOf(ms: seq<SetMember>, cs: set<Cluster>, c: Cluster)
    requires ms != [] && Sorted(ms) && UniqueKeys(cs) && c in cs && MemberOf(c) == ms[0]
    requires Elements(ms) == set d | d in cs :: MemberOf(d)
    ensures Elements(ms[1..]) == set d | d in cs - {c} :: MemberOf(d)
  {
    SortedTail(ms);
    forall d | d in cs - {c} ensures MemberOf(d) != ms[0] {
      assert KeyOf(d) != KeyOf(c);
    }
  }

  /** The status, written out: the members are the selected clusters with their phases, by namespace and
      then by name; the counts count clusters. */
  lemma StatusMeans(st: SetStatus, spec: SetSpec, nss: seq<Namespace>, cs: set<Cluster>)
    requires IsStatus(st, spec, nss, cs) && UniqueKeys(cs)
    ensures forall c :: c in cs && Selected(spec, nss, c) ==> SetMember(c.ns, c.name, c.status.phase) in st.members
    ensures forall m :: m in st.members ==>
      exists c :: c in cs && Selected(spec, nss, c) && m == SetMember(c.ns, c.name, c.status.phase)
    ensures forall i, j :: 0 <= i < j < |st.members| ==>
      || Less(st.members[i].ns, st.members[j].ns)
      || (st.members[i].ns == st.members[j].ns && Less(st.members[i].name, st.members[j].name))
    ensures st.memberCount == |set c | c in cs && Selected(spec, nss, c)|
    ensures forall p :: p != NoPhase ==>
      CountOf(st, p) == |set c | c in cs && Selected(spec, nss, c) && c.status.phase == p|
    ensures NoPhase !in st.phaseCount
  {
    var own := set c | c in cs && Selected(spec, nss, c);
    assert MemberSet(spec, nss, cs) == set c | c in own :: MemberOf(c);
    MembersMean(st.members, spec, nss, cs);
    CountsClusters(st.members, own, NoPhase);
    forall p | p != NoPhase
      ensures CountOf(st, p) == |set c | c in cs && Selected(spec, nss, c) && c.status.phase == p|
    {
      CountsClusters(st.members, own, p);
      assert InPhase(own, p)
          == set c | c in cs && Selected(spec, nss, c) && c.status.phase == p;
    }
  }

  lemma MembersMean(ms: seq<SetMember>, spec: SetSpec, nss: seq<Namespace>, cs: set<Cluster>)
    requires Elements(ms) == MemberSet(spec, nss, cs)
    ensures forall c :: c in cs && Selected(spec, nss, c) ==> SetMember(c.ns, c.name, c.status.phase) in ms
    ensures forall m :: m in ms ==>
      exists c :: c in cs && Selected(spec, nss, c) && m == SetMember(c.ns, c.name, c.status.phase)
  {
    forall c | c in cs && Selected(spec, nss, c) ensures SetMember(c.ns, c.name, c.status.phase) in ms {
      assert MemberOf(c) in Elements(ms);
    }
    forall m | m in ms
      ensures exists c :: c in cs && Selected(spec, nss, c) && m == SetMember(c.ns, c.name, c.status.phase)
    {
      assert m in Elements(ms);
      var c :| c in cs && Selected(spec, nss, c) && m == MemberOf(c);
    }
  }

  // ---------------------------------------------------------------- the sort

  function Insert(m: SetMember, ms: seq<SetMember>): seq<SetMember> {
    if ms == [] then [m]
    else if Before(m, ms[0]) then [m] + ms
    else [ms[0]] + Insert(m, ms[1..])
  }

  function Sort(ms: seq<SetMember>): seq<SetMember> {
    if ms == [] then [] else Insert(ms[0], Sort(ms[1..]))
  }

  predicate DistinctKeys(ms: seq<SetMember>) {
    forall i, j :: 0 <= i < j < |ms| ==> (ms[i].ns, ms[i].name) != (ms[j].ns, ms[j].name)
  }

  lemma {:induction false} InsertElements(m: SetMember, ms: seq<SetMember>)
    ensures forall x :: x in Insert(m, ms) <==> x == m || x in ms
    ensures forall p :: CountPhase(Insert(m, ms), p) == CountPhase(ms, p) + (if m.phase == p then 1 else 0)
    ensures |Insert(m, ms)| == |ms| + 1
  {
    if ms != [] && !Before(m, ms[0]) {
      InsertElements(m, ms[1..]);
      var r := Insert(m, ms[1..]);
      assert ([ms[0]] + r)[1..] == r;
      assert ms == [ms[0]] + ms[1..];
    } else {
      assert ([m] + ms)[1..] == ms;
    }
  }

  lemma {:induction false} InsertSorted(m: SetMember, ms: seq<SetMember>)
    requires Sorted(ms)
    requires forall x :: x in ms ==> (x.ns, x.name) != (m.ns, m.name)
    ensures Sorted(Insert(m, ms))
  {
    if ms == [] {
    } else if Before(m, ms[0]) {
      forall i | 0 <= i < |ms| ensures Before(m, ms[i]) {
        if i > 0 {
          BeforeTransitive(m, ms[0], ms[i]);
        }
      }
    } else {
      InsertSorted(m, ms[1..]);
      InsertElements(m, ms[1..]);
      assert ms[0] in ms;
      BeforeOrder(m, ms[0]);
      var r := Insert(m, ms[1..]);
      forall i | 0 <= i < |r| ensures Before(ms[0], r[i]) {
        assert r[i] in r;
      }
    }
  }

  lemma {:induction false} SortSpec(ms: seq<SetMember>)
    ensures |Sort(ms)| == |ms|
    ensures forall x :: x in Sort(ms) <==> x in ms
    ensures forall p :: CountPhase(Sort(ms), p) == CountPhase(ms, p)
    ensures DistinctKeys(ms) ==> Sorted(Sort(ms))
  {
    if ms != [] {
      SortSpec(ms[1..]);
      InsertElements(ms[0], Sort(ms[1..]));
      assert ms == [ms[0]] + ms[1..];
      if DistinctKeys(ms) {
        InsertSorted(ms[0], Sort(ms[1..]));
      }
    }
  }

  lemma {:induction false} CountAppend(ms: seq<SetMember>, m: SetMember, p: Phase)
    ensures CountPhase(ms + [m], p) == CountPhase(ms, p) + (if m.phase == p then 1 else 0)
  {
    if ms == [] {
      assert ms + [m] == [m];
    } else {
      CountAppend(ms[1..], m, p);
      assert (ms + [m])[1..] == ms[1..] + [m];
    }
  }

  lemma {:induction false} MembersExist(spec: SetSpec, nss: seq<Namespace>, cs: set<Cluster>)
    returns (ms: seq<SetMember>)
    requires UniqueKeys(cs)
    ensures DistinctKeys(ms) && Elements(ms) == MemberSet(spec, nss, cs)
    decreases cs
  {
    if cs == {} {
      ms := [];
    } else {
      var c :| c in cs;
      ms := MembersExist(spec, nss, cs - {c});
      if Selected(spec, nss, c) {
        forall x | x in ms ensures (x.ns, x.name) != KeyOf(c) {
          assert x in Elements(ms);
          var d :| d in cs - {c} && Selected(spec, nss, d) && x == MemberOf(d);
          assert KeyOf(d) != KeyOf(c);
        }
        ghost var was := ms;
        ms := ms + [MemberOf(c)];
        assert Elements(ms) == Elements(was) + {MemberOf(c)};
        assert MemberSet(spec, nss, cs) == MemberSet(spec, nss, cs - {c}) + {MemberOf(c)};
      } else {
        assert MemberSet(spec, nss, cs) == MemberSet(spec, nss, cs - {c});
      }
    }
  }

  /** Every set of clusters has a status. */
  lemma StatusExists(spec: SetSpec, nss: seq<Namespace>, cs: set<Cluster>) returns (st: SetStatus)
    requires UniqueKeys(cs)
    ensures IsStatus(st, spec, nss, cs)
  {
    var ms := MembersExist(spec, nss, cs);
    SortSpec(ms);
    var sorted := Sort(ms);
    assert Elements(sorted) == Elements(ms);
    var h: map<Phase, int> := map p | p in {Provisioning, Active, Scaling, Failed} && CountPhase(sorted, p) > 0
      :: CountPhase(sorted, p);
    st := SetStatus(|sorted|, h, sorted);
  }

  // ---------------------------------------------------------------- Reconcile

  /** A stored or cached cluster with its resourceVersion. */
  datatype Rec = Rec(version: nat, cluster: Cluster)

  /** overlayBackup's rules, and the webhook's verdict on the result. */
  ghost predicate OverlayDue(p: Parsers, set_: Set, nss: seq<Namespace>, c: Cluster) {
    && Selected(set_.spec, nss, c)
    && set_.spec.template.Some?
    && !OptedOut(c)
    && !c.spec.backup.enabled
    && Valid(p, Overlaid(c, set_.spec.template.value, set_.name).spec)
  }

  /** For an admitted cluster, written out: the Set selects it and has a template with a bucket and a good
      schedule, and the cluster has neither backup nor the opt-out. */
  lemma OverlayDueExactly(p: Parsers, set_: Set, nss: seq<Namespace>, c: Cluster)
    requires Valid(p, c.spec)
    ensures OverlayDue(p, set_, nss, c) <==>
      && Selected(set_.spec, nss, c)
      && set_.spec.template.Some? && set_.spec.template.value.bucket != ""
      && (set_.spec.template.value.schedule == "" || p.cron(set_.spec.template.value.schedule))
      && !c.spec.backup.enabled
      && !(OPT_OUT in c.annotations && c.annotations[OPT_OUT] == "true")
  {
    if set_.spec.template.Some? {
      OverlayWritesBackup(c, set_.spec.template.value, set_.name);
      TemplateAdmittedExactly(p, c.spec, set_.spec.template.value);
    }
  }

  /** The stored member after one Set reconcile that saw `cached`. */
  ghost function AfterOverlay(p: Parsers, set_: Set, nss: seq<Namespace>, cached: Rec, stored: Rec): Rec {
    if OverlayDue(p, set_, nss, cached.cluster) && cached.version == stored.version
    then Rec(stored.version + 1, Overlaid(stored.cluster, set_.spec.template.value, set_.name))
    else stored
  }

  /** The same, when the overlay's write ends in `fate`. */
  ghost function AfterWrite(p: Parsers, set_: Set, nss: seq<Namespace>, fate: Fate, cached: Rec, stored: Rec): Rec {
    if fate.Refused? then stored else AfterOverlay(p, set_, nss, cached, stored)
  }

  /** What a pass of `set_` may do to a stored member: nothing, or one version with its template as the
      backup block, if the member has not opted out and has no backup. */
  ghost predicate MemberKept(set_: Set, a: Rec, b: Rec) {
    || b == a
    || (&& set_.spec.template.Some? && b.version == a.version + 1
        && BackupOnly(a.cluster, b.cluster) && BackupFrom(b.cluster, set_.spec.template.value, set_.name)
        && !a.cluster.spec.backup.enabled
        && !(OPT_OUT in a.cluster.annotations && a.cluster.annotations[OPT_OUT] == "true"))
  }

  lemma WriteKeepsMember(p: Parsers, set_: Set, nss: seq<Namespace>, fate: Fate, cached: Rec, stored: Rec)
    requires Coherent(cached, stored)
    ensures MemberKept(set_, stored, AfterWrite(p, set_, nss, fate, cached, stored))
  {
    if set_.spec.template.Some? {
      OverlayWritesBackup(stored.cluster, set_.spec.template.value, set_.name);
    }
  }

  /** Same version, same content; versions only grow. */
  ghost predicate Coherent(cached: Rec, stored: Rec) {
    cached.version <= stored.version && (cached.version == stored.version ==> cached == stored)
  }

  /** The clusters as the API server stores them. */
  class MemberStore {
    var recs: map<Key, Rec>

    /** The server would take `copy`: the member exists, its version matches and the spec is admissible. */
    ghost predicate Takes(p: Parsers, copy: Rec)
      reads this
    {
      var k := KeyOf(copy.cluster);
      k in recs && recs[k].version == copy.version && Valid(p, copy.cluster.spec)
    }

    /** Update of the main resource: it stores what the server takes, unless the call fails before, and
        it succeeds if the answer arrives too. */
    method Update(p: Parsers, copy: Rec, fate: Fate) returns (ok: bool)
      modifies this
      ensures ok <==> old(Takes(p, copy)) && fate.Answered?
      ensures recs ==
        if old(Takes(p, copy)) && !fate.Refused? then
          var stored := old(recs)[KeyOf(copy.cluster)];
          old(recs)[KeyOf(copy.cluster) :=
            Rec(stored.version + 1,
                copy.cluster.(status := stored.cluster.status, deleting := stored.cluster.deleting))]
        else old(recs)
    {
      var k := KeyOf(copy.cluster);
      var errs := Validate(p, copy.cluster.spec);
      var stores := k in recs && recs[k].version == copy.version && errs == [] && !fate.Refused?;
      if stores {
        var stored := recs[k];
        recs := recs[k := Rec(stored.version + 1,
          copy.cluster.(status := stored.cluster.status, deleting := stored.cluster.deleting))];
      }
      ok := stores && fate.Answered?;
    }
  }

  /** overlayBackup with its caller's error handling (log and go on), for a member that passed both selectors. */
  method OverlayBackup(p: Parsers, set_: Set, ghost nss: seq<Namespace>, pc: Rec, fate: Fate, api: MemberStore)
    requires Selected(set_.spec, nss, pc.cluster)
    requires KeyOf(pc.cluster) in api.recs ==>
      && Coherent(pc, api.recs[KeyOf(pc.cluster)])
      && KeyOf(api.recs[KeyOf(pc.cluster)].cluster) == KeyOf(pc.cluster)
    modifies api
    ensures api.recs.Keys == old(api.recs).Keys
    ensures forall k :: k in api.recs && k != KeyOf(pc.cluster) ==> api.recs[k] == old(api.recs)[k]
    ensures KeyOf(pc.cluster) in api.recs ==>
      MemberKept(set_, old(api.recs)[KeyOf(pc.cluster)], api.recs[KeyOf(pc.cluster)])
    ensures KeyOf(pc.cluster) in api.recs ==>
      api.recs[KeyOf(pc.cluster)] == AfterWrite(p, set_, nss, fate, pc, old(api.recs)[KeyOf(pc.cluster)])
  {
    if KeyOf(pc.cluster) in api.recs {
      WriteKeepsMember(p, set_, nss, fate, pc, api.recs[KeyOf(pc.cluster)]);
    }
    if set_.spec.template.None? || OptedOut(pc.cluster) || pc.cluster.spec.backup.enabled {
      return;
    }
    var desired := set_.spec.template.value.(enabled := true);
    var obj := pc.cluster.(annotations := pc.cluster.annotations[MANAGED_BY := set_.name],
                           spec := pc.cluster.spec.(backup := desired));
    var ok := api.Update(p, Rec(pc.version, obj), fate);
  }

  predicate DistinctListing(items: seq<Rec>) {
    forall i, j :: 0 <= i < j < |items| ==> KeyOf(items[i].cluster) != KeyOf(items[j].cluster)
  }

  ghost function Listed(items: seq<Rec>): set<Cluster> {
    set i | 0 <= i < |items| :: items[i].cluster
  }

  /** The report on the first `n` items: exactly the selected ones, counted by phase. */
  ghost predicate Reported(ms: seq<SetMember>, h: map<Phase, int>, spec: SetSpec, nss: seq<Namespace>,
                           items: seq<Rec>, n: nat)
    requires n <= |items|
  {
    && (forall j :: 0 <= j < n && Selected(spec, nss, items[j].cluster) ==> MemberOf(items[j].cluster) in ms)
    && (forall m :: m in ms ==>
          exists j :: 0 <= j < n && Selected(spec, nss, items[j].cluster) && m == MemberOf(items[j].cluster))
    && DistinctKeys(ms)
    && Histogram(h, ms)
  }

  lemma ReportOne(ms: seq<SetMember>, h: map<Phase, int>, spec: SetSpec, nss: seq<Namespace>,
                  items: seq<Rec>, n: nat)
    requires n < |items| && DistinctListing(items) && Reported(ms, h, spec, nss, items, n)
    requires Selected(spec, nss, items[n].cluster)
    ensures
      var m := MemberOf(items[n].cluster);
      var h' := if m.phase == NoPhase then h
                else h[m.phase := (if m.phase in h then h[m.phase] else 0) + 1];
      Reported(ms + [m], h', spec, nss, items, n + 1)
  {
    var m := MemberOf(items[n].cluster);
    forall x | x in ms ensures (x.ns, x.name) != (m.ns, m.name) {
      var j :| 0 <= j < n && Selected(spec, nss, items[j].cluster) && x == MemberOf(items[j].cluster);
      assert KeyOf(items[j].cluster) != KeyOf(items[n].cluster);
    }
    forall q ensures CountPhase(ms + [m], q) == CountPhase(ms, q) + (if m.phase == q then 1 else 0) {
      CountAppend(ms, m, q);
    }
  }

  /** The stored clusters after the first `n` items were visited. */
  ghost predicate Visited(p: Parsers, set_: Set, nss: seq<Namespace>, fates: Key -> Fate, items: seq<Rec>, n: nat,
                          before: map<Key, Rec>, after: map<Key, Rec>)
    requires n <= |items|
  {
    && after.Keys == before.Keys
    && (forall j :: 0 <= j < n && KeyOf(items[j].cluster) in after ==>
          after[KeyOf(items[j].cluster)]
          == AfterWrite(p, set_, nss, fates(KeyOf(items[j].cluster)), items[j], before[KeyOf(items[j].cluster)]))
    && (forall k :: k in after && (forall j :: 0 <= j < n ==> KeyOf(items[j].cluster) != k) ==> after[k] == before[k])
  }

  lemma VisitOne(p: Parsers, set_: Set, nss: seq<Namespace>, fates: Key -> Fate, items: seq<Rec>, n: nat,
                 before: map<Key, Rec>, mid: map<Key, Rec>, after: map<Key, Rec>)
    requires n < |items| && DistinctListing(items) && Visited(p, set_, nss, fates, items, n, before, mid)
    requires after.Keys == mid.Keys
    requires forall k :: k in after && k != KeyOf(items[n].cluster) ==> after[k] == mid[k]
    requires KeyOf(items[n].cluster) in after ==>
      after[KeyOf(items[n].cluster)]
      == AfterWrite(p, set_, nss, fates(KeyOf(items[n].cluster)), items[n], mid[KeyOf(items[n].cluster)])
    ensures Visited(p, set_, nss, fates, items, n + 1, before, after)
  {
    assert KeyOf(items[n].cluster) in mid ==> mid[KeyOf(items[n].cluster)] == before[KeyOf(items[n].cluster)];
  }

  lemma VisitSkipped(p: Parsers, set_: Set, nss: seq<Namespace>, fates: Key -> Fate, items: seq<Rec>, n: nat,
                     before: map<Key, Rec>, after: map<Key, Rec>)
    requires n < |items| && DistinctListing(items) && Visited(p, set_, nss, fates, items, n, before, after)
    requires !Selected(set_.spec, nss, items[n].cluster)
    ensures Visited(p, set_, nss, fates, items, n + 1, before, after)
  {
    VisitOne(p, set_, nss, fates, items, n, before, after, after);
  }

  lemma UntouchedYet(p: Parsers, set_: Set, nss: seq<Namespace>, fates: Key -> Fate, items: seq<Rec>, n: nat,
                     before: map<Key, Rec>, after: map<Key, Rec>)
    requires n < |items| && DistinctListing(items) && Visited(p, set_, nss, fates, items, n, before, after)
    ensures KeyOf(items[n].cluster) in after ==> after[KeyOf(items[n].cluster)] == before[KeyOf(items[n].cluster)]
  {
  }

  lemma VisitKeepsMembers(p: Parsers, set_: Set, nss: seq<Namespace>, fates: Key -> Fate, items: seq<Rec>,
                          before: map<Key, Rec>, after: map<Key, Rec>)
    requires GoodItems(items, before) && Visited(p, set_, nss, fates, items, |items|, before, after)
    ensures forall k :: k in after ==> MemberKept(set_, before[k], after[k])
  {
    forall k | k in after ensures MemberKept(set_, before[k], after[k]) {
      if j :| 0 <= j < |items| && KeyOf(items[j].cluster) == k {
        WriteKeepsMember(p, set_, nss, fates(k), items[j], before[k]);
      }
    }
  }

  lemma SortedReport(ms: seq<SetMember>, h: map<Phase, int>, spec: SetSpec, nss: seq<Namespace>, items: seq<Rec>)
    requires Reported(ms, h, spec, nss, items, |items|)
    ensures IsStatus(SetStatus(|Sort(ms)|, h, Sort(ms)), spec, nss, Listed(items))
  {
    SortSpec(ms);
    assert Elements(Sort(ms)) == MemberSet(spec, nss, Listed(items));
  }

  /** The report's part of the loop body. */
  method ReportMember(ms: seq<SetMember>, h: map<Phase, int>, spec: SetSpec, nss: seq<Namespace>,
                      items: seq<Rec>, i: nat)
    returns (members: seq<SetMember>, phaseCount: map<Phase, int>)
    requires i < |items| && DistinctListing(items) && Reported(ms, h, spec, nss, items, i)
    requires Selected(spec, nss, items[i].cluster)
    ensures Reported(members, phaseCount, spec, nss, items, i + 1)
  {
    ReportOne(ms, h, spec, nss, items, i);
    var pc := items[i].cluster;
    members, phaseCount := ms + [MemberOf(pc)], h;
    if pc.status.phase != NoPhase {
      var n := if pc.status.phase in phaseCount then phaseCount[pc.status.phase] else 0;
      phaseCount := phaseCount[pc.status.phase := n + 1];
    }
  }

  /** What a pass gets from its calls: the two listings (None: failed), how each overlay's write ends and
      how the status update does. */
  datatype Calls = Calls(
    nss: Option<seq<Namespace>>,
    items: Option<seq<Rec>>,
    overlays: Key -> Fate,
    status: Fate)

  /** The namespaces of the pass; an empty selector does not list them. */
  function Namespaces(calls: Calls): seq<Namespace> {
    if calls.nss.Some? then calls.nss.value else []
  }

  /** The selectors parse and the listings come back. */
  predicate Underway(spec: SetSpec, calls: Calls) {
    && Parses(spec.clusterSelector) && Parses(spec.namespaceSelector)
    && (SelectsAll(spec.namespaceSelector) || calls.nss.Some?)
    && calls.items.Some?
  }

  /** A listing that may be outdated, of clusters stored under their keys. */
  ghost predicate GoodItems(items: seq<Rec>, recs: map<Key, Rec>) {
    && DistinctListing(items)
    && (forall i :: 0 <= i < |items| && KeyOf(items[i].cluster) in recs ==>
          Coherent(items[i], recs[KeyOf(items[i].cluster)]))
    && (forall k :: k in recs ==> KeyOf(recs[k].cluster) == k)
  }

  /** The loop over the members. A failed overlay is logged and the member counted. */
  method VisitMembers(p: Parsers, set_: Set, nss: seq<Namespace>, allowed: Option<set<string>>,
                      fates: Key -> Fate, items: seq<Rec>, api: MemberStore)
    returns (members: seq<SetMember>, phaseCount: map<Phase, int>)
    requires GoodItems(items, api.recs)
    requires allowed.None? <==> SelectsAll(set_.spec.namespaceSelector)
    requires allowed.Some? ==>
      forall ns :: ns in allowed.value <==> NamespaceMatches(set_.spec.namespaceSelector, nss, ns)
    modifies api
    ensures Visited(p, set_, nss, fates, items, |items|, old(api.recs), api.recs)
    ensures Reported(members, phaseCount, set_.spec, nss, items, |items|)
  {
    members, phaseCount := [], map[];
    for i := 0 to |items|
      invariant Visited(p, set_, nss, fates, items, i, old(api.recs), api.recs)
      invariant Reported(members, phaseCount, set_.spec, nss, items, i)
    {
      var member := IsMember(set_.spec, nss, allowed, items[i].cluster);
      if !member {
        VisitSkipped(p, set_, nss, fates, items, i, old(api.recs), api.recs);
        continue;
      }
      VisitMember(p, set_, nss, fates, items, i, api, old(api.recs));
      members, phaseCount := ReportMember(members, phaseCount, set_.spec, nss, items, i);
    }
  }

  /** The two checks at the head of the loop body. */
  method IsMember(spec: SetSpec, ghost nss: seq<Namespace>, allowed: Option<set<string>>, pc: Cluster)
    returns (member: bool)
    requires allowed.None? <==> SelectsAll(spec.namespaceSelector)
    requires allowed.Some? ==> forall ns :: ns in allowed.value <==> NamespaceMatches(spec.namespaceSelector, nss, ns)
    ensures member <==> Selected(spec, nss, pc)
  {
    if allowed.Some? && pc.ns !in allowed.value {
      return false;
    }
    return Matches(spec.clusterSelector, pc.labels);
  }

  /** The overlay's part of the loop body. */
  method VisitMember(p: Parsers, set_: Set, ghost nss: seq<Namespace>, fates: Key -> Fate, items: seq<Rec>, i: nat,
                     api: MemberStore, ghost before: map<Key, Rec>)
    requires GoodItems(items, before) && i < |items|
    requires Visited(p, set_, nss, fates, items, i, before, api.recs)
    requires Selected(set_.spec, nss, items[i].cluster)
    modifies api
    ensures Visited(p, set_, nss, fates, items, i + 1, before, api.recs)
  {
    ghost var mid := api.recs;
    UntouchedYet(p, set_, nss, fates, items, i, before, mid);
    OverlayBackup(p, set_, nss, items[i], fates(KeyOf(items[i].cluster)), api);
    VisitOne(p, set_, nss, fates, items, i, before, mid, api.recs);
  }

  /** The whole pass. It fails if a selector does not parse, a listing fails or the status update does; a
      failed overlay does not fail it. Whatever order the cache lists the clusters in, the status written
      describes their set, and every listed member is stored as the overlay rules and its write say. */
  method Reconcile(p: Parsers, set_: Set, calls: Calls, api: MemberStore)
    returns (written: Option<SetStatus>, failed: bool)
    requires GoodItems(if calls.items.Some? then calls.items.value else [], api.recs)
    modifies api
    ensures failed <==> !Underway(set_.spec, calls) || !calls.status.Answered?
    ensures written.Some? <==> Underway(set_.spec, calls) && !calls.status.Refused?
    ensures written.Some? ==> IsStatus(written.value, set_.spec, Namespaces(calls), Listed(calls.items.value))
    ensures if Underway(set_.spec, calls)
      then Visited(p, set_, Namespaces(calls), calls.overlays, calls.items.value, |calls.items.value|,
                   old(api.recs), api.recs)
      else api.recs == old(api.recs)
    ensures api.recs.Keys == old(api.recs).Keys
    ensures forall k :: k in api.recs ==> MemberKept(set_, old(api.recs)[k], api.recs[k])
  {
    if !Parses(set_.spec.clusterSelector) || !Parses(set_.spec.namespaceSelector) {
      return None, true;
    }
    if (!SelectsAll(set_.spec.namespaceSelector) && calls.nss.None?) || calls.items.None? {
      return None, true;
    }
    var nss, items := Namespaces(calls), calls.items.value;
    var allowed := AllowedNamespaces(set_.spec.namespaceSelector, nss);
    var members, phaseCount := VisitMembers(p, set_, nss, allowed, calls.overlays, items, api);
    VisitKeepsMembers(p, set_, nss, calls.overlays, items, old(api.recs), api.recs);
    SortedReport(members, phaseCount, set_.spec, nss, items);
    members := Sort(members);
    written := if calls.status.Refused? then None else Some(SetStatus(|members|, phaseCount, members));
    failed := !calls.status.Answered?;
  }

  /** Two listings of the same clusters give the same status. */
  lemma ListingOrderIrrelevant(a: seq<Rec>, b: seq<Rec>, spec: SetSpec, nss: seq<Namespace>,
                               x: SetStatus, y: SetStatus)
    requires multiset(a) == multiset(b)
    requires IsStatus(x, spec, nss, Listed(a)) && IsStatus(y, spec, nss, Listed(b))
    ensures x == y
  {
    forall c ensures c in Listed(a) <==> c in Listed(b) {
      if c in Listed(a) {
        var i :| 0 <= i < |a| && a[i].cluster == c;
        assert a[i] in multiset(b);
        var j :| 0 <= j < |b| && b[j] == a[i];
      }
      if c in Listed(b) {
        var i :| 0 <= i < |b| && b[i].cluster == c;
        assert b[i] in multiset(a);
        var j :| 0 <= j < |a| && a[j] == b[i];
      }
    }
    assert Listed(a) == Listed(b);
    StatusUnique(x, y, spec, nss, Listed(a));
  }
}
