/** internal/metrics: the per-cluster phase gauges. */
module Metrics {
  import opened Types

  datatype Series = Series(ns: string, name: string, phase: Phase)

  const PHASES := [Provisioning, Active, Scaling, Failed]

  function Value(p: Phase, current: Phase): int {
    if p == current then 1 else 0
  }

  /** The gauges once the cluster's series for the phases `done` show `current`. */
  function Showed(g: map<Series, int>, ns: string, name: string, current: Phase, done: seq<Phase>): map<Series, int> {
    g + map q | q in done :: Series(ns, name, q) := Value(q, current)
  }

  /** The gauges after SetPhase. */
  function WithPhase(g: map<Series, int>, ns: string, name: string, p: Phase): map<Series, int> {
    Showed(g, ns, name, p, PHASES)
  }

  /** The gauges after DeleteCluster. */
  function WithoutCluster(g: map<Series, int>, ns: string, name: string): map<Series, int> {
    map s | s in g && (s.ns != ns || s.name != name) :: g[s]
  }

  lemma ShowedOne(g: map<Series, int>, ns: string, name: string, current: Phase, ps: seq<Phase>, i: nat)
    requires i < |ps|
    ensures Showed(g, ns, name, current, ps[..i + 1])
            == Showed(g, ns, name, current, ps[..i])[Series(ns, name, ps[i]) := Value(ps[i], current)]
  {
    assert ps[..i + 1] == ps[..i] + [ps[i]];
  }

  class Registry {
    var gauges: map<Series, int>

    constructor ()
      ensures gauges == map[]
    {
      gauges := map[];
    }

    method SetPhase(ns: string, name: string, p: Phase)
      modifies this
      ensures gauges == WithPhase(old(gauges), ns, name, p)
    {
      for i := 0 to |PHASES|
        invariant gauges == Showed(old(gauges), ns, name, p, PHASES[..i])
      {
        ShowedOne(old(gauges), ns, name, p, PHASES, i);
        var v := 0;
        if PHASES[i] == p {
          v := 1;
        }
        gauges := gauges[Series(ns, name, PHASES[i]) := v];
      }
      assert PHASES[..|PHASES|] == PHASES;
    }

    method DeleteCluster(ns: string, name: string)
      modifies this
      ensures gauges == WithoutCluster(old(gauges), ns, name)
    {
      gauges := map s | s in gauges && (s.ns != ns || s.name != name) :: gauges[s];
    }
  }

  /** No series of the cluster exists. */
  ghost predicate Absent(g: map<Series, int>, ns: string, name: string) {
    forall p :: Series(ns, name, p) !in g
  }

  /** Every known phase has a series, 1 for `current` and 0 for the others, and there is no other. */
  ghost predicate Showing(g: map<Series, int>, ns: string, name: string, current: Phase) {
    && (forall p :: Series(ns, name, p) in g <==> p != NoPhase)
    && (forall p :: p != NoPhase ==> g[Series(ns, name, p)] == (if p == current then 1 else 0))
  }

  lemma SetPhaseShows(g: map<Series, int>, ns: string, name: string, p: Phase)
    requires Absent(g, ns, name) || exists q :: Showing(g, ns, name, q)
    ensures Showing(WithPhase(g, ns, name, p), ns, name, p)
    ensures forall s: Series :: (s.ns, s.name) != (ns, name) ==>
      (s in WithPhase(g, ns, name, p) <==> s in g) && (s in g ==> WithPhase(g, ns, name, p)[s] == g[s])
  {
    assert PHASES[0] == Provisioning && PHASES[1] == Active && PHASES[2] == Scaling && PHASES[3] == Failed;
  }

  lemma DeleteTakesAll(g: map<Series, int>, ns: string, name: string)
    ensures Absent(WithoutCluster(g, ns, name), ns, name)
    ensures forall s: Series :: (s.ns, s.name) != (ns, name) ==>
      (s in WithoutCluster(g, ns, name) <==> s in g) && (s in g ==> WithoutCluster(g, ns, name)[s] == g[s])
  {
  }
}
