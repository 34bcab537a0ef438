/** When the container constructs at all: what a lazy one leaves unbuilt, what an eager one
    builds, and who shares what. */
module ServiceContainerLife {
  import opened Options
  import opened ServiceContainer
  import opened ServiceContainerNames
  import opened ServiceContainerRuns
  import opened ServiceContainerGraphs

  // ----- a lazy container builds only what is wanted

  type Wanted = TypeId -> bool

  /** Wanted is what clients ask for, and what registrations of wanted services depend on. */
  ghost predicate Closed(ops: seq<Op>, wanted: Wanted) {
    forall i | 0 <= i < |ops| ::
      && (ops[i].Ask? ==> wanted(ops[i].t))
      && (!ops[i].Ask? && wanted(ops[i].t) ==> forall d | d in Dependencies(ops[i]) :: wanted(d))
  }

  ghost predicate MadeForWanted(ops: seq<Op>, wanted: Wanted, p: Provider) {
    p.reg < |ops| && !ops[p.reg].Ask? && wanted(ops[p.reg].t) && p.deps == Dependencies(ops[p.reg])
  }

  ghost predicate OnlyWanted(ops: seq<Op>, wanted: Wanted, s: State) {
    forall a | 0 <= a < |s.heap| :: MadeForWanted(ops, wanted, s.heap[a].maker)
  }

  ghost predicate FactoriesMade(ops: seq<Op>, s: State) {
    forall t | t in s.services :: FactoryFits(ops, |ops|, t, s.services[t])
  }

  lemma WantedDependencies(ops: seq<Op>, wanted: Wanted, p: Provider)
    requires Closed(ops, wanted) && MadeForWanted(ops, wanted, p)
    ensures forall d | d in p.deps :: wanted(d)
  {
  }

  lemma {:induction false} ResolvedWanted(ops: seq<Op>, wanted: Wanted, s: State, rank: Rank, t: TypeId, parent: Name,
                                          k: nat)
    requires Closed(ops, wanted) && OnlyWanted(ops, wanted, s) && FactoriesMade(ops, s)
    requires Ranked(rank, s.services) && wanted(t)
    ensures var s' := Resolved(s, rank, t, parent, k).0;
            OnlyWanted(ops, wanted, s') && FactoriesMade(ops, s')
    decreases rank(t), 1, 0
  {
    hide Closed;
    if t in s.services {
      var f := s.services[t];
      assert FactoryRanked(rank, t, f) && FactoryFits(ops, |ops|, t, f);
      if f.Transient? {
        var name := Name(parent.root, parent.path + [Step(k, f.provider.reg)]);
        ConstructedWanted(ops, wanted, s, rank, rank(t), f.provider, name);
      } else if f.instance == Null && f.maker.Some? {
        ConstructedWanted(ops, wanted, s, rank, rank(t), f.maker.value, Name(Once(f.maker.value.reg), []));
      }
    }
  }

  lemma {:induction false} ConstructedWanted(ops: seq<Op>, wanted: Wanted, s: State, rank: Rank, bound: nat,
                                             p: Provider, name: Name)
    requires Closed(ops, wanted) && OnlyWanted(ops, wanted, s) && FactoriesMade(ops, s)
    requires Ranked(rank, s.services) && Below(rank, p.deps, bound) && MadeForWanted(ops, wanted, p)
    ensures var s' := Constructed(s, rank, bound, p, name).0;
            OnlyWanted(ops, wanted, s') && FactoriesMade(ops, s')
    decreases bound, 0, |p.deps| + 1
  {
    hide FactoryFits;
    WantedDependencies(ops, wanted, p);
    ResolvedAllWanted(ops, wanted, s, rank, bound, p.deps, name, 0);
  }

  lemma {:induction false} ResolvedAllWanted(ops: seq<Op>, wanted: Wanted, s: State, rank: Rank, bound: nat,
                                             deps: seq<TypeId>, parent: Name, k: nat)
    requires Closed(ops, wanted) && OnlyWanted(ops, wanted, s) && FactoriesMade(ops, s)
    requires Ranked(rank, s.services) && Below(rank, deps, bound) && forall d | d in deps :: wanted(d)
    ensures var s' := ResolvedAll(s, rank, bound, deps, parent, k).0;
            OnlyWanted(ops, wanted, s') && FactoriesMade(ops, s')
    decreases bound, 0, |deps|
  {
    hide OnlyWanted, FactoriesMade, Closed;
    if deps != [] {
      var s1 := Resolved(s, rank, deps[0], parent, k).0;
      ResolvedWanted(ops, wanted, s, rank, deps[0], parent, k);
      ResolvedAllWanted(ops, wanted, s1, rank, bound, deps[1..], parent, k + 1);
    }
  }

  lemma FitsInTheEnd(ops: seq<Op>, n: nat, s: State)
    requires ServicesFit(ops, n, s) && n <= |ops|
    ensures FactoriesMade(ops, s)
  {
    forall t | t in s.services ensures FactoryFits(ops, |ops|, t, s.services[t]) {
      assert FactoryFits(ops, n, t, s.services[t]);
    }
  }

  lemma FitsOfInv(ops: seq<Op>, n: nat, s: State)
    requires Inv(ops, n, s)
    ensures ServicesFit(ops, n, s)
  {
  }

  /** Nothing is built for a service that no client asks for, directly or through what the
      services asked for depend on. */
  lemma {:induction false} LazyBuildsOnlyWanted(rank: Rank, ops: seq<Op>, wanted: Wanted, n: nat)
    requires OpsRanked(true, rank, ops) && n <= |ops| && Closed(ops, wanted)
    ensures OnlyWanted(ops, wanted, Run(true, rank, ops, n).0)
  {
    if n > 0 {
      hide OnlyWanted, Closed, Run, Performed, FactoriesMade, OpRanked, OpsRanked;
      LazyBuildsOnlyWanted(rank, ops, wanted, n - 1);
      RunInv(true, rank, ops, n - 1);
      OneRanked(true, rank, ops, n - 1);
      RunStep(true, rank, ops, n);
      LazyStepWanted(rank, ops, wanted, n - 1, Run(true, rank, ops, n - 1).0);
    }
  }

  lemma LazyStepWanted(rank: Rank, ops: seq<Op>, wanted: Wanted, n: nat, s: State)
    requires n < |ops| && OpRanked(true, rank, ops[n]) && Ranked(rank, s.services) && Inv(ops, n, s)
    requires Closed(ops, wanted) && OnlyWanted(ops, wanted, s)
    ensures OnlyWanted(ops, wanted, Performed(true, s, rank, ops[n], n).0)
  {
    hide Inv, Resolved, Ranked, OpRanked, FactoriesMade, MadeForWanted;
    FitsOfInv(ops, n, s);
    FitsInTheEnd(ops, n, s);
    if ops[n].Ask? {
      ResolvedWanted(ops, wanted, s, rank, ops[n].t, Name(Asked(n), []), 0);
    }
  }

  /** In particular a service that nobody asks for and nothing depends on stays unbuilt,
      whatever else is asked for. */
  lemma UnneededStaysUnbuilt(rank: Rank, ops: seq<Op>, t: TypeId)
    requires OpsRanked(true, rank, ops)
    requires forall i | 0 <= i < |ops| :: ops[i] != Ask(t) && t !in Dependencies(ops[i])
    ensures var heap := Run(true, rank, ops, |ops|).0.heap;
            forall a | 0 <= a < |heap| :: heap[a].maker.reg < |ops| && !Registers(ops[heap[a].maker.reg], t)
  {
    hide Run;
    var wanted: Wanted := (u: TypeId) => u != t;
    LazyBuildsOnlyWanted(rank, ops, wanted, |ops|);
    var s := Run(true, rank, ops, |ops|).0;
    forall a | 0 <= a < |s.heap| ensures s.heap[a].maker.reg < |ops| && !Registers(ops[s.heap[a].maker.reg], t) {
      assert MadeForWanted(ops, wanted, s.heap[a].maker);
    }
  }

  /** As long as nothing is asked for, nothing is built. */
  lemma {:induction false} LazyWaits(rank: Rank, ops: seq<Op>, n: nat)
    requires OpsRanked(true, rank, ops) && n <= |ops| && forall i | 0 <= i < n :: !ops[i].Ask?
    ensures Run(true, rank, ops, n).0.heap == []
  {
    if n > 0 {
      hide Resolved, Constructed;
      LazyWaits(rank, ops, n - 1);
      OneRanked(true, rank, ops, n - 1);
      RunStep(true, rank, ops, n);
    }
  }

  // ----- an eager container builds what is registered

  lemma HeapStep(lazy: bool, rank: Rank, ops: seq<Op>, n: nat)
    requires OpsRanked(lazy, rank, ops) && n < |ops|
    ensures Run(lazy, rank, ops, n).0.heap <= Run(lazy, rank, ops, n + 1).0.heap
  {
    hide *;
    RunKnown(lazy, rank, ops, n);
    OneRanked(lazy, rank, ops, n);
    RunStep(lazy, rank, ops, n + 1);
    StepKnown(lazy, rank, ops, n, Run(lazy, rank, ops, n).0, Times(lazy, rank, ops, n));
  }

  lemma {:induction false} HeapGrows(lazy: bool, rank: Rank, ops: seq<Op>, n: nat, m: nat)
    requires OpsRanked(lazy, rank, ops) && n <= m <= |ops|
    ensures Run(lazy, rank, ops, n).0.heap <= Run(lazy, rank, ops, m).0.heap
  {
    hide *;
    if n < m {
      HeapGrows(lazy, rank, ops, n, m - 1);
      HeapStep(lazy, rank, ops, m - 1);
    }
  }

  /** Every eager singleton ever registered is on the heap, asked for or not. */
  lemma EagerBuildsAtOnce(rank: Rank, ops: seq<Op>, n: nat)
    requires OpsRanked(false, rank, ops) && n < |ops| && ops[n].Single?
    ensures exists a :: 0 <= a < |Run(false, rank, ops, |ops|).0.heap|
                        && Run(false, rank, ops, |ops|).0.heap[a].maker == Provider(n, ops[n].concrete, ops[n].deps)
  {
    hide Run, ResolvedAll;
    OneRanked(false, rank, ops, n);
    RunStep(false, rank, ops, n + 1);
    HeapGrows(false, rank, ops, n + 1, |ops|);
    var heap := Run(false, rank, ops, n + 1).0.heap;
    assert heap[|heap| - 1].maker == Provider(n, ops[n].concrete, ops[n].deps);
    assert Run(false, rank, ops, |ops|).0.heap[|heap| - 1] == heap[|heap| - 1];
  }

  // ----- the program's own container

  const DISPATCHER: TypeId := 0
  const CHANNELS: TypeId := 1
  const PIPELINE: TypeId := 2
  const WEB_SERVER: TypeId := 3
  const RTSP_APP: TypeId := 4

  /** The registrations of the main program. */
  function MainRegistrations(): seq<Op> {
    [Single(DISPATCHER, 10, []), Single(CHANNELS, 11, []), Single(PIPELINE, 12, [CHANNELS]),
     Single(WEB_SERVER, 13, [DISPATCHER]), Single(RTSP_APP, 14, [DISPATCHER])]
  }

  function ByNumber(): Rank {
    (t: TypeId) => t
  }

  /** The program never asks for the pipeline. Whatever else it asks for, its eager container
      has built one, and a lazy one would never do so. */
  lemma PipelineNeedsEagerness(calls: seq<Op>)
    requires forall i | 0 <= i < |calls| :: calls[i].Ask? && calls[i].t != PIPELINE
    ensures var ops := MainRegistrations() + calls;
            && OpsRanked(true, ByNumber(), ops) && OpsRanked(false, ByNumber(), ops)
            && (var eager := Run(false, ByNumber(), ops, |ops|).0.heap;
                exists a :: 0 <= a < |eager| && eager[a].maker.reg == 2)
            && (var lazy := Run(true, ByNumber(), ops, |ops|).0.heap;
                forall a | 0 <= a < |lazy| :: lazy[a].maker.reg != 2)
  {
    hide Run;
    var ops := MainRegistrations() + calls;
    forall i, lazy | 0 <= i < |ops| ensures OpRanked(lazy, ByNumber(), ops[i]) {
      if i >= 5 { assert ops[i] == calls[i - 5]; }
    }
    forall i | 0 <= i < |ops| ensures ops[i] != Ask(PIPELINE) && PIPELINE !in Dependencies(ops[i]) {
      if i >= 5 { assert ops[i] == calls[i - 5]; }
    }
    UnneededStaysUnbuilt(ByNumber(), ops, PIPELINE);
    assert ops[2] == Single(PIPELINE, 12, [CHANNELS]);
    EagerBuildsAtOnce(ByNumber(), ops, 2);
  }

  // ----- sharing

  /** Asking twice under the same registration gives one object for a singleton, two for a
      transient, and the instance for an instance. */
  lemma SharedOrFresh(lazy: bool, rank: Rank, ops: seq<Op>, i: nat, j: nat)
    requires OpsRanked(lazy, rank, ops)
    requires i < j < |ops| && ops[i].Ask? && ops[j] == ops[i] && LastReg(ops, i, ops[i].t) == LastReg(ops, j, ops[i].t)
    ensures var answers := Run(lazy, rank, ops, |ops|).1;
            var h := LastReg(ops, i, ops[i].t);
            && (h == -1 ==> answers[i] == answers[j] == Null)
            && (h >= 0 && ops[h].Give? ==> answers[i] == answers[j] == ops[h].instance)
            && (h >= 0 && ops[h].Single? ==> answers[i].Built? && answers[i] == answers[j])
            && (h >= 0 && ops[h].Trans? ==> answers[i].Built? && answers[j].Built? && answers[i] != answers[j])
  {
    hide Run, Times, AllDescribed, ServicesMatch, NamesFit, RootsTimed;
    RunKnown(lazy, rank, ops, |ops|);
    var (s, answers) := Run(lazy, rank, ops, |ops|);
    var times := Times(lazy, rank, ops, |ops|);
    assert ResultIs(ops, s.names, times, i, answers[i]) && ResultIs(ops, s.names, times, j, answers[j]);
  }
}
