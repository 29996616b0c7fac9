/** `FPGATransformer`: the rewrite that gives every hardware-capable actor
    an exclusive processing module on each FPGA. For an actor `a` and a
    logic-programmable module `L`, the actor's software requirements gain
    the entry `L_HW_Instructions_a`, its hardware instructions renamed with
    the prefix `L_`, and the platform gains the single-core module
    `L_HW_Impl_a` offering exactly those instructions, connected to the
    first communication module adjacent to `L`. */
module FPGATransformer {
  import opened Graphs
  import opened Text
  import opened Platforms
  import opened ComponentPlatforms

  /** The vertices of `order` that have trait `t`, in that order (the
      `tryView` streams of `GetLPViewers`, `GetHWActors`, `GetSWActors` and
      of the switch list). */
  function Having(g: Graph, order: seq<string>, t: Trait): (r: seq<string>)
    ensures forall x :: x in r <==> x in order && HasTrait(g, x, t)
    ensures |r| <= |order|
  {
    if order == [] then []
    else if HasTrait(g, order[0], t) then [order[0]] + Having(g, order[1..], t)
    else Having(g, order[1..], t)
  }

  /** Filtering an enumeration keeps its elements distinct. */
  lemma {:induction false} HavingDistinct(g: Graph, order: seq<string>, t: Trait)
    requires Distinct(order)
    ensures Distinct(Having(g, order, t))
    decreases |order|
  {
    if order != [] {
      assert Distinct(order[1..]) by {
        forall i, j | 0 <= i < j < |order[1..]| ensures order[1..][i] != order[1..][j] {
          assert order[1..][i] == order[i + 1] && order[1..][j] == order[j + 1];
        }
      }
      HavingDistinct(g, order[1..], t);
      var rest := Having(g, order[1..], t);
      assert order[0] !in order[1..] by {
        forall k | 0 <= k < |order[1..]| ensures order[1..][k] != order[0] {
          assert order[1..][k] == order[k + 1];
        }
      }
      if HasTrait(g, order[0], t) {
        var r := [order[0]] + rest;
        forall i, j | 0 <= i < j < |r| ensures r[i] != r[j] {
          assert r[j] == rest[j - 1];
          if i > 0 {
            assert r[i] == rest[i - 1];
          } else {
            assert rest[j - 1] in rest;
          }
        }
      }
    }
  }

  /** `ShouldTransform`: the platform has a logic-programmable module and
      the application a hardware-capable actor. */
  function ShouldTransform(platform: Graph, application: Graph, pOrder: seq<string>, aOrder: seq<string>): (b: bool)
  {
    |Having(platform, pOrder, LogicProgrammableModule)| > 0 &&
    |Having(application, aOrder, InstrumentedHardwareBehaviour)| > 0
  }

  /** Whatever the iteration orders, the answer depends on the graphs only. */
  lemma ShouldTransformIff(platform: Graph, application: Graph, pOrder: seq<string>, aOrder: seq<string>)
    requires IsEnumeration(pOrder, platform.vertices.Keys) && IsEnumeration(aOrder, application.vertices.Keys)
    ensures ShouldTransform(platform, application, pOrder, aOrder) <==>
            (exists n :: HasTrait(platform, n, LogicProgrammableModule)) &&
            (exists n :: HasTrait(application, n, InstrumentedHardwareBehaviour))
  {
    var lp := Having(platform, pOrder, LogicProgrammableModule);
    var hw := Having(application, aOrder, InstrumentedHardwareBehaviour);
    if n :| HasTrait(platform, n, LogicProgrammableModule) {
      assert n in lp;
    }
    if n :| HasTrait(application, n, InstrumentedHardwareBehaviour) {
      assert n in hw;
    }
    if |lp| > 0 {
      assert HasTrait(platform, lp[0], LogicProgrammableModule);
    }
    if |hw| > 0 {
      assert HasTrait(application, hw[0], InstrumentedHardwareBehaviour);
    }
  }

  /** The switches of `switches` that `lpm` has an edge with, in order. */
  function Adjacent(g: Graph, lpm: string, switches: seq<string>): (r: seq<string>)
    ensures forall x :: x in r <==> x in switches && HasConnection(g, lpm, x)
  {
    if switches == [] then []
    else if HasConnection(g, lpm, switches[0]) then [switches[0]] + Adjacent(g, lpm, switches[1..])
    else Adjacent(g, lpm, switches[1..])
  }

  /** Every logic-programmable module is adjacent to some switch. */
  predicate AllAttached(g: Graph, lpms: seq<string>, switches: seq<string>)
  {
    forall l :: l in lpms ==> Adjacent(g, l, switches) != []
  }

  /** The switch each module's processing modules connect to: the first
      adjacent one. */
  function FirstSwitches(g: Graph, lpms: seq<string>, switches: seq<string>): (r: map<string, string>)
    requires AllAttached(g, lpms, switches)
    ensures forall l :: l in lpms <==> l in r
    ensures forall l :: l in r ==> r[l] in switches && HasConnection(g, l, r[l])
  {
    map l | l in lpms :: Adjacent(g, l, switches)[0]
  }

  /** The requirement key of the instructions of actor `a` on module `l`. */
  function HWInstrsName(l: string, a: string): string
  {
    l + "_" + HWInstructions + "_" + a
  }

  /** The processing module implementing actor `a` on module `l`. */
  function HWImplName(l: string, a: string): string
  {
    l + "_HW_Impl_" + a
  }

  /** The instruction name `k` of module `l`. */
  function OnModule(l: string, k: string): string
  {
    l + "_" + k
  }

  lemma OnModuleInjective(l: string, j: string, k: string)
    ensures OnModule(l, j) == OnModule(l, k) <==> j == k
  {
    if OnModule(l, j) == OnModule(l, k) {
      assert j == OnModule(l, j)[|l| + 1..];
    }
  }

  /** A hardware requirement map renamed onto module `l`, counts unchanged. */
  function Prefixed(l: string, hw: map<string, int>): (r: map<string, int>)
  {
    OnModuleAll(l, hw.Keys);
    map k | k in hw :: OnModule(l, k) := hw[k]
  }

  /** One instruction per cycle for every renamed instruction. */
  function UnitRates(l: string, hw: map<string, int>): (r: map<string, real>)
  {
    map k | k in hw :: OnModule(l, k) := 1.0
  }

  lemma OnModuleAll(l: string, keys: set<string>)
    ensures forall j, k :: j in keys && k in keys && OnModule(l, j) == OnModule(l, k) ==> j == k
  {
    forall j, k | j in keys && k in keys && OnModule(l, j) == OnModule(l, k) ensures j == k {
      OnModuleInjective(l, j, k);
    }
  }

  /** The renamed maps have one key `l_k` per hardware instruction `k`,
      with its count and with rate 1. */
  lemma PrefixedFacts(l: string, hw: map<string, int>)
    ensures forall k :: k in hw <==> OnModule(l, k) in Prefixed(l, hw)
    ensures forall k :: k in hw ==> Prefixed(l, hw)[OnModule(l, k)] == hw[k] && UnitRates(l, hw)[OnModule(l, k)] == 1.0
    ensures forall x :: x in Prefixed(l, hw) ==> exists k :: k in hw && x == OnModule(l, k)
    ensures Prefixed(l, hw).Keys == UnitRates(l, hw).Keys && |Prefixed(l, hw)| == |hw|
  {
    forall k | OnModule(l, k) in Prefixed(l, hw) ensures k in hw {
      var j :| j in hw && OnModule(l, j) == OnModule(l, k);
      OnModuleInjective(l, j, k);
    }
    forall k | k in hw ensures Prefixed(l, hw)[OnModule(l, k)] == hw[k] {
      forall j | j in hw && OnModule(l, j) == OnModule(l, k) ensures hw[j] == hw[k] {
        OnModuleInjective(l, j, k);
      }
    }
    var f := (k: string) => OnModule(l, k);
    assert Prefixed(l, hw).Keys == set k | k in hw :: f(k);
    forall j, k | j in hw && k in hw && f(j) == f(k) ensures j == k {
      OnModuleInjective(l, j, k);
    }
    InjectiveImage(hw.Keys, f);
  }

  /** An injective function keeps the size of a set. */
  lemma {:induction false} InjectiveImage(s: set<string>, f: string -> string)
    requires forall j, k :: j in s && k in s && f(j) == f(k) ==> j == k
    ensures |set k | k in s :: f(k)| == |s|
    decreases |s|
  {
    if s != {} {
      var x :| x in s;
      var rest := s - {x};
      InjectiveImage(rest, f);
      assert (set k | k in s :: f(k)) == (set k | k in rest :: f(k)) + {f(x)};
      assert f(x) !in (set k | k in rest :: f(k));
    }
  }

  /** The software requirements of `n`, empty when absent. */
  function ReqsOf(g: Graph, n: string): map<string, map<string, int>>
  {
    var v := VertexOf(g, n);
    if ComputationalRequirements in v.props && v.props[ComputationalRequirements].RequirementsV?
    then v.props[ComputationalRequirements].reqs else map[]
  }

  /** `n` carries software requirements, without which the accessor
      `computationalRequirements()` throws. */
  predicate HasReqs(g: Graph, n: string)
  {
    var v := VertexOf(g, n);
    ComputationalRequirements in v.props && v.props[ComputationalRequirements].RequirementsV?
  }

  /** `resourceRequirements()`: `None` where `n` carries no resource
      requirements and the accessor throws. */
  function ResourceReqsOf(g: Graph, n: string): Option<map<string, map<string, int>>>
  {
    var v := VertexOf(g, n);
    if ResourceRequirements in v.props && v.props[ResourceRequirements].RequirementsV?
    then Some(v.props[ResourceRequirements].reqs) else None
  }

  /** `resourceRequirements().get(HW_INSTRUCTIONS)`: `None` stands for
      Java's `null`. */
  function HWReqsOf(g: Graph, n: string): Option<map<string, int>>
  {
    var rr := ResourceReqsOf(g, n);
    if rr.Some? && HWInstructions in rr.value then Some(rr.value[HWInstructions]) else None
  }

  /** `computationalRequirements(reqs)` on vertex `n`. */
  function SetReqs(g: Graph, n: string, reqs: map<string, map<string, int>>): (r: Graph)
    ensures r.edges == g.edges && r.vertices.Keys == g.vertices.Keys + {n}
    ensures ReqsOf(r, n) == reqs && HasReqs(r, n)
    ensures forall m :: m != n ==> VertexOf(r, m) == VertexOf(g, m)
  {
    Put(g, n, VertexOf(g, n).(props := VertexOf(g, n).props[ComputationalRequirements := RequirementsV(reqs)]))
  }

  /** Both graphs the pass rewrites: the platform, seen through its
      registry, and the application. */
  datatype TState = TState(platform: PState, app: Graph)

  datatype TStep = TStep(state: TState, outcome: Outcome)

  /** The frequency of the added processing modules: 100 MHz. */
  const HWImplFrequency := 100 * MHz

  /** The instructions of the module implementing `a` on `l`. */
  function ModuleInstructions(l: string, a: string, hw: map<string, int>): map<string, map<string, real>>
  {
    map[HWInstrsName(l, a) := UnitRates(l, hw)]
  }

  /** One pass of the inner loop, for actor `a` and module `l`: the
      requirement entry, the processing module, and its connection to the
      switch `sw`. A missing hardware requirement map is Java's `null` and
      throws at once. The platform's registry is iterated in the order
      `enumerate` gives for its key set. */
  function PairStep(t: TState, a: string, hw: Option<map<string, int>>, l: string, sw: string,
                    enumerate: set<string> -> seq<string>): (r: TStep)
  {
    if hw.None? then TStep(t, Thrown(NullPointer))
    else
      var app := SetReqs(t.app, a, ReqsOf(t.app, a)[HWInstrsName(l, a) := Prefixed(l, hw.value)]);
      var p := AddCPUStep(t.platform, HWImplName(l, a), 1, HWImplFrequency, ModuleInstructions(l, a, hw.value));
      var c := ConnectStep(p, HWImplName(l, a), sw, enumerate(p.viewers.Keys));
      TStep(TState(c.state, app), c.outcome)
  }

  /** The first `n` passes of the inner loop, stopping at the first throw. */
  function Pairs(t: TState, a: string, hw: Option<map<string, int>>, lpms: seq<string>, sws: map<string, string>,
                 n: nat, enumerate: set<string> -> seq<string>): (r: TStep)
    requires n <= |lpms| && forall l :: l in lpms ==> l in sws
  {
    if n == 0 then TStep(t, Done)
    else
      var r := Pairs(t, a, hw, lpms, sws, n - 1, enumerate);
      if r.outcome != Done then r
      else PairStep(r.state, a, hw, lpms[n - 1], sws[lpms[n - 1]], enumerate)
  }

  /** One pass of the outer loop: reading the resource requirements of an
      actor that has none throws, an actor without a software counterpart
      is refused, reading the software requirements of one that has none
      throws, and otherwise the actor is paired with every module in
      turn. */
  function ActorPass(t: TState, a: string, swActors: seq<string>, lpms: seq<string>, sws: map<string, string>,
                     enumerate: set<string> -> seq<string>): (r: TStep)
    requires forall l :: l in lpms ==> l in sws
  {
    if ResourceReqsOf(t.app, a).None? then TStep(t, Thrown(MissingProperty))
    else if a !in swActors then TStep(t, Thrown(IllegalArgument))
    else if !HasReqs(t.app, a) then TStep(t, Thrown(MissingProperty))
    else Pairs(t, a, HWReqsOf(t.app, a), lpms, sws, |lpms|, enumerate)
  }

  /** The first `n` passes of the outer loop, stopping at the first throw. */
  function Actors(t: TState, hwActors: seq<string>, n: nat, swActors: seq<string>, lpms: seq<string>,
                  sws: map<string, string>, enumerate: set<string> -> seq<string>): (r: TStep)
    requires n <= |hwActors| && forall l :: l in lpms ==> l in sws
  {
    if n == 0 then TStep(t, Done)
    else
      var r := Actors(t, hwActors, n - 1, swActors, lpms, sws, enumerate);
      if r.outcome != Done then r
      else ActorPass(r.state, hwActors[n - 1], swActors, lpms, sws, enumerate)
  }

  /** Once a pass throws, the later passes do not run. */
  lemma {:induction false} PairsStop(t: TState, a: string, hw: Option<map<string, int>>, lpms: seq<string>,
                                     sws: map<string, string>, n: nat, m: nat, enumerate: set<string> -> seq<string>)
    requires n <= m <= |lpms| && forall l :: l in lpms ==> l in sws
    requires Pairs(t, a, hw, lpms, sws, n, enumerate).outcome != Done
    ensures Pairs(t, a, hw, lpms, sws, m, enumerate) == Pairs(t, a, hw, lpms, sws, n, enumerate)
    decreases m - n
  {
    if n < m {
      PairsStop(t, a, hw, lpms, sws, n, m - 1, enumerate);
    }
  }

  lemma {:induction false} ActorsStop(t: TState, hwActors: seq<string>, n: nat, m: nat, swActors: seq<string>,
                                      lpms: seq<string>, sws: map<string, string>, enumerate: set<string> -> seq<string>)
    requires n <= m <= |hwActors| && forall l :: l in lpms ==> l in sws
    requires Actors(t, hwActors, n, swActors, lpms, sws, enumerate).outcome != Done
    ensures Actors(t, hwActors, m, swActors, lpms, sws, enumerate) == Actors(t, hwActors, n, swActors, lpms, sws, enumerate)
    decreases m - n
  {
    if n < m {
      ActorsStop(t, hwActors, n, m - 1, swActors, lpms, sws, enumerate);
    }
  }

  /** What `Transform` does to the two graphs and how it ends: the
      adjacency check, the wrapping of the platform graph, then the passes
      over the hardware actors in iteration order. */
  function TransformStep(platform: Graph, application: Graph, pOrder: seq<string>, aOrder: seq<string>,
                         enumerate: set<string> -> seq<string>): (r: TStep)
  {
    var lpms := Having(platform, pOrder, LogicProgrammableModule);
    var switches := Having(platform, pOrder, InstrumentedCommunicationModule);
    var refused := TStep(TState(PState(platform, map[]), application), Thrown(IllegalArgument));
    if !AllAttached(platform, lpms, switches) then refused
    else if !HasGreyBox(platform) then refused
    else
      var hwActors := Having(application, aOrder, InstrumentedHardwareBehaviour);
      var swActors := Having(application, aOrder, InstrumentedSoftwareBehaviour);
      var start := TState(PState(platform, ExtractOver(platform, platform.vertices.Keys, false)), application);
      Actors(start, hwActors, |hwActors|, swActors, lpms, FirstSwitches(platform, lpms, switches), enumerate)
  }

  /** The map `Transform` returns: the two graph objects it was given. */
  datatype Transformed = Transformed(platform: SystemGraph, application: SystemGraph)

  /** `Transform(platformGraph, applicationGraph)`, rewriting both graph
      objects in place. */
  method Transform(platformGraph: SystemGraph, applicationGraph: SystemGraph, pOrder: seq<string>,
                   aOrder: seq<string>, enumerate: set<string> -> seq<string>) returns (r: Result<Transformed>)
    requires IsEnumeration(pOrder, platformGraph.model.vertices.Keys)
    requires platformGraph != applicationGraph
    modifies platformGraph, applicationGraph
    ensures var spec := TransformStep(old(platformGraph.model), old(applicationGraph.model), pOrder, aOrder, enumerate);
            platformGraph.model == spec.state.platform.graph && applicationGraph.model == spec.state.app &&
            (r.Ok? <==> spec.outcome == Done) && (r.Err? ==> spec.outcome == Thrown(r.error)) &&
            (r.Ok? ==> r.value == Transformed(platformGraph, applicationGraph))
  {
    var lpms := Having(platformGraph.model, pOrder, LogicProgrammableModule);
    var switches := Having(platformGraph.model, pOrder, InstrumentedCommunicationModule);
    if !AllAttached(platformGraph.model, lpms, switches) {
      return Err(IllegalArgument);
    }
    var sws := FirstSwitches(platformGraph.model, lpms, switches);
    var hwActors := Having(applicationGraph.model, aOrder, InstrumentedHardwareBehaviour);
    var swActors := Having(applicationGraph.model, aOrder, InstrumentedSoftwareBehaviour);
    var wrapped := Platform.FromGraph(platformGraph, pOrder);
    if wrapped.Err? {
      return Err(wrapped.error);
    }
    var platform := wrapped.value;
    ghost var start := TState(platform.State(), applicationGraph.model);
    var i := 0;
    while i < |hwActors|
      invariant 0 <= i <= |hwActors|
      invariant fresh(platform) && platform.sGraph == platformGraph
      invariant Actors(start, hwActors, i, swActors, lpms, sws, enumerate) ==
                TStep(TState(platform.State(), applicationGraph.model), Done)
    {
      var o := TransformActor(platform, applicationGraph, hwActors[i], swActors, lpms, sws, enumerate);
      if o != Done {
        ActorsStop(start, hwActors, i + 1, |hwActors|, swActors, lpms, sws, enumerate);
        return Err(o.error);
      }
      i := i + 1;
    }
    return Ok(Transformed(platformGraph, applicationGraph));
  }

  /** One pass of the outer loop of `Transform`. */
  method TransformActor(platform: Platform, app: SystemGraph, a: string, swActors: seq<string>, lpms: seq<string>,
                        sws: map<string, string>, enumerate: set<string> -> seq<string>) returns (o: Outcome)
    requires platform.sGraph != app && forall l :: l in lpms ==> l in sws
    modifies platform, platform.sGraph, app
    ensures TStep(TState(platform.State(), app.model), o) ==
            ActorPass(old(TState(platform.State(), app.model)), a, swActors, lpms, sws, enumerate)
  {
    var resources := ResourceReqsOf(app.model, a);
    if resources.None? {
      return Thrown(MissingProperty);
    }
    var hw := HWReqsOf(app.model, a);
    if a !in swActors {
      return Thrown(IllegalArgument);
    }
    if !HasReqs(app.model, a) {
      return Thrown(MissingProperty);
    }
    if hw.None? {
      PairsNull(TState(platform.State(), app.model), a, lpms, sws, |lpms|, enumerate);
      return if |lpms| == 0 then Done else Thrown(NullPointer);
    }
    o := TransformPairs(platform, app, a, hw.value, lpms, sws, enumerate);
  }

  /** Without a hardware requirement map, the first pass throws and nothing
      changes. */
  lemma {:induction false} PairsNull(t: TState, a: string, lpms: seq<string>, sws: map<string, string>, n: nat,
                                     enumerate: set<string> -> seq<string>)
    requires n <= |lpms| && forall l :: l in lpms ==> l in sws
    ensures Pairs(t, a, None, lpms, sws, n, enumerate) == TStep(t, if n == 0 then Done else Thrown(NullPointer))
  {
    if n > 0 {
      PairsNull(t, a, lpms, sws, n - 1, enumerate);
    }
  }

  /** The inner loop of `Transform`, over the modules in order. */
  method TransformPairs(platform: Platform, app: SystemGraph, a: string, hw: map<string, int>, lpms: seq<string>,
                        sws: map<string, string>, enumerate: set<string> -> seq<string>) returns (o: Outcome)
    requires platform.sGraph != app && forall l :: l in lpms ==> l in sws
    modifies platform, platform.sGraph, app
    ensures TStep(TState(platform.State(), app.model), o) ==
            Pairs(old(TState(platform.State(), app.model)), a, Some(hw), lpms, sws, |lpms|, enumerate)
  {
    ghost var t := TState(platform.State(), app.model);
    var j := 0;
    while j < |lpms|
      invariant 0 <= j <= |lpms|
      invariant Pairs(t, a, Some(hw), lpms, sws, j, enumerate) == TStep(TState(platform.State(), app.model), Done)
    {
      o := TransformPairAt(platform, app, a, hw, lpms, sws, enumerate, t, j);
      if o != Done {
        return o;
      }
      j := j + 1;
    }
    return Done;
  }

  /** Pass `j` of the inner loop, in terms of the whole loop. */
  method TransformPairAt(platform: Platform, app: SystemGraph, a: string, hw: map<string, int>, lpms: seq<string>,
                         sws: map<string, string>, enumerate: set<string> -> seq<string>, ghost t: TState, j: nat)
      returns (o: Outcome)
    requires platform.sGraph != app && forall l :: l in lpms ==> l in sws
    requires j < |lpms| && Pairs(t, a, Some(hw), lpms, sws, j, enumerate) == TStep(TState(platform.State(), app.model), Done)
    modifies platform, platform.sGraph, app
    ensures o == Done ==> Pairs(t, a, Some(hw), lpms, sws, j + 1, enumerate) == TStep(TState(platform.State(), app.model), Done)
    ensures o != Done ==> Pairs(t, a, Some(hw), lpms, sws, |lpms|, enumerate) == TStep(TState(platform.State(), app.model), o)
  {
    o := TransformPair(platform, app, a, hw, lpms[j], sws[lpms[j]], enumerate);
    if o != Done {
      PairsStop(t, a, Some(hw), lpms, sws, j + 1, |lpms|, enumerate);
    }
  }

  /** One pass of the inner loop of `Transform`. */
  method TransformPair(platform: Platform, app: SystemGraph, a: string, hw: map<string, int>, l: string, sw: string,
                       enumerate: set<string> -> seq<string>) returns (o: Outcome)
    requires platform.sGraph != app
    modifies platform, platform.sGraph, app
    ensures TStep(TState(platform.State(), app.model), o) ==
            PairStep(old(TState(platform.State(), app.model)), a, Some(hw), l, sw, enumerate)
  {
    var name := HWInstrsName(l, a);
    app.model := SetReqs(app.model, a, ReqsOf(app.model, a)[name := Prefixed(l, hw)]);
    var implName := HWImplName(l, a);
    platform.AddCPU(implName, 1, HWImplFrequency, ModuleInstructions(l, a, hw));
    o := platform.Connect(implName, sw, enumerate(platform.viewers.Keys));
  }
}
