/** What the two platform builders (`PlatformBuilder` and
    `components.Platform`) have in common: the `viewers` registry, the
    processing-module/memory rule, namespace matching, viewer extraction from
    an existing graph, and the per-core construction done by `AddCPU`. */
module Platforms {
  import opened Graphs
  import opened Text

  /** The viewer class a platform builder registers a vertex under. */
  datatype ViewKind = ProcessingView | MemoryView | CommunicationView | StructureView | LogicView

  /** The trait a viewer of that class stands for. */
  function TraitOf(k: ViewKind): Trait
  {
    match k
    case ProcessingView => InstrumentedProcessingModule
    case MemoryView => GenericMemoryModule
    case CommunicationView => InstrumentedCommunicationModule
    case StructureView => Structure
    case LogicView => LogicProgrammableModule
  }

  /** A platform builder's state: its graph and its `viewers` map. */
  datatype PState = PState(graph: Graph, viewers: map<string, ViewKind>)

  /** The state after an operation, and how the operation ended. */
  datatype Step = Step(state: PState, outcome: Outcome)

  /** Every registered name is a vertex carrying the trait of its viewer. */
  ghost predicate Registered(s: PState)
  {
    forall n :: n in s.viewers ==> HasTrait(s.graph, n, TraitOf(s.viewers[n]))
  }

  /** The invariant every platform-builder operation keeps. */
  ghost predicate Consistent(s: PState)
  {
    Registered(s) && PortsDeclared(s.graph)
  }

  lemma RegisteredKept(s: PState, g: Graph)
    requires Registered(s) && Grows(s.graph, g)
    ensures Registered(PState(g, s.viewers))
  {
    forall n | n in s.viewers ensures HasTrait(g, n, TraitOf(s.viewers[n])) {
      assert HasTrait(s.graph, n, TraitOf(s.viewers[n]));
    }
  }

  /** The registered viewer class of `n`, if any (`viewers.get(n)`). */
  function KindOf(viewers: map<string, ViewKind>, n: string): Option<ViewKind>
  {
    if n in viewers then Some(viewers[n]) else None
  }

  /** A processing module and a memory, in either order: the builders refuse
      to connect such a pair directly. */
  predicate IllegalPair(a: Option<ViewKind>, b: Option<ViewKind>)
  {
    (a == Some(MemoryView) && b == Some(ProcessingView)) ||
    (a == Some(ProcessingView) && b == Some(MemoryView))
  }

  /** The registered names, in iteration order, that contain `ns` and are not
      `exclude` (the stream filters of the connect operations). */
  function Matching(order: seq<string>, ns: string, exclude: Option<string>): (r: seq<string>)
    ensures forall x :: x in r <==> x in order && Contains(x, ns) && exclude != Some(x)
    ensures |r| <= |order|
  {
    if order == [] then []
    else if Contains(order[0], ns) && exclude != Some(order[0]) then [order[0]] + Matching(order[1..], ns, exclude)
    else Matching(order[1..], ns, exclude)
  }

  /** A filtered enumeration still lists each of its elements once. */
  lemma {:induction false} MatchingDistinct(order: seq<string>, ns: string, exclude: Option<string>)
    requires Distinct(order)
    ensures Distinct(Matching(order, ns, exclude))
    decreases |order|
  {
    if order != [] {
      assert Distinct(order[1..]) by {
        forall i, j | 0 <= i < j < |order[1..]| ensures order[1..][i] != order[1..][j] {
          assert order[1..][i] == order[i + 1] && order[1..][j] == order[j + 1];
        }
      }
      MatchingDistinct(order[1..], ns, exclude);
      var t := Matching(order[1..], ns, exclude);
      assert order[0] !in t by {
        forall k | 0 <= k < |order[1..]| ensures order[1..][k] != order[0] {
          assert order[1..][k] == order[k + 1];
        }
      }
      if Contains(order[0], ns) && exclude != Some(order[0]) {
        var r := [order[0]] + t;
        forall i, j | 0 <= i < j < |r| ensures r[i] != r[j] {
          assert r[j] == t[j - 1];
          if i > 0 {
            assert r[i] == t[i - 1];
          } else {
            assert t[j - 1] in t;
          }
        }
        assert Distinct(r);
      }
    }
  }

  /** The state both platform constructors build from a name: one structure
      vertex, also a grey box, registered under its name. */
  function NewPlatform(name: string): (r: PState)
    ensures r.viewers == map[name := StructureView]
    ensures r.graph.edges == [] && r.graph.vertices.Keys == {name}
    ensures r.graph.vertices[name].traits == {Structure, GreyBox}
    ensures Consistent(r)
  {
    var g := Enforce(NewVertex(EmptyGraph, name), name, Structure);
    PState(Enforce(g, name, GreyBox), map[name := StructureView])
  }

  /** Some vertex is a grey box (the wrapping constructors need one). */
  predicate HasGreyBox(g: Graph)
  {
    exists n :: n in g.vertices && GreyBox in g.vertices[n].traits
  }

  /** The viewer a wrapping constructor keeps for a vertex with `traits`: the
      constructor tries processing, memory, communication, structure and (in
      `PlatformBuilder` only) logic-programmable views in that order, each
      successful view replacing the previous one. */
  function ExtractedKind(traits: set<Trait>, withLogic: bool): Option<ViewKind>
  {
    if withLogic && LogicProgrammableModule in traits then Some(LogicView)
    else if Structure in traits then Some(StructureView)
    else if InstrumentedCommunicationModule in traits then Some(CommunicationView)
    else if GenericMemoryModule in traits then Some(MemoryView)
    else if InstrumentedProcessingModule in traits then Some(ProcessingView)
    else None
  }

  /** The registry extracted from the vertices in `names`. */
  function ExtractOver(g: Graph, names: set<string>, withLogic: bool): (r: map<string, ViewKind>)
    ensures forall n :: n in r <==> n in names && n in g.vertices && ExtractedKind(g.vertices[n].traits, withLogic).Some?
    ensures Registered(PState(g, r))
  {
    map n | n in names && n in g.vertices && ExtractedKind(g.vertices[n].traits, withLogic).Some? ::
      ExtractedKind(g.vertices[n].traits, withLogic).value
  }

  /** Extraction registers a vertex under the last view that applies to it:
      logic-programmable vertices only when `withLogic` holds. */
  lemma ExtractedViews(g: Graph, names: set<string>, withLogic: bool, n: string)
    requires n in names && n in g.vertices
    ensures var r := ExtractOver(g, names, withLogic);
            var t := g.vertices[n].traits;
            (n in r <==> InstrumentedProcessingModule in t || GenericMemoryModule in t ||
                         InstrumentedCommunicationModule in t || Structure in t ||
                         (withLogic && LogicProgrammableModule in t)) &&
            (n in r && r[n] == LogicView ==> withLogic) &&
            (n in r && Structure in t && (!withLogic || LogicProgrammableModule !in t) ==> r[n] == StructureView)
  {
  }

  /** The stream search for a grey-box vertex, over the vertex set in
      iteration order `order`: it finds one exactly when the graph has one. */
  method FindGreyBox(g: Graph, order: seq<string>) returns (found: bool)
    requires IsEnumeration(order, g.vertices.Keys)
    ensures found <==> HasGreyBox(g)
  {
    found := false;
    var i := 0;
    while i < |order| && !found
      invariant 0 <= i <= |order|
      invariant found <==> exists k :: 0 <= k < i && GreyBox in g.vertices[order[k]].traits
    {
      assert order[i] in g.vertices;
      found := GreyBox in g.vertices[order[i]].traits;
      i := i + 1;
    }
  }

  /** The viewer-extraction loop of the wrapping constructors, over the
      vertex set in iteration order `order`. */
  method ExtractViewers(g: Graph, order: seq<string>, withLogic: bool) returns (viewers: map<string, ViewKind>)
    requires IsEnumeration(order, g.vertices.Keys)
    ensures viewers == ExtractOver(g, g.vertices.Keys, withLogic)
  {
    viewers := map[];
    var i := 0;
    while i < |order|
      invariant 0 <= i <= |order|
      invariant viewers == ExtractOver(g, Seen(order, i), withLogic)
    {
      assert order[i] in g.vertices;
      var kind := ExtractedKind(g.vertices[order[i]].traits, withLogic);
      ExtractOne(g, order, i, withLogic);
      if kind.Some? {
        viewers := viewers[order[i] := kind.value];
      }
      i := i + 1;
    }
    SeenAll(order, g.vertices.Keys);
  }

  /** The first `i` names of `order`. */
  ghost function Seen(order: seq<string>, i: int): set<string>
    requires 0 <= i <= |order|
  {
    set k | 0 <= k < i :: order[k]
  }

  lemma SeenAll(order: seq<string>, s: set<string>)
    requires IsEnumeration(order, s)
    ensures Seen(order, |order|) == s
  {
    forall n | n in s ensures n in Seen(order, |order|) {
      assert n in order;
    }
  }

  /** Extraction over one more vertex adds at most that vertex. */
  lemma ExtractOne(g: Graph, order: seq<string>, i: int, withLogic: bool)
    requires 0 <= i < |order| && order[i] in g.vertices
    ensures var kind := ExtractedKind(g.vertices[order[i]].traits, withLogic);
            var before := ExtractOver(g, Seen(order, i), withLogic);
            ExtractOver(g, Seen(order, i + 1), withLogic) ==
            if kind.Some? then before[order[i] := kind.value] else before
  {
    assert Seen(order, i + 1) == Seen(order, i) + {order[i]};
  }

  /** A step that only extends the graph without adding edges, and that
      registers names only under viewers their vertices support, keeps the
      invariant. */
  lemma ConsistentAfter(s: PState, r: PState)
    requires Consistent(s) && Grows(s.graph, r.graph) && r.graph.edges == s.graph.edges
    requires forall n :: n in r.viewers ==>
               (n in s.viewers && r.viewers[n] == s.viewers[n]) || HasTrait(r.graph, n, TraitOf(r.viewers[n]))
    ensures Consistent(r)
  {
    RegisteredKept(s, r.graph);
    DeclaredKept(s.graph, r.graph);
  }

  const PhysicalVisual := {PhysicalConnection, VisualConnection}
  const ContainmentVisual := {StructuralContainment, VisualConnection}

  /** Two opposite edges between `a` and `b` with swapped ports (the
      builders' `CreateEdge` and `BiDirectionalConnect`). */
  function BiLink(g: Graph, a: string, b: string, pa: Option<string>, pb: Option<string>,
                  traits: set<EdgeTrait>): (r: Graph)
    ensures r.vertices == g.vertices && Grows(g, r)
    ensures r.edges == g.edges + [Edge(a, b, pa, pb, traits), Edge(b, a, pb, pa, traits)]
    ensures r.edges == g.edges + BiEdges(a, b, pa, pb, traits)
  {
    Connect(Connect(g, a, b, pa, pb, traits), b, a, pb, pa, traits)
  }

  /** The two edges of `BiLink`. */
  function BiEdges(a: string, b: string, pa: Option<string>, pb: Option<string>, traits: set<EdgeTrait>): seq<Edge>
  {
    [Edge(a, b, pa, pb, traits), Edge(b, a, pb, pa, traits)]
  }

  lemma DeclaredBiLink(g: Graph, a: string, b: string, pa: Option<string>, pb: Option<string>,
                       traits: set<EdgeTrait>)
    requires PortsDeclared(g) && EdgeDeclared(g, Edge(a, b, pa, pb, traits))
    ensures PortsDeclared(BiLink(g, a, b, pa, pb, traits))
  {
    var g1 := Connect(g, a, b, pa, pb, traits);
    DeclaredConnect(g, a, b, pa, pb, traits);
    DeclaredConnect(g1, b, a, pb, pa, traits);
  }

  /** `AddMemory`, identical in both builders: the frequency and size
      arguments are ignored for 600 MHz and 4 GB expressed in bits. */
  function MemoryStep(s: PState, name: string): (r: PState)
    ensures r.viewers == s.viewers[name := MemoryView] && Grows(s.graph, r.graph) && r.graph.edges == s.graph.edges
    ensures r.graph.vertices.Keys == s.graph.vertices.Keys + {name}
    ensures HasTrait(r.graph, name, GenericMemoryModule)
    ensures r.graph.vertices[name].ports == VertexOf(s.graph, name).ports
    ensures PropIs(r.graph, name, OperatingFrequencyInHertz, IntV(600_000_000))
    ensures PropIs(r.graph, name, SpaceInBits, IntV(32_000_000_000))
    ensures forall m :: m in s.graph.vertices && m != name ==> r.graph.vertices[m] == s.graph.vertices[m]
  {
    var v := VertexOf(s.graph, name);
    var props := v.props[OperatingFrequencyInHertz := IntV(600 * MHz)][SpaceInBits := IntV(4 * GB * BytesToBits)];
    PState(Put(s.graph, name, Vertex(v.traits + {GenericMemoryModule}, v.ports, props)),
           s.viewers[name := MemoryView])
  }

  /** A registered communication module with the given timing properties. */
  function SwitchStep(s: PState, name: string, frequency: int, latency: int, flit: int, cycles: int,
                      concurrent: int): (r: PState)
    ensures r.viewers == s.viewers[name := CommunicationView] && Grows(s.graph, r.graph)
    ensures r.graph.edges == s.graph.edges && r.graph.vertices.Keys == s.graph.vertices.Keys + {name}
    ensures HasTrait(r.graph, name, InstrumentedCommunicationModule)
    ensures r.graph.vertices[name].ports == VertexOf(s.graph, name).ports
    ensures PropIs(r.graph, name, OperatingFrequencyInHertz, IntV(frequency))
    ensures PropIs(r.graph, name, InitialLatency, IntV(latency)) && PropIs(r.graph, name, FlitSizeInBits, IntV(flit))
    ensures PropIs(r.graph, name, MaxCyclesPerFlit, IntV(cycles))
    ensures PropIs(r.graph, name, MaxConcurrentFlits, IntV(concurrent))
    ensures forall m :: m in s.graph.vertices && m != name ==> r.graph.vertices[m] == s.graph.vertices[m]
  {
    var v := VertexOf(s.graph, name);
    var props := v.props[OperatingFrequencyInHertz := IntV(frequency)][InitialLatency := IntV(latency)]
                        [FlitSizeInBits := IntV(flit)][MaxCyclesPerFlit := IntV(cycles)]
                        [MaxConcurrentFlits := IntV(concurrent)];
    PState(Put(s.graph, name, Vertex(v.traits + {InstrumentedCommunicationModule}, v.ports, props)),
           s.viewers[name := CommunicationView])
  }

  /** A registered logic-programmable module named `name` whose properties
      `props` are set. */
  function LogicStep(s: PState, name: string, props: map<Prop, Value>): (r: PState)
    ensures r.viewers == s.viewers[name := LogicView] && Grows(s.graph, r.graph) && r.graph.edges == s.graph.edges
    ensures r.graph.vertices.Keys == s.graph.vertices.Keys + {name}
    ensures HasTrait(r.graph, name, LogicProgrammableModule)
    ensures forall k :: k in props ==> PropIs(r.graph, name, k, props[k])
    ensures forall m :: m in s.graph.vertices && m != name ==> r.graph.vertices[m] == s.graph.vertices[m]
  {
    var v := VertexOf(s.graph, name);
    PState(Put(s.graph, name, Vertex(v.traits + {LogicProgrammableModule}, v.ports, v.props + props)),
           s.viewers[name := LogicView])
  }

  /** The name of core `i` of a CPU named `name` with `n` cores. */
  function CoreName(name: string, n: int, i: int): string
  {
    if n > 1 then name + "_C" + IntToString(i) else name
  }

  /** Each core gets its own runtime named after it. */
  function SchedulerName(core: string): string
  {
    core + "_Scheduler"
  }

  /** The vertices a runtime manages (`addManaged` adds to them). */
  function ManagedOf(v: Vertex): set<string>
  {
    if Managed in v.props && v.props[Managed].NameSetV? then v.props[Managed].names else {}
  }

  /** One core of `AddCPU`: a registered processing module with parallelism
      1, the frequency and instruction table given, and its own runtime of
      kind `runtime` that manages it, linked to it by two opposite portless
      edges tagged `link`. The runtime is not registered. */
  function CoreStep(s: PState, core: string, frequency: int, ipc: map<string, map<string, Ipc>>,
                    runtime: Trait, link: set<EdgeTrait>): (r: PState)
    ensures r.viewers == s.viewers[core := ProcessingView] && Grows(s.graph, r.graph)
    ensures r.graph.vertices.Keys == s.graph.vertices.Keys + {core, SchedulerName(core)}
    ensures r.graph.edges == s.graph.edges + BiEdges(core, SchedulerName(core), None, None, link)
    ensures forall m :: m in s.graph.vertices && m != core && m != SchedulerName(core) ==>
              r.graph.vertices[m] == s.graph.vertices[m]
    ensures HasTrait(r.graph, core, InstrumentedProcessingModule)
    ensures PropIs(r.graph, core, MaximumComputationParallelism, IntV(1))
    ensures PropIs(r.graph, core, OperatingFrequencyInHertz, IntV(frequency))
    ensures PropIs(r.graph, core, ModalInstructionsPerCycle, InstructionsV(ipc))
    ensures var m := r.graph.vertices[SchedulerName(core)];
            runtime in m.traits && core in ManagedOf(m)
  {
    var sch := SchedulerName(core);
    assert sch != core by {
      assert |sch| > |core|;
    }
    var g1 := ProcessorPut(s.graph, core, frequency, ipc);
    var g2 := RuntimePut(g1, sch, core, runtime);
    PState(BiLink(g2, core, sch, None, None, link), s.viewers[core := ProcessingView])
  }

  /** The processing module record of one core. */
  function ProcessorPut(g: Graph, core: string, frequency: int, ipc: map<string, map<string, Ipc>>): (r: Graph)
    ensures Grows(g, r) && r.edges == g.edges && r.vertices.Keys == g.vertices.Keys + {core}
    ensures forall m :: m in g.vertices && m != core ==> r.vertices[m] == g.vertices[m]
    ensures HasTrait(r, core, InstrumentedProcessingModule)
    ensures PropIs(r, core, MaximumComputationParallelism, IntV(1))
    ensures PropIs(r, core, OperatingFrequencyInHertz, IntV(frequency))
    ensures PropIs(r, core, ModalInstructionsPerCycle, InstructionsV(ipc))
  {
    var c := VertexOf(g, core);
    var props := c.props[MaximumComputationParallelism := IntV(1)][OperatingFrequencyInHertz := IntV(frequency)]
                        [ModalInstructionsPerCycle := InstructionsV(ipc)];
    Put(g, core, Vertex(c.traits + {InstrumentedProcessingModule}, c.ports, props))
  }

  /** The runtime record `sch` of one core, of kind `runtime` and managing
      `core`. */
  function RuntimePut(g: Graph, sch: string, core: string, runtime: Trait): (r: Graph)
    ensures Grows(g, r) && r.edges == g.edges && r.vertices.Keys == g.vertices.Keys + {sch}
    ensures forall m :: m in g.vertices && m != sch ==> r.vertices[m] == g.vertices[m]
    ensures runtime in r.vertices[sch].traits && core in ManagedOf(r.vertices[sch])
  {
    var m := VertexOf(g, sch);
    Put(g, sch, Vertex(m.traits + {runtime}, m.ports, m.props[Managed := NameSetV(ManagedOf(m) + {core})]))
  }

  /** The cores `cores` of `AddCPU`, added one after the other in loop
      order. */
  function CoresOver(s: PState, cores: seq<string>, frequency: int, ipc: map<string, map<string, Ipc>>,
                     runtime: Trait, link: set<EdgeTrait>): (r: PState)
    ensures Grows(s.graph, r.graph)
  {
    if cores == [] then s
    else
      var p := CoresOver(s, cores[..|cores| - 1], frequency, ipc, runtime, link);
      var r := CoreStep(p, cores[|cores| - 1], frequency, ipc, runtime, link);
      GrowsTransitive(s.graph, p.graph, r.graph);
      r
  }

  /** One more core, as the loop of `AddCPU` adds it. */
  lemma CoresOverStep(s: PState, cores: seq<string>, i: int, frequency: int, ipc: map<string, map<string, Ipc>>,
                      runtime: Trait, link: set<EdgeTrait>)
    requires 0 <= i < |cores|
    ensures CoresOver(s, cores[..i + 1], frequency, ipc, runtime, link) ==
            CoreStep(CoresOver(s, cores[..i], frequency, ipc, runtime, link), cores[i], frequency, ipc, runtime, link)
  {
    assert cores[..i + 1][..i] == cores[..i];
  }

  /** The core names of a CPU named `name` with `n` cores, in loop order. */
  function CoreNames(name: string, n: int): (r: seq<string>)
    ensures |r| == if n > 0 then n else 0
    ensures forall k :: 0 <= k < |r| ==> r[k] == CoreName(name, n, k)
  {
    seq(if n > 0 then n else 0, k => CoreName(name, n, k))
  }

  /** The two opposite edges between each core and its runtime, core by core. */
  function CoreEdges(cores: seq<string>, link: set<EdgeTrait>): seq<Edge>
  {
    if cores == [] then []
    else
      var c := cores[|cores| - 1];
      CoreEdges(cores[..|cores| - 1], link) +
      [Edge(c, SchedulerName(c), None, None, link), Edge(SchedulerName(c), c, None, None, link)]
  }

  /** No two of `cores` and their runtimes share a name. */
  ghost predicate NamesApart(cores: seq<string>)
  {
    forall i, j :: 0 <= i < |cores| && 0 <= j < |cores| && i != j ==>
      cores[i] != cores[j] && SchedulerName(cores[i]) != SchedulerName(cores[j]) && SchedulerName(cores[i]) != cores[j]
  }

  /** The last character of a decimal rendering is a digit. */
  lemma NatToStringEndsInDigit(k: nat)
    ensures var t := NatToString(k); '0' <= t[|t| - 1] <= '9'
  {
  }

  /** With several cores the names `name_C<i>` are pairwise different. */
  lemma CoreNamesDistinct(name: string, n: int, i: int, j: int)
    requires i != j
    requires n > 1
    ensures CoreName(name, n, i) != CoreName(name, n, j)
  {
    var p := name + "_C";
    var a, b := IntToString(i), IntToString(j);
    if p + a == p + b {
      assert a == (p + a)[|p|..];
      assert b == (p + b)[|p|..];
      IntToStringInjective(i, j);
    }
  }

  /** No runtime name is a core name of the same CPU. */
  lemma SchedulerNotCore(name: string, n: int, i: int, j: int)
    requires 0 <= j
    ensures SchedulerName(CoreName(name, n, i)) != CoreName(name, n, j)
  {
    var s := SchedulerName(CoreName(name, n, i));
    assert s[|s| - 1] == 'r';
    if n > 1 {
      var c := CoreName(name, n, j);
      assert c == (name + "_C") + NatToString(j);
      NatToStringEndsInDigit(j);
      assert c[|c| - 1] == NatToString(j)[|NatToString(j)| - 1];
    } else {
      assert |s| > |name|;
    }
  }

  lemma MemoryStepConsistent(s: PState, name: string)
    requires Consistent(s)
    ensures Consistent(MemoryStep(s, name))
  {
    ConsistentAfter(s, MemoryStep(s, name));
  }

  lemma SwitchStepConsistent(s: PState, name: string, frequency: int, latency: int, flit: int, cycles: int,
                             concurrent: int)
    requires Consistent(s)
    ensures Consistent(SwitchStep(s, name, frequency, latency, flit, cycles, concurrent))
  {
    ConsistentAfter(s, SwitchStep(s, name, frequency, latency, flit, cycles, concurrent));
  }

  lemma LogicStepConsistent(s: PState, name: string, props: map<Prop, Value>)
    requires Consistent(s)
    ensures Consistent(LogicStep(s, name, props))
  {
    ConsistentAfter(s, LogicStep(s, name, props));
  }

  /** Adding a core keeps the invariant: the core is registered as the
      processing module it is, and both new edges join existing vertices. */
  lemma CoreStepConsistent(s: PState, core: string, frequency: int, ipc: map<string, map<string, Ipc>>,
                           runtime: Trait, link: set<EdgeTrait>)
    requires Consistent(s)
    ensures Consistent(CoreStep(s, core, frequency, ipc, runtime, link))
  {
    var r := CoreStep(s, core, frequency, ipc, runtime, link);
    RegisteredKept(s, r.graph);
    var g := r.graph.(edges := s.graph.edges);
    DeclaredKept(s.graph, g);
    DeclaredBiLink(g, core, SchedulerName(core), None, None, link);
    assert BiLink(g, core, SchedulerName(core), None, None, link) == r.graph;
  }

  /** Runtimes of different cores of one CPU have different names. */
  lemma SchedulersDistinct(name: string, n: int, i: int, j: int)
    requires i != j && n > 1
    ensures SchedulerName(CoreName(name, n, i)) != SchedulerName(CoreName(name, n, j))
  {
    var a, b := CoreName(name, n, i), CoreName(name, n, j);
    CoreNamesDistinct(name, n, i, j);
    if |a| == |b| {
      assert a == SchedulerName(a)[..|a|] && b == SchedulerName(b)[..|b|];
    }
  }

  /** The names `AddCPU` gives the cores of one CPU, and their runtimes, are
      pairwise different. */
  lemma CoreNamesApart(name: string, n: int)
    ensures NamesApart(CoreNames(name, n))
  {
    var cores := CoreNames(name, n);
    forall i, j | 0 <= i < |cores| && 0 <= j < |cores| && i != j
      ensures cores[i] != cores[j] && SchedulerName(cores[i]) != SchedulerName(cores[j])
      ensures SchedulerName(cores[i]) != cores[j]
    {
      CoreNamesDistinct(name, n, i, j);
      SchedulersDistinct(name, n, i, j);
      SchedulerNotCore(name, n, i, j);
    }
  }

  lemma NamesApartPrefix(cores: seq<string>)
    requires NamesApart(cores) && |cores| > 0
    ensures NamesApart(cores[..|cores| - 1])
  {
    var pre := cores[..|cores| - 1];
    forall i, j | 0 <= i < |pre| && 0 <= j < |pre| && i != j
      ensures pre[i] != pre[j] && SchedulerName(pre[i]) != SchedulerName(pre[j]) && SchedulerName(pre[i]) != pre[j]
    {
      assert pre[i] == cores[i] && pre[j] == cores[j];
    }
  }

  lemma NamesApartAt(cores: seq<string>, k: int)
    requires NamesApart(cores) && 0 <= k < |cores| - 1
    ensures var c, d := cores[|cores| - 1], cores[k];
            d != c && d != SchedulerName(c) && SchedulerName(d) != c && SchedulerName(d) != SchedulerName(c)
    ensures cores[k] == cores[..|cores| - 1][k]
  {
  }

  /** Core `c` is a processing module with parallelism 1 and the given
      frequency and instructions, and its runtime, of kind `runtime`,
      manages it. */
  ghost predicate CoreBuilt(g: Graph, c: string, frequency: int, ipc: map<string, map<string, Ipc>>, runtime: Trait)
  {
    HasTrait(g, c, InstrumentedProcessingModule) &&
    PropIs(g, c, MaximumComputationParallelism, IntV(1)) &&
    PropIs(g, c, OperatingFrequencyInHertz, IntV(frequency)) &&
    PropIs(g, c, ModalInstructionsPerCycle, InstructionsV(ipc)) &&
    HasTrait(g, SchedulerName(c), runtime) &&
    c in ManagedOf(g.vertices[SchedulerName(c)])
  }

  lemma CoreBuiltKept(g: Graph, h: Graph, c: string, frequency: int, ipc: map<string, map<string, Ipc>>,
                      runtime: Trait)
    requires CoreBuilt(g, c, frequency, ipc, runtime)
    requires c in h.vertices && h.vertices[c] == g.vertices[c]
    requires SchedulerName(c) in h.vertices && h.vertices[SchedulerName(c)] == g.vertices[SchedulerName(c)]
    ensures CoreBuilt(h, c, frequency, ipc, runtime)
  {
  }

  /** Adding one core leaves an earlier, differently named core as it was. */
  lemma CoreStepKeeps(p: PState, c: string, frequency: int, ipc: map<string, map<string, Ipc>>, runtime: Trait,
                      link: set<EdgeTrait>, d: string)
    requires CoreBuilt(p.graph, d, frequency, ipc, runtime)
    requires d != c && d != SchedulerName(c) && SchedulerName(d) != c && SchedulerName(d) != SchedulerName(c)
    ensures CoreBuilt(CoreStep(p, c, frequency, ipc, runtime, link).graph, d, frequency, ipc, runtime)
  {
    CoreBuiltKept(p.graph, CoreStep(p, c, frequency, ipc, runtime, link).graph, d, frequency, ipc, runtime);
  }

  /** What `AddCPU` builds for each core: parallelism 1, the given frequency
      and instruction table, and a runtime of kind `runtime` that manages
      it. */
  lemma {:induction false} CoresBuilt(s: PState, cores: seq<string>, frequency: int,
                                      ipc: map<string, map<string, Ipc>>, runtime: Trait, link: set<EdgeTrait>, k: int)
    requires 0 <= k < |cores| && NamesApart(cores)
    ensures CoreBuilt(CoresOver(s, cores, frequency, ipc, runtime, link).graph, cores[k], frequency, ipc, runtime)
    decreases |cores|
  {
    var pre := cores[..|cores| - 1];
    var p := CoresOver(s, pre, frequency, ipc, runtime, link);
    var c := cores[|cores| - 1];
    if k < |cores| - 1 {
      NamesApartPrefix(cores);
      CoresBuilt(s, pre, frequency, ipc, runtime, link, k);
      NamesApartAt(cores, k);
      CoreStepKeeps(p, c, frequency, ipc, runtime, link, cores[k]);
    }
  }

  /** The registry after `AddCPU` holds the old entries and every core, as a
      processing module. */
  lemma {:induction false} CoresViewers(s: PState, cores: seq<string>, frequency: int,
                                        ipc: map<string, map<string, Ipc>>, runtime: Trait, link: set<EdgeTrait>)
    ensures CoresOver(s, cores, frequency, ipc, runtime, link).viewers ==
            s.viewers + map c | c in cores :: ProcessingView
    decreases |cores|
  {
    if cores != [] {
      var pre := cores[..|cores| - 1];
      var c := cores[|cores| - 1];
      CoresViewers(s, pre, frequency, ipc, runtime, link);
      RegisterOneMore(s.viewers, cores);
    }
  }

  lemma RegisterOneMore(v: map<string, ViewKind>, cores: seq<string>)
    requires |cores| > 0
    ensures var pre := cores[..|cores| - 1];
            (v + map x | x in pre :: ProcessingView)[cores[|cores| - 1] := ProcessingView] ==
            v + map x | x in cores :: ProcessingView
  {
    assert cores == cores[..|cores| - 1] + [cores[|cores| - 1]];
  }

  /** The edges after `AddCPU`: the old ones, then two per core. */
  lemma {:induction false} CoresEdges(s: PState, cores: seq<string>, frequency: int,
                                      ipc: map<string, map<string, Ipc>>, runtime: Trait, link: set<EdgeTrait>)
    ensures CoresOver(s, cores, frequency, ipc, runtime, link).graph.edges == s.graph.edges + CoreEdges(cores, link)
    decreases |cores|
  {
    if cores != [] {
      var pre := cores[..|cores| - 1];
      var c := cores[|cores| - 1];
      CoresEdges(s, pre, frequency, ipc, runtime, link);
      SeqAssoc(s.graph.edges, CoreEdges(pre, link),
               [Edge(c, SchedulerName(c), None, None, link), Edge(SchedulerName(c), c, None, None, link)]);
    }
  }

  /** Runtimes are never registered: a runtime name that is neither
      registered before `AddCPU` nor one of its cores is not registered
      after it. */
  lemma SchedulersUnregistered(s: PState, cores: seq<string>, frequency: int,
                               ipc: map<string, map<string, Ipc>>, runtime: Trait, link: set<EdgeTrait>, k: int)
    requires 0 <= k < |cores| && NamesApart(cores) && SchedulerName(cores[k]) !in s.viewers
    ensures SchedulerName(cores[k]) !in CoresOver(s, cores, frequency, ipc, runtime, link).viewers
  {
    var sc := SchedulerName(cores[k]);
    CoresViewers(s, cores, frequency, ipc, runtime, link);
    assert sc !in cores by {
      forall j | 0 <= j < |cores| ensures sc != cores[j] {
        if j == k {
          assert |sc| > |cores[k]|;
        }
      }
    }
  }

  /** `AddCPU` keeps the invariant. */
  lemma {:induction false} CoresConsistent(s: PState, cores: seq<string>, frequency: int,
                                           ipc: map<string, map<string, Ipc>>, runtime: Trait, link: set<EdgeTrait>)
    requires Consistent(s)
    ensures Consistent(CoresOver(s, cores, frequency, ipc, runtime, link))
    decreases |cores|
  {
    if cores != [] {
      var pre := cores[..|cores| - 1];
      CoresConsistent(s, pre, frequency, ipc, runtime, link);
      CoreStepConsistent(CoresOver(s, pre, frequency, ipc, runtime, link), cores[|cores| - 1], frequency, ipc,
                         runtime, link);
    }
  }

  /** What `AddCPU` of either builder promises: `n` registered cores (one
      named `name` when `n` is 1), each with parallelism 1, the frequency and
      instruction table given and a runtime of kind `runtime` managing it,
      linked to it both ways by edges tagged `link`; runtimes stay
      unregistered. It keeps the invariant. */
  lemma CpuFacts(s: PState, name: string, n: int, frequency: int, ipc: map<string, map<string, Ipc>>,
                 runtime: Trait, link: set<EdgeTrait>)
    requires Consistent(s)
    ensures var cores := CoreNames(name, n);
            var r := CoresOver(s, cores, frequency, ipc, runtime, link);
            Consistent(r) &&
            r.viewers == s.viewers + (map c | c in cores :: ProcessingView) &&
            r.graph.edges == s.graph.edges + CoreEdges(cores, link) &&
            (n == 1 ==> cores == [name]) &&
            (forall k :: 0 <= k < |cores| ==> CoreBuilt(r.graph, cores[k], frequency, ipc, runtime)) &&
            (forall k :: 0 <= k < |cores| && SchedulerName(cores[k]) !in s.viewers ==>
               SchedulerName(cores[k]) !in r.viewers)
  {
    var cores := CoreNames(name, n);
    var r := CoresOver(s, cores, frequency, ipc, runtime, link);
    CoreNamesApart(name, n);
    CoresConsistent(s, cores, frequency, ipc, runtime, link);
    CoresViewers(s, cores, frequency, ipc, runtime, link);
    CoresEdges(s, cores, frequency, ipc, runtime, link);
    forall k | 0 <= k < |cores| ensures CoreBuilt(r.graph, cores[k], frequency, ipc, runtime) {
      CoresBuilt(s, cores, frequency, ipc, runtime, link, k);
    }
    forall k | 0 <= k < |cores| && SchedulerName(cores[k]) !in s.viewers
      ensures SchedulerName(cores[k]) !in r.viewers
    {
      SchedulersUnregistered(s, cores, frequency, ipc, runtime, link, k);
    }
  }
}
