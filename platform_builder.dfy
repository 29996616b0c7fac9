/** `PlatformBuilder`: builds a platform graph out of memories, switches,
    multi-core CPUs and FPGAs, and connects them one way or both ways. Each
    operation is specified by a function from the builder state before it to
    the state after it (and how it ended); the class methods are proved to
    perform exactly that step. */
module PlatformBuilders {
  import opened Graphs
  import opened Text
  import opened Platforms
  import opened Linking

  /** `ConnectOneWay(src, dst)`: both must be registered; a processing module
      and a memory are refused; otherwise `dst` gets port `from_<src>`, `src`
      gets port `to_<dst>` and one containment edge joins them. */
  function ConnectOneWayStep(s: PState, src: string, dst: string): (r: Step)
    ensures r.state.viewers == s.viewers
    ensures r.outcome == Done <==>
              src in s.viewers && dst in s.viewers && !IllegalPair(KindOf(s.viewers, src), KindOf(s.viewers, dst))
    ensures r.outcome != Done ==> r.state == s
    ensures r.outcome == Thrown(UnsupportedOperation) <==>
              src in s.viewers && dst in s.viewers && IllegalPair(KindOf(s.viewers, src), KindOf(s.viewers, dst))
    ensures r.outcome == Done ==>
              r.state.graph.edges == s.graph.edges + [Edge(src, dst, Some("to_" + dst), Some("from_" + src),
                                                           ContainmentVisual)] &&
              src in r.state.graph.vertices && dst in r.state.graph.vertices &&
              "to_" + dst in r.state.graph.vertices[src].ports && "from_" + src in r.state.graph.vertices[dst].ports &&
              Grows(s.graph, r.state.graph)
  {
    if src !in s.viewers || dst !in s.viewers then Step(s, Thrown(AssertionFailed))
    else if IllegalPair(KindOf(s.viewers, src), KindOf(s.viewers, dst)) then Step(s, Thrown(UnsupportedOperation))
    else
      var g1 := AddPorts(s.graph, dst, {"from_" + src});
      var g2 := AddPorts(g1, src, {"to_" + dst});
      GrowsTransitive(s.graph, g1, g2);
      var g3 := Connect(g2, src, dst, Some("to_" + dst), Some("from_" + src), ContainmentVisual);
      GrowsTransitive(s.graph, g2, g3);
      Step(PState(g3, s.viewers), Done)
  }

  lemma ConnectOneWayConsistent(s: PState, src: string, dst: string)
    requires Consistent(s)
    ensures Consistent(ConnectOneWayStep(s, src, dst).state)
  {
    var r := ConnectOneWayStep(s, src, dst);
    if r.outcome == Done {
      var g := r.state.graph.(edges := s.graph.edges);
      RegisteredKept(s, r.state.graph);
      assert HasTrait(s.graph, src, TraitOf(s.viewers[src])) && HasTrait(s.graph, dst, TraitOf(s.viewers[dst]));
      DeclaredKept(s.graph, g);
      DeclaredConnect(g, src, dst, Some("to_" + dst), Some("from_" + src), ContainmentVisual);
      assert Connect(g, src, dst, Some("to_" + dst), Some("from_" + src), ContainmentVisual) == r.state.graph;
    }
  }

  /** The registered names that `ConnectTwoWay(ns, dst)` links to `dst`, in
      the iteration order `order` of the registry. */
  function TwoWaySources(s: PState, ns: string, dst: string, order: seq<string>): (r: seq<string>)
    ensures forall x :: x in r <==> x in order && Contains(x, ns) && x != dst
  {
    Matching(order, ns, Some(dst))
  }

  /** `ConnectTwoWay(ns, dst)`: `dst` must be registered and at least one
      other registered name must contain `ns`; each of those is then linked
      to `dst`. */
  function ConnectTwoWayStep(s: PState, ns: string, dst: string, order: seq<string>): (r: Step)
    ensures r.state.viewers == s.viewers && Grows(s.graph, r.state.graph)
  {
    if dst !in s.viewers then Step(s, Thrown(AssertionFailed))
    else
      var srcs := TwoWaySources(s, ns, dst, order);
      if srcs == [] then Step(s, Thrown(AssertionFailed))
      else LinkAll(TwoWayStyle, s, srcs, dst)
  }

  /** `ConnectTwoWay` succeeds exactly when `dst` is registered, some other
      registered name contains `ns`, and none of those is a processing
      module facing a memory `dst` or a memory facing a processing module
      `dst`; it then adds two edges per source. It keeps the invariant. */
  lemma ConnectTwoWayFacts(s: PState, ns: string, dst: string, order: seq<string>)
    requires Consistent(s) && IsEnumeration(order, s.viewers.Keys)
    ensures var r := ConnectTwoWayStep(s, ns, dst, order);
            var srcs := TwoWaySources(s, ns, dst, order);
            Consistent(r.state) &&
            (r.outcome == Done <==> dst in s.viewers && srcs != [] && AllLegal(s.viewers, srcs, dst)) &&
            (r.outcome == Done ==> r.state.graph.edges == s.graph.edges + LinkEdges(TwoWayStyle, srcs, dst))
  {
    if dst in s.viewers {
      var srcs := TwoWaySources(s, ns, dst, order);
      if srcs != [] {
        LinkAllDone(TwoWayStyle, s, srcs, dst);
        LinkAllConsistent(TwoWayStyle, s, srcs, dst);
      }
    }
  }

  /** `AddSwitch`: a communication module with no initial latency, the
      largest `int` as cycles per flit and one concurrent flit. */
  function AddSwitchStep(s: PState, name: string, frequency: int, flit: int): (r: PState)
    ensures r == SwitchStep(s, name, frequency, 0, flit, IntegerMaxValue, 1)
  {
    SwitchStep(s, name, frequency, 0, flit, IntegerMaxValue, 1)
  }

  /** The first switch port, in iteration order `ports`, whose name contains
      `comp` (the `findFirst` of `AddInternalSwitchRoutes`). */
  function FirstPort(ports: seq<string>, comp: string): (r: Option<string>)
    ensures r.Some? ==> r.value in ports && Contains(r.value, comp)
    ensures r.None? <==> forall p :: p in ports ==> !Contains(p, comp)
  {
    if ports == [] then None
    else if Contains(ports[0], comp) then Some(ports[0])
    else FirstPort(ports[1..], comp)
  }

  /** The first check of `AddInternalSwitchRoutes`: every component of the
      routes, key or target, has a port on the switch whose name contains
      it. */
  predicate RoutesCovered(ports: seq<string>, routes: map<string, seq<string>>)
  {
    forall c :: c in routes ==> FirstPort(ports, c).Some? && forall v :: v in routes[c] ==> FirstPort(ports, v).Some?
  }

  /** The port names of the targets `vs`. */
  function TargetPorts(ports: seq<string>, vs: seq<string>): (r: seq<string>)
    requires forall v :: v in vs ==> FirstPort(ports, v).Some?
    ensures |r| == |vs|
    ensures forall k :: 0 <= k < |vs| ==> Some(r[k]) == FirstPort(ports, vs[k])
  {
    if vs == [] then [] else assert vs[0] in vs; [FirstPort(ports, vs[0]).value] + TargetPorts(ports, vs[1..])
  }

  /** The port-connection table built by the second pass, over the route
      keys in iteration order `routeOrder`: each key's port maps to the
      ports of its targets, a later key overwriting an earlier one with the
      same port. The table has an entry for the port of every key, and
      mentions only ports of the switch. */
  function RoutesTable(ports: seq<string>, routes: map<string, seq<string>>, routeOrder: seq<string>)
    : (t: map<string, seq<string>>)
    requires RoutesCovered(ports, routes) && forall c :: c in routeOrder ==> c in routes
    ensures forall c :: c in routeOrder ==> FirstPort(ports, c).value in t
    ensures forall p :: p in t ==> p in ports && forall q :: q in t[p] ==> q in ports
    decreases |routeOrder|
  {
    if routeOrder == [] then map[]
    else
      var c := routeOrder[|routeOrder| - 1];
      var pre := routeOrder[..|routeOrder| - 1];
      assert routeOrder == pre + [c];
      assert c in routeOrder && forall x :: x in pre ==> x in routeOrder;
      var ps := TargetPorts(ports, routes[c]);
      assert forall q :: q in ps ==> q in ports by {
        forall q | q in ps ensures q in ports {
          var k :| 0 <= k < |ps| && ps[k] == q;
          assert routes[c][k] in routes[c];
        }
      }
      RoutesTable(ports, routes, pre)[FirstPort(ports, c).value := ps]
  }

  /** Every entry of the table lists the target ports of some key whose
      port it is. */
  lemma {:induction false} RoutesTableOrigin(ports: seq<string>, routes: map<string, seq<string>>,
                                             routeOrder: seq<string>, p: string)
    requires RoutesCovered(ports, routes) && forall c :: c in routeOrder ==> c in routes
    requires p in RoutesTable(ports, routes, routeOrder)
    ensures exists c :: c in routeOrder && FirstPort(ports, c) == Some(p) &&
                        RoutesTable(ports, routes, routeOrder)[p] == TargetPorts(ports, routes[c])
    decreases |routeOrder|
  {
    var pre := routeOrder[..|routeOrder| - 1];
    var c := routeOrder[|routeOrder| - 1];
    assert routeOrder == pre + [c];
    assert c in routeOrder && forall x :: x in pre ==> x in routeOrder;
    if FirstPort(ports, c) != Some(p) {
      RoutesTableOrigin(ports, routes, pre, p);
    }
  }

  /** The key whose port no later key shares keeps its own target ports in
      the table. */
  lemma {:induction false} RoutesTableLast(ports: seq<string>, routes: map<string, seq<string>>,
                                           routeOrder: seq<string>, j: int)
    requires RoutesCovered(ports, routes) && forall c :: c in routeOrder ==> c in routes
    requires 0 <= j < |routeOrder|
    requires forall k :: j < k < |routeOrder| ==> FirstPort(ports, routeOrder[k]) != FirstPort(ports, routeOrder[j])
    ensures FirstPort(ports, routeOrder[j]).Some?
    ensures var t := RoutesTable(ports, routes, routeOrder);
            var p := FirstPort(ports, routeOrder[j]).value;
            p in t && t[p] == TargetPorts(ports, routes[routeOrder[j]])
    decreases |routeOrder|
  {
    var pre := routeOrder[..|routeOrder| - 1];
    assert routeOrder[j] in routeOrder;
    if j < |routeOrder| - 1 {
      assert forall x :: x in pre ==> x in routeOrder;
      assert pre[j] == routeOrder[j];
      RoutesTableLast(ports, routes, pre, j);
    }
  }

  /** `AddInternalSwitchRoutes(name, routes)`: the switch must be registered
      and cover every component of `routes` with a port; it then becomes a
      port specification whose port connections are `RoutesTable`. */
  function SwitchRoutesStep(s: PState, name: string, routes: map<string, seq<string>>, routeOrder: seq<string>,
                            ports: seq<string>): (r: Step)
    requires forall c :: c in routeOrder ==> c in routes
    ensures r.state.viewers == s.viewers && r.state.graph.edges == s.graph.edges
    ensures r.outcome == Done <==> name in s.viewers && RoutesCovered(ports, routes)
    ensures r.outcome != Done ==> r.state == s && r.outcome == Thrown(AssertionFailed)
    ensures r.outcome == Done ==>
              HasTrait(r.state.graph, name, CommunicationModulePortSpecification) &&
              PropIs(r.state.graph, name, PortConnections, RoutesV(RoutesTable(ports, routes, routeOrder))) &&
              Grows(s.graph, r.state.graph) &&
              forall m :: m in s.graph.vertices && m != name ==> r.state.graph.vertices[m] == s.graph.vertices[m]
  {
    if name !in s.viewers || !RoutesCovered(ports, routes) then Step(s, Thrown(AssertionFailed))
    else
      var v := VertexOf(s.graph, name);
      var table := RoutesTable(ports, routes, routeOrder);
      var g := Put(s.graph, name, Vertex(v.traits + {CommunicationModulePortSpecification}, v.ports,
                                         v.props[PortConnections := RoutesV(table)]));
      Step(PState(g, s.viewers), Done)
  }

  lemma SwitchRoutesConsistent(s: PState, name: string, routes: map<string, seq<string>>, routeOrder: seq<string>,
                               ports: seq<string>)
    requires Consistent(s) && forall c :: c in routeOrder ==> c in routes
    ensures Consistent(SwitchRoutesStep(s, name, routes, routeOrder, ports).state)
  {
    ConsistentAfter(s, SwitchRoutesStep(s, name, routes, routeOrder, ports).state);
  }

  /** `1.0 / cost` for each instruction cost. */
  function Reciprocals(instructionSet: map<string, map<string, int>>): (r: map<string, map<string, Ipc>>)
    ensures r.Keys == instructionSet.Keys
    ensures forall m :: m in r ==> r[m].Keys == instructionSet[m].Keys &&
                                   forall op :: op in r[m] ==> r[m][op] == Reciprocal(instructionSet[m][op])
  {
    map m | m in instructionSet :: map op | op in instructionSet[m] :: Reciprocal(instructionSet[m][op])
  }

  /** `AddCPU` of `PlatformBuilder`: super-loop runtimes, physical links,
      and instruction rates the reciprocals of the cycle costs. */
  function AddCPUStep(s: PState, name: string, n: int, frequency: int,
                      instructionSet: map<string, map<string, int>>): (r: PState)
    ensures Grows(s.graph, r.graph)
  {
    CoresOver(s, CoreNames(name, n), frequency, Reciprocals(instructionSet), SuperLoopRuntime, PhysicalVisual)
  }

  /** What `AddCPU` promises: `n` registered cores (one named `name` when
      `n` is 1), each with parallelism 1, the frequency given, the
      reciprocal instruction rates and a super-loop runtime managing it,
      linked to it both ways; runtimes stay unregistered. */
  lemma AddCPUFacts(s: PState, name: string, n: int, frequency: int, instructionSet: map<string, map<string, int>>)
    requires Consistent(s)
    ensures var r := AddCPUStep(s, name, n, frequency, instructionSet);
            var cores := CoreNames(name, n);
            Consistent(r) &&
            r.viewers == s.viewers + (map c | c in cores :: ProcessingView) &&
            r.graph.edges == s.graph.edges + CoreEdges(cores, PhysicalVisual) &&
            (n == 1 ==> cores == [name]) &&
            (forall k :: 0 <= k < |cores| ==>
               CoreBuilt(r.graph, cores[k], frequency, Reciprocals(instructionSet), SuperLoopRuntime)) &&
            (forall k :: 0 <= k < |cores| && SchedulerName(cores[k]) !in s.viewers ==>
               SchedulerName(cores[k]) !in r.viewers)
  {
    CpuFacts(s, name, n, frequency, Reciprocals(instructionSet), SuperLoopRuntime, PhysicalVisual);
  }

  function BramSwitchName(name: string): string { name + "_BRAM_SWITCH" }
  function BramName(name: string): string { name + "_BRAM" }

  /** `AddFPGA`: a registered logic-programmable module with its area, block
      RAM size and frequency; with block RAM, also a switch and a memory
      named after it, the FPGA (and every registered name containing its
      name) linked to the switch, and the switch (and every registered name
      containing the switch's name) linked to the memory. */
  function AddFPGAStep(s: PState, name: string, area: int, bram: int, flit: int, frequency: int,
                       order: seq<string>): (r: Step)
    ensures Grows(s.graph, r.state.graph)
  {
    if bram <= 0 then
      Step(LogicStep(s, name, map[AvailableLogicArea := IntV(area), BlockRamSizeInBits := IntV(bram),
                                  OperatingFrequencyInHertz := IntV(frequency)]), Done)
    else
      var s3 := FpgaParts(s, name, area, bram, flit, frequency);
      var c1 := ConnectTwoWayStep(s3, name, BramSwitchName(name), order);
      GrowsTransitive(s.graph, s3.graph, c1.state.graph);
      if c1.outcome != Done then c1
      else
        var c2 := ConnectTwoWayStep(c1.state, BramSwitchName(name), BramName(name), order);
        GrowsTransitive(s.graph, c1.state.graph, c2.state.graph);
        c2
  }

  /** The state after the FPGA, its switch and its memory are registered. */
  function FpgaParts(s: PState, name: string, area: int, bram: int, flit: int, frequency: int): (r: PState)
    ensures Grows(s.graph, r.graph)
  {
    var s1 := LogicStep(s, name, map[AvailableLogicArea := IntV(area), BlockRamSizeInBits := IntV(bram),
                                     OperatingFrequencyInHertz := IntV(frequency)]);
    var s2 := AddSwitchStep(s1, BramSwitchName(name), frequency, flit);
    var s3 := MemoryStep(s2, BramName(name));
    GrowsTransitive(s.graph, s1.graph, s2.graph);
    GrowsTransitive(s.graph, s2.graph, s3.graph);
    s3
  }

  /** The FPGA's name, its switch and its memory are three different names. */
  lemma BramNamesApart(name: string)
    ensures name != BramSwitchName(name) && name != BramName(name) && BramSwitchName(name) != BramName(name)
    ensures Contains(name, name) && Contains(BramSwitchName(name), BramSwitchName(name))
  {
    assert |BramSwitchName(name)| > |BramName(name)| > |name|;
    ContainsPrefix(name, "");
    assert name + "" == name;
    ContainsPrefix(BramSwitchName(name), "");
    assert BramSwitchName(name) + "" == BramSwitchName(name);
  }

  lemma FpgaPartsConsistent(s: PState, name: string, area: int, bram: int, flit: int, frequency: int)
    requires Consistent(s)
    ensures Consistent(FpgaParts(s, name, area, bram, flit, frequency))
  {
    var props := map[AvailableLogicArea := IntV(area), BlockRamSizeInBits := IntV(bram),
                     OperatingFrequencyInHertz := IntV(frequency)];
    var s1 := LogicStep(s, name, props);
    LogicStepConsistent(s, name, props);
    var s2 := AddSwitchStep(s1, BramSwitchName(name), frequency, flit);
    SwitchStepConsistent(s1, BramSwitchName(name), frequency, 0, flit, IntegerMaxValue, 1);
    MemoryStepConsistent(s2, BramName(name));
  }

  /** The FPGA, its switch and its memory are registered under their
      views. */
  lemma FpgaPartsViewers(s: PState, name: string, area: int, bram: int, flit: int, frequency: int)
    ensures var r := FpgaParts(s, name, area, bram, flit, frequency);
            r.viewers == s.viewers[name := LogicView][BramSwitchName(name) := CommunicationView]
                                  [BramName(name) := MemoryView] &&
            HasTrait(r.graph, name, LogicProgrammableModule)
  {
    BramNamesApart(name);
  }

  /** After a successful `ConnectTwoWay`, each source is joined to `dst`. */
  lemma ConnectTwoWayJoins(s: PState, ns: string, dst: string, order: seq<string>, x: string)
    requires dst in s.viewers && x in TwoWaySources(s, ns, dst, order)
    requires ConnectTwoWayStep(s, ns, dst, order).outcome == Done
    ensures HasConnection(ConnectTwoWayStep(s, ns, dst, order).state.graph, x, dst)
  {
    LinkAllJoins(TwoWayStyle, s, TwoWaySources(s, ns, dst, order), dst, x);
  }

  /** Linking the FPGA to its block-RAM switch always succeeds, since the
      switch is a communication module, and joins the two. */
  lemma FpgaFirstLink(s3: PState, name: string, order: seq<string>)
    requires Consistent(s3) && IsEnumeration(order, s3.viewers.Keys)
    requires name in s3.viewers && KindOf(s3.viewers, BramSwitchName(name)) == Some(CommunicationView)
    ensures var c1 := ConnectTwoWayStep(s3, name, BramSwitchName(name), order);
            c1.outcome == Done && Consistent(c1.state) && HasConnection(c1.state.graph, name, BramSwitchName(name))
  {
    var sw := BramSwitchName(name);
    BramNamesApart(name);
    assert name in TwoWaySources(s3, name, sw, order);
    CommunicationLegal(s3.viewers, TwoWaySources(s3, name, sw, order), sw);
    ConnectTwoWayFacts(s3, name, sw, order);
    ConnectTwoWayJoins(s3, name, sw, order, name);
  }

  /** Linking the switch to the block RAM, a memory, fails exactly when a
      registered processing module's name contains the switch's name; when
      it succeeds the switch is joined to the block RAM. */
  lemma FpgaSecondLink(c: PState, name: string, order: seq<string>)
    requires Consistent(c) && IsEnumeration(order, c.viewers.Keys)
    requires KindOf(c.viewers, BramName(name)) == Some(MemoryView) && BramSwitchName(name) in c.viewers
    ensures var c2 := ConnectTwoWayStep(c, BramSwitchName(name), BramName(name), order);
            Consistent(c2.state) && c2.state.viewers == c.viewers &&
            (c2.outcome == Done <==>
               forall x :: x in order && Contains(x, BramSwitchName(name)) && x != BramName(name) ==>
                 KindOf(c.viewers, x) != Some(ProcessingView)) &&
            (c2.outcome == Done ==> HasConnection(c2.state.graph, BramSwitchName(name), BramName(name)))
  {
    var sw, mem := BramSwitchName(name), BramName(name);
    BramNamesApart(name);
    var srcs := TwoWaySources(c, sw, mem, order);
    assert sw in srcs;
    ConnectTwoWayFacts(c, sw, mem, order);
    if ConnectTwoWayStep(c, sw, mem, order).outcome == Done {
      ConnectTwoWayJoins(c, sw, mem, order, sw);
    }
    assert AllLegal(c.viewers, srcs, mem) <==>
           forall x :: x in order && Contains(x, sw) && x != mem ==> KindOf(c.viewers, x) != Some(ProcessingView);
  }

  /** What `AddFPGA` with block RAM promises: the FPGA is linked to its
      switch, and so is the block RAM, whose name contains the FPGA's; the
      whole operation fails only when a processing module's name contains
      the switch's name, and otherwise the switch is also linked to the
      block RAM. It keeps the invariant. */
  lemma AddFPGAFacts(s: PState, name: string, area: int, bram: int, flit: int, frequency: int, order: seq<string>)
    requires Consistent(s) && bram > 0
    requires IsEnumeration(order, s.viewers.Keys + {name, BramSwitchName(name), BramName(name)})
    ensures var r := AddFPGAStep(s, name, area, bram, flit, frequency, order);
            Consistent(r.state) &&
            HasTrait(r.state.graph, name, LogicProgrammableModule) &&
            HasConnection(r.state.graph, name, BramSwitchName(name)) &&
            HasConnection(r.state.graph, BramName(name), BramSwitchName(name)) &&
            (r.outcome == Done <==>
               forall x :: x in order && Contains(x, BramSwitchName(name)) && x != BramName(name) ==>
                 KindOf(r.state.viewers, x) != Some(ProcessingView)) &&
            (r.outcome == Done ==> HasConnection(r.state.graph, BramSwitchName(name), BramName(name)))
  {
    var s3 := FpgaParts(s, name, area, bram, flit, frequency);
    FpgaPartsConsistent(s, name, area, bram, flit, frequency);
    FpgaPartsViewers(s, name, area, bram, flit, frequency);
    BramNamesApart(name);
    FpgaFirstLink(s3, name, order);
    var c1 := ConnectTwoWayStep(s3, name, BramSwitchName(name), order);
    FpgaSecondLink(c1.state, name, order);
    var c2 := ConnectTwoWayStep(c1.state, BramSwitchName(name), BramName(name), order);
    HasConnectionGrows(c1.state.graph, c2.state.graph, name, BramSwitchName(name));
    ContainsPrefix(name, "_BRAM");
    assert BramName(name) in TwoWaySources(s3, name, BramSwitchName(name), order);
    ConnectTwoWayJoins(s3, name, BramSwitchName(name), order, BramName(name));
    HasConnectionGrows(c1.state.graph, c2.state.graph, BramName(name), BramSwitchName(name));
    assert HasTrait(s3.graph, name, LogicProgrammableModule);
  }

  /** The builder object: the graph it shares and its registry. */
  class PlatformBuilder {
    const sGraph: SystemGraph
    var viewers: map<string, ViewKind>

    function State(): PState
      reads this, sGraph
    {
      PState(sGraph.model, viewers)
    }

    ghost predicate Valid()
      reads this, sGraph
    {
      Consistent(State())
    }

    /** `new PlatformBuilder(name)`: a fresh graph holding the platform
        vertex. */
    constructor (name: string)
      ensures fresh(sGraph) && State() == NewPlatform(name) && Valid()
    {
      var g := new SystemGraph();
      var p := NewPlatform(name);
      g.model := p.graph;
      sGraph := g;
      viewers := p.viewers;
    }

    /** `new PlatformBuilder(name, g)`, second phase: the registry extracted
        from the vertices of `g`, in iteration order `order`. */
    constructor Wrap(g: SystemGraph, order: seq<string>)
      requires IsEnumeration(order, g.model.vertices.Keys)
      ensures sGraph == g && viewers == ExtractOver(g.model, g.model.vertices.Keys, true)
    {
      var extracted := ExtractViewers(g.model, order, true);
      sGraph := g;
      viewers := extracted;
    }

    /** `new PlatformBuilder(name, g)`: refused when `g` has no grey box. */
    static method FromGraph(g: SystemGraph, order: seq<string>) returns (r: Result<PlatformBuilder>)
      requires IsEnumeration(order, g.model.vertices.Keys)
      ensures r.Err? <==> !HasGreyBox(g.model)
      ensures r.Err? ==> r.error == IllegalArgument
      ensures r.Ok? ==> r.value.sGraph == g && r.value.viewers == ExtractOver(g.model, g.model.vertices.Keys, true)
    {
      var found := FindGreyBox(g.model, order);
      if !found {
        return Err(IllegalArgument);
      }
      var b := new PlatformBuilder.Wrap(g, order);
      return Ok(b);
    }

    method ConnectOneWay(src: string, dst: string) returns (o: Outcome)
      modifies this, sGraph
      ensures State() == ConnectOneWayStep(old(State()), src, dst).state
      ensures o == ConnectOneWayStep(old(State()), src, dst).outcome
    {
      if src !in viewers || dst !in viewers {
        return Thrown(AssertionFailed);
      }
      if IllegalPair(KindOf(viewers, src), KindOf(viewers, dst)) {
        return Thrown(UnsupportedOperation);
      }
      sGraph.model := AddPorts(sGraph.model, dst, {"from_" + src});
      sGraph.model := AddPorts(sGraph.model, src, {"to_" + dst});
      sGraph.model := Connect(sGraph.model, src, dst, Some("to_" + dst), Some("from_" + src), ContainmentVisual);
      return Done;
    }

    /** `ConnectTwoWay(ns, dst)`, with `order` the iteration order of the
        registry's key set. */
    method ConnectTwoWay(ns: string, dst: string, order: seq<string>) returns (o: Outcome)
      modifies this, sGraph
      ensures State() == ConnectTwoWayStep(old(State()), ns, dst, order).state
      ensures o == ConnectTwoWayStep(old(State()), ns, dst, order).outcome
    {
      if dst !in viewers {
        return Thrown(AssertionFailed);
      }
      var srcs := Matching(order, ns, Some(dst));
      if srcs == [] {
        return Thrown(AssertionFailed);
      }
      ghost var s0 := State();
      var i := 0;
      while i < |srcs|
        invariant 0 <= i <= |srcs|
        invariant LinkAll(TwoWayStyle, s0, srcs[..i], dst) == Step(State(), Done)
      {
        var src := srcs[i];
        if IllegalPair(KindOf(viewers, src), KindOf(viewers, dst)) {
          LinkAllPrefix(TwoWayStyle, s0, srcs, dst, i);
          return Thrown(UnsupportedOperation);
        }
        LinkAllStep(TwoWayStyle, s0, srcs, dst, i);
        var srcPort, dstPort := SrcPort(TwoWayStyle, src, dst), DstPort(TwoWayStyle, src, dst);
        sGraph.model := AddPorts(sGraph.model, dst, {dstPort});
        sGraph.model := AddPorts(sGraph.model, src, {srcPort});
        sGraph.model := BiLink(sGraph.model, src, dst, Some(srcPort), Some(dstPort), PhysicalVisual);
        i := i + 1;
      }
      assert srcs[..i] == srcs;
      return Done;
    }

    method AddMemory(name: string, frequency: int, spaceInBits: int)
      modifies this, sGraph
      ensures State() == MemoryStep(old(State()), name)
    {
      var v := VertexOf(sGraph.model, name);
      var props := v.props[OperatingFrequencyInHertz := IntV(600 * MHz)][SpaceInBits := IntV(4 * GB * BytesToBits)];
      sGraph.model := Put(sGraph.model, name, Vertex(v.traits + {GenericMemoryModule}, v.ports, props));
      viewers := viewers[name := MemoryView];
    }

    method AddSwitch(name: string, frequency: int, flit: int)
      modifies this, sGraph
      ensures State() == AddSwitchStep(old(State()), name, frequency, flit)
    {
      var v := VertexOf(sGraph.model, name);
      var props := v.props[OperatingFrequencyInHertz := IntV(frequency)][InitialLatency := IntV(0)]
                          [FlitSizeInBits := IntV(flit)][MaxCyclesPerFlit := IntV(IntegerMaxValue)]
                          [MaxConcurrentFlits := IntV(1)];
      sGraph.model := Put(sGraph.model, name, Vertex(v.traits + {InstrumentedCommunicationModule}, v.ports, props));
      viewers := viewers[name := CommunicationView];
    }

    /** `AddInternalSwitchRoutes(name, routes)`, with `routeOrder` the
        iteration order of the routes' keys and `ports` that of the switch's
        port set. */
    method AddInternalSwitchRoutes(name: string, routes: map<string, seq<string>>, routeOrder: seq<string>,
                                   ports: seq<string>) returns (o: Outcome)
      requires IsEnumeration(routeOrder, routes.Keys)
      requires name in viewers && name in sGraph.model.vertices ==>
                 IsEnumeration(ports, sGraph.model.vertices[name].ports)
      modifies this, sGraph
      ensures State() == SwitchRoutesStep(old(State()), name, routes, routeOrder, ports).state
      ensures o == SwitchRoutesStep(old(State()), name, routes, routeOrder, ports).outcome
    {
      if name !in viewers {
        return Thrown(AssertionFailed);
      }
      var covered := CheckRoutes(ports, routes, routeOrder);
      if !covered {
        return Thrown(AssertionFailed);
      }
      var table := BuildRoutesTable(ports, routes, routeOrder);
      var v := VertexOf(sGraph.model, name);
      sGraph.model := Put(sGraph.model, name, Vertex(v.traits + {CommunicationModulePortSpecification}, v.ports,
                                                    v.props[PortConnections := RoutesV(table)]));
      return Done;
    }

    method AddCPU(name: string, n: int, frequency: int, instructionSet: map<string, map<string, int>>)
      modifies this, sGraph
      ensures State() == AddCPUStep(old(State()), name, n, frequency, instructionSet)
    {
      ghost var s0 := State();
      ghost var cores := CoreNames(name, n);
      var ipc := Reciprocals(instructionSet);
      var i := 0;
      while i < n
        invariant 0 <= i <= |cores|
        invariant State() == CoresOver(s0, cores[..i], frequency, ipc, SuperLoopRuntime, PhysicalVisual)
      {
        CoresOverStep(s0, cores, i, frequency, ipc, SuperLoopRuntime, PhysicalVisual);
        var coreName := CoreName(name, n, i);
        var s := CoreStep(PState(sGraph.model, viewers), coreName, frequency, ipc, SuperLoopRuntime, PhysicalVisual);
        sGraph.model, viewers := s.graph, s.viewers;
        i := i + 1;
      }
      assert cores[..i] == cores;
    }

    /** `AddFPGA`, with `order` the iteration order of the registry's key
        set once the FPGA, its switch and its memory are registered. */
    method AddFPGA(name: string, area: int, bram: int, flit: int, frequency: int, order: seq<string>)
      returns (o: Outcome)
      modifies this, sGraph
      ensures State() == AddFPGAStep(old(State()), name, area, bram, flit, frequency, order).state
      ensures o == AddFPGAStep(old(State()), name, area, bram, flit, frequency, order).outcome
    {
      var v := VertexOf(sGraph.model, name);
      var props := map[AvailableLogicArea := IntV(area), BlockRamSizeInBits := IntV(bram),
                       OperatingFrequencyInHertz := IntV(frequency)];
      sGraph.model := Put(sGraph.model, name, Vertex(v.traits + {LogicProgrammableModule}, v.ports, v.props + props));
      viewers := viewers[name := LogicView];
      if bram <= 0 {
        return Done;
      }
      AddSwitch(BramSwitchName(name), frequency, flit);
      AddMemory(BramName(name), frequency, bram);
      o := ConnectTwoWay(name, BramSwitchName(name), order);
      if o != Done {
        return;
      }
      o := ConnectTwoWay(BramSwitchName(name), BramName(name), order);
    }
  }

  /** The first pass of `AddInternalSwitchRoutes`: every key of the routes,
      and every target of each, must have a port. */
  method CheckRoutes(ports: seq<string>, routes: map<string, seq<string>>, routeOrder: seq<string>)
    returns (covered: bool)
    requires IsEnumeration(routeOrder, routes.Keys)
    ensures covered <==> RoutesCovered(ports, routes)
  {
    var i := 0;
    while i < |routeOrder|
      invariant 0 <= i <= |routeOrder|
      invariant forall k :: 0 <= k < i ==> FirstPort(ports, routeOrder[k]).Some? &&
                                            forall v :: v in routes[routeOrder[k]] ==> FirstPort(ports, v).Some?
    {
      var c := routeOrder[i];
      assert c in routes;
      if FirstPort(ports, c).None? {
        return false;
      }
      var j := 0;
      while j < |routes[c]|
        invariant 0 <= j <= |routes[c]|
        invariant forall k :: 0 <= k < j ==> FirstPort(ports, routes[c][k]).Some?
      {
        if FirstPort(ports, routes[c][j]).None? {
          assert routes[c][j] in routes[c];
          return false;
        }
        j := j + 1;
      }
      assert forall v :: v in routes[c] ==> FirstPort(ports, v).Some?;
      i := i + 1;
    }
    forall c | c in routes
      ensures FirstPort(ports, c).Some? && forall v :: v in routes[c] ==> FirstPort(ports, v).Some?
    {
      var k :| 0 <= k < |routeOrder| && routeOrder[k] == c;
    }
    return true;
  }

  /** The second pass of `AddInternalSwitchRoutes`: the port-connection
      table. */
  method BuildRoutesTable(ports: seq<string>, routes: map<string, seq<string>>, routeOrder: seq<string>)
    returns (table: map<string, seq<string>>)
    requires RoutesCovered(ports, routes) && forall c :: c in routeOrder ==> c in routes
    ensures table == RoutesTable(ports, routes, routeOrder)
  {
    table := map[];
    var i := 0;
    while i < |routeOrder|
      invariant 0 <= i <= |routeOrder|
      invariant table == RoutesTable(ports, routes, routeOrder[..i])
    {
      assert routeOrder[..i + 1][..i] == routeOrder[..i];
      var c := routeOrder[i];
      var portName := FirstPort(ports, c).value;
      var connectsTo := TargetPorts(ports, routes[c]);
      table := table[portName := connectsTo];
      i := i + 1;
    }
    assert routeOrder[..i] == routeOrder;
  }
}
