/** `components.Platform`: the platform builder the MPSoC models use. Like
    `PlatformBuilder` it registers memories, routers, multi-core CPUs and
    FPGAs under their names, but it connects a name space to a component with
    named ports and containment edges, inserts a router of its own between
    each source and a memory, and gives each core a time-division
    multiplexing runtime. */
module ComponentPlatforms {
  import opened Graphs
  import opened Text
  import opened Platforms
  import opened Linking

  /** `Connect(ns, dst)`: `dst` must be registered and some registered name
      (possibly `dst` itself) must contain `ns`, both on pain of an
      `IllegalArgumentException`; each such name is then linked to `dst`. */
  function ConnectStep(s: PState, ns: string, dst: string, order: seq<string>): (r: Step)
    ensures r.state.viewers == s.viewers && Grows(s.graph, r.state.graph)
  {
    if dst !in s.viewers then Step(s, Thrown(IllegalArgument))
    else
      var srcs := Matching(order, ns, None);
      if srcs == [] then Step(s, Thrown(IllegalArgument))
      else LinkAll(NamedStyle, s, srcs, dst)
  }

  /** `Connect` refuses an unregistered destination or an empty name space,
      refuses a processing module facing a memory, and otherwise adds two
      edges per matching name, in order. It keeps the invariant. */
  lemma ConnectFacts(s: PState, ns: string, dst: string, order: seq<string>)
    requires Consistent(s) && IsEnumeration(order, s.viewers.Keys)
    ensures var r := ConnectStep(s, ns, dst, order);
            var srcs := Matching(order, ns, None);
            Consistent(r.state) &&
            (r.outcome == Thrown(IllegalArgument) <==> dst !in s.viewers || srcs == []) &&
            (r.outcome == Thrown(IllegalArgument) ==> r.state == s) &&
            (r.outcome == Thrown(UnsupportedOperation) <==>
               dst in s.viewers && srcs != [] && !AllLegal(s.viewers, srcs, dst)) &&
            (r.outcome == Done ==> r.state.graph.edges == s.graph.edges + LinkEdges(NamedStyle, srcs, dst))
  {
    if dst in s.viewers {
      var srcs := Matching(order, ns, None);
      if srcs != [] {
        LinkAllDone(NamedStyle, s, srcs, dst);
        LinkAllConsistent(NamedStyle, s, srcs, dst);
      }
    }
  }

  /** After a successful `Connect`, every matching name is joined to `dst`. */
  lemma ConnectJoins(s: PState, ns: string, dst: string, order: seq<string>, x: string)
    requires x in order && Contains(x, ns) && ConnectStep(s, ns, dst, order).outcome == Done
    ensures HasConnection(ConnectStep(s, ns, dst, order).state.graph, x, dst)
  {
    LinkAllJoins(NamedStyle, s, Matching(order, ns, None), dst, x);
  }

  /** `AddRouter`: a communication module with no initial latency, one-byte
      flits, one cycle per flit and one concurrent flit. */
  function AddRouterStep(s: PState, name: string, frequency: int): (r: PState)
    ensures r == SwitchStep(s, name, frequency, 0, 8, 1, 1)
  {
    SwitchStep(s, name, frequency, 0, 1 * BytesToBits, 1, 1)
  }

  /** The router `ConnectToMemory` puts between `src` and the memory `mem`. */
  function RouterName(mem: string, src: string): string
  {
    mem + "_" + src + "_SWITCH"
  }

  /** Different sources get different routers. */
  lemma RouterNameInjective(mem: string, a: string, b: string)
    requires RouterName(mem, a) == RouterName(mem, b)
    ensures a == b
  {
    var ra, rb := RouterName(mem, a), RouterName(mem, b);
    var k := |mem| + 1;
    assert |a| == |b|;
    assert ra[k..k + |a|] == a && rb[k..k + |b|] == b;
  }

  /** The four edges one source of `ConnectToMemory` gets: router and source
      both ways, then router and memory both ways. */
  function RouteEdges(src: string, mem: string): seq<Edge>
  {
    var sw := RouterName(mem, src);
    BiEdges(sw, src, Some(PortTo(sw, src)), Some(PortTo(src, sw)), ContainmentVisual) +
    BiEdges(sw, mem, Some(PortTo(sw, mem)), Some(PortTo(mem, sw)), ContainmentVisual)
  }

  /** The ports one source of `ConnectToMemory` gets once its router
      exists: the router gets a port towards the source and one towards the
      memory, and the source and the memory each get a port towards the
      router. */
  function RoutePorts(g: Graph, src: string, mem: string): (r: Graph)
    ensures Grows(g, r) && r.edges == g.edges
  {
    var sw := RouterName(mem, src);
    var g1 := PortPair(g, sw, PortTo(sw, src), sw, PortTo(sw, mem));
    var g2 := PortPair(g1, src, PortTo(src, sw), mem, PortTo(mem, sw));
    GrowsTransitive(g, g1, g2);
    g2
  }

  /** Port `pa` added to `a`, then port `pb` to `b`. */
  function PortPair(g: Graph, a: string, pa: string, b: string, pb: string): (r: Graph)
    ensures Grows(g, r) && r.edges == g.edges
  {
    var g1 := AddPorts(g, a, {pa});
    var g2 := AddPorts(g1, b, {pb});
    GrowsTransitive(g, g1, g2);
    g2
  }

  /** The ports of `RoutePorts`, then the router linked both ways to the
      source and to the memory. */
  function RouteGraph(g: Graph, src: string, mem: string): (r: Graph)
    ensures Grows(g, r) && r.edges == g.edges + RouteEdges(src, mem)
  {
    var sw := RouterName(mem, src);
    var g4 := RoutePorts(g, src, mem);
    var g5 := BiLink(g4, sw, src, Some(PortTo(sw, src)), Some(PortTo(src, sw)), ContainmentVisual);
    var g6 := BiLink(g5, sw, mem, Some(PortTo(sw, mem)), Some(PortTo(mem, sw)), ContainmentVisual);
    GrowsTransitive(g, g4, g5);
    GrowsTransitive(g, g5, g6);
    SeqAssoc(g.edges, BiEdges(sw, src, Some(PortTo(sw, src)), Some(PortTo(src, sw)), ContainmentVisual),
             BiEdges(sw, mem, Some(PortTo(sw, mem)), Some(PortTo(mem, sw)), ContainmentVisual));
    g6
  }

  /** One source of `ConnectToMemory`: its router must not be registered
      yet; the router is added, then the ports and edges of `RouteGraph`. */
  function RouteOne(s: PState, src: string, mem: string, frequency: int): (r: Step)
    ensures Grows(s.graph, r.state.graph)
    ensures r.outcome == Done <==> RouterName(mem, src) !in s.viewers
    ensures r.outcome != Done ==> r.state == s && r.outcome == Thrown(IllegalArgument)
    ensures r.outcome == Done ==>
              r.state.viewers == s.viewers[RouterName(mem, src) := CommunicationView] &&
              r.state.graph.edges == s.graph.edges + RouteEdges(src, mem)
  {
    var sw := RouterName(mem, src);
    if sw in s.viewers then Step(s, Thrown(IllegalArgument))
    else
      var a := AddRouterStep(s, sw, frequency);
      var g := RouteGraph(a.graph, src, mem);
      GrowsTransitive(s.graph, a.graph, g);
      Step(PState(g, a.viewers), Done)
  }

  /** The sources `srcs` handled one after the other, stopping at the first
      router that already exists. */
  function RouteAll(s: PState, srcs: seq<string>, mem: string, frequency: int): (r: Step)
    ensures r.outcome == Done || r.outcome == Thrown(IllegalArgument)
    decreases |srcs|
  {
    if srcs == [] then Step(s, Done)
    else
      var q := RouteOne(s, srcs[0], mem, frequency);
      if q.outcome != Done then q else RouteAll(q.state, srcs[1..], mem, frequency)
  }

  /** `RouteAll` on the sources from index `i` on, as the loop of
      `ConnectToMemory` walks them. */
  function RouteFrom(s: PState, srcs: seq<string>, i: nat, mem: string, frequency: int): (r: Step)
    requires i <= |srcs|
    decreases |srcs| - i
  {
    if i == |srcs| then Step(s, Done)
    else
      var q := RouteOne(s, srcs[i], mem, frequency);
      if q.outcome != Done then q else RouteFrom(q.state, srcs, i + 1, mem, frequency)
  }

  lemma {:induction false} RouteFromAll(s: PState, srcs: seq<string>, i: nat, mem: string, frequency: int)
    requires i <= |srcs|
    ensures RouteFrom(s, srcs, i, mem, frequency) == RouteAll(s, srcs[i..], mem, frequency)
    decreases |srcs| - i
  {
    if i < |srcs| {
      assert srcs[i..][0] == srcs[i] && srcs[i..][1..] == srcs[i + 1..];
      var q := RouteOne(s, srcs[i], mem, frequency);
      if q.outcome == Done {
        RouteFromAll(q.state, srcs, i + 1, mem, frequency);
      }
    }
  }

  /** The routers of the sources `srcs`. */
  function Routers(mem: string, srcs: seq<string>): (r: set<string>)
    ensures forall x :: x in srcs ==> RouterName(mem, x) in r
  {
    set x | x in srcs :: RouterName(mem, x)
  }

  /** No source's router is registered. */
  ghost predicate RoutersFree(viewers: map<string, ViewKind>, mem: string, srcs: seq<string>)
  {
    forall x :: x in srcs ==> RouterName(mem, x) !in viewers
  }

  /** `ConnectToMemory(ns, mem)`: `mem` must be registered and some
      registered name must contain `ns`, both on pain of an
      `IllegalArgumentException`; each such name, in registry order, then
      gets its own router to `mem`. */
  function ConnectToMemoryStep(s: PState, ns: string, mem: string, frequency: int, order: seq<string>): Step
  {
    if mem !in s.viewers then Step(s, Thrown(IllegalArgument))
    else
      var srcs := Matching(order, ns, None);
      if srcs == [] then Step(s, Thrown(IllegalArgument))
      else RouteAll(s, srcs, mem, frequency)
  }

  /** Over distinct sources, routing succeeds exactly when no source's router
      is registered beforehand; it then registers every router as a
      communication module and adds four edges per source, in order. */
  lemma {:induction false} RouteAllDone(s: PState, srcs: seq<string>, mem: string, frequency: int)
    requires Distinct(srcs)
    ensures var r := RouteAll(s, srcs, mem, frequency);
            (r.outcome == Done <==> RoutersFree(s.viewers, mem, srcs)) &&
            (r.outcome == Done ==>
               r.state.viewers == s.viewers + (map w | w in Routers(mem, srcs) :: CommunicationView) &&
               r.state.graph.edges == s.graph.edges + RouteEdgesAll(srcs, mem))
    decreases |srcs|
  {
    if srcs != [] {
      var x, rest := srcs[0], srcs[1..];
      var q := RouteOne(s, x, mem, frequency);
      if q.outcome == Done {
        DistinctTail(srcs);
        RouteAllDone(q.state, rest, mem, frequency);
        RoutersOthers(s.viewers, mem, srcs);
        RouteSplit(mem, srcs, s.viewers);
        SeqAssoc(s.graph.edges, RouteEdges(x, mem), RouteEdgesAll(rest, mem));
      }
    }
  }

  lemma DistinctTail(xs: seq<string>)
    requires xs != [] && Distinct(xs)
    ensures Distinct(xs[1..]) && xs[0] !in xs[1..]
  {
    forall i, j | 0 <= i < j < |xs[1..]| ensures xs[1..][i] != xs[1..][j] {
      assert xs[1..][i] == xs[i + 1] && xs[1..][j] == xs[j + 1];
    }
    forall k | 0 <= k < |xs[1..]| ensures xs[1..][k] != xs[0] {
      assert xs[1..][k] == xs[k + 1];
    }
  }

  /** Registering the first source's router leaves the other sources'
      routers as free as they were. */
  lemma RoutersOthers(viewers: map<string, ViewKind>, mem: string, srcs: seq<string>)
    requires srcs != [] && srcs[0] !in srcs[1..]
    ensures RoutersFree(viewers[RouterName(mem, srcs[0]) := CommunicationView], mem, srcs[1..]) <==>
            RoutersFree(viewers, mem, srcs[1..])
    ensures RoutersFree(viewers, mem, srcs) <==>
            RouterName(mem, srcs[0]) !in viewers && RoutersFree(viewers, mem, srcs[1..])
  {
    forall y | y in srcs[1..] ensures RouterName(mem, y) != RouterName(mem, srcs[0]) {
      if RouterName(mem, y) == RouterName(mem, srcs[0]) {
        RouterNameInjective(mem, y, srcs[0]);
      }
    }
    assert srcs == [srcs[0]] + srcs[1..];
  }

  /** The routers of all sources are the first one's and the rest's. */
  lemma RouteSplit(mem: string, srcs: seq<string>, v: map<string, ViewKind>)
    requires srcs != []
    ensures Routers(mem, srcs) == {RouterName(mem, srcs[0])} + Routers(mem, srcs[1..])
    ensures v[RouterName(mem, srcs[0]) := CommunicationView] +
            (map w | w in Routers(mem, srcs[1..]) :: CommunicationView) ==
            v + (map w | w in Routers(mem, srcs) :: CommunicationView)
  {
    assert srcs == [srcs[0]] + srcs[1..];
  }

  /** The edges `ConnectToMemory` adds for the sources `srcs`, in order. */
  function RouteEdgesAll(srcs: seq<string>, mem: string): seq<Edge>
  {
    if srcs == [] then [] else RouteEdges(srcs[0], mem) + RouteEdgesAll(srcs[1..], mem)
  }

  lemma RouteGraphDeclared(a: PState, src: string, mem: string)
    requires PortsDeclared(a.graph) && RouterName(mem, src) in a.graph.vertices
    requires src in a.graph.vertices && mem in a.graph.vertices
    ensures PortsDeclared(RouteGraph(a.graph, src, mem))
  {
    var sw := RouterName(mem, src);
    var r := RouteGraph(a.graph, src, mem);
    var g4 := r.(edges := a.graph.edges);
    DeclaredKept(a.graph, g4);
    var g5 := BiLink(g4, sw, src, Some(PortTo(sw, src)), Some(PortTo(src, sw)), ContainmentVisual);
    DeclaredBiLink(g4, sw, src, Some(PortTo(sw, src)), Some(PortTo(src, sw)), ContainmentVisual);
    DeclaredBiLink(g5, sw, mem, Some(PortTo(sw, mem)), Some(PortTo(mem, sw)), ContainmentVisual);
    assert BiLink(g5, sw, mem, Some(PortTo(sw, mem)), Some(PortTo(mem, sw)), ContainmentVisual) == r;
  }

  lemma RouteOneConsistent(s: PState, src: string, mem: string, frequency: int)
    requires Consistent(s) && src in s.viewers && mem in s.viewers
    ensures Consistent(RouteOne(s, src, mem, frequency).state)
  {
    var sw := RouterName(mem, src);
    if sw !in s.viewers {
      var a := AddRouterStep(s, sw, frequency);
      ConsistentAfter(s, a);
      assert HasTrait(s.graph, src, TraitOf(s.viewers[src])) && HasTrait(s.graph, mem, TraitOf(s.viewers[mem]));
      RouteGraphDeclared(a, src, mem);
      RegisteredKept(a, RouteGraph(a.graph, src, mem));
    }
  }

  /** Routing keeps the invariant when the memory and every source are
      registered, and it only extends the graph. */
  lemma {:induction false} RouteAllConsistent(s: PState, srcs: seq<string>, mem: string, frequency: int)
    requires Consistent(s) && mem in s.viewers && forall x :: x in srcs ==> x in s.viewers
    ensures Consistent(RouteAll(s, srcs, mem, frequency).state)
    ensures Grows(s.graph, RouteAll(s, srcs, mem, frequency).state.graph)
    decreases |srcs|
  {
    if srcs != [] {
      var q := RouteOne(s, srcs[0], mem, frequency);
      assert srcs[0] in srcs;
      RouteOneConsistent(s, srcs[0], mem, frequency);
      if q.outcome == Done {
        assert forall x :: x in srcs[1..] ==> x in srcs;
        RouteAllConsistent(q.state, srcs[1..], mem, frequency);
        GrowsTransitive(s.graph, q.state.graph, RouteAll(q.state, srcs[1..], mem, frequency).state.graph);
      }
    }
  }

  /** `ConnectToMemory` refuses an unregistered memory, an empty name space
      and a router name already in use; otherwise it registers one router
      per matching name and adds four edges per matching name. It keeps the
      invariant. */
  lemma ConnectToMemoryFacts(s: PState, ns: string, mem: string, frequency: int, order: seq<string>)
    requires Consistent(s) && IsEnumeration(order, s.viewers.Keys)
    ensures var r := ConnectToMemoryStep(s, ns, mem, frequency, order);
            var srcs := Matching(order, ns, None);
            Consistent(r.state) &&
            (r.outcome != Done ==> r.outcome == Thrown(IllegalArgument)) &&
            (r.outcome == Done <==> mem in s.viewers && srcs != [] && RoutersFree(s.viewers, mem, srcs)) &&
            (r.outcome == Done ==>
               r.state.viewers == s.viewers + (map w | w in Routers(mem, srcs) :: CommunicationView) &&
               r.state.graph.edges == s.graph.edges + RouteEdgesAll(srcs, mem))
  {
    if mem in s.viewers {
      var srcs := Matching(order, ns, None);
      if srcs != [] {
        MatchingDistinct(order, ns, None);
        RouteAllDone(s, srcs, mem, frequency);
        RouteAllConsistent(s, srcs, mem, frequency);
      }
    }
  }

  /** The instruction rates `AddCPU` stores, as given. */
  function Rates(modalInstructions: map<string, map<string, real>>): (r: map<string, map<string, Ipc>>)
    ensures r.Keys == modalInstructions.Keys
    ensures forall m :: m in r ==> r[m].Keys == modalInstructions[m].Keys &&
                                   forall op :: op in r[m] ==> r[m][op] == Rate(modalInstructions[m][op])
  {
    map m | m in modalInstructions :: map op | op in modalInstructions[m] :: Rate(modalInstructions[m][op])
  }

  /** `AddCPU` of `Platform`: time-division multiplexing runtimes,
      containment links, and the instruction rates given. */
  function AddCPUStep(s: PState, name: string, n: int, frequency: int,
                      modalInstructions: map<string, map<string, real>>): (r: PState)
    ensures Grows(s.graph, r.graph)
  {
    CoresOver(s, CoreNames(name, n), frequency, Rates(modalInstructions), TimeDivisionMultiplexingRuntime,
              ContainmentVisual)
  }

  /** What `AddCPU` promises: `n` registered cores (one named `name` when
      `n` is 1), each with parallelism 1, the frequency and rates given and
      a time-division multiplexing runtime managing it, linked to it both
      ways; runtimes stay unregistered. */
  lemma AddCPUFacts(s: PState, name: string, n: int, frequency: int,
                    modalInstructions: map<string, map<string, real>>)
    requires Consistent(s)
    ensures var r := AddCPUStep(s, name, n, frequency, modalInstructions);
            var cores := CoreNames(name, n);
            Consistent(r) &&
            r.viewers == s.viewers + (map c | c in cores :: ProcessingView) &&
            r.graph.edges == s.graph.edges + CoreEdges(cores, ContainmentVisual) &&
            (n == 1 ==> cores == [name]) &&
            (forall k :: 0 <= k < |cores| ==>
               CoreBuilt(r.graph, cores[k], frequency, Rates(modalInstructions), TimeDivisionMultiplexingRuntime)) &&
            (forall k :: 0 <= k < |cores| && SchedulerName(cores[k]) !in s.viewers ==>
               SchedulerName(cores[k]) !in r.viewers)
  {
    CpuFacts(s, name, n, frequency, Rates(modalInstructions), TimeDivisionMultiplexingRuntime, ContainmentVisual);
  }

  /** `AddFPGA(name, area)`: a registered logic-programmable module with
      that much logic area. */
  function AddFPGAStep(s: PState, name: string, area: int): (r: PState)
    ensures r.viewers == s.viewers[name := LogicView] && r.graph.edges == s.graph.edges
    ensures HasTrait(r.graph, name, LogicProgrammableModule) && PropIs(r.graph, name, AvailableLogicArea, IntV(area))
  {
    var r := LogicStep(s, name, map[AvailableLogicArea := IntV(area)]);
    assert AvailableLogicArea in map[AvailableLogicArea := IntV(area)];
    r
  }

  lemma AddFPGAConsistent(s: PState, name: string, area: int)
    requires Consistent(s)
    ensures Consistent(AddFPGAStep(s, name, area))
  {
    ConsistentAfter(s, AddFPGAStep(s, name, area));
  }

  /** The platform object of the MPSoC models. */
  class Platform {
    const sGraph: SystemGraph
    var viewers: map<string, ViewKind>

    function State(): PState
      reads this, sGraph
    {
      PState(sGraph.model, viewers)
    }

    ghost predicate Valid()
      reads this, sGraph
    {
      Consistent(State())
    }

    /** `new Platform(name)`: a fresh graph holding the platform vertex. */
    constructor (name: string)
      ensures fresh(sGraph) && State() == NewPlatform(name) && Valid()
    {
      var g := new SystemGraph();
      var p := NewPlatform(name);
      g.model := p.graph;
      sGraph := g;
      viewers := p.viewers;
    }

    /** `new Platform(name, g)`, second phase: the registry extracted from
        the vertices of `g`, in iteration order `order`, without
        logic-programmable views. */
    constructor Wrap(g: SystemGraph, order: seq<string>)
      requires IsEnumeration(order, g.model.vertices.Keys)
      ensures sGraph == g && viewers == ExtractOver(g.model, g.model.vertices.Keys, false)
    {
      var extracted := ExtractViewers(g.model, order, false);
      sGraph := g;
      viewers := extracted;
    }

    /** `new Platform(name, g)`: refused when `g` has no grey box. */
    static method FromGraph(g: SystemGraph, order: seq<string>) returns (r: Result<Platform>)
      requires IsEnumeration(order, g.model.vertices.Keys)
      ensures r.Err? <==> !HasGreyBox(g.model)
      ensures r.Err? ==> r.error == IllegalArgument
      ensures r.Ok? ==> r.value.sGraph == g && r.value.viewers == ExtractOver(g.model, g.model.vertices.Keys, false)
      ensures r.Ok? ==> fresh(r.value)
    {
      var found := FindGreyBox(g.model, order);
      if !found {
        return Err(IllegalArgument);
      }
      var p := new Platform.Wrap(g, order);
      return Ok(p);
    }

    /** `Connect(ns, dst)`, with `order` the iteration order of the
        registry's key set. */
    method Connect(ns: string, dst: string, order: seq<string>) returns (o: Outcome)
      modifies this, sGraph
      ensures State() == ConnectStep(old(State()), ns, dst, order).state
      ensures o == ConnectStep(old(State()), ns, dst, order).outcome
    {
      if dst !in viewers {
        return Thrown(IllegalArgument);
      }
      var srcs := Matching(order, ns, None);
      if srcs == [] {
        return Thrown(IllegalArgument);
      }
      ghost var s0 := State();
      var i := 0;
      while i < |srcs|
        invariant 0 <= i <= |srcs|
        invariant LinkAll(NamedStyle, s0, srcs[..i], dst) == Step(State(), Done)
      {
        var src := srcs[i];
        if IllegalPair(KindOf(viewers, src), KindOf(viewers, dst)) {
          LinkAllPrefix(NamedStyle, s0, srcs, dst, i);
          return Thrown(UnsupportedOperation);
        }
        LinkAllStep(NamedStyle, s0, srcs, dst, i);
        var srcPort, dstPort := SrcPort(NamedStyle, src, dst), DstPort(NamedStyle, src, dst);
        sGraph.model := AddPorts(sGraph.model, dst, {dstPort});
        sGraph.model := AddPorts(sGraph.model, src, {srcPort});
        sGraph.model := BiLink(sGraph.model, src, dst, Some(srcPort), Some(dstPort), ContainmentVisual);
        i := i + 1;
      }
      assert srcs[..i] == srcs;
      return Done;
    }

    /** `ConnectToMemory(ns, mem, frequency)`, with `order` the iteration
        order of the registry's key set. */
    method ConnectToMemory(ns: string, mem: string, frequency: int, order: seq<string>) returns (o: Outcome)
      modifies this, sGraph
      ensures State() == ConnectToMemoryStep(old(State()), ns, mem, frequency, order).state
      ensures o == ConnectToMemoryStep(old(State()), ns, mem, frequency, order).outcome
    {
      if mem !in viewers {
        return Thrown(IllegalArgument);
      }
      var srcs := Matching(order, ns, None);
      if srcs == [] {
        return Thrown(IllegalArgument);
      }
      ghost var target := RouteFrom(State(), srcs, 0, mem, frequency);
      RouteFromAll(State(), srcs, 0, mem, frequency);
      assert srcs[0..] == srcs;
      var i := 0;
      while i < |srcs|
        invariant 0 <= i <= |srcs|
        invariant target == RouteFrom(State(), srcs, i, mem, frequency)
      {
        var ok := RouteSource(srcs[i], mem, frequency);
        if !ok {
          return Thrown(IllegalArgument);
        }
        i := i + 1;
      }
      return Done;
    }

    /** One source of `ConnectToMemory`: refused when its router exists,
        otherwise the router is added and linked. */
    method RouteSource(src: string, mem: string, frequency: int) returns (ok: bool)
      modifies this, sGraph
      ensures State() == RouteOne(old(State()), src, mem, frequency).state
      ensures ok <==> RouteOne(old(State()), src, mem, frequency).outcome == Done
    {
      var switchName := RouterName(mem, src);
      if switchName in viewers {
        return false;
      }
      AddRouter(switchName, frequency);
      LinkRouter(src, mem);
      return true;
    }

    /** The ports and edges of one source of `ConnectToMemory`, once its
        router exists. */
    method LinkRouter(src: string, mem: string)
      modifies sGraph
      ensures sGraph.model == RouteGraph(old(sGraph.model), src, mem)
    {
      var switchName := RouterName(mem, src);
      var swToSrc, swToMem := PortTo(switchName, src), PortTo(switchName, mem);
      var srcToSw, memToSw := PortTo(src, switchName), PortTo(mem, switchName);
      sGraph.model := AddPorts(sGraph.model, switchName, {swToSrc});
      sGraph.model := AddPorts(sGraph.model, switchName, {swToMem});
      sGraph.model := AddPorts(sGraph.model, src, {srcToSw});
      sGraph.model := AddPorts(sGraph.model, mem, {memToSw});
      sGraph.model := BiLink(sGraph.model, switchName, src, Some(swToSrc), Some(srcToSw), ContainmentVisual);
      sGraph.model := BiLink(sGraph.model, switchName, mem, Some(swToMem), Some(memToSw), ContainmentVisual);
    }

    method AddMemory(name: string, frequency: int, spaceInBits: int)
      modifies this, sGraph
      ensures State() == MemoryStep(old(State()), name)
    {
      var v := VertexOf(sGraph.model, name);
      var props := v.props[OperatingFrequencyInHertz := IntV(600 * MHz)][SpaceInBits := IntV(4 * GB * BytesToBits)];
      sGraph.model := Put(sGraph.model, name, Vertex(v.traits + {GenericMemoryModule}, v.ports, props));
      viewers := viewers[name := MemoryView];
    }

    method AddRouter(name: string, frequency: int)
      modifies this, sGraph
      ensures State() == AddRouterStep(old(State()), name, frequency)
    {
      var v := VertexOf(sGraph.model, name);
      var props := v.props[OperatingFrequencyInHertz := IntV(frequency)][InitialLatency := IntV(0)]
                          [FlitSizeInBits := IntV(1 * BytesToBits)][MaxCyclesPerFlit := IntV(1)]
                          [MaxConcurrentFlits := IntV(1)];
      sGraph.model := Put(sGraph.model, name, Vertex(v.traits + {InstrumentedCommunicationModule}, v.ports, props));
      viewers := viewers[name := CommunicationView];
    }

    method AddCPU(name: string, n: int, frequency: int, modalInstructions: map<string, map<string, real>>)
      modifies this, sGraph
      ensures State() == AddCPUStep(old(State()), name, n, frequency, modalInstructions)
    {
      ghost var s0 := State();
      ghost var cores := CoreNames(name, n);
      var ipc := Rates(modalInstructions);
      var i := 0;
      while i < n
        invariant 0 <= i <= |cores|
        invariant State() == CoresOver(s0, cores[..i], frequency, ipc, TimeDivisionMultiplexingRuntime,
                                       ContainmentVisual)
      {
        CoresOverStep(s0, cores, i, frequency, ipc, TimeDivisionMultiplexingRuntime, ContainmentVisual);
        var coreName := CoreName(name, n, i);
        var s := CoreStep(PState(sGraph.model, viewers), coreName, frequency, ipc, TimeDivisionMultiplexingRuntime,
                          ContainmentVisual);
        sGraph.model, viewers := s.graph, s.viewers;
        i := i + 1;
      }
      assert cores[..i] == cores;
    }

    method AddFPGA(name: string, area: int)
      modifies this, sGraph
      ensures State() == AddFPGAStep(old(State()), name, area)
    {
      var v := VertexOf(sGraph.model, name);
      sGraph.model := Put(sGraph.model, name, Vertex(v.traits + {LogicProgrammableModule}, v.ports,
                                                    v.props + map[AvailableLogicArea := IntV(area)]));
      viewers := viewers[name := LogicView];
    }
  }
}
