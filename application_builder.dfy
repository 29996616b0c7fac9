/** `ApplicationBuilder`: builds a synchronous-dataflow application graph.
    Actors and channels are registered by name in `viewers`; an actor holds
    its production and consumption rate maps, keyed by port name, and its
    software and hardware implementation records. */
module Applications {
  import opened Graphs

  /** The viewer class a name is registered under. */
  datatype AppView = ActorView | ChannelView

  function ViewTrait(k: AppView): Trait
  {
    match k
    case ActorView => SDFActor
    case ChannelView => SDFChannel
  }

  /** The builder's state: its graph and its `viewers` map. */
  datatype AState = AState(graph: Graph, viewers: map<string, AppView>)

  /** The state after an operation, and how the operation ended. */
  datatype AStep = AStep(state: AState, outcome: Outcome)

  /** Edge traits of the dataflow connections. */
  const SDFVisual: set<EdgeTrait> := {SDFNetworkEdge, VisualConnection}

  /** The rate map `k` (production or consumption) of vertex `n`; a vertex
      without one reads as having an empty map. */
  function RatesOf(g: Graph, n: string, k: Prop): map<string, int>
  {
    RatesIn(VertexOf(g, n), k)
  }

  function RatesIn(v: Vertex, k: Prop): map<string, int>
  {
    if k in v.props && v.props[k].CountsV? then v.props[k].counts else map[]
  }

  /** Every rate of the vertex `n` is keyed by one of its ports. */
  predicate RatesOnPorts(g: Graph, n: string)
  {
    RatesOnOwnPorts(VertexOf(g, n))
  }

  predicate RatesOnOwnPorts(v: Vertex)
  {
    RatesIn(v, Production).Keys <= v.ports && RatesIn(v, Consumption).Keys <= v.ports
  }

  /** The invariant the builder keeps while every operation ends normally:
      each registered name is a vertex with the trait of its viewer, and
      the rates of each vertex are keyed by its own ports. */
  ghost predicate AppConsistent(s: AState)
  {
    (forall n :: n in s.viewers ==> HasTrait(s.graph, n, ViewTrait(s.viewers[n]))) &&
    (forall n :: n in s.graph.vertices ==> RatesOnPorts(s.graph, n))
  }

  /** `new ApplicationBuilder(name)`: one structure vertex, also a grey box;
      nothing is registered. */
  function NewApplication(name: string): (r: AState)
    ensures r.viewers == map[] && r.graph.edges == [] && r.graph.vertices.Keys == {name}
    ensures r.graph.vertices[name].traits == {Structure, GreyBox}
    ensures AppConsistent(r)
  {
    var g := Enforce(NewVertex(EmptyGraph, name), name, Structure);
    AState(Enforce(g, name, GreyBox), map[])
  }

  /** `GetActor(name)`: the actor registered under `name`. An unregistered
      name, or a name whose vertex is not an actor, raises "Actor not
      found". */
  function GetActor(s: AState, name: string): (r: Result<string>)
    ensures r.Ok? ==> r.value == name && name in s.viewers && HasTrait(s.graph, name, SDFActor)
    ensures r.Err? ==> r.error == Runtime
  {
    if name in s.viewers && HasTrait(s.graph, name, SDFActor) then Ok(name) else Err(Runtime)
  }

  predicate IsActor(s: AState, name: string)
  {
    GetActor(s, name).Ok?
  }

  /** `AddActor(name)`: an actor with empty production and consumption
      maps, registered under its name. */
  function ActorStep(s: AState, name: string): (r: AState)
    ensures r.viewers == s.viewers[name := ActorView] && Grows(s.graph, r.graph) && r.graph.edges == s.graph.edges
    ensures r.graph.vertices.Keys == s.graph.vertices.Keys + {name}
    ensures forall m :: m in s.graph.vertices && m != name ==> r.graph.vertices[m] == s.graph.vertices[m]
    ensures RatesOf(r.graph, name, Production) == map[] && RatesOf(r.graph, name, Consumption) == map[]
    ensures r.graph.vertices[name].ports == VertexOf(s.graph, name).ports
    ensures r.graph.vertices[name].traits == VertexOf(s.graph, name).traits + {SDFActor}
    ensures IsActor(r, name)
  {
    var v := VertexOf(s.graph, name);
    var props := v.props[Production := CountsV(map[])][Consumption := CountsV(map[])];
    AState(Put(s.graph, name, Vertex(v.traits + {SDFActor}, v.ports, props)), s.viewers[name := ActorView])
  }

  lemma ActorConsistent(s: AState, name: string)
    requires AppConsistent(s)
    ensures AppConsistent(ActorStep(s, name))
  {
    var r := ActorStep(s, name);
    forall n | n in r.viewers ensures HasTrait(r.graph, n, ViewTrait(r.viewers[n])) {
      if n != name {
        assert HasTrait(s.graph, n, ViewTrait(s.viewers[n]));
      }
    }
    forall n | n in r.graph.vertices ensures RatesOnPorts(r.graph, n) {
      if n != name {
        assert RatesOnPorts(s.graph, n);
        assert r.graph.vertices[n] == s.graph.vertices[n];
      }
    }
  }

  /** `GetUpdatedProdOrCons(current, port, n)`: a copy of `current` with
      the one extra entry `port` -> `n`; an existing `port` is refused. */
  function UpdatedRates(current: map<string, int>, port: string, n: int): (r: Result<map<string, int>>)
    ensures r.Err? <==> port in current
    ensures r.Err? ==> r.error == Runtime
    ensures r.Ok? ==> r.value.Keys == current.Keys + {port} && r.value[port] == n &&
                      forall k :: k in current ==> r.value[k] == current[k]
  {
    if port in current then Err(Runtime) else Ok(current[port := n])
  }

  /** The record of `n` once `<Trait>.enforce` has attached `t`. */
  function Traited(g: Graph, n: string, t: Trait): (v: Vertex)
    ensures v.traits == VertexOf(g, n).traits + {t} && v.ports == VertexOf(g, n).ports
    ensures v.props == VertexOf(g, n).props
  {
    VertexOf(g, n).(traits := VertexOf(g, n).traits + {t})
  }

  /** `AddSWImplementation(name, instrs, codeSize)`. The software trait is
      attached before the two assertions are checked, so a failed assertion
      leaves it in place. */
  function SWStep(s: AState, name: string, instrs: map<string, int>, codeSize: int): (r: AStep)
  {
    if !IsActor(s, name) then AStep(s, Thrown(Runtime))
    else
      var v := Traited(s.graph, name, InstrumentedSoftwareBehaviour);
      if |instrs| == 0 || codeSize <= 0 then AStep(AState(Put(s.graph, name, v), s.viewers), Thrown(AssertionFailed))
      else
        var props := v.props[ComputationalRequirements := RequirementsV(map[SWInstructions := instrs])]
                            [MaxSizeInBits := CountsV(map["impl" := codeSize])];
        AStep(AState(Put(s.graph, name, v.(props := props)), s.viewers), Done)
  }

  lemma SWFacts(s: AState, name: string, instrs: map<string, int>, codeSize: int)
    ensures var r := SWStep(s, name, instrs, codeSize);
            (r.outcome == Done <==> IsActor(s, name) && |instrs| > 0 && codeSize > 0) &&
            (!IsActor(s, name) ==> r == AStep(s, Thrown(Runtime))) &&
            (IsActor(s, name) && r.outcome != Done ==> r.outcome == Thrown(AssertionFailed)) &&
            (IsActor(s, name) ==> HasTrait(r.state.graph, name, InstrumentedSoftwareBehaviour)) &&
            (r.outcome == Done ==>
               PropIs(r.state.graph, name, ComputationalRequirements, RequirementsV(map[SWInstructions := instrs])) &&
               PropIs(r.state.graph, name, MaxSizeInBits, CountsV(map["impl" := codeSize])))
  {
  }

  lemma SWConsistent(s: AState, name: string, instrs: map<string, int>, codeSize: int)
    requires AppConsistent(s)
    ensures var r := SWStep(s, name, instrs, codeSize);
            AppConsistent(r.state) && r.state.viewers == s.viewers && r.state.graph.edges == s.graph.edges
  {
    if IsActor(s, name) {
      assert RatesOnPorts(s.graph, name);
      var v := Traited(s.graph, name, InstrumentedSoftwareBehaviour);
      if |instrs| == 0 || codeSize <= 0 {
        RecordKept(s, name, v);
      } else {
        RecordKept(s, name, SWStep(s, name, instrs, codeSize).state.graph.vertices[name]);
      }
    }
  }

  /** `AddHWImplementation(name, clockCycles, requiredArea)`, where the
      clock-cycle count is filed under the key `ClockCycles` of the hardware
      instructions. The hardware trait is attached before the assertions. */
  function HWStep(s: AState, name: string, clockCycles: int, requiredArea: int): (r: AStep)
  {
    if !IsActor(s, name) then AStep(s, Thrown(Runtime))
    else
      var v := Traited(s.graph, name, InstrumentedHardwareBehaviour);
      if requiredArea <= 0 || clockCycles <= 0 then AStep(AState(Put(s.graph, name, v), s.viewers), Thrown(AssertionFailed))
      else
        var props := v.props[ResourceRequirements := RequirementsV(map[HWInstructions := map[ClockCycles := clockCycles]])]
                            [RequiredHardwareImplementationArea := IntV(requiredArea)];
        AStep(AState(Put(s.graph, name, v.(props := props)), s.viewers), Done)
  }

  lemma HWFacts(s: AState, name: string, clockCycles: int, requiredArea: int)
    ensures var r := HWStep(s, name, clockCycles, requiredArea);
            (r.outcome == Done <==> IsActor(s, name) && requiredArea > 0 && clockCycles > 0) &&
            (!IsActor(s, name) ==> r == AStep(s, Thrown(Runtime))) &&
            (IsActor(s, name) && r.outcome != Done ==> r.outcome == Thrown(AssertionFailed)) &&
            (IsActor(s, name) ==> HasTrait(r.state.graph, name, InstrumentedHardwareBehaviour)) &&
            (r.outcome == Done ==>
               PropIs(r.state.graph, name, ResourceRequirements,
                      RequirementsV(map[HWInstructions := map[ClockCycles := clockCycles]])) &&
               PropIs(r.state.graph, name, RequiredHardwareImplementationArea, IntV(requiredArea)))
  {
  }

  lemma HWConsistent(s: AState, name: string, clockCycles: int, requiredArea: int)
    requires AppConsistent(s)
    ensures var r := HWStep(s, name, clockCycles, requiredArea);
            AppConsistent(r.state) && r.state.viewers == s.viewers && r.state.graph.edges == s.graph.edges
  {
    if IsActor(s, name) {
      assert RatesOnPorts(s.graph, name);
      var v := Traited(s.graph, name, InstrumentedHardwareBehaviour);
      if requiredArea <= 0 || clockCycles <= 0 {
        RecordKept(s, name, v);
      } else {
        RecordKept(s, name, HWStep(s, name, clockCycles, requiredArea).state.graph.vertices[name]);
      }
    }
  }

  /** `w` differs from `v` at most in its ports and its rate maps. */
  predicate SameBut(v: Vertex, w: Vertex)
  {
    v.traits == w.traits && v.props - {Production, Consumption} == w.props - {Production, Consumption}
  }

  /** Replacing the record of `n` by one with at least its traits whose
      rates are keyed by its ports keeps the invariant. */
  lemma RecordKept(s: AState, n: string, v: Vertex)
    requires AppConsistent(s)
    requires VertexOf(s.graph, n).traits <= v.traits && RatesOnOwnPorts(v)
    ensures AppConsistent(AState(Put(s.graph, n, v), s.viewers))
  {
    var r := AState(Put(s.graph, n, v), s.viewers);
    forall m | m in r.viewers ensures HasTrait(r.graph, m, ViewTrait(r.viewers[m])) {
      assert HasTrait(s.graph, m, ViewTrait(s.viewers[m]));
    }
    forall m | m in r.graph.vertices ensures RatesOnPorts(r.graph, m) {
      if m != n {
        assert RatesOnPorts(s.graph, m);
      }
    }
  }

  /** The channel `CreateChannel(src, dst, ...)` creates. */
  function ChannelName(src: string, dst: string): string
  {
    "CH_" + src + "_" + dst
  }

  function ProdPort(dst: string): string { "to_" + dst }

  function ConsPort(src: string): string { "from_" + src }

  /** A channel is never named like either of its actors. */
  lemma ChannelNameFresh(src: string, dst: string)
    ensures ChannelName(src, dst) != src && ChannelName(src, dst) != dst
  {
    assert |ChannelName(src, dst)| > |src| && |ChannelName(src, dst)| > |dst|;
  }

  /** The channel record of `CreateChannel`, from the record `v` the name
      had: no initial tokens, producer `src`, consumer `dst`. */
  function ChannelRecord(v: Vertex, src: string, dst: string): Vertex
  {
    Vertex(v.traits + {SDFChannel}, v.ports, v.props[NumInitialTokens := IntV(0)][Producer := NameV(src)][Consumer := NameV(dst)])
  }

  /** `v` with its rate map `k` replaced by `m`. */
  function WithRates(v: Vertex, k: Prop, m: map<string, int>): Vertex
  {
    v.(props := v.props[k := CountsV(m)])
  }

  /** `v` after `addPorts(ps)`. */
  function WithPorts(v: Vertex, ps: set<string>): Vertex
  {
    v.(ports := v.ports + ps)
  }

  /** The ports and the two edges of `CreateChannel`, once both rate maps
      are updated: `src` -> channel and channel -> `dst`. */
  function ChannelWiring(g: Graph, src: string, dst: string): (r: Graph)
    ensures r.edges == g.edges + ChannelEdges(src, dst)
  {
    var ch := ChannelName(src, dst);
    var g1 := Put(g, ch, WithPorts(VertexOf(g, ch), {ProdPort(dst), ConsPort(src)}));
    var g2 := Put(g1, src, WithPorts(VertexOf(g1, src), {ProdPort(dst)}));
    var g3 := Put(g2, dst, WithPorts(VertexOf(g2, dst), {ConsPort(src)}));
    var g4 := Connect(g3, src, ch, Some(ProdPort(dst)), Some("to_" + src), SDFVisual);
    var r := Connect(g4, ch, dst, Some("to_" + dst), Some(ConsPort(src)), SDFVisual);
    SeqAssoc(g.edges, [InEdge(src, dst)], [OutEdge(src, dst)]);
    r
  }

  /** The two edges of a channel. The edge into the channel names the
      channel port `to_<src>`, which the channel is not given. */
  function ChannelEdges(src: string, dst: string): seq<Edge>
  {
    [InEdge(src, dst)] + [OutEdge(src, dst)]
  }

  function InEdge(src: string, dst: string): Edge
  {
    Edge(src, ChannelName(src, dst), Some(ProdPort(dst)), Some("to_" + src), SDFVisual)
  }

  function OutEdge(src: string, dst: string): Edge
  {
    Edge(ChannelName(src, dst), dst, Some("to_" + dst), Some(ConsPort(src)), SDFVisual)
  }

  /** `CreateChannel(src, dst, numProd, numCons)`. The channel is created
      and the producer's rates are written before the consumer's port is
      checked. */
  function ChannelStep(s: AState, src: string, dst: string, numProd: int, numCons: int): (r: AStep)
  {
    if !IsActor(s, src) || !IsActor(s, dst) then AStep(s, Thrown(Runtime))
    else
      var ch := ChannelName(src, dst);
      var g1 := Put(s.graph, ch, ChannelRecord(VertexOf(s.graph, ch), src, dst));
      var viewers := s.viewers[ch := ChannelView];
      match UpdatedRates(RatesOf(g1, src, Production), ProdPort(dst), numProd)
      case Err(e) => AStep(AState(g1, viewers), Thrown(e))
      case Ok(prod) =>
        var g2 := Put(g1, src, WithRates(VertexOf(g1, src), Production, prod));
        match UpdatedRates(RatesOf(g2, dst, Consumption), ConsPort(src), numCons)
        case Err(e) => AStep(AState(g2, viewers), Thrown(e))
        case Ok(cons) =>
          var g3 := Put(g2, dst, WithRates(VertexOf(g2, dst), Consumption, cons));
          AStep(AState(ChannelWiring(g3, src, dst), viewers), Done)
  }

  lemma ChannelOutcome(s: AState, src: string, dst: string, numProd: int, numCons: int)
    ensures var r := ChannelStep(s, src, dst, numProd, numCons);
            (r.outcome == Done <==>
               IsActor(s, src) && IsActor(s, dst) && ProdPort(dst) !in RatesOf(s.graph, src, Production) &&
               ConsPort(src) !in RatesOf(s.graph, dst, Consumption)) &&
            (r.outcome != Done ==> r.outcome == Thrown(Runtime)) &&
            (!IsActor(s, src) || !IsActor(s, dst) ==> r.state == s)
  {
    ChannelNameFresh(src, dst);
  }

  /** A channel created in full: registered, with no initial tokens and its
      producer and consumer; one new production entry on `src` and one new
      consumption entry on `dst`, each on a new port; two new edges. */
  lemma ChannelDone(s: AState, src: string, dst: string, numProd: int, numCons: int)
    requires ChannelStep(s, src, dst, numProd, numCons).outcome == Done
    ensures var r := ChannelStep(s, src, dst, numProd, numCons).state;
            var ch := ChannelName(src, dst);
            r.viewers == s.viewers[ch := ChannelView] && r.graph.edges == s.graph.edges + ChannelEdges(src, dst) &&
            HasTrait(r.graph, ch, SDFChannel) && PropIs(r.graph, ch, NumInitialTokens, IntV(0)) &&
            PropIs(r.graph, ch, Producer, NameV(src)) && PropIs(r.graph, ch, Consumer, NameV(dst)) &&
            r.graph.vertices[ch].ports == VertexOf(s.graph, ch).ports + {ProdPort(dst), ConsPort(src)} &&
            ProdPort(dst) in r.graph.vertices[src].ports && ConsPort(src) in r.graph.vertices[dst].ports
  {
    var g3 := RatedGraph(s, src, dst, numProd, numCons);
    ChannelRated(s, src, dst, numProd, numCons);
    ChannelNameFresh(src, dst);
    WiringFacts(g3, src, dst);
  }

  /** The producer's and the consumer's rate maps once a channel is
      created in full. */
  lemma ChannelRates(s: AState, src: string, dst: string, numProd: int, numCons: int)
    requires ChannelStep(s, src, dst, numProd, numCons).outcome == Done
    ensures var r := ChannelStep(s, src, dst, numProd, numCons).state;
            RatesOf(r.graph, src, Production) == RatesOf(s.graph, src, Production)[ProdPort(dst) := numProd] &&
            RatesOf(r.graph, dst, Consumption) == RatesOf(s.graph, dst, Consumption)[ConsPort(src) := numCons]
  {
    var g3 := RatedGraph(s, src, dst, numProd, numCons);
    ChannelRated(s, src, dst, numProd, numCons);
    WiringRates(g3, src, dst, src, Production);
    WiringRates(g3, src, dst, dst, Consumption);
  }

  /** The graph of a channel created in full before it is wired: the
      channel record, then the producer's and the consumer's new rates. */
  function RatedGraph(s: AState, src: string, dst: string, numProd: int, numCons: int): Graph
  {
    var ch := ChannelName(src, dst);
    var g1 := Put(s.graph, ch, ChannelRecord(VertexOf(s.graph, ch), src, dst));
    var g2 := Put(g1, src, WithRates(VertexOf(g1, src), Production, RatesOf(s.graph, src, Production)[ProdPort(dst) := numProd]));
    Put(g2, dst, WithRates(VertexOf(g2, dst), Consumption, RatesOf(s.graph, dst, Consumption)[ConsPort(src) := numCons]))
  }

  lemma ChannelRated(s: AState, src: string, dst: string, numProd: int, numCons: int)
    requires ChannelStep(s, src, dst, numProd, numCons).outcome == Done
    ensures var g3 := RatedGraph(s, src, dst, numProd, numCons);
            ChannelStep(s, src, dst, numProd, numCons).state ==
            AState(ChannelWiring(g3, src, dst), s.viewers[ChannelName(src, dst) := ChannelView]) &&
            RatesOf(g3, src, Production) == RatesOf(s.graph, src, Production)[ProdPort(dst) := numProd] &&
            RatesOf(g3, dst, Consumption) == RatesOf(s.graph, dst, Consumption)[ConsPort(src) := numCons] &&
            g3.edges == s.graph.edges &&
            VertexOf(g3, ChannelName(src, dst)) == ChannelRecord(VertexOf(s.graph, ChannelName(src, dst)), src, dst)
  {
    ChannelRatedState(s, src, dst, numProd, numCons);
    ChannelRatedRates(s, src, dst, numProd, numCons);
  }

  /** Rating the channel leaves the other rates out of the way: the state
      of a full channel is the wiring of `RatedGraph`. */
  lemma ChannelRatedState(s: AState, src: string, dst: string, numProd: int, numCons: int)
    requires ChannelStep(s, src, dst, numProd, numCons).outcome == Done
    ensures ChannelStep(s, src, dst, numProd, numCons).state ==
            AState(ChannelWiring(RatedGraph(s, src, dst, numProd, numCons), src, dst), s.viewers[ChannelName(src, dst) := ChannelView])
  {
    ChannelNameFresh(src, dst);
    var ch := ChannelName(src, dst);
    var g1 := Put(s.graph, ch, ChannelRecord(VertexOf(s.graph, ch), src, dst));
    assert RatesOf(g1, src, Production) == RatesOf(s.graph, src, Production);
    var prod := RatesOf(s.graph, src, Production)[ProdPort(dst) := numProd];
    var g2 := Put(g1, src, WithRates(VertexOf(g1, src), Production, prod));
    assert RatesOf(g2, dst, Consumption) == RatesOf(s.graph, dst, Consumption);
  }

  /** The rates, edges and channel record of `RatedGraph`. */
  lemma ChannelRatedRates(s: AState, src: string, dst: string, numProd: int, numCons: int)
    requires ChannelStep(s, src, dst, numProd, numCons).outcome == Done
    ensures var g3 := RatedGraph(s, src, dst, numProd, numCons);
            RatesOf(g3, src, Production) == RatesOf(s.graph, src, Production)[ProdPort(dst) := numProd] &&
            RatesOf(g3, dst, Consumption) == RatesOf(s.graph, dst, Consumption)[ConsPort(src) := numCons] &&
            g3.edges == s.graph.edges &&
            VertexOf(g3, ChannelName(src, dst)) == ChannelRecord(VertexOf(s.graph, ChannelName(src, dst)), src, dst)
  {
    ChannelNameFresh(src, dst);
  }

  /** The rates and records of the vertices other than the producer's
      production and the consumer's consumption are left alone until the
      wiring. */
  lemma RatedOthers(s: AState, src: string, dst: string, numProd: int, numCons: int, m: string)
    ensures var g3 := RatedGraph(s, src, dst, numProd, numCons);
            VertexOf(s.graph, m).traits <= VertexOf(g3, m).traits && VertexOf(g3, m).ports == VertexOf(s.graph, m).ports &&
            (m != ChannelName(src, dst) ==> SameBut(VertexOf(s.graph, m), VertexOf(g3, m))) &&
            (m != src ==> RatesOf(g3, m, Production) == RatesOf(s.graph, m, Production)) &&
            (m != dst ==> RatesOf(g3, m, Consumption) == RatesOf(s.graph, m, Consumption))
  {
    RatedRecords(s, src, dst, numProd, numCons, m);
    RatedRates(s, src, dst, numProd, numCons, m);
  }

  lemma RatedRecords(s: AState, src: string, dst: string, numProd: int, numCons: int, m: string)
    ensures var g3 := RatedGraph(s, src, dst, numProd, numCons);
            VertexOf(s.graph, m).traits <= VertexOf(g3, m).traits && VertexOf(g3, m).ports == VertexOf(s.graph, m).ports &&
            (m != ChannelName(src, dst) ==> SameBut(VertexOf(s.graph, m), VertexOf(g3, m)))
  {
    ChannelNameFresh(src, dst);
  }

  lemma RatedRates(s: AState, src: string, dst: string, numProd: int, numCons: int, m: string)
    ensures var g3 := RatedGraph(s, src, dst, numProd, numCons);
            (m != src ==> RatesOf(g3, m, Production) == RatesOf(s.graph, m, Production)) &&
            (m != dst ==> RatesOf(g3, m, Consumption) == RatesOf(s.graph, m, Consumption))
  {
    ChannelNameFresh(src, dst);
  }

  /** A channel created in full keeps the invariant. */
  lemma ChannelConsistent(s: AState, src: string, dst: string, numProd: int, numCons: int)
    requires AppConsistent(s) && ChannelStep(s, src, dst, numProd, numCons).outcome == Done
    ensures AppConsistent(ChannelStep(s, src, dst, numProd, numCons).state)
  {
    var r := ChannelStep(s, src, dst, numProd, numCons).state;
    var g3 := RatedGraph(s, src, dst, numProd, numCons);
    ChannelRated(s, src, dst, numProd, numCons);
    ChannelDone(s, src, dst, numProd, numCons);
    forall n | n in r.viewers ensures HasTrait(r.graph, n, ViewTrait(r.viewers[n])) {
      if n != ChannelName(src, dst) {
        assert HasTrait(s.graph, n, ViewTrait(s.viewers[n]));
        RatedOthers(s, src, dst, numProd, numCons, n);
        WiringRates(g3, src, dst, n, Production);
      }
    }
    forall n | n in r.graph.vertices ensures RatesOnPorts(r.graph, n) {
      assert RatesOnPorts(s.graph, n);
      RatedOthers(s, src, dst, numProd, numCons, n);
      WiringRates(g3, src, dst, n, Production);
      WiringRates(g3, src, dst, n, Consumption);
    }
  }

  /** The wiring of a channel adds ports and edges only. */
  lemma WiringFacts(g: Graph, src: string, dst: string)
    ensures var r := ChannelWiring(g, src, dst);
            var ch := ChannelName(src, dst);
            r.vertices.Keys == g.vertices.Keys + {ch, src, dst} &&
            r.vertices[ch] == WithPorts(VertexOf(g, ch), {ProdPort(dst), ConsPort(src)}) &&
            ProdPort(dst) in r.vertices[src].ports && ConsPort(src) in r.vertices[dst].ports
  {
    ChannelNameFresh(src, dst);
  }

  lemma WiringRates(g: Graph, src: string, dst: string, m: string, k: Prop)
    ensures var r := ChannelWiring(g, src, dst);
            RatesOf(r, m, k) == RatesOf(g, m, k) && VertexOf(g, m).ports <= VertexOf(r, m).ports &&
            VertexOf(g, m).traits == VertexOf(r, m).traits && VertexOf(g, m).props == VertexOf(r, m).props
  {
    assert VertexOf(ChannelWiring(g, src, dst), m).props == VertexOf(g, m).props;
  }

  /** A consumer-port collision is detected after the channel has been
      created and registered and the producer's rate written, and these
      stay: the producer then holds a rate on a port it does not have. */
  lemma ChannelCollision(s: AState, src: string, dst: string, numProd: int, numCons: int)
    requires IsActor(s, src) && IsActor(s, dst)
    requires ProdPort(dst) !in RatesOf(s.graph, src, Production) && ConsPort(src) in RatesOf(s.graph, dst, Consumption)
    ensures var r := ChannelStep(s, src, dst, numProd, numCons);
            var ch := ChannelName(src, dst);
            r.outcome == Thrown(Runtime) && r.state.viewers == s.viewers[ch := ChannelView] &&
            r.state.graph.edges == s.graph.edges &&
            PropIs(r.state.graph, ch, Producer, NameV(src)) && PropIs(r.state.graph, ch, Consumer, NameV(dst)) &&
            RatesOf(r.state.graph, src, Production) == RatesOf(s.graph, src, Production)[ProdPort(dst) := numProd] &&
            (ProdPort(dst) !in VertexOf(s.graph, src).ports ==> !AppConsistent(r.state))
  {
    ChannelNameFresh(src, dst);
    var r := ChannelStep(s, src, dst, numProd, numCons);
    if ProdPort(dst) !in VertexOf(s.graph, src).ports {
      assert VertexOf(r.state.graph, src).ports == VertexOf(s.graph, src).ports;
      assert !RatesOnPorts(r.state.graph, src);
    }
  }

  /** The edge into a new channel names the channel port `to_<src>`, which
      the channel is given only when `src` and `dst` are the same actor. */
  lemma ChannelPortMissing(s: AState, src: string, dst: string, numProd: int, numCons: int)
    requires ChannelStep(s, src, dst, numProd, numCons).outcome == Done
    requires ChannelName(src, dst) !in s.graph.vertices
    ensures var r := ChannelStep(s, src, dst, numProd, numCons).state;
            InEdge(src, dst) in r.graph.edges && (EdgeDeclared(r.graph, InEdge(src, dst)) <==> src == dst)
  {
    ChannelDone(s, src, dst, numProd, numCons);
    var r := ChannelStep(s, src, dst, numProd, numCons).state;
    var es := s.graph.edges + ChannelEdges(src, dst);
    assert r.graph.edges == es && es[|s.graph.edges|] == InEdge(src, dst);
    assert ("to_" + src)[0] == 't' && ConsPort(src)[0] == 'f';
    if src != dst {
      assert ("to_" + src)[3..] == src && ProdPort(dst)[3..] == dst;
    }
  }

  /** `SetInputChannel(name, numCons)` (`dir` = `Consumption`, port
      `in_<name>`) and `SetOutputChannel(name, numProd)` (`dir` =
      `Production`, port `out_<name>`): the port is added and its rate set,
      replacing any earlier rate on that port. */
  function BoundaryStep(s: AState, name: string, dir: Prop, n: int): (r: AStep)
    requires dir == Production || dir == Consumption
  {
    if !IsActor(s, name) then AStep(s, Thrown(Runtime))
    else
      var v := WithPorts(VertexOf(s.graph, name), {BoundaryPort(name, dir)});
      AStep(AState(Put(s.graph, name, WithRates(v, dir, RatesIn(v, dir)[BoundaryPort(name, dir) := n])), s.viewers), Done)
  }

  function BoundaryPort(name: string, dir: Prop): string
  {
    if dir == Consumption then "in_" + name else "out_" + name
  }

  lemma BoundaryFacts(s: AState, name: string, dir: Prop, n: int)
    requires dir == Production || dir == Consumption
    ensures var r := BoundaryStep(s, name, dir, n);
            var other := if dir == Production then Consumption else Production;
            (r.outcome == Done <==> IsActor(s, name)) && (r.outcome != Done ==> r == AStep(s, Thrown(Runtime))) &&
            r.state.viewers == s.viewers && r.state.graph.edges == s.graph.edges &&
            (r.outcome == Done ==>
               RatesOf(r.state.graph, name, dir) == RatesOf(s.graph, name, dir)[BoundaryPort(name, dir) := n] &&
               RatesOf(r.state.graph, name, other) == RatesOf(s.graph, name, other) &&
               VertexOf(r.state.graph, name).ports == VertexOf(s.graph, name).ports + {BoundaryPort(name, dir)})
  {
  }

  lemma BoundaryConsistent(s: AState, name: string, dir: Prop, n: int)
    requires AppConsistent(s) && (dir == Production || dir == Consumption)
    ensures AppConsistent(BoundaryStep(s, name, dir, n).state)
  {
    if IsActor(s, name) {
      assert RatesOnPorts(s.graph, name);
      var v := WithPorts(VertexOf(s.graph, name), {BoundaryPort(name, dir)});
      RecordKept(s, name, WithRates(v, dir, RatesIn(v, dir)[BoundaryPort(name, dir) := n]));
    }
  }

  /** Only the channel record changes otherwise than in its ports and rate
      maps when a channel is created in full. */
  lemma ChannelFrame(s: AState, src: string, dst: string, numProd: int, numCons: int, m: string)
    requires ChannelStep(s, src, dst, numProd, numCons).outcome == Done && m != ChannelName(src, dst)
    ensures var r := ChannelStep(s, src, dst, numProd, numCons).state;
            SameBut(VertexOf(s.graph, m), VertexOf(r.graph, m)) &&
            (m != src ==> RatesOf(r.graph, m, Production) == RatesOf(s.graph, m, Production)) &&
            (m != dst ==> RatesOf(r.graph, m, Consumption) == RatesOf(s.graph, m, Consumption))
  {
    var g3 := RatedGraph(s, src, dst, numProd, numCons);
    ChannelRated(s, src, dst, numProd, numCons);
    RatedOthers(s, src, dst, numProd, numCons, m);
    WiringRates(g3, src, dst, m, Production);
    WiringRates(g3, src, dst, m, Consumption);
  }

  /** Setting a boundary rate changes the ports and rate maps of that actor
      only. */
  lemma BoundaryFrame(s: AState, name: string, dir: Prop, n: int, m: string)
    requires dir == Production || dir == Consumption
    ensures var r := BoundaryStep(s, name, dir, n).state;
            SameBut(VertexOf(s.graph, m), VertexOf(r.graph, m)) &&
            (m != name ==> VertexOf(r.graph, m) == VertexOf(s.graph, m))
  {
  }

  /** The software implementation step changes the record of `name` only,
      and keeps its rate maps. */
  lemma SWFrame(s: AState, name: string, instrs: map<string, int>, codeSize: int, m: string)
    ensures var r := SWStep(s, name, instrs, codeSize).state;
            (m != name ==> VertexOf(r.graph, m) == VertexOf(s.graph, m)) &&
            RatesOf(r.graph, m, Production) == RatesOf(s.graph, m, Production) &&
            RatesOf(r.graph, m, Consumption) == RatesOf(s.graph, m, Consumption) &&
            VertexOf(s.graph, m).traits <= VertexOf(r.graph, m).traits &&
            VertexOf(r.graph, m).traits <= VertexOf(s.graph, m).traits + {InstrumentedSoftwareBehaviour}
  {
  }

  /** The hardware implementation step changes the record of `name` only,
      and keeps its rate maps. */
  lemma HWFrame(s: AState, name: string, clockCycles: int, requiredArea: int, m: string)
    ensures var r := HWStep(s, name, clockCycles, requiredArea).state;
            (m != name ==> VertexOf(r.graph, m) == VertexOf(s.graph, m)) &&
            RatesOf(r.graph, m, Production) == RatesOf(s.graph, m, Production) &&
            RatesOf(r.graph, m, Consumption) == RatesOf(s.graph, m, Consumption) &&
            VertexOf(s.graph, m).traits <= VertexOf(r.graph, m).traits &&
            VertexOf(r.graph, m).traits <= VertexOf(s.graph, m).traits + {InstrumentedHardwareBehaviour} &&
            forall p :: p != ResourceRequirements && p != RequiredHardwareImplementationArea && p in VertexOf(s.graph, m).props ==>
                          p in VertexOf(r.graph, m).props && VertexOf(r.graph, m).props[p] == VertexOf(s.graph, m).props[p]
  {
  }

  /** The builder object: the graph it builds, shared with callers by
      `GetGraph`, and the registry. */
  class ApplicationBuilder {
    const sGraph: SystemGraph
    var viewers: map<string, AppView>

    function State(): AState
      reads this, sGraph
    {
      AState(sGraph.model, viewers)
    }

    ghost predicate Valid()
      reads this, sGraph
    {
      AppConsistent(State())
    }

    constructor (name: string)
      ensures fresh(sGraph) && State() == NewApplication(name) && Valid()
    {
      var g := new SystemGraph();
      var a := NewApplication(name);
      g.model := a.graph;
      sGraph := g;
      viewers := a.viewers;
    }

    method AddActor(name: string)
      modifies this, sGraph
      ensures State() == ActorStep(old(State()), name)
    {
      var v := VertexOf(sGraph.model, name);
      var props := v.props[Production := CountsV(map[])][Consumption := CountsV(map[])];
      sGraph.model := Put(sGraph.model, name, Vertex(v.traits + {SDFActor}, v.ports, props));
      viewers := viewers[name := ActorView];
    }

    method AddSWImplementation(name: string, instrs: map<string, int>, codeSize: int) returns (o: Outcome)
      modifies sGraph
      ensures State() == SWStep(old(State()), name, instrs, codeSize).state
      ensures o == SWStep(old(State()), name, instrs, codeSize).outcome
    {
      var actor := GetActor(State(), name);
      if actor.Err? {
        return Thrown(actor.error);
      }
      var v := Traited(sGraph.model, name, InstrumentedSoftwareBehaviour);
      sGraph.model := Put(sGraph.model, name, v);
      if |instrs| == 0 || codeSize <= 0 {
        return Thrown(AssertionFailed);
      }
      var props := v.props[ComputationalRequirements := RequirementsV(map[SWInstructions := instrs])]
                          [MaxSizeInBits := CountsV(map["impl" := codeSize])];
      sGraph.model := Put(sGraph.model, name, v.(props := props));
      return Done;
    }

    method AddHWImplementation(name: string, clockCycles: int, requiredArea: int) returns (o: Outcome)
      modifies sGraph
      ensures State() == HWStep(old(State()), name, clockCycles, requiredArea).state
      ensures o == HWStep(old(State()), name, clockCycles, requiredArea).outcome
    {
      var actor := GetActor(State(), name);
      if actor.Err? {
        return Thrown(actor.error);
      }
      var v := Traited(sGraph.model, name, InstrumentedHardwareBehaviour);
      sGraph.model := Put(sGraph.model, name, v);
      if requiredArea <= 0 || clockCycles <= 0 {
        return Thrown(AssertionFailed);
      }
      var props := v.props[ResourceRequirements := RequirementsV(map[HWInstructions := map[ClockCycles := clockCycles]])]
                          [RequiredHardwareImplementationArea := IntV(requiredArea)];
      sGraph.model := Put(sGraph.model, name, v.(props := props));
      return Done;
    }

    method CreateChannel(src: string, dst: string, numProd: int, numCons: int) returns (o: Outcome)
      modifies this, sGraph
      ensures State() == ChannelStep(old(State()), src, dst, numProd, numCons).state
      ensures o == ChannelStep(old(State()), src, dst, numProd, numCons).outcome
    {
      var srcActor := GetActor(State(), src);
      if srcActor.Err? {
        return Thrown(srcActor.error);
      }
      var dstActor := GetActor(State(), dst);
      if dstActor.Err? {
        return Thrown(dstActor.error);
      }
      var chanName := ChannelName(src, dst);
      sGraph.model := Put(sGraph.model, chanName, ChannelRecord(VertexOf(sGraph.model, chanName), src, dst));
      viewers := viewers[chanName := ChannelView];
      var prodPortName := ProdPort(dst);
      var newProd := UpdatedRates(RatesOf(sGraph.model, src, Production), prodPortName, numProd);
      if newProd.Err? {
        return Thrown(newProd.error);
      }
      sGraph.model := Put(sGraph.model, src, WithRates(VertexOf(sGraph.model, src), Production, newProd.value));
      var consPortName := ConsPort(src);
      var newCons := UpdatedRates(RatesOf(sGraph.model, dst, Consumption), consPortName, numCons);
      if newCons.Err? {
        return Thrown(newCons.error);
      }
      sGraph.model := Put(sGraph.model, dst, WithRates(VertexOf(sGraph.model, dst), Consumption, newCons.value));
      Wire(src, dst);
      return Done;
    }

    /** The ports and edges of `CreateChannel`. */
    method Wire(src: string, dst: string)
      modifies sGraph
      ensures sGraph.model == ChannelWiring(old(sGraph.model), src, dst)
    {
      var chanName, prodPortName, consPortName := ChannelName(src, dst), ProdPort(dst), ConsPort(src);
      sGraph.model := Put(sGraph.model, chanName, WithPorts(VertexOf(sGraph.model, chanName), {prodPortName, consPortName}));
      sGraph.model := Put(sGraph.model, src, WithPorts(VertexOf(sGraph.model, src), {prodPortName}));
      sGraph.model := Put(sGraph.model, dst, WithPorts(VertexOf(sGraph.model, dst), {consPortName}));
      sGraph.model := Connect(sGraph.model, src, chanName, Some(prodPortName), Some("to_" + src), SDFVisual);
      sGraph.model := Connect(sGraph.model, chanName, dst, Some("to_" + dst), Some(consPortName), SDFVisual);
    }

    method SetInputChannel(name: string, numCons: int) returns (o: Outcome)
      modifies sGraph
      ensures State() == BoundaryStep(old(State()), name, Consumption, numCons).state
      ensures o == BoundaryStep(old(State()), name, Consumption, numCons).outcome
    {
      o := SetBoundary(name, Consumption, numCons);
    }

    method SetOutputChannel(name: string, numProd: int) returns (o: Outcome)
      modifies sGraph
      ensures State() == BoundaryStep(old(State()), name, Production, numProd).state
      ensures o == BoundaryStep(old(State()), name, Production, numProd).outcome
    {
      o := SetBoundary(name, Production, numProd);
    }

    method SetBoundary(name: string, dir: Prop, n: int) returns (o: Outcome)
      requires dir == Production || dir == Consumption
      modifies sGraph
      ensures State() == BoundaryStep(old(State()), name, dir, n).state
      ensures o == BoundaryStep(old(State()), name, dir, n).outcome
    {
      var actor := GetActor(State(), name);
      if actor.Err? {
        return Thrown(actor.error);
      }
      var portName := BoundaryPort(name, dir);
      var v := WithPorts(VertexOf(sGraph.model, name), {portName});
      sGraph.model := Put(sGraph.model, name, v);
      var current := RatesIn(v, dir);
      sGraph.model := Put(sGraph.model, name, WithRates(v, dir, current[portName := n]));
      return Done;
    }
  }
}
