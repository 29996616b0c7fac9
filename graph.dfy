/** The attributed multigraph of the ForSyDe library (`SystemGraph`), as the
    builders use it: vertices identified by name, each carrying a set of
    traits, a set of port names and named properties; directed edges between
    two vertices, optionally bound to a port on each end and tagged with edge
    traits. The library's operations are pure functions on a `Graph` value;
    the mutable graph object that builders share is the class `SystemGraph`. */
module Graphs {

  datatype Option<T> = None | Some(value: T)

  /** The Java exception classes the modelled code can raise (assertions are
      taken to be enabled, so a failing `assert` raises `AssertionFailed`).
      `MissingProperty` is whatever a viewer's property accessor raises for
      a property its vertex does not carry. */
  datatype Error =
    | AssertionFailed
    | IllegalArgument
    | IllegalState
    | UnsupportedOperation
    | NullPointer
    | IndexOutOfBounds
    | Runtime
    | MissingProperty

  /** How a `void` Java method ends: normally, or by throwing. */
  datatype Outcome = Done | Thrown(error: Error)

  datatype Result<T> = Ok(value: T) | Err(error: Error)

  /** Vertex traits (ForSyDe "views") the modelled code enforces or queries. */
  datatype Trait =
    | Structure
    | GreyBox
    | SDFActor
    | SDFChannel
    | InstrumentedSoftwareBehaviour
    | InstrumentedHardwareBehaviour
    | InstrumentedProcessingModule
    | GenericMemoryModule
    | InstrumentedCommunicationModule
    | CommunicationModulePortSpecification
    | LogicProgrammableModule
    | SuperLoopRuntime
    | TimeDivisionMultiplexingRuntime
    | MemoryMapped
    | Scheduled
    | LogicProgrammableSynthetized
    | AnalyzedBehavior
    | BoundedBufferLike

  datatype EdgeTrait = StructuralContainment | PhysicalConnection | SDFNetworkEdge | VisualConnection

  /** An instructions-per-cycle entry: `1.0 / cycles` for a cycle cost, or a
      literal rate; floating-point rounding is not modelled. */
  datatype Ipc = Reciprocal(cycles: int) | Rate(value: real)

  /** Property values. References to other vertices are held by identifier. */
  datatype Value =
    | IntV(i: int)
    | NameV(name: string)
    | NameSetV(names: set<string>)
    | NameListV(list: seq<string>)
    | CountsV(counts: map<string, int>)
    | RequirementsV(reqs: map<string, map<string, int>>)
    | InstructionsV(ipc: map<string, map<string, Ipc>>)
    | RoutesV(routes: map<string, seq<string>>)

  datatype Vertex = Vertex(traits: set<Trait>, ports: set<string>, props: map<Prop, Value>)

  datatype Edge = Edge(src: string, dst: string, srcPort: Option<string>, dstPort: Option<string>,
                       traits: set<EdgeTrait>)

  datatype Graph = Graph(vertices: map<string, Vertex>, edges: seq<Edge>)

  /** Vertex properties, named after the ForSyDe viewer accessors that set
      them. */
  datatype Prop =
    | OperatingFrequencyInHertz
    | SpaceInBits
    | InitialLatency
    | FlitSizeInBits
    | MaxCyclesPerFlit
    | MaxConcurrentFlits
    | MaximumComputationParallelism
    | ModalInstructionsPerCycle
    | Managed
    | PortConnections
    | AvailableLogicArea
    | BlockRamSizeInBits
    | Production
    | Consumption
    | NumInitialTokens
    | Producer
    | Consumer
    | ComputationalRequirements
    | MaxSizeInBits
    | ResourceRequirements
    | RequiredHardwareImplementationArea
    | HostLogicProgrammableModule
    | MappingHost
    | RuntimeHost
    | SuperLoopEntries
    | ThroughputInSecsNumerator
    | ThroughputInSecsDenominator
    | MaxElements
    | ElementSizeInBits

  /** Constants of the repository's `Units` and `Requirements` classes. */
  const MHz := 1_000_000
  const GHz := 1_000_000_000
  const GB := 1_000_000_000
  const BytesToBits := 8
  const IntegerMaxValue := 0x7fff_ffff
  const FloatOp := "FloatOp"
  const SWInstructions := "SW_Instructions"
  const HWInstructions := "HW_Instructions"
  /** The clock-cycle requirement key; the repository refers to a constant
      that `Requirements` does not define, so the name is chosen here. */
  const ClockCycles := "ClockCycles"

  const EmptyGraph := Graph(map[], [])
  const Blank := Vertex({}, {}, map[])

  /** The record of `n`, or a blank record when `n` is not a vertex. */
  function VertexOf(g: Graph, n: string): Vertex
  {
    if n in g.vertices then g.vertices[n] else Blank
  }

  /** The vertex `n` replaced (or created) with the record `v`: the builders
      set several properties of one viewer in a row, which amounts to one
      new record. */
  function Put(g: Graph, n: string, v: Vertex): (r: Graph)
    ensures r.vertices == g.vertices[n := v] && r.edges == g.edges
  {
    g.(vertices := g.vertices[n := v])
  }

  /** A replacement record that keeps every trait and port only extends
      the graph. */
  lemma PutGrows(g: Graph, n: string, v: Vertex)
    requires VertexOf(g, n).traits <= v.traits && VertexOf(g, n).ports <= v.ports
    ensures Grows(g, Put(g, n, v))
  {
  }

  /** Property `k` of vertex `n` is set to `v`. */
  predicate PropIs(g: Graph, n: string, k: Prop, v: Value)
  {
    n in g.vertices && k in g.vertices[n].props && g.vertices[n].props[k] == v
  }

  predicate HasTrait(g: Graph, n: string, t: Trait)
  {
    n in g.vertices && t in g.vertices[n].traits
  }

  /** `g` is extended by `r`: no vertex, trait or port disappears and the
      edges of `g` are a prefix of those of `r`. Every builder operation
      only extends its graph. */
  predicate Grows(g: Graph, r: Graph)
  {
    (forall n :: n in g.vertices ==> n in r.vertices) &&
    (forall n :: n in g.vertices ==>
       g.vertices[n].traits <= r.vertices[n].traits && g.vertices[n].ports <= r.vertices[n].ports) &&
    g.edges <= r.edges
  }

  lemma GrowsTransitive(a: Graph, b: Graph, c: Graph)
    requires Grows(a, b) && Grows(b, c)
    ensures Grows(a, c)
  {
  }

  /** `newVertex(n)`: a blank vertex named `n`; an existing vertex of that
      name is kept as it is. */
  function NewVertex(g: Graph, n: string): (r: Graph)
    ensures n in r.vertices && Grows(g, r) && r.edges == g.edges
    ensures r.vertices.Keys == g.vertices.Keys + {n}
    ensures forall m :: m in g.vertices ==> r.vertices[m] == g.vertices[m]
    ensures n !in g.vertices ==> r.vertices[n] == Blank
  {
    if n in g.vertices then g else g.(vertices := g.vertices[n := Blank])
  }

  /** `<Trait>.enforce(g, n)`: `n` carries trait `t` from now on. */
  function Enforce(g: Graph, n: string, t: Trait): (r: Graph)
    ensures HasTrait(r, n, t) && Grows(g, r) && r.edges == g.edges
    ensures r.vertices.Keys == g.vertices.Keys + {n}
    ensures r.vertices[n] == VertexOf(g, n).(traits := VertexOf(g, n).traits + {t})
    ensures forall m :: m in g.vertices && m != n ==> r.vertices[m] == g.vertices[m]
  {
    var v := VertexOf(g, n);
    g.(vertices := g.vertices[n := v.(traits := v.traits + {t})])
  }

  /** `addPorts(ps)` on the vertex `n`. */
  function AddPorts(g: Graph, n: string, ps: set<string>): (r: Graph)
    ensures Grows(g, r) && r.edges == g.edges
    ensures r.vertices.Keys == g.vertices.Keys + {n}
    ensures r.vertices[n] == VertexOf(g, n).(ports := VertexOf(g, n).ports + ps)
    ensures forall m :: m in g.vertices && m != n ==> r.vertices[m] == g.vertices[m]
  {
    var v := VertexOf(g, n);
    g.(vertices := g.vertices[n := v.(ports := v.ports + ps)])
  }

  /** A property setter of a viewer: property `key` of `n` becomes `val`. */
  function SetProp(g: Graph, n: string, key: Prop, val: Value): (r: Graph)
    ensures Grows(g, r) && r.edges == g.edges
    ensures r.vertices.Keys == g.vertices.Keys + {n}
    ensures r.vertices[n] == VertexOf(g, n).(props := VertexOf(g, n).props[key := val])
    ensures forall m :: m in g.vertices && m != n ==> r.vertices[m] == g.vertices[m]
  {
    var v := VertexOf(g, n);
    g.(vertices := g.vertices[n := v.(props := v.props[key := val])])
  }

  /** `connect(src, dst, srcPort, dstPort, traits...)`: one more edge. */
  function Connect(g: Graph, src: string, dst: string, srcPort: Option<string>, dstPort: Option<string>,
                   traits: set<EdgeTrait>): (r: Graph)
    ensures Grows(g, r) && r.vertices == g.vertices
    ensures r.edges == g.edges + [Edge(src, dst, srcPort, dstPort, traits)]
  {
    g.(edges := g.edges + [Edge(src, dst, srcPort, dstPort, traits)])
  }

  /** `hasConnection(a, b)`: some edge joins the two, in either direction. */
  predicate HasConnection(g: Graph, a: string, b: string)
  {
    exists i :: 0 <= i < |g.edges| &&
      ((g.edges[i].src == a && g.edges[i].dst == b) || (g.edges[i].src == b && g.edges[i].dst == a))
  }

  /** Every edge joins two vertices, and every port it names is declared on
      the vertex at that end. */
  predicate PortsDeclared(g: Graph)
  {
    forall i :: 0 <= i < |g.edges| ==> EdgeDeclared(g, g.edges[i])
  }

  predicate EdgeDeclared(g: Graph, e: Edge)
  {
    e.src in g.vertices && e.dst in g.vertices &&
    (e.srcPort.Some? ==> e.srcPort.value in g.vertices[e.src].ports) &&
    (e.dstPort.Some? ==> e.dstPort.value in g.vertices[e.dst].ports)
  }

  /** Extending a graph without adding edges keeps its edges declared. */
  lemma DeclaredKept(g: Graph, r: Graph)
    requires PortsDeclared(g) && Grows(g, r) && r.edges == g.edges
    ensures PortsDeclared(r)
  {
    forall i | 0 <= i < |r.edges| ensures EdgeDeclared(r, r.edges[i]) {
      assert EdgeDeclared(g, g.edges[i]);
    }
  }

  /** Adding an edge between declared ports keeps the edges declared. */
  lemma DeclaredConnect(g: Graph, src: string, dst: string, srcPort: Option<string>, dstPort: Option<string>,
                        traits: set<EdgeTrait>)
    requires PortsDeclared(g) && EdgeDeclared(g, Edge(src, dst, srcPort, dstPort, traits))
    ensures PortsDeclared(Connect(g, src, dst, srcPort, dstPort, traits))
  {
    var r := Connect(g, src, dst, srcPort, dstPort, traits);
    forall i | 0 <= i < |r.edges| ensures EdgeDeclared(r, r.edges[i]) {
      if i < |g.edges| {
        assert r.edges[i] == g.edges[i];
      }
    }
  }

  lemma SeqAssoc<X>(a: seq<X>, b: seq<X>, c: seq<X>)
    ensures (a + b) + c == a + (b + c)
  {
  }

  /** `xs` lists every element of `s` exactly once: an iteration order of a
      Java hash set or hash-map key set. */
  ghost predicate IsEnumeration(xs: seq<string>, s: set<string>)
  {
    Distinct(xs) && (forall x :: x in xs <==> x in s)
  }

  /** No element occurs twice. */
  predicate Distinct<T(==)>(xs: seq<T>)
  {
    forall i, j :: 0 <= i < j < |xs| ==> xs[i] != xs[j]
  }

  /** A list that enumerates a set has as many elements as the set. */
  lemma {:induction false} DistinctCount(xs: seq<string>, s: set<string>)
    requires IsEnumeration(xs, s)
    ensures |xs| == |s|
    decreases |xs|
  {
    if xs != [] {
      var x := xs[|xs| - 1];
      var pre := xs[..|xs| - 1];
      assert xs == pre + [x];
      assert IsEnumeration(pre, s - {x}) by {
        forall y ensures y in pre <==> y in s - {x} {
          if y in pre {
            var j :| 0 <= j < |pre| && pre[j] == y;
            assert xs[j] == y && xs[|xs| - 1] == x;
          }
        }
      }
      DistinctCount(pre, s - {x});
    } else {
      assert forall y :: y !in s;
    }
  }

  /** The mutable graph object shared by a builder and its users. */
  class SystemGraph {
    var model: Graph

    constructor ()
      ensures model == EmptyGraph
    {
      model := EmptyGraph;
    }
  }
}
