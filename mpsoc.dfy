/** `MPSoC` of the `models` application: a fixed MPSoC skeleton whose
    processing system receives modules of cores, each core with its own
    time-division multiplexing runtime, and one memory behind one switch to
    which the cores recorded so far are linked. */
module ModelsMPSoC {
  import opened Graphs
  import opened Text
  import opened Platforms

  const Top: string := "MPSoC"
  const PS: string := "MPSoC_PS"
  const Mem: string := "MPSoC_PS_Mem"
  const MemSwitch: string := "MPSoC_PS_MemSwitch"
  const ToMemSwitch: string := "toMemSwitch"
  const ToPU: string := "toPU"

  /** `(long) 1.5 * GHZ`: the cast applies to 1.5 alone and truncates it to
      1 before the product. */
  const CoreFrequency: int := (15 / 10) * GHz

  /** The instruction table every core gets, whatever the caller passes:
      0.43 floating-point operations per cycle in mode "economy". */
  const EconomyIpc: map<string, map<string, Ipc>> := map["economy" := map[FloatOp := Rate(0.43)]]

  /** The object's state: its graph and `PSCores`, which maps each core to
      the name of its module. */
  datatype Soc = Soc(graph: Graph, psCores: map<string, string>)

  /** The name ends in a decimal digit, as every core name does. */
  predicate EndsInDigit(c: string)
  {
    |c| > 0 && '0' <= c[|c| - 1] <= '9'
  }

  /** Core `c` is a 1 GHz processing module with parallelism 1, the economy
      instruction table and port `toMemSwitch`, and its own runtime
      manages it. */
  ghost predicate PsCoreBuilt(g: Graph, c: string)
  {
    CoreBuilt(g, c, CoreFrequency, EconomyIpc, TimeDivisionMultiplexingRuntime) &&
    ToMemSwitch in g.vertices[c].ports
  }

  /** The invariant of the object: the two structure vertices exist, every
      edge joins declared ports, and every recorded core is built as above
      and named like a core. */
  ghost predicate Wellformed(s: Soc)
  {
    Top in s.graph.vertices && PS in s.graph.vertices && PortsDeclared(s.graph) &&
    forall c :: c in s.psCores ==> EndsInDigit(c) && PsCoreBuilt(s.graph, c)
  }

  /** `BiDirectionalConnect`: an edge from `a` to `b` and one back, both
      tagged as containment and visual connection. */
  function Link(g: Graph, a: string, b: string, pa: Option<string>, pb: Option<string>): Graph
  {
    g.(edges := g.edges + BiEdges(a, b, pa, pb, ContainmentVisual))
  }

  /** Replacing a record by one that keeps its ports keeps every edge
      between declared ports. */
  lemma PutDeclared(g: Graph, n: string, v: Vertex)
    requires PortsDeclared(g) && VertexOf(g, n).ports <= v.ports
    ensures PortsDeclared(Put(g, n, v))
  {
    var r := Put(g, n, v);
    forall i | 0 <= i < |r.edges| ensures EdgeDeclared(r, r.edges[i]) {
      assert EdgeDeclared(g, g.edges[i]);
    }
  }

  /** Linking through declared ports keeps every edge between declared
      ports. */
  lemma LinkDeclared(g: Graph, a: string, b: string, pa: Option<string>, pb: Option<string>)
    requires PortsDeclared(g) && EdgeDeclared(g, Edge(a, b, pa, pb, ContainmentVisual))
    ensures PortsDeclared(Link(g, a, b, pa, pb))
  {
    var r := Link(g, a, b, pa, pb);
    forall i | 0 <= i < |r.edges| ensures EdgeDeclared(r, r.edges[i]) {
      if i < |g.edges| {
        assert r.edges[i] == g.edges[i];
      }
    }
  }

  /** `new MPSoC()`: the structure vertex `MPSoC`, also a grey box, the
      structure vertex `MPSoC_PS`, and the one containment edge from the
      first to the second; no cores are recorded. */
  function NewSoc(): (r: Soc)
    ensures r.graph.vertices.Keys == {Top, PS} && r.psCores == map[]
    ensures HasTrait(r.graph, Top, Structure) && HasTrait(r.graph, Top, GreyBox) && HasTrait(r.graph, PS, Structure)
    ensures r.graph.edges == [Edge(Top, PS, None, None, {StructuralContainment})]
    ensures Wellformed(r)
  {
    var g1 := Put(EmptyGraph, Top, Blank.(traits := {Structure, GreyBox}));
    var g2 := Put(g1, PS, Blank.(traits := {Structure}));
    var r := Soc(Connect(g2, Top, PS, None, None, {StructuralContainment}), map[]);
    assert EdgeDeclared(r.graph, r.graph.edges[0]);
    r
  }

  /** The record of a core: a processing module with parallelism 1, the
      fixed frequency and instruction table, and port `toMemSwitch`. */
  function CoreRecord(g: Graph, core: string): Vertex
  {
    var c := VertexOf(g, core);
    Vertex(c.traits + {InstrumentedProcessingModule}, c.ports + {ToMemSwitch},
           c.props[MaximumComputationParallelism := IntV(1)][OperatingFrequencyInHertz := IntV(CoreFrequency)]
                  [ModalInstructionsPerCycle := InstructionsV(EconomyIpc)])
  }

  /** The record of a core's runtime: a time-division multiplexing runtime
      that also manages `core`. */
  function RuntimeRecord(g: Graph, core: string): Vertex
  {
    var m := VertexOf(g, SchedulerName(core));
    Vertex(m.traits + {TimeDivisionMultiplexingRuntime}, m.ports, m.props[Managed := NameSetV(ManagedOf(m) + {core})])
  }

  /** One core of `AddProcessingSystemModule`: the core record, its own
      runtime managing it, the two opposite portless edges between them,
      and its `PSCores` entry. */
  function PsCoreStep(s: Soc, moduleName: string, core: string): Soc
  {
    var g1 := Put(s.graph, core, CoreRecord(s.graph, core));
    var g2 := Put(g1, SchedulerName(core), RuntimeRecord(g1, core));
    Soc(Link(g2, core, SchedulerName(core), None, None), s.psCores[core := moduleName])
  }

  /** The cores `cores` of one module, added in loop order. */
  function PsCoresOver(s: Soc, moduleName: string, cores: seq<string>): Soc
  {
    if cores == [] then s
    else PsCoreStep(PsCoresOver(s, moduleName, cores[..|cores| - 1]), moduleName, cores[|cores| - 1])
  }

  lemma PsCoresOverStep(s: Soc, moduleName: string, cores: seq<string>, i: int)
    requires 0 <= i < |cores|
    ensures PsCoresOver(s, moduleName, cores[..i + 1]) == PsCoreStep(PsCoresOver(s, moduleName, cores[..i]), moduleName, cores[i])
  {
    assert cores[..i + 1][..i] == cores[..i];
  }

  /** The module name `AddProcessingSystemModule(name, …)` creates. */
  function ModuleName(name: string): string
  {
    "MPSoC_PS_" + name
  }

  /** The names of the `n` cores of module `moduleName`, in loop order:
      every core carries the suffix `_C<i>`, even when there is only one. */
  function PsCoreNames(moduleName: string, n: int): (r: seq<string>)
    ensures |r| == if n > 0 then n else 0
    ensures forall k :: 0 <= k < |r| ==> r[k] == moduleName + "_C" + IntToString(k)
  {
    seq(if n > 0 then n else 0, k => moduleName + "_C" + IntToString(k))
  }

  /** The structure vertex of a module, also a grey box. */
  function ModuleStep(s: Soc, moduleName: string): Soc
  {
    var v := VertexOf(s.graph, moduleName);
    Soc(Put(s.graph, moduleName, v.(traits := v.traits + {Structure, GreyBox})), s.psCores)
  }

  /** `AddProcessingSystemModule(name, cores, frequency, modalInstructions)`:
      the frequency and the instruction table are ignored. */
  function AddPsmStep(s: Soc, name: string, n: int): Soc
  {
    var moduleName := ModuleName(name);
    PsCoresOver(ModuleStep(s, moduleName), moduleName, PsCoreNames(moduleName, n))
  }

  /** The runtime's name is longer than the core's. */
  lemma SchedulerNotSelf(core: string)
    ensures SchedulerName(core) != core
  {
    assert |SchedulerName(core)| > |core|;
  }

  /** What one core adds: two edges, the vertices of the core and its
      runtime, and the `PSCores` entry. */
  lemma PsCoreStepShape(s: Soc, moduleName: string, core: string)
    ensures var r := PsCoreStep(s, moduleName, core);
            r.psCores == s.psCores[core := moduleName] &&
            r.graph.edges == s.graph.edges + BiEdges(core, SchedulerName(core), None, None, ContainmentVisual) &&
            r.graph.vertices.Keys == s.graph.vertices.Keys + {core, SchedulerName(core)}
  {
  }

  /** Any other vertex keeps its record. */
  lemma PsCoreStepFrame(s: Soc, moduleName: string, core: string, m: string)
    requires m in s.graph.vertices && m != core && m != SchedulerName(core)
    ensures PsCoreStep(s, moduleName, core).graph.vertices[m] == s.graph.vertices[m]
  {
  }

  /** The new core is built: its record and its runtime. */
  lemma PsCoreStepBuilt(s: Soc, moduleName: string, core: string)
    ensures PsCoreBuilt(PsCoreStep(s, moduleName, core).graph, core)
  {
    SchedulerNotSelf(core);
  }

  /** Adding any core keeps an already built core built: a core added again
      gets the same record, and a core added under another name only gives
      an earlier record a trait, a port or a managed vertex. */
  lemma PsCoreStepKeeps(s: Soc, moduleName: string, d: string, c: string)
    requires PsCoreBuilt(s.graph, c)
    ensures PsCoreBuilt(PsCoreStep(s, moduleName, d).graph, c)
  {
    var g1 := Put(s.graph, d, CoreRecord(s.graph, d));
    assert PsCoreBuilt(g1, c);
  }

  /** Adding a core keeps every edge between declared ports. */
  lemma PsCoreStepDeclared(s: Soc, moduleName: string, core: string)
    requires PortsDeclared(s.graph)
    ensures PortsDeclared(PsCoreStep(s, moduleName, core).graph)
  {
    var sch := SchedulerName(core);
    var g1 := Put(s.graph, core, CoreRecord(s.graph, core));
    PutDeclared(s.graph, core, CoreRecord(s.graph, core));
    var g2 := Put(g1, sch, RuntimeRecord(g1, core));
    PutDeclared(g1, sch, RuntimeRecord(g1, core));
    LinkDeclared(g2, core, sch, None, None);
  }

  /** A module vertex only gains traits. */
  lemma ModuleStepKeeps(s: Soc, moduleName: string)
    requires Wellformed(s)
    ensures Wellformed(ModuleStep(s, moduleName))
  {
    var v := VertexOf(s.graph, moduleName);
    var r := ModuleStep(s, moduleName);
    PutDeclared(s.graph, moduleName, v.(traits := v.traits + {Structure, GreyBox}));
    forall c | c in r.psCores ensures PsCoreBuilt(r.graph, c) {
      assert PsCoreBuilt(s.graph, c);
    }
  }

  /** Adding the cores of a module keeps the invariant when each of them is
      named like a core. */
  lemma {:induction false} PsCoresWellformed(s: Soc, moduleName: string, cores: seq<string>)
    requires Wellformed(s)
    requires forall k :: 0 <= k < |cores| ==> EndsInDigit(cores[k])
    ensures Wellformed(PsCoresOver(s, moduleName, cores))
    decreases |cores|
  {
    if cores != [] {
      var pre := cores[..|cores| - 1];
      var c := cores[|cores| - 1];
      assert forall k :: 0 <= k < |pre| ==> pre[k] == cores[k];
      PsCoresWellformed(s, moduleName, pre);
      var p := PsCoresOver(s, moduleName, pre);
      var r := PsCoreStep(p, moduleName, c);
      PsCoreStepShape(p, moduleName, c);
      PsCoreStepDeclared(p, moduleName, c);
      PsCoreStepBuilt(p, moduleName, c);
      forall d | d in r.psCores ensures EndsInDigit(d) && PsCoreBuilt(r.graph, d) {
        if d != c {
          PsCoreStepKeeps(p, moduleName, c, d);
        }
      }
    }
  }

  /** Every core name ends in a digit. */
  lemma PsCoreNamesEndInDigit(moduleName: string, n: int)
    ensures forall k :: 0 <= k < |PsCoreNames(moduleName, n)| ==> EndsInDigit(PsCoreNames(moduleName, n)[k])
  {
    var cores := PsCoreNames(moduleName, n);
    forall k | 0 <= k < |cores| ensures EndsInDigit(cores[k]) {
      var t := IntToString(k);
      assert t == NatToString(k);
      NatToStringEndsInDigit(k);
      assert cores[k] == (moduleName + "_C") + t;
      assert cores[k][|cores[k]| - 1] == t[|t| - 1];
    }
  }

  /** `AddProcessingSystemModule` keeps the invariant: every recorded core,
      old or new, is a 1 GHz processing module with the economy table and
      port `toMemSwitch`, managed by its own runtime. */
  lemma AddPsmWellformed(s: Soc, name: string, n: int)
    requires Wellformed(s)
    ensures Wellformed(AddPsmStep(s, name, n))
  {
    var moduleName := ModuleName(name);
    ModuleStepKeeps(s, moduleName);
    PsCoreNamesEndInDigit(moduleName, n);
    PsCoresWellformed(ModuleStep(s, moduleName), moduleName, PsCoreNames(moduleName, n));
  }

  /** The names of one module's cores and runtimes are pairwise different,
      so each core has a runtime of its own. */
  lemma PsCoreNamesApart(moduleName: string, n: int)
    ensures NamesApart(PsCoreNames(moduleName, n))
  {
    if n > 1 {
      assert PsCoreNames(moduleName, n) == CoreNames(moduleName, n);
      CoreNamesApart(moduleName, n);
    }
  }

  /** `PSCores` after a module: the old entries and each new core mapped to
      the module. */
  lemma {:induction false} PsCoresMap(s: Soc, moduleName: string, cores: seq<string>)
    ensures PsCoresOver(s, moduleName, cores).psCores == s.psCores + map c | c in cores :: moduleName
    decreases |cores|
  {
    if cores != [] {
      var pre := cores[..|cores| - 1];
      var c := cores[|cores| - 1];
      PsCoresMap(s, moduleName, pre);
      PsCoreStepShape(PsCoresOver(s, moduleName, pre), moduleName, c);
      MapOneMore(s.psCores, cores, moduleName);
    }
  }

  lemma MapOneMore(v: map<string, string>, cores: seq<string>, val: string)
    requires |cores| > 0
    ensures var pre := cores[..|cores| - 1];
            (v + map x | x in pre :: val)[cores[|cores| - 1] := val] == v + map x | x in cores :: val
  {
    assert cores == cores[..|cores| - 1] + [cores[|cores| - 1]];
  }

  /** The edges after a module: the old ones, then two per core. */
  lemma {:induction false} PsCoresEdges(s: Soc, moduleName: string, cores: seq<string>)
    ensures PsCoresOver(s, moduleName, cores).graph.edges == s.graph.edges + CoreEdges(cores, ContainmentVisual)
    decreases |cores|
  {
    if cores != [] {
      var pre := cores[..|cores| - 1];
      var c := cores[|cores| - 1];
      PsCoresEdges(s, moduleName, pre);
      PsCoreStepShape(PsCoresOver(s, moduleName, pre), moduleName, c);
      SeqAssoc(s.graph.edges, CoreEdges(pre, ContainmentVisual),
               [Edge(c, SchedulerName(c), None, None, ContainmentVisual),
                Edge(SchedulerName(c), c, None, None, ContainmentVisual)]);
    }
  }

  /** A vertex that is none of the new cores and runtimes keeps its record. */
  lemma {:induction false} PsCoresKeep(s: Soc, moduleName: string, cores: seq<string>, m: string)
    requires m in s.graph.vertices
    requires forall k :: 0 <= k < |cores| ==> m != cores[k] && m != SchedulerName(cores[k])
    ensures m in PsCoresOver(s, moduleName, cores).graph.vertices
    ensures PsCoresOver(s, moduleName, cores).graph.vertices[m] == s.graph.vertices[m]
    decreases |cores|
  {
    if cores != [] {
      var pre := cores[..|cores| - 1];
      var c := cores[|cores| - 1];
      assert forall k :: 0 <= k < |pre| ==> pre[k] == cores[k];
      PsCoresKeep(s, moduleName, pre, m);
      var p := PsCoresOver(s, moduleName, pre);
      PsCoreStepShape(p, moduleName, c);
      PsCoreStepFrame(p, moduleName, c, m);
    }
  }

  /** Each edge of `CoreEdges` joins a core of the list and its runtime. */
  lemma {:induction false} CoreEdgeEnds(cores: seq<string>, link: set<EdgeTrait>, i: int)
    requires 0 <= i < |CoreEdges(cores, link)|
    ensures exists k :: 0 <= k < |cores| &&
              ((CoreEdges(cores, link)[i].src == cores[k] && CoreEdges(cores, link)[i].dst == SchedulerName(cores[k])) ||
               (CoreEdges(cores, link)[i].dst == cores[k] && CoreEdges(cores, link)[i].src == SchedulerName(cores[k])))
    decreases |cores|
  {
    var pre := cores[..|cores| - 1];
    var c := cores[|cores| - 1];
    if i < |CoreEdges(pre, link)| {
      CoreEdgeEnds(pre, link, i);
      var k :| 0 <= k < |pre| &&
               ((CoreEdges(pre, link)[i].src == pre[k] && CoreEdges(pre, link)[i].dst == SchedulerName(pre[k])) ||
                (CoreEdges(pre, link)[i].dst == pre[k] && CoreEdges(pre, link)[i].src == SchedulerName(pre[k])));
      assert pre[k] == cores[k];
    } else {
      assert |cores| - 1 < |cores|;
    }
  }

  /** The names `AddProcessingSystemModule(name, n, …)` gives its cores:
      `MPSoC_PS_<name>_C0` … `_C<n-1>` (none when `n` is not positive),
      pairwise different and with pairwise different runtimes. */
  lemma AddPsmNames(name: string, n: int)
    ensures var cores := PsCoreNames(ModuleName(name), n);
            |cores| == (if n > 0 then n else 0) && NamesApart(cores) &&
            forall k :: 0 <= k < |cores| ==> cores[k] == "MPSoC_PS_" + name + "_C" + IntToString(k)
  {
    var cores := PsCoreNames(ModuleName(name), n);
    PsCoreNamesApart(ModuleName(name), n);
    forall k | 0 <= k < |cores| ensures cores[k] == "MPSoC_PS_" + name + "_C" + IntToString(k) {
      SeqAssoc("MPSoC_PS_", name, "_C");
    }
  }

  /** `PSCores` after `AddProcessingSystemModule(name, n, …)`: the old
      entries, and every new core under module `MPSoC_PS_<name>`. */
  lemma AddPsmRecords(s: Soc, name: string, n: int)
    ensures var moduleName := ModuleName(name);
            var cores := PsCoreNames(moduleName, n);
            var r := AddPsmStep(s, name, n);
            r.psCores == s.psCores + (map c | c in cores :: moduleName) &&
            forall k :: 0 <= k < |cores| ==> cores[k] in r.psCores && r.psCores[cores[k]] == moduleName
  {
    var moduleName := ModuleName(name);
    PsCoresMap(ModuleStep(s, moduleName), moduleName, PsCoreNames(moduleName, n));
  }

  /** Every recorded core of a well-formed state runs at 1 GHz. */
  lemma RecordedBuilt(s: Soc, cores: seq<string>)
    requires Wellformed(s) && forall k :: 0 <= k < |cores| ==> cores[k] in s.psCores
    ensures forall k :: 0 <= k < |cores| ==>
              PsCoreBuilt(s.graph, cores[k]) && PropIs(s.graph, cores[k], OperatingFrequencyInHertz, IntV(1_000_000_000))
  {
    assert CoreFrequency == 1_000_000_000;
  }

  /** The cores `AddProcessingSystemModule(name, n, …)` adds are 1 GHz
      processing modules with parallelism 1, the economy table and port
      `toMemSwitch`, each managed by its own runtime. */
  lemma AddPsmCores(s: Soc, name: string, n: int)
    requires Wellformed(s)
    ensures var cores := PsCoreNames(ModuleName(name), n);
            var r := AddPsmStep(s, name, n);
            forall k :: 0 <= k < |cores| ==>
              PsCoreBuilt(r.graph, cores[k]) && PropIs(r.graph, cores[k], OperatingFrequencyInHertz, IntV(1_000_000_000))
  {
    AddPsmWellformed(s, name, n);
    AddPsmRecords(s, name, n);
    RecordedBuilt(AddPsmStep(s, name, n), PsCoreNames(ModuleName(name), n));
  }

  /** The module vertex is a structure and a grey box afterwards: no core
      or runtime of the module shares its name. */
  lemma AddPsmModule(s: Soc, name: string, n: int)
    ensures var moduleName := ModuleName(name);
            var r := AddPsmStep(s, name, n);
            HasTrait(r.graph, moduleName, Structure) && HasTrait(r.graph, moduleName, GreyBox)
  {
    var moduleName := ModuleName(name);
    var cores := PsCoreNames(moduleName, n);
    var m := ModuleStep(s, moduleName);
    forall k | 0 <= k < |cores| ensures moduleName != cores[k] && moduleName != SchedulerName(cores[k]) {
      assert |cores[k]| > |moduleName| && |SchedulerName(cores[k])| > |moduleName|;
    }
    PsCoresKeep(m, moduleName, cores, moduleName);
  }

  /** The edges `AddProcessingSystemModule` adds: for each core in loop
      order, one portless edge to its runtime and one back. */
  lemma AddPsmEdges(s: Soc, name: string, n: int)
    ensures AddPsmStep(s, name, n).graph.edges ==
            s.graph.edges + CoreEdges(PsCoreNames(ModuleName(name), n), ContainmentVisual)
  {
    var moduleName := ModuleName(name);
    PsCoresEdges(ModuleStep(s, moduleName), moduleName, PsCoreNames(moduleName, n));
  }

  /** A core and its runtime never collide with the memory or the switch. */
  lemma NotMemoryName(c: string)
    requires EndsInDigit(c)
    ensures c != Mem && c != MemSwitch && SchedulerName(c) != Mem && SchedulerName(c) != MemSwitch
  {
    var s := SchedulerName(c);
    assert s[|s| - 1] == 'r';
    assert Mem[|Mem| - 1] == 'm' && MemSwitch[|MemSwitch| - 1] == 'h';
  }

  /** Cores added after `AddMemoryToPS` are not linked to the switch or the
      memory: none of the edges a module adds touches either. */
  lemma AddPsmLeavesMemory(s: Soc, name: string, n: int)
    ensures var r := AddPsmStep(s, name, n);
            |s.graph.edges| <= |r.graph.edges| &&
            forall i :: |s.graph.edges| <= i < |r.graph.edges| ==>
              r.graph.edges[i].src !in {Mem, MemSwitch} && r.graph.edges[i].dst !in {Mem, MemSwitch}
  {
    var moduleName := ModuleName(name);
    var cores := PsCoreNames(moduleName, n);
    var m := ModuleStep(s, moduleName);
    var r := AddPsmStep(s, name, n);
    PsCoresEdges(m, moduleName, cores);
    PsCoreNamesEndInDigit(moduleName, n);
    var added := CoreEdges(cores, ContainmentVisual);
    forall i | |s.graph.edges| <= i < |r.graph.edges|
      ensures r.graph.edges[i].src !in {Mem, MemSwitch} && r.graph.edges[i].dst !in {Mem, MemSwitch}
    {
      var j := i - |s.graph.edges|;
      assert r.graph.edges[i] == added[j];
      CoreEdgeEnds(cores, ContainmentVisual, j);
      var k :| 0 <= k < |cores| &&
               ((added[j].src == cores[k] && added[j].dst == SchedulerName(cores[k])) ||
                (added[j].dst == cores[k] && added[j].src == SchedulerName(cores[k])));
      NotMemoryName(cores[k]);
    }
  }

  /** The memory record of `AddMemoryToPS`: a memory at 600 MHz holding
      4 GB in bits, with port `toMemSwitch`; the caller's frequency and size
      are ignored. */
  function MemoryRecord(g: Graph): Vertex
  {
    var v := VertexOf(g, Mem);
    Vertex(v.traits + {GenericMemoryModule}, v.ports + {ToMemSwitch},
           v.props[OperatingFrequencyInHertz := IntV(600 * MHz)][SpaceInBits := IntV(4 * GB * BytesToBits)])
  }

  /** The switch record of `AddMemoryToPS`: a communication module at
      600 MHz with latency 0, 8-bit flits, one cycle per flit and one flit
      at a time, with port `toPU`. */
  function SwitchRecord(g: Graph): Vertex
  {
    var v := VertexOf(g, MemSwitch);
    Vertex(v.traits + {InstrumentedCommunicationModule}, v.ports + {ToPU},
           v.props[OperatingFrequencyInHertz := IntV(600 * MHz)][InitialLatency := IntV(0)]
                  [FlitSizeInBits := IntV(8)][MaxCyclesPerFlit := IntV(1)][MaxConcurrentFlits := IntV(1)])
  }

  /** The memory and the switch of `AddMemoryToPS`, before any link. */
  function Records(g: Graph): Graph
  {
    var g1 := Put(g, Mem, MemoryRecord(g));
    Put(g1, MemSwitch, SwitchRecord(g1))
  }

  /** The loop of `AddMemoryToPS`: each core of `cores`, in iteration
      order, linked both ways to the switch. */
  function LinkCores(g: Graph, cores: seq<string>): (r: Graph)
    ensures r.vertices == g.vertices
  {
    if cores == [] then g
    else Link(LinkCores(g, cores[..|cores| - 1]), cores[|cores| - 1], MemSwitch, Some(ToMemSwitch), Some(ToPU))
  }

  lemma LinkCoresStep(g: Graph, cores: seq<string>, i: int)
    requires 0 <= i < |cores|
    ensures LinkCores(g, cores[..i + 1]) == Link(LinkCores(g, cores[..i]), cores[i], MemSwitch, Some(ToMemSwitch), Some(ToPU))
  {
    assert cores[..i + 1][..i] == cores[..i];
  }

  /** The links of `AddMemoryToPS`: the cores in iteration order, then the
      memory, each both ways to the switch. */
  function LinkMemory(g: Graph, order: seq<string>): Graph
  {
    Link(LinkCores(g, order), Mem, MemSwitch, Some(ToMemSwitch), Some(ToPU))
  }

  /** `AddMemoryToPS(frequency, spaceInBits)`, with `order` the iteration
      order of `PSCores`: memory, switch, the cores recorded so far linked
      to the switch, then the memory linked to it. */
  function MemoryToPsStep(s: Soc, order: seq<string>): Soc
  {
    Soc(LinkMemory(Records(s.graph), order), s.psCores)
  }

  /** The edges the loop of `AddMemoryToPS` adds: two per core, in
      iteration order, the first from the core's `toMemSwitch` to the
      switch's `toPU`, the second back. */
  lemma {:induction false} LinkCoresEdges(g: Graph, cores: seq<string>)
    ensures var r := LinkCores(g, cores);
            |r.edges| == |g.edges| + 2 * |cores| && r.edges[..|g.edges|] == g.edges &&
            forall k :: 0 <= k < |cores| ==>
              r.edges[|g.edges| + 2 * k] == Edge(cores[k], MemSwitch, Some(ToMemSwitch), Some(ToPU), ContainmentVisual) &&
              r.edges[|g.edges| + 2 * k + 1] == Edge(MemSwitch, cores[k], Some(ToPU), Some(ToMemSwitch), ContainmentVisual)
    decreases |cores|
  {
    if cores != [] {
      var pre := cores[..|cores| - 1];
      var p := LinkCores(g, pre);
      LinkCoresEdges(g, pre);
      var r := LinkCores(g, cores);
      assert r.edges == p.edges + BiEdges(cores[|cores| - 1], MemSwitch, Some(ToMemSwitch), Some(ToPU), ContainmentVisual);
      forall k | 0 <= k < |cores|
        ensures r.edges[|g.edges| + 2 * k] == Edge(cores[k], MemSwitch, Some(ToMemSwitch), Some(ToPU), ContainmentVisual)
        ensures r.edges[|g.edges| + 2 * k + 1] == Edge(MemSwitch, cores[k], Some(ToPU), Some(ToMemSwitch), ContainmentVisual)
      {
        if k < |pre| {
          assert cores[k] == pre[k];
          assert r.edges[|g.edges| + 2 * k] == p.edges[|g.edges| + 2 * k];
          assert r.edges[|g.edges| + 2 * k + 1] == p.edges[|g.edges| + 2 * k + 1];
        }
      }
    }
  }

  /** Linking cores that declare `toMemSwitch` to a switch that declares
      `toPU` keeps every edge between declared ports. */
  lemma {:induction false} LinkCoresDeclared(g: Graph, cores: seq<string>)
    requires PortsDeclared(g) && MemSwitch in g.vertices && ToPU in g.vertices[MemSwitch].ports
    requires forall k :: 0 <= k < |cores| ==> cores[k] in g.vertices && ToMemSwitch in g.vertices[cores[k]].ports
    ensures PortsDeclared(LinkCores(g, cores))
    decreases |cores|
  {
    if cores != [] {
      var pre := cores[..|cores| - 1];
      assert forall k :: 0 <= k < |pre| ==> pre[k] == cores[k];
      LinkCoresDeclared(g, pre);
      LinkDeclared(LinkCores(g, pre), cores[|cores| - 1], MemSwitch, Some(ToMemSwitch), Some(ToPU));
    }
  }

  /** Every edge the loop of `AddMemoryToPS` adds has the switch at one end. */
  lemma {:induction false} LinkCoresTouchSwitch(g: Graph, cores: seq<string>)
    ensures var r := LinkCores(g, cores);
            |g.edges| <= |r.edges| &&
            forall i :: |g.edges| <= i < |r.edges| ==> r.edges[i].src == MemSwitch || r.edges[i].dst == MemSwitch
    decreases |cores|
  {
    if cores != [] {
      var p := LinkCores(g, cores[..|cores| - 1]);
      LinkCoresTouchSwitch(g, cores[..|cores| - 1]);
      var r := LinkCores(g, cores);
      assert r.edges == p.edges + BiEdges(cores[|cores| - 1], MemSwitch, Some(ToMemSwitch), Some(ToPU), ContainmentVisual);
      forall i | |g.edges| <= i < |p.edges| ensures r.edges[i] == p.edges[i] {
      }
    }
  }

  /** The memory and switch records leave every core and runtime as they
      were, and every edge between declared ports. */
  lemma RecordsKeep(s: Soc)
    requires Wellformed(s)
    ensures Wellformed(Soc(Records(s.graph), s.psCores))
  {
    var g1 := Put(s.graph, Mem, MemoryRecord(s.graph));
    var g2 := Records(s.graph);
    PutDeclared(s.graph, Mem, MemoryRecord(s.graph));
    PutDeclared(g1, MemSwitch, SwitchRecord(g1));
    forall c | c in s.psCores ensures PsCoreBuilt(g2, c) {
      NotMemoryName(c);
      assert PsCoreBuilt(s.graph, c);
    }
  }

  /** `AddMemoryToPS` keeps the invariant: the cores are linked through
      ports they declare, and the memory and the switch are none of the
      cores or runtimes. */
  lemma MemoryToPsWellformed(s: Soc, order: seq<string>)
    requires Wellformed(s) && forall k :: 0 <= k < |order| ==> order[k] in s.psCores
    ensures Wellformed(MemoryToPsStep(s, order))
  {
    var g2 := Records(s.graph);
    RecordsKeep(s);
    assert forall k :: 0 <= k < |order| ==> PsCoreBuilt(g2, order[k]);
    LinkCoresDeclared(g2, order);
    LinkDeclared(LinkCores(g2, order), Mem, MemSwitch, Some(ToMemSwitch), Some(ToPU));
  }

  /** The records `AddMemoryToPS` leaves: the memory at 600 MHz with 4 GB
      in bits and port `toMemSwitch`, the switch at 600 MHz with latency 0,
      8-bit flits, one cycle per flit, one flit at a time and port `toPU`,
      whatever the caller passes; `PSCores` is unchanged. */
  lemma MemoryToPsRecords(s: Soc, order: seq<string>)
    ensures var r := MemoryToPsStep(s, order);
            r.psCores == s.psCores &&
            HasTrait(r.graph, Mem, GenericMemoryModule) && ToMemSwitch in r.graph.vertices[Mem].ports &&
            PropIs(r.graph, Mem, OperatingFrequencyInHertz, IntV(600_000_000)) &&
            PropIs(r.graph, Mem, SpaceInBits, IntV(32_000_000_000)) &&
            HasTrait(r.graph, MemSwitch, InstrumentedCommunicationModule) && ToPU in r.graph.vertices[MemSwitch].ports &&
            PropIs(r.graph, MemSwitch, OperatingFrequencyInHertz, IntV(600_000_000)) &&
            PropIs(r.graph, MemSwitch, InitialLatency, IntV(0)) && PropIs(r.graph, MemSwitch, FlitSizeInBits, IntV(8)) &&
            PropIs(r.graph, MemSwitch, MaxCyclesPerFlit, IntV(1)) && PropIs(r.graph, MemSwitch, MaxConcurrentFlits, IntV(1))
  {
    var g2 := Records(s.graph);
    assert g2.vertices[Mem] == MemoryRecord(s.graph);
    assert g2.vertices[MemSwitch] == SwitchRecord(Put(s.graph, Mem, MemoryRecord(s.graph)));
  }

  /** The edges `AddMemoryToPS` adds, in order: two for each core of the
      iteration order, from the core's `toMemSwitch` to the switch's `toPU`
      and back, then the same two for the memory; the old edges stay in
      front. */
  lemma MemoryToPsEdges(s: Soc, order: seq<string>)
    ensures var r := MemoryToPsStep(s, order);
            var e := |s.graph.edges|;
            |r.graph.edges| == e + 2 * |order| + 2 && r.graph.edges[..e] == s.graph.edges &&
            (forall k :: 0 <= k < |order| ==>
               r.graph.edges[e + 2 * k] == Edge(order[k], MemSwitch, Some(ToMemSwitch), Some(ToPU), ContainmentVisual) &&
               r.graph.edges[e + 2 * k + 1] == Edge(MemSwitch, order[k], Some(ToPU), Some(ToMemSwitch), ContainmentVisual)) &&
            r.graph.edges[e + 2 * |order|] == Edge(Mem, MemSwitch, Some(ToMemSwitch), Some(ToPU), ContainmentVisual) &&
            r.graph.edges[e + 2 * |order| + 1] == Edge(MemSwitch, Mem, Some(ToPU), Some(ToMemSwitch), ContainmentVisual)
  {
    var g2 := Records(s.graph);
    var g3 := LinkCores(g2, order);
    var e := |s.graph.edges|;
    LinkCoresEdges(g2, order);
    var r := MemoryToPsStep(s, order);
    assert r.graph.edges == g3.edges + BiEdges(Mem, MemSwitch, Some(ToMemSwitch), Some(ToPU), ContainmentVisual);
    assert r.graph.edges[..e] == g3.edges[..e];
    forall k | 0 <= k < |order|
      ensures r.graph.edges[e + 2 * k] == Edge(order[k], MemSwitch, Some(ToMemSwitch), Some(ToPU), ContainmentVisual)
      ensures r.graph.edges[e + 2 * k + 1] == Edge(MemSwitch, order[k], Some(ToPU), Some(ToMemSwitch), ContainmentVisual)
    {
      assert r.graph.edges[e + 2 * k] == g3.edges[e + 2 * k];
      assert r.graph.edges[e + 2 * k + 1] == g3.edges[e + 2 * k + 1];
    }
  }

  /** Every core recorded when `AddMemoryToPS` runs is linked both ways to
      the switch, two edges per core: the loop visits each exactly once. */
  lemma MemoryToPsLinksCores(s: Soc, order: seq<string>)
    requires IsEnumeration(order, s.psCores.Keys)
    ensures var r := MemoryToPsStep(s, order);
            |r.graph.edges| == |s.graph.edges| + 2 * |s.psCores| + 2 &&
            forall c :: c in s.psCores ==>
              Edge(c, MemSwitch, Some(ToMemSwitch), Some(ToPU), ContainmentVisual) in r.graph.edges &&
              Edge(MemSwitch, c, Some(ToPU), Some(ToMemSwitch), ContainmentVisual) in r.graph.edges
  {
    var r := MemoryToPsStep(s, order);
    var e := |s.graph.edges|;
    MemoryToPsEdges(s, order);
    DistinctCount(order, s.psCores.Keys);
    forall c | c in s.psCores
      ensures Edge(c, MemSwitch, Some(ToMemSwitch), Some(ToPU), ContainmentVisual) in r.graph.edges
      ensures Edge(MemSwitch, c, Some(ToPU), Some(ToMemSwitch), ContainmentVisual) in r.graph.edges
    {
      var k :| 0 <= k < |order| && order[k] == c;
      assert r.graph.edges[e + 2 * k] == Edge(c, MemSwitch, Some(ToMemSwitch), Some(ToPU), ContainmentVisual);
      assert r.graph.edges[e + 2 * k + 1] == Edge(MemSwitch, c, Some(ToPU), Some(ToMemSwitch), ContainmentVisual);
    }
  }

  /** Every edge `AddMemoryToPS` adds has the switch at one end. */
  lemma MemoryToPsTouchSwitch(s: Soc, order: seq<string>)
    ensures var r := MemoryToPsStep(s, order);
            |s.graph.edges| <= |r.graph.edges| &&
            forall i :: |s.graph.edges| <= i < |r.graph.edges| ==>
              r.graph.edges[i].src == MemSwitch || r.graph.edges[i].dst == MemSwitch
  {
    var g2 := Records(s.graph);
    var g3 := LinkCores(g2, order);
    LinkCoresTouchSwitch(g2, order);
    var r := MemoryToPsStep(s, order);
    assert r.graph.edges == g3.edges + BiEdges(Mem, MemSwitch, Some(ToMemSwitch), Some(ToPU), ContainmentVisual);
    forall i | |s.graph.edges| <= i < |g3.edges| ensures r.graph.edges[i] == g3.edges[i] {
    }
  }

  /** The `MPSoC` object of the `models` application. */
  class MPSoC {
    const sGraph: SystemGraph
    var psCores: map<string, string>

    function State(): Soc
      reads this, sGraph
    {
      Soc(sGraph.model, psCores)
    }

    /** `new MPSoC()`. The grey-box containment it records is visual only
        and is not modelled. */
    constructor ()
      ensures fresh(sGraph) && State() == NewSoc()
    {
      var g := new SystemGraph();
      g.model := Put(g.model, Top, Blank.(traits := {Structure, GreyBox}));
      g.model := Put(g.model, PS, Blank.(traits := {Structure}));
      g.model := Connect(g.model, Top, PS, None, None, {StructuralContainment});
      sGraph := g;
      psCores := map[];
    }

    /** `BiDirectionalConnect(a, b, portA, portB)`, and the portless
        overload when both ports are `None`. */
    method BiDirectionalConnect(a: string, b: string, portA: Option<string>, portB: Option<string>)
      modifies sGraph
      ensures sGraph.model == Link(old(sGraph.model), a, b, portA, portB)
    {
      sGraph.model := Connect(sGraph.model, a, b, portA, portB, ContainmentVisual);
      sGraph.model := Connect(sGraph.model, b, a, portB, portA, ContainmentVisual);
    }

    /** `AddMemoryToPS(frequency, spaceInBits)`, with `order` the iteration
        order of `PSCores`; both arguments are ignored. */
    method AddMemoryToPS(frequency: int, spaceInBits: int, order: seq<string>)
      requires IsEnumeration(order, psCores.Keys)
      modifies sGraph
      ensures State() == MemoryToPsStep(old(State()), order)
    {
      sGraph.model := Put(sGraph.model, Mem, MemoryRecord(sGraph.model));
      sGraph.model := Put(sGraph.model, MemSwitch, SwitchRecord(sGraph.model));
      ghost var g0 := sGraph.model;
      var i := 0;
      while i < |order|
        invariant 0 <= i <= |order|
        invariant sGraph.model == LinkCores(g0, order[..i])
      {
        LinkCoresStep(g0, order, i);
        BiDirectionalConnect(order[i], MemSwitch, Some(ToMemSwitch), Some(ToPU));
        i := i + 1;
      }
      assert order[..i] == order;
      BiDirectionalConnect(Mem, MemSwitch, Some(ToMemSwitch), Some(ToPU));
    }

    /** `AddProcessingSystemModule(name, cores, frequency,
        modalInstructions)`: the last two arguments are ignored. */
    method AddProcessingSystemModule(name: string, cores: int, frequency: int,
                                     modalInstructions: map<string, map<string, real>>)
      modifies this, sGraph
      ensures State() == AddPsmStep(old(State()), name, cores)
    {
      var moduleName := "MPSoC_PS_" + name;
      var v := VertexOf(sGraph.model, moduleName);
      sGraph.model := Put(sGraph.model, moduleName, v.(traits := v.traits + {Structure, GreyBox}));
      ghost var s0 := State();
      ghost var names := PsCoreNames(moduleName, cores);
      var i := 0;
      while i < cores
        invariant 0 <= i <= |names|
        invariant State() == PsCoresOver(s0, moduleName, names[..i])
      {
        PsCoresOverStep(s0, moduleName, names, i);
        AddCore(moduleName, moduleName + "_C" + IntToString(i));
        i := i + 1;
      }
      assert names[..i] == names;
    }

    /** One pass of the core loop of `AddProcessingSystemModule`. */
    method AddCore(moduleName: string, coreName: string)
      modifies this, sGraph
      ensures State() == PsCoreStep(old(State()), moduleName, coreName)
    {
      sGraph.model := Put(sGraph.model, coreName, CoreRecord(sGraph.model, coreName));
      var scheduler := coreName + "_Scheduler";
      sGraph.model := Put(sGraph.model, scheduler, RuntimeRecord(sGraph.model, coreName));
      BiDirectionalConnect(coreName, scheduler, None, None);
      psCores := psCores[coreName := moduleName];
    }

    /** `AddFPGA()`: its body is empty, so the object is left as it was. */
    method AddFPGA()
      modifies this, sGraph
      ensures State() == old(State())
    {
    }
  }
}
