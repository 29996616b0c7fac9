/** `MPSoC` of the `platform-model` application: a fixed MPSoC skeleton
    whose processing system receives modules of cores, an on-chip memory
    switch to which the cores recorded so far are linked, and an on-chip
    memory behind that switch. */
module PlatformMPSoC {
  import opened Graphs
  import opened Text
  import Platforms
  import ComponentPlatforms

  const Top: string := "MPSoC"
  const PS: string := "MPSoC.PS"
  const Ocm: string := "MPSoC.PS.OCM"
  const OcmSwitch: string := "MPSoC.PS.OCMSwitch"
  const PortToOcmSwitch: string := "portToOCMSwitch"
  const PortToOcm: string := "PortToOCM"
  const SwitchPort1: string := "OCMSwitchPort1"
  /** The ports of the switch: four towards the cores, one towards the memory. */
  const SwitchPorts: set<string> := {SwitchPort1, "OCMSwitchPort2", "OCMSwitchPort3", "OCMSwitchPort4", PortToOcm}
  const Containment: set<EdgeTrait> := {StructuralContainment}

  /** The object's state: its graph, the vertices its fields `platform`,
      `PS` and `OCMSwitch` refer to (`None` for `null`), and `PSCores`,
      which maps each core to the name of its module. */
  datatype Soc = Soc(graph: Graph, platform: Option<string>, ps: Option<string>,
                     ocmSwitch: Option<string>, psCores: map<string, string>)

  /** The state after a call and how the call ended. */
  datatype Step = Step(state: Soc, outcome: Outcome)

  /** The invariant of the object: both structure fields are set and are
      vertices, every edge joins declared ports, a recorded switch is the
      switch vertex with its five ports, and every recorded core is a
      processing module with the port towards the switch. */
  ghost predicate Wellformed(s: Soc)
  {
    s.platform == Some(Top) && s.ps == Some(PS) &&
    Top in s.graph.vertices && PS in s.graph.vertices && PortsDeclared(s.graph) &&
    (s.ocmSwitch.Some? ==>
       s.ocmSwitch.value == OcmSwitch && OcmSwitch in s.graph.vertices &&
       InstrumentedCommunicationModule in s.graph.vertices[OcmSwitch].traits &&
       SwitchPorts <= s.graph.vertices[OcmSwitch].ports) &&
    forall c :: c in s.psCores ==>
      c in s.graph.vertices && InstrumentedProcessingModule in s.graph.vertices[c].traits &&
      PortToOcmSwitch in s.graph.vertices[c].ports
  }

  /** The graph with the edges `es` connected after its own. */
  function Append(g: Graph, es: seq<Edge>): Graph
  {
    g.(edges := g.edges + es)
  }

  /** Replacing a record by one that keeps its traits and ports keeps the
      invariant. */
  lemma PutKeeps(s: Soc, n: string, v: Vertex)
    requires Wellformed(s) && VertexOf(s.graph, n).traits <= v.traits && VertexOf(s.graph, n).ports <= v.ports
    ensures Wellformed(s.(graph := Put(s.graph, n, v)))
  {
    var r := Put(s.graph, n, v);
    forall i | 0 <= i < |r.edges| ensures EdgeDeclared(r, r.edges[i]) {
      assert EdgeDeclared(s.graph, s.graph.edges[i]);
    }
  }

  /** Connecting edges between declared ports keeps the invariant. */
  lemma AppendKeeps(s: Soc, es: seq<Edge>)
    requires Wellformed(s) && forall i :: 0 <= i < |es| ==> EdgeDeclared(s.graph, es[i])
    ensures Wellformed(s.(graph := Append(s.graph, es)))
  {
    var r := Append(s.graph, es);
    forall i | 0 <= i < |r.edges| ensures EdgeDeclared(r, r.edges[i]) {
      if i < |s.graph.edges| {
        assert r.edges[i] == s.graph.edges[i];
      } else {
        assert r.edges[i] == es[i - |s.graph.edges|];
      }
    }
  }

  /** `new MPSoC()`: the structure vertex `MPSoC` and the structure vertex
      `MPSoC.PS`, both grey boxes, one containment edge from the first to
      the second, no switch and no cores. */
  function NewSoc(): (r: Soc)
    ensures r.graph.vertices.Keys == {Top, PS} && r.psCores == map[] && r.ocmSwitch == None
    ensures forall n :: n in r.graph.vertices ==> r.graph.vertices[n].traits == {Structure, GreyBox}
    ensures r.graph.edges == [Edge(Top, PS, None, None, Containment)]
    ensures Wellformed(r)
  {
    var box := Blank.(traits := {Structure, GreyBox});
    var g := Put(Put(EmptyGraph, Top, box), PS, box);
    var r := Soc(Append(g, [Edge(Top, PS, None, None, Containment)]), Some(Top), Some(PS), None, map[]);
    assert EdgeDeclared(r.graph, r.graph.edges[0]);
    r
  }

  // ---------------------------------------------------------------------
  // AddProcessingSystemModule

  /** The name of the module `name`. */
  function ModuleName(name: string): string
  {
    "MPSoC.PS." + name
  }

  /** The name of core `k` of module `moduleName`. */
  function PsCoreName(moduleName: string, k: int): string
  {
    moduleName + ".C" + IntToString(k)
  }

  /** The core names of a module with `n` cores, in loop order. */
  function PsCoreNames(moduleName: string, n: int): (r: seq<string>)
    ensures |r| == if n > 0 then n else 0
    ensures forall k :: 0 <= k < |r| ==> r[k] == PsCoreName(moduleName, k)
  {
    seq(if n > 0 then n else 0, k => PsCoreName(moduleName, k))
  }

  /** The module record: a structure vertex and grey box. */
  function ModuleRecord(g: Graph, moduleName: string): Vertex
  {
    var m := VertexOf(g, moduleName);
    m.(traits := m.traits + {Structure, GreyBox})
  }

  /** The module vertex and its containment edge from the processing
      system. */
  function ModuleStep(s: Soc, ps: string, moduleName: string): Soc
  {
    s.(graph := Append(Put(s.graph, moduleName, ModuleRecord(s.graph, moduleName)),
                       [Edge(ps, moduleName, None, None, Containment)]))
  }

  /** The record of a core: a processing module with parallelism 1, the
      given frequency and instruction rates, and the port towards the
      switch. */
  function CoreRecord(g: Graph, core: string, frequency: int, ipc: map<string, map<string, real>>): Vertex
  {
    var c := VertexOf(g, core);
    Vertex(c.traits + {InstrumentedProcessingModule}, c.ports + {PortToOcmSwitch},
           c.props[MaximumComputationParallelism := IntV(1)][OperatingFrequencyInHertz := IntV(frequency)]
                  [ModalInstructionsPerCycle := InstructionsV(ComponentPlatforms.Rates(ipc))])
  }

  /** One iteration of the core loop: the core record, its containment
      edge from the module, and its `PSCores` entry. */
  function PsCoreStep(s: Soc, moduleName: string, core: string, frequency: int,
                      ipc: map<string, map<string, real>>): Soc
  {
    s.(graph := Append(Put(s.graph, core, CoreRecord(s.graph, core, frequency, ipc)),
                       [Edge(moduleName, core, None, None, Containment)]),
       psCores := s.psCores[core := moduleName])
  }

  /** The cores `cores` of one module, added in loop order. */
  function PsCoresOver(s: Soc, moduleName: string, cores: seq<string>, frequency: int,
                       ipc: map<string, map<string, real>>): Soc
  {
    if cores == [] then s
    else PsCoreStep(PsCoresOver(s, moduleName, cores[..|cores| - 1], frequency, ipc), moduleName,
                    cores[|cores| - 1], frequency, ipc)
  }

  lemma PsCoresOverStep(s: Soc, moduleName: string, cores: seq<string>, frequency: int,
                        ipc: map<string, map<string, real>>, i: int)
    requires 0 <= i < |cores|
    ensures PsCoresOver(s, moduleName, cores[..i + 1], frequency, ipc) ==
            PsCoreStep(PsCoresOver(s, moduleName, cores[..i], frequency, ipc), moduleName, cores[i], frequency, ipc)
  {
    assert cores[..i + 1][..i] == cores[..i];
  }

  /** `AddProcessingSystemModule(name, n, frequency, modalInstructions)`:
      it throws when `PS` is unset, and otherwise adds the module and its
      `n` cores. */
  function AddPsmStep(s: Soc, name: string, n: int, frequency: int,
                      ipc: map<string, map<string, real>>): Step
  {
    if s.ps.None? then Step(s, Thrown(IllegalState))
    else
      var moduleName := ModuleName(name);
      Step(PsCoresOver(ModuleStep(s, s.ps.value, moduleName), moduleName, PsCoreNames(moduleName, n), frequency, ipc),
           Done)
  }

  /** The core loop keeps the invariant and the module vertex. */
  lemma {:induction false} PsCoresWellformed(s: Soc, moduleName: string, cores: seq<string>, frequency: int,
                                             ipc: map<string, map<string, real>>)
    requires Wellformed(s) && moduleName in s.graph.vertices
    ensures var r := PsCoresOver(s, moduleName, cores, frequency, ipc);
            Wellformed(r) && moduleName in r.graph.vertices
    decreases |cores|
  {
    if cores != [] {
      var pre := cores[..|cores| - 1];
      var c := cores[|cores| - 1];
      PsCoresWellformed(s, moduleName, pre, frequency, ipc);
      var p := PsCoresOver(s, moduleName, pre, frequency, ipc);
      var v := CoreRecord(p.graph, c, frequency, ipc);
      PutKeeps(p, c, v);
      var p1 := p.(graph := Put(p.graph, c, v));
      AppendKeeps(p1, [Edge(moduleName, c, None, None, Containment)]);
    }
  }

  /** On a well-formed state the module is added without throwing, and the
      invariant holds afterwards. */
  lemma AddPsmWellformed(s: Soc, name: string, n: int, frequency: int, ipc: map<string, map<string, real>>)
    requires Wellformed(s)
    ensures var r := AddPsmStep(s, name, n, frequency, ipc);
            r.outcome == Done && Wellformed(r.state)
  {
    var moduleName := ModuleName(name);
    PutKeeps(s, moduleName, ModuleRecord(s.graph, moduleName));
    var s1 := s.(graph := Put(s.graph, moduleName, ModuleRecord(s.graph, moduleName)));
    AppendKeeps(s1, [Edge(PS, moduleName, None, None, Containment)]);
    PsCoresWellformed(ModuleStep(s, PS, moduleName), moduleName, PsCoreNames(moduleName, n), frequency, ipc);
  }


  /** Core names of one module differ from each other and from the module. */
  lemma PsCoreNamesDistinct(moduleName: string, i: int, j: int)
    requires i != j
    ensures PsCoreName(moduleName, i) != PsCoreName(moduleName, j)
    ensures PsCoreName(moduleName, i) != moduleName
  {
    var p := moduleName + ".C";
    var a, b := IntToString(i), IntToString(j);
    if p + a == p + b {
      assert a == (p + a)[|p|..];
      assert b == (p + b)[|p|..];
      IntToStringInjective(i, j);
    }
    assert |PsCoreName(moduleName, i)| > |moduleName|;
  }

  /** The core names of a module, pairwise different and different from the
      module name. */
  lemma PsCoreNamesApart(moduleName: string, n: int)
    ensures var cores := PsCoreNames(moduleName, n);
            Distinct(cores) && forall k :: 0 <= k < |cores| ==> cores[k] != moduleName
  {
    var cores := PsCoreNames(moduleName, n);
    forall i, j | 0 <= i < j < |cores| ensures cores[i] != cores[j] {
      PsCoreNamesDistinct(moduleName, i, j);
    }
    forall k | 0 <= k < |cores| ensures cores[k] != moduleName {
      PsCoreNamesDistinct(moduleName, k, k + 1);
    }
  }

  /** Core `c` is built as the core loop builds it. */
  ghost predicate PsCoreBuilt(g: Graph, c: string, frequency: int, ipc: map<string, map<string, real>>)
  {
    HasTrait(g, c, InstrumentedProcessingModule) && PortToOcmSwitch in g.vertices[c].ports &&
    PropIs(g, c, MaximumComputationParallelism, IntV(1)) &&
    PropIs(g, c, OperatingFrequencyInHertz, IntV(frequency)) &&
    PropIs(g, c, ModalInstructionsPerCycle, InstructionsV(ComponentPlatforms.Rates(ipc)))
  }

  /** A record other than the new core's is left alone by one iteration. */
  lemma PsCoreStepFrame(s: Soc, moduleName: string, core: string, frequency: int,
                        ipc: map<string, map<string, real>>, m: string)
    requires m != core
    ensures var r := PsCoreStep(s, moduleName, core, frequency, ipc);
            (m in r.graph.vertices <==> m in s.graph.vertices) &&
            (m in s.graph.vertices ==> r.graph.vertices[m] == s.graph.vertices[m])
  {
  }

  /** Every core of the loop is built as the loop builds it, whatever came
      after it. */
  lemma {:induction false} PsCoresBuilt(s: Soc, moduleName: string, cores: seq<string>, frequency: int,
                                        ipc: map<string, map<string, real>>, k: int)
    requires Distinct(cores) && 0 <= k < |cores|
    ensures PsCoreBuilt(PsCoresOver(s, moduleName, cores, frequency, ipc).graph, cores[k], frequency, ipc)
    decreases |cores|
  {
    var pre := cores[..|cores| - 1];
    var c := cores[|cores| - 1];
    var p := PsCoresOver(s, moduleName, pre, frequency, ipc);
    if k < |cores| - 1 {
      assert Distinct(pre) by {
        forall i, j | 0 <= i < j < |pre| ensures pre[i] != pre[j] {
          assert pre[i] == cores[i] && pre[j] == cores[j];
        }
      }
      assert pre[k] == cores[k];
      PsCoresBuilt(s, moduleName, pre, frequency, ipc, k);
      PsCoreStepFrame(p, moduleName, c, frequency, ipc, cores[k]);
    }
  }

  /** The edges after the core loop: the old ones, then one containment
      edge from the module to each core. */
  lemma {:induction false} PsCoresEdges(s: Soc, moduleName: string, cores: seq<string>, frequency: int,
                                        ipc: map<string, map<string, real>>)
    ensures PsCoresOver(s, moduleName, cores, frequency, ipc).graph.edges ==
            s.graph.edges + seq(|cores|, k requires 0 <= k < |cores| => Edge(moduleName, cores[k], None, None, Containment))
    decreases |cores|
  {
    if cores != [] {
      var pre := cores[..|cores| - 1];
      var c := cores[|cores| - 1];
      PsCoresEdges(s, moduleName, pre, frequency, ipc);
      var a := seq(|pre|, k requires 0 <= k < |pre| => Edge(moduleName, pre[k], None, None, Containment));
      var b := seq(|cores|, k requires 0 <= k < |cores| => Edge(moduleName, cores[k], None, None, Containment));
      assert b == a + [Edge(moduleName, c, None, None, Containment)];
      SeqAssoc(s.graph.edges, a, [Edge(moduleName, c, None, None, Containment)]);
    }
  }

  /** `PSCores` after the core loop: the old entries and each new core
      mapped to the module. */
  lemma {:induction false} PsCoresMap(s: Soc, moduleName: string, cores: seq<string>, frequency: int,
                                      ipc: map<string, map<string, real>>)
    ensures PsCoresOver(s, moduleName, cores, frequency, ipc).psCores == s.psCores + (map c | c in cores :: moduleName)
    decreases |cores|
  {
    if cores != [] {
      var pre := cores[..|cores| - 1];
      PsCoresMap(s, moduleName, pre, frequency, ipc);
      MapOneMore(s.psCores, cores, moduleName);
    }
  }

  lemma MapOneMore(v: map<string, string>, cores: seq<string>, val: string)
    requires |cores| > 0
    ensures var pre := cores[..|cores| - 1];
            (v + map x | x in pre :: val)[cores[|cores| - 1] := val] == v + map x | x in cores :: val
  {
    assert cores == cores[..|cores| - 1] + [cores[|cores| - 1]];
  }

  /** The cores of `AddProcessingSystemModule(name, n, frequency, …)`:
      `MPSoC.PS.<name>.C0` … `.C<n-1>` (none when `n` is not positive),
      pairwise different, each built with the given frequency and the
      given instruction rates, and each recorded under its module. */
  lemma AddPsmCores(s: Soc, name: string, n: int, frequency: int, ipc: map<string, map<string, real>>)
    requires s.ps.Some?
    ensures var moduleName := ModuleName(name);
            var cores := PsCoreNames(moduleName, n);
            var r := AddPsmStep(s, name, n, frequency, ipc).state;
            |cores| == (if n > 0 then n else 0) && Distinct(cores) &&
            r.psCores == s.psCores + (map c | c in cores :: moduleName) &&
            forall k :: 0 <= k < |cores| ==>
              cores[k] == "MPSoC.PS." + name + ".C" + IntToString(k) &&
              PsCoreBuilt(r.graph, cores[k], frequency, ipc)
  {
    var moduleName := ModuleName(name);
    var cores := PsCoreNames(moduleName, n);
    var s1 := ModuleStep(s, s.ps.value, moduleName);
    PsCoreNamesApart(moduleName, n);
    PsCoresMap(s1, moduleName, cores, frequency, ipc);
    forall k | 0 <= k < |cores|
      ensures cores[k] == "MPSoC.PS." + name + ".C" + IntToString(k)
      ensures PsCoreBuilt(AddPsmStep(s, name, n, frequency, ipc).state.graph, cores[k], frequency, ipc)
    {
      SeqAssoc("MPSoC.PS.", name, ".C");
      PsCoresBuilt(s1, moduleName, cores, frequency, ipc, k);
    }
  }

  /** The module of `AddProcessingSystemModule(name, …)`: `MPSoC.PS.<name>`,
      a structure vertex and grey box, contained in the processing system,
      which contains its cores; no other edge is added. */
  lemma AddPsmModule(s: Soc, name: string, n: int, frequency: int, ipc: map<string, map<string, real>>)
    requires s.ps.Some?
    ensures var moduleName := ModuleName(name);
            var cores := PsCoreNames(moduleName, n);
            var r := AddPsmStep(s, name, n, frequency, ipc).state;
            HasTrait(r.graph, moduleName, Structure) && HasTrait(r.graph, moduleName, GreyBox) &&
            r.graph.edges == s.graph.edges + [Edge(s.ps.value, moduleName, None, None, Containment)] +
                             seq(|cores|, k requires 0 <= k < |cores| => Edge(moduleName, cores[k], None, None, Containment))
  {
    var moduleName := ModuleName(name);
    var cores := PsCoreNames(moduleName, n);
    var s1 := ModuleStep(s, s.ps.value, moduleName);
    PsCoreNamesApart(moduleName, n);
    PsCoresEdges(s1, moduleName, cores, frequency, ipc);
    PsCoresKeep(s1, moduleName, cores, frequency, ipc, moduleName);
  }

  /** A vertex that is none of the new cores keeps its record. */
  lemma {:induction false} PsCoresKeep(s: Soc, moduleName: string, cores: seq<string>, frequency: int,
                                       ipc: map<string, map<string, real>>, m: string)
    requires m in s.graph.vertices && forall k :: 0 <= k < |cores| ==> cores[k] != m
    ensures var r := PsCoresOver(s, moduleName, cores, frequency, ipc);
            m in r.graph.vertices && r.graph.vertices[m] == s.graph.vertices[m]
    decreases |cores|
  {
    if cores != [] {
      var pre := cores[..|cores| - 1];
      assert forall k :: 0 <= k < |pre| ==> pre[k] == cores[k];
      PsCoresKeep(s, moduleName, pre, frequency, ipc, m);
      PsCoreStepFrame(PsCoresOver(s, moduleName, pre, frequency, ipc), moduleName, cores[|cores| - 1], frequency, ipc, m);
    }
  }

  // ---------------------------------------------------------------------
  // AddOCM

  /** The memory record: a generic memory module with the given frequency
      and size and the port towards the switch. */
  function OcmRecord(g: Graph, frequency: int, spaceInBits: int): Vertex
  {
    var m := VertexOf(g, Ocm);
    Vertex(m.traits + {GenericMemoryModule}, m.ports + {PortToOcmSwitch},
           m.props[OperatingFrequencyInHertz := IntV(frequency)][SpaceInBits := IntV(spaceInBits)])
  }

  /** The three edges of the memory: to and from the switch, and its
      containment in the platform. */
  function OcmEdges(sw: string, platform: string): seq<Edge>
  {
    [Edge(sw, Ocm, Some(PortToOcm), Some(PortToOcmSwitch), Platforms.PhysicalVisual),
     Edge(Ocm, sw, Some(PortToOcmSwitch), Some(PortToOcm), Platforms.PhysicalVisual),
     Edge(platform, Ocm, None, None, Containment)]
  }

  /** `AddOCM(frequency, spaceInBits)`: it throws when `platform` is unset;
      otherwise the memory record is made, and connecting it to a switch
      that was never added throws a null-pointer exception with the record
      already in the graph. */
  function AddOcmStep(s: Soc, frequency: int, spaceInBits: int): Step
  {
    if s.platform.None? then Step(s, Thrown(IllegalState))
    else
      var g1 := Put(s.graph, Ocm, OcmRecord(s.graph, frequency, spaceInBits));
      if s.ocmSwitch.None? then Step(s.(graph := g1), Thrown(NullPointer))
      else Step(s.(graph := Append(g1, OcmEdges(s.ocmSwitch.value, s.platform.value))), Done)
  }

  /** On a well-formed state `AddOCM` ends normally exactly when the switch
      was added before, and the invariant holds afterwards either way. */
  lemma AddOcmWellformed(s: Soc, frequency: int, spaceInBits: int)
    requires Wellformed(s)
    ensures var r := AddOcmStep(s, frequency, spaceInBits);
            (r.outcome == Done <==> s.ocmSwitch.Some?) &&
            (r.outcome != Done ==> r.outcome == Thrown(NullPointer)) &&
            Wellformed(r.state)
  {
    var v := OcmRecord(s.graph, frequency, spaceInBits);
    PutKeeps(s, Ocm, v);
    var s1 := s.(graph := Put(s.graph, Ocm, v));
    if s.ocmSwitch.Some? {
      var es := OcmEdges(OcmSwitch, Top);
      forall i | 0 <= i < |es| ensures EdgeDeclared(s1.graph, es[i]) {
      }
      AppendKeeps(s1, es);
    }
  }

  /** What `AddOCM` leaves behind once `platform` is set: the memory
      record with the given frequency and size, and either the three edges
      of the memory (switch present) or no new edge at all (the null-pointer
      exception); the fields are unchanged. */
  lemma AddOcmFacts(s: Soc, frequency: int, spaceInBits: int)
    requires s.platform.Some?
    ensures var r := AddOcmStep(s, frequency, spaceInBits);
            var g := r.state.graph;
            HasTrait(g, Ocm, GenericMemoryModule) && PortToOcmSwitch in g.vertices[Ocm].ports &&
            PropIs(g, Ocm, OperatingFrequencyInHertz, IntV(frequency)) &&
            PropIs(g, Ocm, SpaceInBits, IntV(spaceInBits)) &&
            r.state.psCores == s.psCores && r.state.ocmSwitch == s.ocmSwitch &&
            (s.ocmSwitch.Some? ==> r.outcome == Done && g.edges == s.graph.edges + OcmEdges(s.ocmSwitch.value, s.platform.value)) &&
            (s.ocmSwitch.None? ==> r.outcome == Thrown(NullPointer) && g.edges == s.graph.edges)
  {
  }


  // ---------------------------------------------------------------------
  // AddOCMSwitch

  /** The switch record: a communication module at 600 MHz with no initial
      latency, one-byte flits, one cycle per flit, one flit at a time, and
      its five ports. */
  function SwitchRecord(g: Graph): Vertex
  {
    var m := VertexOf(g, OcmSwitch);
    Vertex(m.traits + {InstrumentedCommunicationModule}, m.ports + SwitchPorts,
           m.props[OperatingFrequencyInHertz := IntV(600 * MHz)][InitialLatency := IntV(0)]
                  [FlitSizeInBits := IntV(8)][MaxCyclesPerFlit := IntV(1)][MaxConcurrentFlits := IntV(1)])
  }

  /** The two edges between core `c` and the switch. */
  function CoreSwitchEdges(c: string): seq<Edge>
  {
    [Edge(c, OcmSwitch, Some(PortToOcmSwitch), Some(SwitchPort1), Platforms.PhysicalVisual),
     Edge(OcmSwitch, c, Some(SwitchPort1), Some(PortToOcmSwitch), Platforms.PhysicalVisual)]
  }

  /** The edges of the loop over `PSCores`, visited in the order `cores`. */
  function LinkEdges(cores: seq<string>): seq<Edge>
  {
    if cores == [] then []
    else LinkEdges(cores[..|cores| - 1]) + CoreSwitchEdges(cores[|cores| - 1])
  }

  lemma LinkEdgesStep(cores: seq<string>, i: int)
    requires 0 <= i < |cores|
    ensures LinkEdges(cores[..i + 1]) == LinkEdges(cores[..i]) + CoreSwitchEdges(cores[i])
  {
    assert cores[..i + 1][..i] == cores[..i];
  }

  /** Edge `2k` of the loop goes from the `k`-th core to the switch and
      edge `2k+1` back. */
  lemma {:induction false} LinkEdgesAt(cores: seq<string>)
    ensures |LinkEdges(cores)| == 2 * |cores|
    ensures forall k :: 0 <= k < |cores| ==>
              LinkEdges(cores)[2 * k] == CoreSwitchEdges(cores[k])[0] &&
              LinkEdges(cores)[2 * k + 1] == CoreSwitchEdges(cores[k])[1]
    decreases |cores|
  {
    if cores != [] {
      var pre := cores[..|cores| - 1];
      LinkEdgesAt(pre);
      forall k | 0 <= k < |cores|
        ensures LinkEdges(cores)[2 * k] == CoreSwitchEdges(cores[k])[0]
        ensures LinkEdges(cores)[2 * k + 1] == CoreSwitchEdges(cores[k])[1]
      {
        if k < |pre| {
          assert pre[k] == cores[k];
        }
      }
    }
  }

  /** `AddOCMSwitch()`, with `order` the iteration order of `PSCores`: it
      throws when `platform` is unset; otherwise it makes the switch record,
      contains it in the platform, links every recorded core to it both
      ways and records it. */
  function AddOcmSwitchStep(s: Soc, order: seq<string>): Step
  {
    if s.platform.None? then Step(s, Thrown(IllegalState))
    else
      var g1 := Put(s.graph, OcmSwitch, SwitchRecord(s.graph));
      Step(s.(graph := Append(g1, [Edge(s.platform.value, OcmSwitch, None, None, Containment)] + LinkEdges(order)),
              ocmSwitch := Some(OcmSwitch)),
           Done)
  }

  /** On a well-formed state, with `order` made of recorded cores, the
      switch is added without throwing and the invariant holds afterwards. */
  lemma AddOcmSwitchWellformed(s: Soc, order: seq<string>)
    requires Wellformed(s) && forall k :: 0 <= k < |order| ==> order[k] in s.psCores
    ensures var r := AddOcmSwitchStep(s, order);
            r.outcome == Done && Wellformed(r.state)
  {
    var v := SwitchRecord(s.graph);
    PutKeeps(s, OcmSwitch, v);
    var s1 := s.(graph := Put(s.graph, OcmSwitch, v), ocmSwitch := Some(OcmSwitch));
    var es := [Edge(Top, OcmSwitch, None, None, Containment)] + LinkEdges(order);
    LinkEdgesAt(order);
    forall i | 0 <= i < |es| ensures EdgeDeclared(s1.graph, es[i]) {
      if i > 0 {
        var k := (i - 1) / 2;
        assert i - 1 == 2 * k || i - 1 == 2 * k + 1;
        assert order[k] in s.psCores;
      }
    }
    AppendKeeps(s1, es);
  }

  /** What `AddOCMSwitch` leaves behind once `platform` is set: the switch
      record with its fixed properties and ports, recorded in `OCMSwitch`,
      and the edges containment, then two per visited core; `PSCores` is
      unchanged. */
  lemma AddOcmSwitchFacts(s: Soc, order: seq<string>)
    requires s.platform.Some?
    ensures var r := AddOcmSwitchStep(s, order);
            var g := r.state.graph;
            r.outcome == Done && r.state.ocmSwitch == Some(OcmSwitch) && r.state.psCores == s.psCores &&
            HasTrait(g, OcmSwitch, InstrumentedCommunicationModule) && SwitchPorts <= g.vertices[OcmSwitch].ports &&
            PropIs(g, OcmSwitch, OperatingFrequencyInHertz, IntV(600_000_000)) &&
            PropIs(g, OcmSwitch, InitialLatency, IntV(0)) && PropIs(g, OcmSwitch, FlitSizeInBits, IntV(8)) &&
            PropIs(g, OcmSwitch, MaxCyclesPerFlit, IntV(1)) && PropIs(g, OcmSwitch, MaxConcurrentFlits, IntV(1)) &&
            g.edges == s.graph.edges + [Edge(s.platform.value, OcmSwitch, None, None, Containment)] + LinkEdges(order)
  {
    SeqAssoc(s.graph.edges, [Edge(s.platform.value, OcmSwitch, None, None, Containment)], LinkEdges(order));
  }

  /** Where the loop's edges sit: after the old edges and the containment
      edge, two per visited core in visiting order. */
  lemma AddOcmSwitchEdgesAt(s: Soc, order: seq<string>)
    requires s.platform.Some?
    ensures var edges := AddOcmSwitchStep(s, order).state.graph.edges;
            var e := |s.graph.edges| + 1;
            |edges| == e + 2 * |order| &&
            forall k :: 0 <= k < |order| ==>
              edges[e + 2 * k] == CoreSwitchEdges(order[k])[0] && edges[e + 2 * k + 1] == CoreSwitchEdges(order[k])[1]
  {
    var edges := AddOcmSwitchStep(s, order).state.graph.edges;
    var e := |s.graph.edges| + 1;
    var links := LinkEdges(order);
    LinkEdgesAt(order);
    assert edges == (s.graph.edges + [Edge(s.platform.value, OcmSwitch, None, None, Containment)]) + links;
    forall k | 0 <= k < |order|
      ensures edges[e + 2 * k] == links[2 * k] && edges[e + 2 * k + 1] == links[2 * k + 1]
    {
    }
  }

  /** Every core recorded when `AddOCMSwitch` runs is linked both ways to
      the switch, two edges per core: the loop visits each exactly once. */
  lemma AddOcmSwitchLinksCores(s: Soc, order: seq<string>)
    requires s.platform.Some? && IsEnumeration(order, s.psCores.Keys)
    ensures var r := AddOcmSwitchStep(s, order);
            |r.state.graph.edges| == |s.graph.edges| + 1 + 2 * |s.psCores| &&
            forall c :: c in s.psCores ==>
              Edge(c, OcmSwitch, Some(PortToOcmSwitch), Some(SwitchPort1), Platforms.PhysicalVisual) in r.state.graph.edges &&
              Edge(OcmSwitch, c, Some(SwitchPort1), Some(PortToOcmSwitch), Platforms.PhysicalVisual) in r.state.graph.edges
  {
    var edges := AddOcmSwitchStep(s, order).state.graph.edges;
    var e := |s.graph.edges| + 1;
    AddOcmSwitchEdgesAt(s, order);
    DistinctCount(order, s.psCores.Keys);
    forall c | c in s.psCores
      ensures CoreSwitchEdges(c)[0] in edges && CoreSwitchEdges(c)[1] in edges
    {
      var k :| 0 <= k < |order| && order[k] == c;
      assert edges[e + 2 * k] == CoreSwitchEdges(c)[0];
      assert edges[e + 2 * k + 1] == CoreSwitchEdges(c)[1];
    }
  }


  // ---------------------------------------------------------------------
  // The object

  /** The `MPSoC` object of the `platform-model` application. */
  class MPSoC {
    const sGraph: SystemGraph
    var platform: Option<string>
    var ps: Option<string>
    var ocmSwitch: Option<string>
    var psCores: map<string, string>

    function State(): Soc
      reads this, sGraph
    {
      Soc(sGraph.model, platform, ps, ocmSwitch, psCores)
    }

    /** `new MPSoC()`. The grey-box containment it records is visual only
        and is not modelled. */
    constructor ()
      ensures fresh(sGraph) && State() == NewSoc()
    {
      var g := new SystemGraph();
      g.model := Put(g.model, Top, Blank.(traits := {Structure, GreyBox}));
      g.model := Put(g.model, PS, Blank.(traits := {Structure, GreyBox}));
      g.model := Connect(g.model, Top, PS, None, None, Containment);
      sGraph := g;
      platform := Some(Top);
      ps := Some(PS);
      ocmSwitch := None;
      psCores := map[];
    }

    /** `AddProcessingSystemModule(name, cores, frequency, modalInstructions)`. */
    method AddProcessingSystemModule(name: string, cores: int, frequency: int,
                                     modalInstructions: map<string, map<string, real>>)
      returns (outcome: Outcome)
      modifies this, sGraph
      ensures Step(State(), outcome) == AddPsmStep(old(State()), name, cores, frequency, modalInstructions)
    {
      if ps.None? {
        return Thrown(IllegalState);
      }
      var moduleName := "MPSoC.PS." + name;
      sGraph.model := Put(sGraph.model, moduleName, ModuleRecord(sGraph.model, moduleName));
      sGraph.model := Connect(sGraph.model, ps.value, moduleName, None, None, Containment);
      ghost var s0 := State();
      ghost var names := PsCoreNames(moduleName, cores);
      var i := 0;
      while i < cores
        invariant 0 <= i <= |names|
        invariant State() == PsCoresOver(s0, moduleName, names[..i], frequency, modalInstructions)
      {
        PsCoresOverStep(s0, moduleName, names, frequency, modalInstructions, i);
        var core := moduleName + ".C" + IntToString(i);
        sGraph.model := Put(sGraph.model, core, CoreRecord(sGraph.model, core, frequency, modalInstructions));
        sGraph.model := Connect(sGraph.model, moduleName, core, None, None, Containment);
        psCores := psCores[core := moduleName];
        i := i + 1;
      }
      assert names[..i] == names;
      outcome := Done;
    }

    /** `AddOCM(frequency, spaceInBits)`. */
    method AddOCM(frequency: int, spaceInBits: int) returns (outcome: Outcome)
      modifies sGraph
      ensures Step(State(), outcome) == AddOcmStep(old(State()), frequency, spaceInBits)
    {
      if platform.None? {
        return Thrown(IllegalState);
      }
      sGraph.model := Put(sGraph.model, Ocm, OcmRecord(sGraph.model, frequency, spaceInBits));
      if ocmSwitch.None? {
        return Thrown(NullPointer);
      }
      sGraph.model := Connect(sGraph.model, ocmSwitch.value, Ocm, Some(PortToOcm), Some(PortToOcmSwitch),
                              Platforms.PhysicalVisual);
      sGraph.model := Connect(sGraph.model, Ocm, ocmSwitch.value, Some(PortToOcmSwitch), Some(PortToOcm),
                              Platforms.PhysicalVisual);
      sGraph.model := Connect(sGraph.model, platform.value, Ocm, None, None, Containment);
      outcome := Done;
    }

    /** `AddOCMSwitch()`, with `order` the iteration order of `PSCores`. */
    method AddOCMSwitch(order: seq<string>) returns (outcome: Outcome)
      requires IsEnumeration(order, psCores.Keys)
      modifies this, sGraph
      ensures Step(State(), outcome) == AddOcmSwitchStep(old(State()), order)
    {
      if platform.None? {
        return Thrown(IllegalState);
      }
      ghost var top := Edge(platform.value, OcmSwitch, None, None, Containment);
      sGraph.model := Put(sGraph.model, OcmSwitch, SwitchRecord(sGraph.model));
      sGraph.model := Connect(sGraph.model, platform.value, OcmSwitch, None, None, Containment);
      ghost var g0 := sGraph.model;
      var i := 0;
      while i < |order|
        invariant 0 <= i <= |order|
        invariant sGraph.model == Append(g0, LinkEdges(order[..i]))
        invariant platform == old(platform) && ps == old(ps) && ocmSwitch == old(ocmSwitch) && psCores == old(psCores)
      {
        LinkEdgesStep(order, i);
        SeqAssoc(g0.edges, LinkEdges(order[..i]), CoreSwitchEdges(order[i]));
        var core := order[i];
        sGraph.model := Connect(sGraph.model, core, OcmSwitch, Some(PortToOcmSwitch), Some(SwitchPort1),
                                Platforms.PhysicalVisual);
        sGraph.model := Connect(sGraph.model, OcmSwitch, core, Some(SwitchPort1), Some(PortToOcmSwitch),
                                Platforms.PhysicalVisual);
        i := i + 1;
      }
      assert order[..i] == order;
      SeqAssoc(old(sGraph.model).edges, [top], LinkEdges(order));
      ocmSwitch := Some(OcmSwitch);
      outcome := Done;
    }

    /** `AddFPGA()`: its body is empty, so the object is left as it was. */
    method AddFPGA()
      modifies this, sGraph
      ensures State() == old(State())
    {
    }
  }
}
