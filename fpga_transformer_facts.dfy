/** What the FPGA transformation establishes: each pass registers and builds
    one processing module, records the renamed instructions and joins the
    module to its switch; passes never undo what earlier passes did; and a
    transformation that ends normally has implemented every hardware actor
    on every logic-programmable module. */
module TransformerFacts {
  import opened Graphs
  import opened Text
  import opened Platforms
  import opened Linking
  import opened ComponentPlatforms
  import opened FPGATransformer

  /** `enumerate` lists every key set completely and without repetition, as
      iterating a hash map's key set does. */
  ghost predicate Enumerates(enumerate: set<string> -> seq<string>)
  {
    forall s: set<string> :: IsEnumeration(enumerate(s), s)
  }

  /** Every vertex of `g` is in `h` with the same traits and properties:
      only ports and edges may have been added. */
  ghost predicate SameRecords(g: Graph, h: Graph)
  {
    forall n :: n in g.vertices ==>
      n in h.vertices && h.vertices[n].traits == g.vertices[n].traits && h.vertices[n].props == g.vertices[n].props
  }

  lemma AddPortsRecords(g: Graph, n: string, ps: set<string>)
    ensures SameRecords(g, AddPorts(g, n, ps))
  {
  }

  lemma SameRecordsTrans(g: Graph, h: Graph, k: Graph)
    requires SameRecords(g, h) && SameRecords(h, k)
    ensures SameRecords(g, k)
  {
  }

  lemma LinkOneRecords(st: LinkStyle, s: PState, src: string, dst: string)
    ensures SameRecords(s.graph, LinkOne(st, s, src, dst).state.graph)
  {
    if !IllegalPair(KindOf(s.viewers, src), KindOf(s.viewers, dst)) {
      var g1 := AddPorts(s.graph, dst, {DstPort(st, src, dst)});
      var g2 := AddPorts(g1, src, {SrcPort(st, src, dst)});
      AddPortsRecords(s.graph, dst, {DstPort(st, src, dst)});
      AddPortsRecords(g1, src, {SrcPort(st, src, dst)});
      SameRecordsTrans(s.graph, g1, g2);
      assert LinkOne(st, s, src, dst).state.graph.vertices == g2.vertices;
    }
  }

  /** Linking only adds ports and edges. */
  lemma {:induction false} LinkAllRecords(st: LinkStyle, s: PState, srcs: seq<string>, dst: string)
    ensures SameRecords(s.graph, LinkAll(st, s, srcs, dst).state.graph)
    decreases |srcs|
  {
    if srcs != [] {
      var pre := srcs[..|srcs| - 1];
      LinkAllRecords(st, s, pre, dst);
      var p := LinkAll(st, s, pre, dst);
      if p.outcome == Done {
        LinkOneRecords(st, p.state, srcs[|srcs| - 1], dst);
      }
    }
  }

  /** `Connect` only adds ports and edges, whatever its outcome. */
  lemma ConnectRecords(s: PState, ns: string, dst: string, order: seq<string>)
    ensures SameRecords(s.graph, ConnectStep(s, ns, dst, order).state.graph)
  {
    if dst in s.viewers && Matching(order, ns, None) != [] {
      LinkAllRecords(NamedStyle, s, Matching(order, ns, None), dst);
    }
  }

  /** A single-core `AddCPU` adds one core under the CPU's own name. */
  lemma OneCore(s: PState, name: string, frequency: int, modal: map<string, map<string, real>>)
    ensures AddCPUStep(s, name, 1, frequency, modal) ==
            CoreStep(s, name, frequency, Rates(modal), TimeDivisionMultiplexingRuntime, ContainmentVisual)
  {
    var cores := CoreNames(name, 1);
    assert cores[0] == name;
    SingleCore(s, cores, frequency, Rates(modal), TimeDivisionMultiplexingRuntime, ContainmentVisual);
  }

  lemma SingleCore(s: PState, cores: seq<string>, frequency: int, ipc: map<string, map<string, Ipc>>,
                   runtime: Trait, link: set<EdgeTrait>)
    requires |cores| == 1
    ensures CoresOver(s, cores, frequency, ipc, runtime, link) == CoreStep(s, cores[0], frequency, ipc, runtime, link)
  {
    assert cores[..0] == [];
  }

  /** The platform part of one pass: the single core `name`, then its
      connection to `sw`. */
  function CorePass(s: PState, name: string, ipc: map<string, map<string, Ipc>>, sw: string,
                    enumerate: set<string> -> seq<string>): Step
  {
    var p := CoreStep(s, name, HWImplFrequency, ipc, TimeDivisionMultiplexingRuntime, ContainmentVisual);
    ConnectStep(p, name, sw, enumerate(p.viewers.Keys))
  }

  lemma PassShape(t: TState, a: string, hw: map<string, int>, l: string, sw: string,
                  enumerate: set<string> -> seq<string>)
    ensures var c := CorePass(t.platform, HWImplName(l, a), Rates(ModuleInstructions(l, a, hw)), sw, enumerate);
            PairStep(t, a, Some(hw), l, sw, enumerate) == TStep(TState(c.state, PairStep(t, a, Some(hw), l, sw, enumerate).state.app), c.outcome)
  {
    OneCore(t.platform, HWImplName(l, a), HWImplFrequency, ModuleInstructions(l, a, hw));
  }

  lemma CorePassFacts(s: PState, name: string, ipc: map<string, map<string, Ipc>>, sw: string,
                      enumerate: set<string> -> seq<string>)
    ensures var c := CorePass(s, name, ipc, sw, enumerate).state;
            c.viewers == s.viewers[name := ProcessingView] &&
            Grows(s.graph, c.graph) &&
            (Registered(s) ==> Registered(c)) &&
            CoreBuilt(c.graph, name, HWImplFrequency, ipc, TimeDivisionMultiplexingRuntime) &&
            forall m :: m in s.graph.vertices && m != name && m != SchedulerName(name) ==>
              m in c.graph.vertices && c.graph.vertices[m].traits == s.graph.vertices[m].traits &&
              c.graph.vertices[m].props == s.graph.vertices[m].props
  {
    var p := CoreStep(s, name, HWImplFrequency, ipc, TimeDivisionMultiplexingRuntime, ContainmentVisual);
    var c := ConnectStep(p, name, sw, enumerate(p.viewers.Keys));
    CorePassRecords(s, name, ipc, sw, enumerate);
    GrowsTransitive(s.graph, p.graph, c.state.graph);
    if Registered(s) {
      assert Registered(p);
      RegisteredKept(p, c.state.graph);
    }
  }

  lemma CorePassRecords(s: PState, name: string, ipc: map<string, map<string, Ipc>>, sw: string,
                        enumerate: set<string> -> seq<string>)
    ensures var c := CorePass(s, name, ipc, sw, enumerate).state;
            CoreBuilt(c.graph, name, HWImplFrequency, ipc, TimeDivisionMultiplexingRuntime) &&
            forall m :: m in s.graph.vertices && m != name && m != SchedulerName(name) ==>
              m in c.graph.vertices && c.graph.vertices[m].traits == s.graph.vertices[m].traits &&
              c.graph.vertices[m].props == s.graph.vertices[m].props
  {
    var p := CoreStep(s, name, HWImplFrequency, ipc, TimeDivisionMultiplexingRuntime, ContainmentVisual);
    ConnectRecords(p, name, sw, enumerate(p.viewers.Keys));
    assert SameRecords(p.graph, CorePass(s, name, ipc, sw, enumerate).state.graph);
  }

  /** The platform side of one pass: `L_HW_Impl_a` becomes a registered
      processing module built as a single core at 100 MHz offering exactly
      the renamed instructions, and every other vertex keeps its traits and
      properties. */
  lemma PairPlatform(t: TState, a: string, hw: map<string, int>, l: string, sw: string,
                     enumerate: set<string> -> seq<string>)
    ensures var r := PairStep(t, a, Some(hw), l, sw, enumerate);
            var name := HWImplName(l, a);
            r.state.platform.viewers == t.platform.viewers[name := ProcessingView] &&
            Grows(t.platform.graph, r.state.platform.graph) &&
            (Registered(t.platform) ==> Registered(r.state.platform)) &&
            CoreBuilt(r.state.platform.graph, name, HWImplFrequency, Rates(ModuleInstructions(l, a, hw)),
                      TimeDivisionMultiplexingRuntime) &&
            forall m :: m in t.platform.graph.vertices && m != name && m != SchedulerName(name) ==>
              m in r.state.platform.graph.vertices &&
              r.state.platform.graph.vertices[m].traits == t.platform.graph.vertices[m].traits &&
              r.state.platform.graph.vertices[m].props == t.platform.graph.vertices[m].props
  {
    PassShape(t, a, hw, l, sw, enumerate);
    CorePassFacts(t.platform, HWImplName(l, a), Rates(ModuleInstructions(l, a, hw)), sw, enumerate);
  }

  /** Setting the software requirements of `a` changes nothing else. */
  lemma SetReqsFacts(g: Graph, a: string, reqs: map<string, map<string, int>>)
    ensures var h := SetReqs(g, a, reqs);
            VertexOf(h, a).traits == VertexOf(g, a).traits &&
            (forall m :: ResourceReqsOf(h, m) == ResourceReqsOf(g, m))
  {
    var h := SetReqs(g, a, reqs);
    assert VertexOf(h, a) == VertexOf(g, a).(props := VertexOf(g, a).props[ComputationalRequirements := RequirementsV(reqs)]);
  }

  /** The application side of one pass: actor `a`'s requirements gain the
      renamed instructions under `L_HW_Instructions_a`; nothing else changes
      (a missing hardware map changes nothing at all). */
  lemma PairApp(t: TState, a: string, hw: Option<map<string, int>>, l: string, sw: string,
                enumerate: set<string> -> seq<string>)
    ensures var r := PairStep(t, a, hw, l, sw, enumerate);
            (hw.None? ==> r == TStep(t, Thrown(NullPointer))) &&
            (hw.Some? ==> ReqsOf(r.state.app, a) == ReqsOf(t.app, a)[HWInstrsName(l, a) := Prefixed(l, hw.value)]) &&
            VertexOf(r.state.app, a).traits == VertexOf(t.app, a).traits &&
            (forall m :: m != a ==> VertexOf(r.state.app, m) == VertexOf(t.app, m)) &&
            (forall m :: ResourceReqsOf(r.state.app, m) == ResourceReqsOf(t.app, m)) &&
            (forall m :: HasReqs(t.app, m) ==> HasReqs(r.state.app, m))
  {
    if hw.Some? {
      var reqs := ReqsOf(t.app, a)[HWInstrsName(l, a) := Prefixed(l, hw.value)];
      assert PairStep(t, a, hw, l, sw, enumerate).state.app == SetReqs(t.app, a, reqs);
      SetReqsFacts(t.app, a, reqs);
    }
  }

  /** How the connection of a new core ends: `IllegalArgument` exactly
      when the switch is not registered (and is not the core itself),
      otherwise completion or a refused processing-module/memory pair;
      towards a registered communication module it completes and joins the
      core to it. */
  lemma CorePassOutcome(s: PState, name: string, ipc: map<string, map<string, Ipc>>, sw: string,
                        enumerate: set<string> -> seq<string>)
    requires Enumerates(enumerate)
    ensures var c := CorePass(s, name, ipc, sw, enumerate);
            (c.outcome == Done || c.outcome == Thrown(IllegalArgument) || c.outcome == Thrown(UnsupportedOperation)) &&
            (c.outcome == Thrown(IllegalArgument) <==> sw !in s.viewers && sw != name) &&
            (KindOf(s.viewers, sw) == Some(CommunicationView) && sw != name ==> c.outcome == Done) &&
            (c.outcome == Done ==> HasConnection(c.state.graph, name, sw))
  {
    var p := CoreStep(s, name, HWImplFrequency, ipc, TimeDivisionMultiplexingRuntime, ContainmentVisual);
    var order := enumerate(p.viewers.Keys);
    assert IsEnumeration(order, p.viewers.Keys);
    ConnectOwn(p, name, sw, order);
  }

  /** Connecting a registered name to `sw`: `IllegalArgument` exactly when
      `sw` is not registered, completion towards a communication module,
      and a join after completion. */
  lemma ConnectOwn(p: PState, name: string, sw: string, order: seq<string>)
    requires name in order
    ensures var c := ConnectStep(p, name, sw, order);
            (c.outcome == Done || c.outcome == Thrown(IllegalArgument) || c.outcome == Thrown(UnsupportedOperation)) &&
            (c.outcome == Thrown(IllegalArgument) <==> sw !in p.viewers) &&
            (KindOf(p.viewers, sw) == Some(CommunicationView) ==> c.outcome == Done) &&
            (c.outcome == Done ==> HasConnection(c.state.graph, name, sw))
  {
    assert Contains(name, name);
    var srcs := Matching(order, name, None);
    assert name in srcs;
    if KindOf(p.viewers, sw) == Some(CommunicationView) {
      CommunicationLegal(p.viewers, srcs, sw);
      LinkAllOutcome(NamedStyle, p, srcs, sw);
    }
    if ConnectStep(p, name, sw, order).outcome == Done {
      ConnectJoins(p, name, sw, order, name);
    }
  }

  /** How one pass ends: it throws `IllegalArgument` exactly when the switch
      is not registered (and is not the new module itself), and otherwise
      either completes or meets a refused processing-module/memory pair. */
  lemma PairOutcomes(t: TState, a: string, hw: map<string, int>, l: string, sw: string,
                     enumerate: set<string> -> seq<string>)
    requires Enumerates(enumerate)
    ensures var r := PairStep(t, a, Some(hw), l, sw, enumerate);
            (r.outcome == Done || r.outcome == Thrown(IllegalArgument) || r.outcome == Thrown(UnsupportedOperation)) &&
            (r.outcome == Thrown(IllegalArgument) <==> sw !in t.platform.viewers && sw != HWImplName(l, a))
  {
    PassShape(t, a, hw, l, sw, enumerate);
    CorePassOutcome(t.platform, HWImplName(l, a), Rates(ModuleInstructions(l, a, hw)), sw, enumerate);
  }

  /** A pass towards a registered communication module completes, and a
      completed pass has joined the new module to its switch. */
  lemma PairJoins(t: TState, a: string, hw: map<string, int>, l: string, sw: string,
                  enumerate: set<string> -> seq<string>)
    requires Enumerates(enumerate)
    ensures var r := PairStep(t, a, Some(hw), l, sw, enumerate);
            (KindOf(t.platform.viewers, sw) == Some(CommunicationView) && sw != HWImplName(l, a) ==> r.outcome == Done) &&
            (r.outcome == Done ==> HasConnection(r.state.platform.graph, HWImplName(l, a), sw))
  {
    PassShape(t, a, hw, l, sw, enumerate);
    CorePassOutcome(t.platform, HWImplName(l, a), Rates(ModuleInstructions(l, a, hw)), sw, enumerate);
  }

  /** The requirement names of one actor on two modules differ. */
  lemma HWInstrsNameInjective(l: string, k: string, a: string)
    ensures HWInstrsName(l, a) == HWInstrsName(k, a) <==> l == k
  {
    if HWInstrsName(l, a) == HWInstrsName(k, a) {
      var s := HWInstrsName(l, a);
      var tail := "_" + HWInstructions + "_" + a;
      assert s == l + tail && s == k + tail;
      assert l == s[..|s| - |tail|];
    }
  }

  /** Actor `a`, whose hardware instructions are `hw`, is implemented in `t`
      on module `l`: its requirements hold that module's renamed
      instructions, and the module's processing module is registered and
      joined to the module's switch. */
  ghost predicate ImplementedOn(t: TState, a: string, hw: map<string, int>, l: string, sws: map<string, string>)
  {
    HWInstrsName(l, a) in ReqsOf(t.app, a) && ReqsOf(t.app, a)[HWInstrsName(l, a)] == Prefixed(l, hw) &&
    KindOf(t.platform.viewers, HWImplName(l, a)) == Some(ProcessingView) &&
    l in sws && HasConnection(t.platform.graph, HWImplName(l, a), sws[l])
  }

  /** ... on each module of `lpms`. */
  ghost predicate Implemented(t: TState, a: string, hw: map<string, int>, lpms: seq<string>, sws: map<string, string>)
  {
    forall j :: 0 <= j < |lpms| ==> ImplementedOn(t, a, hw, lpms[j], sws)
  }

  /** A completed pass implements its actor on its module. */
  lemma PairImplements(t: TState, a: string, hw: map<string, int>, l: string, sws: map<string, string>,
                       enumerate: set<string> -> seq<string>)
    requires Enumerates(enumerate) && l in sws
    requires PairStep(t, a, Some(hw), l, sws[l], enumerate).outcome == Done
    ensures ImplementedOn(PairStep(t, a, Some(hw), l, sws[l], enumerate).state, a, hw, l, sws)
  {
    PairPlatform(t, a, hw, l, sws[l], enumerate);
    PairApp(t, a, Some(hw), l, sws[l], enumerate);
    PairJoins(t, a, hw, l, sws[l], enumerate);
  }

  lemma ReqsOfSame(g: Graph, h: Graph, n: string)
    requires VertexOf(g, n) == VertexOf(h, n)
    ensures ReqsOf(g, n) == ReqsOf(h, n)
  {
  }

  /** Between `t` and `r` no application vertex outside `touched` changed,
      no resource requirements changed, no software requirements
      disappeared and the platform graph was only extended. */
  ghost predicate Frame(t: TState, r: TState, touched: seq<string>)
  {
    (forall m :: m !in touched ==> VertexOf(r.app, m) == VertexOf(t.app, m)) &&
    (forall m :: ResourceReqsOf(r.app, m) == ResourceReqsOf(t.app, m)) &&
    (forall m :: HasReqs(t.app, m) ==> HasReqs(r.app, m)) &&
    Grows(t.platform.graph, r.platform.graph)
  }

  lemma FrameRefl(t: TState, xs: seq<string>)
    ensures Frame(t, t, xs)
  {
  }

  lemma FrameTrans(t: TState, p: TState, r: TState, xs: seq<string>, ys: seq<string>)
    requires Frame(t, p, xs) && Frame(p, r, ys)
    ensures Frame(t, r, xs + ys)
  {
    GrowsTransitive(t.platform.graph, p.platform.graph, r.platform.graph);
  }

  lemma FrameTransSame(t: TState, p: TState, r: TState, xs: seq<string>)
    requires Frame(t, p, xs) && Frame(p, r, xs)
    ensures Frame(t, r, xs)
  {
    GrowsTransitive(t.platform.graph, p.platform.graph, r.platform.graph);
  }

  /** What one pass of actor `b`, with hardware map `hwb`, on module `k`
      changes between `t` and `r`: at most the requirements of `b` (one
      entry more), the registry (one processing module more) and the
      platform graph (only extended). A missing map changes nothing. */
  ghost predicate PassOf(t: TState, r: TState, b: string, hwb: Option<map<string, int>>, k: string)
  {
    Frame(t, r, [b]) &&
    (hwb.None? ==> r == t) &&
    (hwb.Some? ==> ReqsOf(r.app, b) == ReqsOf(t.app, b)[HWInstrsName(k, b) := Prefixed(k, hwb.value)] &&
                   r.platform.viewers == t.platform.viewers[HWImplName(k, b) := ProcessingView])
  }

  /** Every pass is such a step. */
  lemma PairPass(t: TState, b: string, hwb: Option<map<string, int>>, k: string, sw: string,
                 enumerate: set<string> -> seq<string>)
    ensures PassOf(t, PairStep(t, b, hwb, k, sw, enumerate).state, b, hwb, k)
  {
    PairApp(t, b, hwb, k, sw, enumerate);
    if hwb.Some? {
      PairPlatform(t, b, hwb.value, k, sw, enumerate);
    }
  }

  /** No pass undoes an implementation: requirement entries of other
      modules or actors stay, registrations only add processing modules and
      edges are never removed. A pass for the same actor uses the same
      hardware map. */
  lemma OnKept(t: TState, r: TState, b: string, hwb: Option<map<string, int>>, k: string,
               a: string, hw: map<string, int>, l: string, sws: map<string, string>)
    requires ImplementedOn(t, a, hw, l, sws) && PassOf(t, r, b, hwb, k)
    requires b == a && hwb.Some? ==> hwb.value == hw
    ensures ImplementedOn(r, a, hw, l, sws)
  {
    if hwb.Some? {
      if b != a {
        ReqsOfSame(t.app, r.app, a);
      }
      HWInstrsNameInjective(l, k, a);
      HasConnectionGrows(t.platform.graph, r.platform.graph, HWImplName(l, a), sws[l]);
    }
  }

  /** Pass `n` of the inner loop, after `n - 1` completed ones. */
  lemma PairsNext(t: TState, b: string, hwb: Option<map<string, int>>, lpms: seq<string>,
                  sws: map<string, string>, n: nat, enumerate: set<string> -> seq<string>)
    requires 0 < n <= |lpms| && forall l :: l in lpms ==> l in sws
    requires Pairs(t, b, hwb, lpms, sws, n - 1, enumerate).outcome == Done
    ensures PassOf(Pairs(t, b, hwb, lpms, sws, n - 1, enumerate).state, Pairs(t, b, hwb, lpms, sws, n, enumerate).state,
                   b, hwb, lpms[n - 1])
  {
    var k := lpms[n - 1];
    PairPass(Pairs(t, b, hwb, lpms, sws, n - 1, enumerate).state, b, hwb, k, sws[k], enumerate);
  }

  /** The inner loop changes no other actor's vertex and no hardware map,
      and only extends the platform graph. */
  lemma {:induction false} PairsFrame(t: TState, b: string, hwb: Option<map<string, int>>, lpms: seq<string>,
                                      sws: map<string, string>, n: nat, enumerate: set<string> -> seq<string>)
    requires n <= |lpms| && forall l :: l in lpms ==> l in sws
    ensures Frame(t, Pairs(t, b, hwb, lpms, sws, n, enumerate).state, [b])
  {
    if n == 0 {
      FrameRefl(t, [b]);
    } else {
      PairsFrame(t, b, hwb, lpms, sws, n - 1, enumerate);
      assert Frame(t, Pairs(t, b, hwb, lpms, sws, n - 1, enumerate).state, [b]);
      if Pairs(t, b, hwb, lpms, sws, n - 1, enumerate).outcome == Done {
        PairsNext(t, b, hwb, lpms, sws, n, enumerate);
        FrameTransSame(t, Pairs(t, b, hwb, lpms, sws, n - 1, enumerate).state,
                       Pairs(t, b, hwb, lpms, sws, n, enumerate).state, [b]);
      }
    }
  }

  /** The inner loop undoes no implementation: what holds after its first
      `m` passes still holds after `n`. */
  lemma {:induction false} PairsKeep(t: TState, b: string, hwb: Option<map<string, int>>, lpms: seq<string>,
                                     sws: map<string, string>, m: nat, n: nat, enumerate: set<string> -> seq<string>,
                                     a: string, hw: map<string, int>, l: string)
    requires m <= n <= |lpms| && forall l :: l in lpms ==> l in sws
    requires b == a && hwb.Some? ==> hwb.value == hw
    requires ImplementedOn(Pairs(t, b, hwb, lpms, sws, m, enumerate).state, a, hw, l, sws)
    ensures ImplementedOn(Pairs(t, b, hwb, lpms, sws, n, enumerate).state, a, hw, l, sws)
    decreases n
  {
    if m < n {
      PairsKeep(t, b, hwb, lpms, sws, m, n - 1, enumerate, a, hw, l);
      PairsKeepStep(t, b, hwb, lpms, sws, n, enumerate, a, hw, l);
    }
  }

  lemma PairsKeepStep(t: TState, b: string, hwb: Option<map<string, int>>, lpms: seq<string>,
                      sws: map<string, string>, n: nat, enumerate: set<string> -> seq<string>,
                      a: string, hw: map<string, int>, l: string)
    requires 0 < n <= |lpms| && forall l :: l in lpms ==> l in sws
    requires b == a && hwb.Some? ==> hwb.value == hw
    requires ImplementedOn(Pairs(t, b, hwb, lpms, sws, n - 1, enumerate).state, a, hw, l, sws)
    ensures ImplementedOn(Pairs(t, b, hwb, lpms, sws, n, enumerate).state, a, hw, l, sws)
  {
    if Pairs(t, b, hwb, lpms, sws, n - 1, enumerate).outcome == Done {
      PairsNext(t, b, hwb, lpms, sws, n, enumerate);
      OnKept(Pairs(t, b, hwb, lpms, sws, n - 1, enumerate).state, Pairs(t, b, hwb, lpms, sws, n, enumerate).state,
             b, hwb, lpms[n - 1], a, hw, l, sws);
    }
  }

  lemma PrefixLast(xs: seq<string>, n: nat)
    requires 0 < n <= |xs|
    ensures xs[..n] == xs[..n - 1] + [xs[n - 1]]
  {
  }

  /** When the inner loop completes, so did each of its passes. */
  lemma PairsDoneBefore(t: TState, a: string, hwb: Option<map<string, int>>, lpms: seq<string>,
                        sws: map<string, string>, m: nat, n: nat, enumerate: set<string> -> seq<string>)
    requires m <= n <= |lpms| && forall l :: l in lpms ==> l in sws
    requires Pairs(t, a, hwb, lpms, sws, n, enumerate).outcome == Done
    ensures Pairs(t, a, hwb, lpms, sws, m, enumerate).outcome == Done
  {
    if Pairs(t, a, hwb, lpms, sws, m, enumerate).outcome != Done {
      PairsStop(t, a, hwb, lpms, sws, m, n, enumerate);
    }
  }

  /** Pass `n` of the inner loop, when it completes, implements its actor on
      its module. */
  lemma PairsLast(t: TState, a: string, hwb: Option<map<string, int>>, lpms: seq<string>,
                  sws: map<string, string>, n: nat, enumerate: set<string> -> seq<string>)
    requires 0 < n <= |lpms| && forall l :: l in lpms ==> l in sws
    requires Enumerates(enumerate) && hwb.Some?
    requires Pairs(t, a, hwb, lpms, sws, n, enumerate).outcome == Done
    ensures ImplementedOn(Pairs(t, a, hwb, lpms, sws, n, enumerate).state, a, hwb.value, lpms[n - 1], sws)
  {
    var p := Pairs(t, a, hwb, lpms, sws, n - 1, enumerate);
    assert Pairs(t, a, hwb, lpms, sws, n, enumerate) == PairStep(p.state, a, hwb, lpms[n - 1], sws[lpms[n - 1]], enumerate);
    PairImplements(p.state, a, hwb.value, lpms[n - 1], sws, enumerate);
  }

  /** An inner loop that completes implements its actor on every module. */
  lemma PairsImplement(t: TState, a: string, hwb: Option<map<string, int>>, lpms: seq<string>,
                       sws: map<string, string>, enumerate: set<string> -> seq<string>)
    requires forall l :: l in lpms ==> l in sws
    requires Enumerates(enumerate) && hwb.Some?
    requires Pairs(t, a, hwb, lpms, sws, |lpms|, enumerate).outcome == Done
    ensures Implemented(Pairs(t, a, hwb, lpms, sws, |lpms|, enumerate).state, a, hwb.value, lpms, sws)
  {
    forall j | 0 <= j < |lpms|
      ensures ImplementedOn(Pairs(t, a, hwb, lpms, sws, |lpms|, enumerate).state, a, hwb.value, lpms[j], sws)
    {
      PairsDoneBefore(t, a, hwb, lpms, sws, j + 1, |lpms|, enumerate);
      PairsLast(t, a, hwb, lpms, sws, j + 1, enumerate);
      PairsKeep(t, a, hwb, lpms, sws, j + 1, |lpms|, enumerate, a, hwb.value, lpms[j]);
    }
  }

  /** The map that writes `val(l)` under `key(l)` for the first `n`
      elements `l` of `ls`, in order. */
  ghost function Writes<V>(ls: seq<string>, n: nat, key: string -> string, val: string -> V): map<string, V>
    requires n <= |ls|
  {
    if n == 0 then map[] else Writes(ls, n - 1, key, val)[key(ls[n - 1]) := val(ls[n - 1])]
  }

  /** With an injective `key`, each of the first `n` elements has its
      value. */
  lemma {:induction false} WritesHas<V>(ls: seq<string>, n: nat, j: nat, key: string -> string, val: string -> V)
    requires j < n <= |ls|
    requires forall x, y :: key(x) == key(y) ==> x == y
    ensures key(ls[j]) in Writes(ls, n, key, val) && Writes(ls, n, key, val)[key(ls[j])] == val(ls[j])
    decreases n
  {
    if ls[j] != ls[n - 1] {
      WritesHas(ls, n - 1, j, key, val);
    }
  }

  /** Nothing but the keys of the first `n` elements is written. */
  lemma {:induction false} WritesOnly<V>(ls: seq<string>, n: nat, key: string -> string, val: string -> V, k: string)
    requires n <= |ls| && k in Writes(ls, n, key, val)
    ensures exists j :: 0 <= j < n && k == key(ls[j])
    decreases n
  {
    if k != key(ls[n - 1]) {
      WritesOnly(ls, n - 1, key, val, k);
    }
  }

  /** The requirement name of actor `a` on each module. */
  function InstrsKey(a: string): string -> string
  {
    l => HWInstrsName(l, a)
  }

  /** The renamed instructions of `hw` on each module. */
  function PrefixedBy(hw: map<string, int>): string -> map<string, int>
  {
    l => Prefixed(l, hw)
  }

  /** The entries the inner loop adds to the requirements of actor `a`:
      one `<l>_HWInstructions_<a>` map per module `l` of `ls`, written in
      order. */
  ghost function AddedReqs(a: string, hw: Option<map<string, int>>, ls: seq<string>): map<string, map<string, int>>
    requires ls == [] || hw.Some?
  {
    if ls == [] then map[] else Writes(ls, |ls|, InstrsKey(a), PrefixedBy(hw.value))
  }

  /** The added entries are exactly one per module, each holding that
      module's renamed instructions. */
  lemma AddedReqsFacts(a: string, hw: map<string, int>, ls: seq<string>)
    ensures forall l :: l in ls ==> HWInstrsName(l, a) in AddedReqs(a, Some(hw), ls) &&
                                     AddedReqs(a, Some(hw), ls)[HWInstrsName(l, a)] == Prefixed(l, hw)
    ensures forall k :: k in AddedReqs(a, Some(hw), ls) ==> exists l :: l in ls && k == HWInstrsName(l, a)
  {
    var key := InstrsKey(a);
    var val := PrefixedBy(hw);
    forall x, y | key(x) == key(y) ensures x == y {
      HWInstrsNameInjective(x, y, a);
    }
    forall l | l in ls
      ensures HWInstrsName(l, a) in AddedReqs(a, Some(hw), ls) &&
              AddedReqs(a, Some(hw), ls)[HWInstrsName(l, a)] == Prefixed(l, hw)
    {
      var j :| 0 <= j < |ls| && ls[j] == l;
      WritesHas(ls, |ls|, j, key, val);
    }
    forall k | k in AddedReqs(a, Some(hw), ls)
      ensures exists l :: l in ls && k == HWInstrsName(l, a)
    {
      WritesOnly(ls, |ls|, key, val, k);
      var j :| 0 <= j < |ls| && k == key(ls[j]);
      assert ls[j] in ls;
    }
  }

  /** The requirements of `a` in `after` are those it had in `before`
      with the entries for the modules `ls` merged in: every earlier entry
      stays unless a new one of the same name replaces it. */
  ghost predicate ReqsMerged(before: Graph, after: Graph, a: string, ls: seq<string>)
  {
    (ls == [] || HWReqsOf(before, a).Some?) &&
    ReqsOf(after, a) == ReqsOf(before, a) + AddedReqs(a, HWReqsOf(before, a), ls)
  }

  /** The entry `k` of the requirements of `a`, if any. */
  ghost function ReqLookup(g: Graph, a: string, k: string): Option<map<string, int>>
  {
    if k in ReqsOf(g, a) then Some(ReqsOf(g, a)[k]) else None
  }

  /** A pass of actor `b` on module `l` writes nothing into entry `k` of
      actor `a` but the value `v` it already holds. */
  ghost predicate Rewrites(b: string, hwb: Option<map<string, int>>, l: string, a: string, k: string,
                           v: Option<map<string, int>>)
  {
    b == a && hwb.Some? && k == HWInstrsName(l, a) ==> v == Some(Prefixed(l, hwb.value))
  }

  /** A pass writes the entry of its own module... */
  lemma EntryWritten(t: TState, r: TState, a: string, hwb: Option<map<string, int>>, l: string)
    requires hwb.Some? && PassOf(t, r, a, hwb, l)
    ensures ReqLookup(r.app, a, HWInstrsName(l, a)) == Some(Prefixed(l, hwb.value))
  {
  }

  /** ... and leaves every entry it does not rewrite. */
  lemma EntryKept(t: TState, r: TState, b: string, hwb: Option<map<string, int>>, l: string,
                  a: string, k: string, v: Option<map<string, int>>)
    requires ReqLookup(t.app, a, k) == v && PassOf(t, r, b, hwb, l) && Rewrites(b, hwb, l, a, k, v)
    ensures ReqLookup(r.app, a, k) == v
  {
    if hwb.Some? && b != a {
      ReqsOfSame(t.app, r.app, a);
    }
  }

  lemma PairsEntryStep(t: TState, b: string, hwb: Option<map<string, int>>, lpms: seq<string>,
                       sws: map<string, string>, n: nat, enumerate: set<string> -> seq<string>,
                       a: string, k: string, v: Option<map<string, int>>)
    requires 0 < n <= |lpms| && forall l :: l in lpms ==> l in sws
    requires Rewrites(b, hwb, lpms[n - 1], a, k, v)
    requires ReqLookup(Pairs(t, b, hwb, lpms, sws, n - 1, enumerate).state.app, a, k) == v
    ensures ReqLookup(Pairs(t, b, hwb, lpms, sws, n, enumerate).state.app, a, k) == v
  {
    if Pairs(t, b, hwb, lpms, sws, n - 1, enumerate).outcome == Done {
      PairsNext(t, b, hwb, lpms, sws, n, enumerate);
      EntryKept(Pairs(t, b, hwb, lpms, sws, n - 1, enumerate).state, Pairs(t, b, hwb, lpms, sws, n, enumerate).state,
                b, hwb, lpms[n - 1], a, k, v);
    }
  }

  /** An entry that no pass of the inner loop rewrites keeps its value
      from pass `m` to pass `n`. */
  lemma {:induction false} PairsEntry(t: TState, b: string, hwb: Option<map<string, int>>, lpms: seq<string>,
                                      sws: map<string, string>, m: nat, n: nat, enumerate: set<string> -> seq<string>,
                                      a: string, k: string, v: Option<map<string, int>>)
    requires m <= n <= |lpms| && forall l :: l in lpms ==> l in sws
    requires forall l :: l in lpms ==> Rewrites(b, hwb, l, a, k, v)
    requires ReqLookup(Pairs(t, b, hwb, lpms, sws, m, enumerate).state.app, a, k) == v
    ensures ReqLookup(Pairs(t, b, hwb, lpms, sws, n, enumerate).state.app, a, k) == v
    decreases n
  {
    if m < n {
      PairsEntry(t, b, hwb, lpms, sws, m, n - 1, enumerate, a, k, v);
      assert lpms[n - 1] in lpms;
      PairsEntryStep(t, b, hwb, lpms, sws, n, enumerate, a, k, v);
    }
  }

  /** Requirements whose every entry is that of `w`, or else that of
      `h`, are those of `h` with `w` merged in. */
  lemma LookupsMerge(g: Graph, h: Graph, a: string, w: map<string, map<string, int>>)
    requires forall k :: ReqLookup(g, a, k) == if k in w then Some(w[k]) else ReqLookup(h, a, k)
    ensures ReqsOf(g, a) == ReqsOf(h, a) + w
  {
    var x := ReqsOf(g, a);
    var y := ReqsOf(h, a);
    forall k ensures (k in x <==> k in y + w) && (k in x ==> x[k] == (y + w)[k]) {
      assert ReqLookup(g, a, k) == if k in w then Some(w[k]) else ReqLookup(h, a, k);
    }
    assert x.Keys == (y + w).Keys;
  }

  /** After a completed inner loop, the entry of its actor on module `l`
      holds the renamed instructions of `l`. */
  lemma PairsNewEntry(t: TState, a: string, hwb: Option<map<string, int>>, lpms: seq<string>,
                      sws: map<string, string>, enumerate: set<string> -> seq<string>, l: string)
    requires forall l :: l in lpms ==> l in sws
    requires hwb.Some? && Pairs(t, a, hwb, lpms, sws, |lpms|, enumerate).outcome == Done && l in lpms
    ensures ReqLookup(Pairs(t, a, hwb, lpms, sws, |lpms|, enumerate).state.app, a, HWInstrsName(l, a)) ==
            Some(Prefixed(l, hwb.value))
  {
    var k := HWInstrsName(l, a);
    var j :| 0 <= j < |lpms| && lpms[j] == l;
    PairsDoneBefore(t, a, hwb, lpms, sws, j + 1, |lpms|, enumerate);
    PairsLastEntry(t, a, hwb, lpms, sws, j + 1, enumerate);
    forall l' | l' in lpms ensures Rewrites(a, hwb, l', a, k, Some(Prefixed(l, hwb.value))) {
      HWInstrsNameInjective(l, l', a);
    }
    PairsEntry(t, a, hwb, lpms, sws, j + 1, |lpms|, enumerate, a, k, Some(Prefixed(l, hwb.value)));
  }

  /** Pass `n` of the inner loop, when it completes, writes the entry of
      its module. */
  lemma PairsLastEntry(t: TState, a: string, hwb: Option<map<string, int>>, lpms: seq<string>,
                       sws: map<string, string>, n: nat, enumerate: set<string> -> seq<string>)
    requires 0 < n <= |lpms| && forall l :: l in lpms ==> l in sws
    requires hwb.Some? && Pairs(t, a, hwb, lpms, sws, n, enumerate).outcome == Done
    ensures ReqLookup(Pairs(t, a, hwb, lpms, sws, n, enumerate).state.app, a, HWInstrsName(lpms[n - 1], a)) ==
            Some(Prefixed(lpms[n - 1], hwb.value))
  {
    var p := Pairs(t, a, hwb, lpms, sws, n - 1, enumerate);
    assert Pairs(t, a, hwb, lpms, sws, n, enumerate) == PairStep(p.state, a, hwb, lpms[n - 1], sws[lpms[n - 1]], enumerate);
    PairPass(p.state, a, hwb, lpms[n - 1], sws[lpms[n - 1]], enumerate);
    EntryWritten(p.state, Pairs(t, a, hwb, lpms, sws, n, enumerate).state, a, hwb, lpms[n - 1]);
  }

  /** After an inner loop, every entry of its actor that names no module
      of the loop is the one it had. */
  lemma PairsOldEntry(t: TState, a: string, hwb: Option<map<string, int>>, lpms: seq<string>,
                      sws: map<string, string>, enumerate: set<string> -> seq<string>, k: string)
    requires forall l :: l in lpms ==> l in sws
    requires forall l :: l in lpms ==> k != HWInstrsName(l, a)
    ensures ReqLookup(Pairs(t, a, hwb, lpms, sws, |lpms|, enumerate).state.app, a, k) == ReqLookup(t.app, a, k)
  {
    PairsEntry(t, a, hwb, lpms, sws, 0, |lpms|, enumerate, a, k, ReqLookup(t.app, a, k));
  }

  /** A completed inner loop has merged one entry per module into the
      requirements its actor had. */
  lemma PairsReqs(t: TState, a: string, hwb: Option<map<string, int>>, lpms: seq<string>,
                  sws: map<string, string>, enumerate: set<string> -> seq<string>)
    requires forall l :: l in lpms ==> l in sws
    requires hwb.Some? && Pairs(t, a, hwb, lpms, sws, |lpms|, enumerate).outcome == Done
    ensures ReqsOf(Pairs(t, a, hwb, lpms, sws, |lpms|, enumerate).state.app, a) ==
            ReqsOf(t.app, a) + AddedReqs(a, hwb, lpms)
  {
    var g := Pairs(t, a, hwb, lpms, sws, |lpms|, enumerate).state.app;
    var w := AddedReqs(a, hwb, lpms);
    AddedReqsFacts(a, hwb.value, lpms);
    forall k
      ensures ReqLookup(g, a, k) == if k in w then Some(w[k]) else ReqLookup(t.app, a, k)
    {
      if k in w {
        var l :| l in lpms && k == HWInstrsName(l, a);
        PairsNewEntry(t, a, hwb, lpms, sws, enumerate, l);
      } else {
        PairsOldEntry(t, a, hwb, lpms, sws, enumerate, k);
      }
    }
    LookupsMerge(g, t.app, a, w);
  }

  /** A completed pass of the outer loop merges its actor's new entries
      into the requirements that actor had. */
  lemma ActorPassReqs(t: TState, b: string, swActors: seq<string>, lpms: seq<string>, sws: map<string, string>,
                      enumerate: set<string> -> seq<string>)
    requires forall l :: l in lpms ==> l in sws
    requires ActorPass(t, b, swActors, lpms, sws, enumerate).outcome == Done
    ensures ReqsMerged(t.app, ActorPass(t, b, swActors, lpms, sws, enumerate).state.app, b, lpms)
  {
    var hwb := HWReqsOf(t.app, b);
    if hwb.None? {
      PairsNull(t, b, lpms, sws, |lpms|, enumerate);
      assert ReqsOf(t.app, b) + map[] == ReqsOf(t.app, b);
    } else {
      PairsReqs(t, b, hwb, lpms, sws, enumerate);
    }
  }

  /** Actor `a` has a software counterpart and, when there are modules, a
      hardware instruction map with which it is implemented on all of
      them. */
  ghost predicate ActorImplemented(t: TState, a: string, swActors: seq<string>, lpms: seq<string>,
                                   sws: map<string, string>)
  {
    a in swActors &&
    (lpms != [] ==> HWReqsOf(t.app, a).Some? && Implemented(t, a, HWReqsOf(t.app, a).value, lpms, sws))
  }

  /** A pass of the outer loop changes no other actor's vertex and no
      hardware map, and only extends the platform graph. */
  lemma ActorPassFrame(t: TState, b: string, swActors: seq<string>, lpms: seq<string>, sws: map<string, string>,
                       enumerate: set<string> -> seq<string>)
    requires forall l :: l in lpms ==> l in sws
    ensures Frame(t, ActorPass(t, b, swActors, lpms, sws, enumerate).state, [b])
  {
    if ResourceReqsOf(t.app, b).Some? && b in swActors && HasReqs(t.app, b) {
      PairsFrame(t, b, HWReqsOf(t.app, b), lpms, sws, |lpms|, enumerate);
    } else {
      FrameRefl(t, [b]);
    }
  }

  /** A pass of the outer loop, for any actor, keeps what earlier passes
      established. */
  lemma ActorPassKeeps(t: TState, b: string, swActors: seq<string>, lpms: seq<string>, sws: map<string, string>,
                       enumerate: set<string> -> seq<string>, a: string)
    requires forall l :: l in lpms ==> l in sws
    requires ActorImplemented(t, a, swActors, lpms, sws)
    ensures ActorImplemented(ActorPass(t, b, swActors, lpms, sws, enumerate).state, a, swActors, lpms, sws)
  {
    if ResourceReqsOf(t.app, b).Some? && b in swActors && HasReqs(t.app, b) && lpms != [] {
      forall j | 0 <= j < |lpms|
        ensures ImplementedOn(Pairs(t, b, HWReqsOf(t.app, b), lpms, sws, |lpms|, enumerate).state,
                              a, HWReqsOf(t.app, a).value, lpms[j], sws)
      {
        PairsKeep(t, b, HWReqsOf(t.app, b), lpms, sws, 0, |lpms|, enumerate, a, HWReqsOf(t.app, a).value, lpms[j]);
      }
      PairsFrame(t, b, HWReqsOf(t.app, b), lpms, sws, |lpms|, enumerate);
    }
  }

  /** A pass of the outer loop that completes implements its actor. */
  lemma ActorPassImplements(t: TState, b: string, swActors: seq<string>, lpms: seq<string>, sws: map<string, string>,
                            enumerate: set<string> -> seq<string>)
    requires forall l :: l in lpms ==> l in sws
    requires Enumerates(enumerate)
    requires ActorPass(t, b, swActors, lpms, sws, enumerate).outcome == Done
    ensures ActorImplemented(ActorPass(t, b, swActors, lpms, sws, enumerate).state, b, swActors, lpms, sws)
  {
    var hwb := HWReqsOf(t.app, b);
    if hwb.None? {
      PairsNull(t, b, lpms, sws, |lpms|, enumerate);
    } else {
      PairsImplement(t, b, hwb, lpms, sws, enumerate);
      PairsFrame(t, b, hwb, lpms, sws, |lpms|, enumerate);
    }
  }

  /** The outer loop changes only the vertices of the actors it visited,
      no hardware map, and only extends the platform graph. */
  lemma {:induction false} ActorsFrame(t: TState, hwActors: seq<string>, n: nat, swActors: seq<string>,
                                       lpms: seq<string>, sws: map<string, string>,
                                       enumerate: set<string> -> seq<string>)
    requires n <= |hwActors| && forall l :: l in lpms ==> l in sws
    ensures Frame(t, Actors(t, hwActors, n, swActors, lpms, sws, enumerate).state, hwActors[..n])
  {
    if n == 0 {
      FrameRefl(t, hwActors[..0]);
    } else {
      ActorsFrame(t, hwActors, n - 1, swActors, lpms, sws, enumerate);
      var p := Actors(t, hwActors, n - 1, swActors, lpms, sws, enumerate).state;
      var r := Actors(t, hwActors, n, swActors, lpms, sws, enumerate).state;
      if Actors(t, hwActors, n - 1, swActors, lpms, sws, enumerate).outcome == Done {
        ActorPassFrame(p, hwActors[n - 1], swActors, lpms, sws, enumerate);
      } else {
        FrameRefl(p, [hwActors[n - 1]]);
      }
      FrameTrans(t, p, r, hwActors[..n - 1], [hwActors[n - 1]]);
      PrefixLast(hwActors, n);
    }
  }

  /** The outer loop: when its first `n` passes complete, each of their
      actors is implemented. */
  lemma {:induction false} ActorsImplement(t: TState, hwActors: seq<string>, n: nat, swActors: seq<string>,
                                           lpms: seq<string>, sws: map<string, string>,
                                           enumerate: set<string> -> seq<string>)
    requires n <= |hwActors| && forall l :: l in lpms ==> l in sws
    requires Enumerates(enumerate)
    ensures Actors(t, hwActors, n, swActors, lpms, sws, enumerate).outcome == Done ==>
              forall i :: 0 <= i < n ==>
                ActorImplemented(Actors(t, hwActors, n, swActors, lpms, sws, enumerate).state, hwActors[i], swActors, lpms, sws)
  {
    if n > 0 {
      ActorsImplement(t, hwActors, n - 1, swActors, lpms, sws, enumerate);
      var p := Actors(t, hwActors, n - 1, swActors, lpms, sws, enumerate);
      var b := hwActors[n - 1];
      if p.outcome == Done && ActorPass(p.state, b, swActors, lpms, sws, enumerate).outcome == Done {
        forall i | 0 <= i < n
          ensures ActorImplemented(ActorPass(p.state, b, swActors, lpms, sws, enumerate).state, hwActors[i], swActors, lpms, sws)
        {
          if i < n - 1 {
            ActorPassKeeps(p.state, b, swActors, lpms, sws, enumerate, hwActors[i]);
          } else {
            ActorPassImplements(p.state, b, swActors, lpms, sws, enumerate);
          }
        }
      }
    }
  }

  /** The first actor without a software counterpart stops the outer loop
      with `IllegalArgument`, leaving what earlier passes did. */
  lemma ActorsRefuse(t: TState, hwActors: seq<string>, i: nat, swActors: seq<string>, lpms: seq<string>,
                     sws: map<string, string>, enumerate: set<string> -> seq<string>)
    requires i < |hwActors| && forall l :: l in lpms ==> l in sws
    requires Actors(t, hwActors, i, swActors, lpms, sws, enumerate).outcome == Done && hwActors[i] !in swActors
    requires ResourceReqsOf(t.app, hwActors[i]).Some?
    ensures Actors(t, hwActors, |hwActors|, swActors, lpms, sws, enumerate) ==
            TStep(Actors(t, hwActors, i, swActors, lpms, sws, enumerate).state, Thrown(IllegalArgument))
  {
    ActorsFrame(t, hwActors, i, swActors, lpms, sws, enumerate);
    ActorsStop(t, hwActors, i + 1, |hwActors|, swActors, lpms, sws, enumerate);
  }

  /** The first actor without resource requirements stops the outer loop
      with the accessor's exception, before its software counterpart is
      looked up, leaving what earlier passes did. */
  lemma ActorsNoResources(t: TState, hwActors: seq<string>, i: nat, swActors: seq<string>, lpms: seq<string>,
                          sws: map<string, string>, enumerate: set<string> -> seq<string>)
    requires i < |hwActors| && forall l :: l in lpms ==> l in sws
    requires Actors(t, hwActors, i, swActors, lpms, sws, enumerate).outcome == Done
    requires ResourceReqsOf(t.app, hwActors[i]).None?
    ensures Actors(t, hwActors, |hwActors|, swActors, lpms, sws, enumerate) ==
            TStep(Actors(t, hwActors, i, swActors, lpms, sws, enumerate).state, Thrown(MissingProperty))
  {
    ActorsFrame(t, hwActors, i, swActors, lpms, sws, enumerate);
    ActorsStop(t, hwActors, i + 1, |hwActors|, swActors, lpms, sws, enumerate);
  }

  /** The first actor, met for the first time, whose software counterpart
      exists but carries no software requirements stops the outer loop
      with the accessor's exception, leaving what earlier passes did. */
  lemma ActorsNoReqs(t: TState, hwActors: seq<string>, i: nat, swActors: seq<string>, lpms: seq<string>,
                     sws: map<string, string>, enumerate: set<string> -> seq<string>)
    requires i < |hwActors| && forall l :: l in lpms ==> l in sws
    requires Actors(t, hwActors, i, swActors, lpms, sws, enumerate).outcome == Done
    requires ResourceReqsOf(t.app, hwActors[i]).Some? && hwActors[i] in swActors
    requires hwActors[i] !in hwActors[..i] && !HasReqs(t.app, hwActors[i])
    ensures Actors(t, hwActors, |hwActors|, swActors, lpms, sws, enumerate) ==
            TStep(Actors(t, hwActors, i, swActors, lpms, sws, enumerate).state, Thrown(MissingProperty))
  {
    ActorsFrame(t, hwActors, i, swActors, lpms, sws, enumerate);
    assert VertexOf(Actors(t, hwActors, i, swActors, lpms, sws, enumerate).state.app, hwActors[i]) ==
           VertexOf(t.app, hwActors[i]);
    ActorsStop(t, hwActors, i + 1, |hwActors|, swActors, lpms, sws, enumerate);
  }

  /** When the first `n` passes complete, each of their actors carried
      resource requirements from the start. */
  lemma ActorsHadResources(t: TState, hwActors: seq<string>, n: nat, swActors: seq<string>,
                           lpms: seq<string>, sws: map<string, string>,
                           enumerate: set<string> -> seq<string>, i: nat)
    requires n <= |hwActors| && forall l :: l in lpms ==> l in sws
    requires Actors(t, hwActors, n, swActors, lpms, sws, enumerate).outcome == Done && i < n
    ensures ResourceReqsOf(t.app, hwActors[i]).Some?
  {
    var p := Actors(t, hwActors, i, swActors, lpms, sws, enumerate);
    if p.outcome != Done {
      ActorsStop(t, hwActors, i, n, swActors, lpms, sws, enumerate);
    } else if ActorPass(p.state, hwActors[i], swActors, lpms, sws, enumerate).outcome != Done {
      ActorsStop(t, hwActors, i + 1, n, swActors, lpms, sws, enumerate);
    }
    ActorsFrame(t, hwActors, i, swActors, lpms, sws, enumerate);
  }

  /** When the first `n` passes complete, each of their actors, if met only
      once, carried software requirements from the start. */
  lemma {:induction false} ActorsHadReqs(t: TState, hwActors: seq<string>, n: nat, swActors: seq<string>,
                                         lpms: seq<string>, sws: map<string, string>,
                                         enumerate: set<string> -> seq<string>)
    requires n <= |hwActors| && forall l :: l in lpms ==> l in sws
    requires Distinct(hwActors)
    requires Actors(t, hwActors, n, swActors, lpms, sws, enumerate).outcome == Done
    ensures forall i :: 0 <= i < n ==> HasReqs(t.app, hwActors[i])
  {
    if n > 0 {
      var p := Actors(t, hwActors, n - 1, swActors, lpms, sws, enumerate);
      var b := hwActors[n - 1];
      assert p.outcome == Done;
      ActorsHadReqs(t, hwActors, n - 1, swActors, lpms, sws, enumerate);
      ActorsFrame(t, hwActors, n - 1, swActors, lpms, sws, enumerate);
      var pre := hwActors[..n - 1];
      assert b !in pre by {
        forall k | 0 <= k < |pre| ensures pre[k] != b {
          assert pre[k] == hwActors[k];
        }
      }
      assert VertexOf(p.state.app, b) == VertexOf(t.app, b);
      assert HasReqs(p.state.app, b);
    }
  }

  /** When the first `n` passes of the outer loop complete, each of their
      actors has its new entries merged into the requirements it had. */
  lemma {:induction false} ActorsReqs(t: TState, hwActors: seq<string>, n: nat, swActors: seq<string>,
                                      lpms: seq<string>, sws: map<string, string>,
                                      enumerate: set<string> -> seq<string>)
    requires n <= |hwActors| && forall l :: l in lpms ==> l in sws
    requires Distinct(hwActors)
    requires Actors(t, hwActors, n, swActors, lpms, sws, enumerate).outcome == Done
    ensures forall i :: 0 <= i < n ==>
              ReqsMerged(t.app, Actors(t, hwActors, n, swActors, lpms, sws, enumerate).state.app, hwActors[i], lpms)
  {
    if n > 0 {
      assert Actors(t, hwActors, n - 1, swActors, lpms, sws, enumerate).outcome == Done;
      ActorsReqs(t, hwActors, n - 1, swActors, lpms, sws, enumerate);
      forall i | 0 <= i < n
        ensures ReqsMerged(t.app, Actors(t, hwActors, n, swActors, lpms, sws, enumerate).state.app, hwActors[i], lpms)
      {
        if i < n - 1 {
          ActorsReqsKeep(t, hwActors, n, swActors, lpms, sws, enumerate, i);
        } else {
          ActorsReqsLast(t, hwActors, n, swActors, lpms, sws, enumerate);
        }
      }
    }
  }

  /** Pass `n` of the outer loop merges the entries of its own actor,
      met for the first time, into the requirements it had at the start. */
  lemma ActorsReqsLast(t: TState, hwActors: seq<string>, n: nat, swActors: seq<string>,
                       lpms: seq<string>, sws: map<string, string>, enumerate: set<string> -> seq<string>)
    requires 0 < n <= |hwActors| && forall l :: l in lpms ==> l in sws
    requires Distinct(hwActors)
    requires Actors(t, hwActors, n, swActors, lpms, sws, enumerate).outcome == Done
    ensures ReqsMerged(t.app, Actors(t, hwActors, n, swActors, lpms, sws, enumerate).state.app, hwActors[n - 1], lpms)
  {
    var p := Actors(t, hwActors, n - 1, swActors, lpms, sws, enumerate);
    var b := hwActors[n - 1];
    assert p.outcome == Done;
    assert Actors(t, hwActors, n, swActors, lpms, sws, enumerate) == ActorPass(p.state, b, swActors, lpms, sws, enumerate);
    ActorsFrame(t, hwActors, n - 1, swActors, lpms, sws, enumerate);
    ActorPassReqs(p.state, b, swActors, lpms, sws, enumerate);
    var pre := hwActors[..n - 1];
    assert b !in pre by {
      forall k | 0 <= k < |pre| ensures pre[k] != b {
        assert pre[k] == hwActors[k];
      }
    }
    assert VertexOf(p.state.app, b) == VertexOf(t.app, b);
  }

  /** Pass `n` of the outer loop leaves what earlier passes merged into
      the requirements of their actors. */
  lemma ActorsReqsKeep(t: TState, hwActors: seq<string>, n: nat, swActors: seq<string>,
                       lpms: seq<string>, sws: map<string, string>, enumerate: set<string> -> seq<string>, i: nat)
    requires i < n - 1 && n <= |hwActors| && forall l :: l in lpms ==> l in sws
    requires Distinct(hwActors)
    requires Actors(t, hwActors, n, swActors, lpms, sws, enumerate).outcome == Done
    requires ReqsMerged(t.app, Actors(t, hwActors, n - 1, swActors, lpms, sws, enumerate).state.app, hwActors[i], lpms)
    ensures ReqsMerged(t.app, Actors(t, hwActors, n, swActors, lpms, sws, enumerate).state.app, hwActors[i], lpms)
  {
    var p := Actors(t, hwActors, n - 1, swActors, lpms, sws, enumerate);
    var b := hwActors[n - 1];
    assert p.outcome == Done;
    assert Actors(t, hwActors, n, swActors, lpms, sws, enumerate) == ActorPass(p.state, b, swActors, lpms, sws, enumerate);
    ActorPassFrame(p.state, b, swActors, lpms, sws, enumerate);
    assert hwActors[i] != b;
    assert VertexOf(Actors(t, hwActors, n, swActors, lpms, sws, enumerate).state.app, hwActors[i]) ==
           VertexOf(p.state.app, hwActors[i]);
  }

  /** The first actor whose resource requirements hold no hardware
      instruction map stops the outer loop with Java's
      `NullPointerException` when there is a module, leaving what earlier
      passes did. */
  lemma ActorsNull(t: TState, hwActors: seq<string>, i: nat, swActors: seq<string>, lpms: seq<string>,
                   sws: map<string, string>, enumerate: set<string> -> seq<string>)
    requires i < |hwActors| && lpms != [] && forall l :: l in lpms ==> l in sws
    requires Enumerates(enumerate)
    requires Actors(t, hwActors, i, swActors, lpms, sws, enumerate).outcome == Done && hwActors[i] in swActors
    requires ResourceReqsOf(t.app, hwActors[i]).Some? && HWReqsOf(t.app, hwActors[i]).None? && HasReqs(t.app, hwActors[i])
    ensures Actors(t, hwActors, |hwActors|, swActors, lpms, sws, enumerate) ==
            TStep(Actors(t, hwActors, i, swActors, lpms, sws, enumerate).state, Thrown(NullPointer))
  {
    var p := Actors(t, hwActors, i, swActors, lpms, sws, enumerate);
    ActorsFrame(t, hwActors, i, swActors, lpms, sws, enumerate);
    assert hwActors[i] !in hwActors[..i] || HWReqsOf(p.state.app, hwActors[i]) == HWReqsOf(t.app, hwActors[i]);
    PairsNull(p.state, hwActors[i], lpms, sws, |lpms|, enumerate);
    ActorsStop(t, hwActors, i + 1, |hwActors|, swActors, lpms, sws, enumerate);
  }

  /** Every module is adjacent to a switch exactly when each
      logic-programmable vertex has an edge with some communication vertex. */
  lemma AttachedIff(g: Graph, order: seq<string>)
    requires IsEnumeration(order, g.vertices.Keys)
    ensures var lpms := Having(g, order, LogicProgrammableModule);
            var switches := Having(g, order, InstrumentedCommunicationModule);
            AllAttached(g, lpms, switches) <==>
              forall l :: HasTrait(g, l, LogicProgrammableModule) ==>
                exists s :: HasTrait(g, s, InstrumentedCommunicationModule) && HasConnection(g, l, s)
  {
    var lpms := Having(g, order, LogicProgrammableModule);
    var switches := Having(g, order, InstrumentedCommunicationModule);
    if AllAttached(g, lpms, switches) {
      forall l | HasTrait(g, l, LogicProgrammableModule)
        ensures exists s :: HasTrait(g, s, InstrumentedCommunicationModule) && HasConnection(g, l, s)
      {
        assert l in lpms;
        var adj := Adjacent(g, l, switches);
        assert adj[0] in adj;
      }
    }
    if forall l :: HasTrait(g, l, LogicProgrammableModule) ==>
         exists s :: HasTrait(g, s, InstrumentedCommunicationModule) && HasConnection(g, l, s) {
      forall l | l in lpms ensures Adjacent(g, l, switches) != [] {
        var s :| HasTrait(g, s, InstrumentedCommunicationModule) && HasConnection(g, l, s);
        assert s in switches;
        assert s in Adjacent(g, l, switches);
      }
    }
  }

  /** A platform with a logic-programmable vertex adjacent to no
      communication vertex, or without a grey box, is refused with
      `IllegalArgument` and neither graph changes. */
  lemma TransformRefused(platform: Graph, application: Graph, pOrder: seq<string>, aOrder: seq<string>,
                         enumerate: set<string> -> seq<string>)
    requires IsEnumeration(pOrder, platform.vertices.Keys)
    requires !HasGreyBox(platform) ||
             exists l :: HasTrait(platform, l, LogicProgrammableModule) &&
               forall s :: HasTrait(platform, s, InstrumentedCommunicationModule) ==> !HasConnection(platform, l, s)
    ensures var r := TransformStep(platform, application, pOrder, aOrder, enumerate);
            r.outcome == Thrown(IllegalArgument) && r.state.platform.graph == platform && r.state.app == application
  {
    AttachedIff(platform, pOrder);
  }

  /** Where an actor is implemented, it is implemented on each module. */
  lemma ActorOn(t: TState, a: string, swActors: seq<string>, lpms: seq<string>, sws: map<string, string>, l: string)
    requires ActorImplemented(t, a, swActors, lpms, sws) && l in lpms
    ensures HWReqsOf(t.app, a).Some? && ImplementedOn(t, a, HWReqsOf(t.app, a).value, l, sws)
  {
    var j :| 0 <= j < |lpms| && lpms[j] == l;
  }

  /** A completed outer loop: its frame, and each of its actors
      implemented. */
  lemma ActorsSummary(t: TState, hwActors: seq<string>, swActors: seq<string>, lpms: seq<string>,
                      sws: map<string, string>, enumerate: set<string> -> seq<string>)
    requires forall l :: l in lpms ==> l in sws
    requires Enumerates(enumerate)
    requires Actors(t, hwActors, |hwActors|, swActors, lpms, sws, enumerate).outcome == Done
    ensures var r := Actors(t, hwActors, |hwActors|, swActors, lpms, sws, enumerate).state;
            Frame(t, r, hwActors) && forall a :: a in hwActors ==> ActorImplemented(r, a, swActors, lpms, sws)
  {
    ActorsImplement(t, hwActors, |hwActors|, swActors, lpms, sws, enumerate);
    ActorsFrame(t, hwActors, |hwActors|, swActors, lpms, sws, enumerate);
    assert hwActors[..|hwActors|] == hwActors;
    forall a | a in hwActors
      ensures ActorImplemented(Actors(t, hwActors, |hwActors|, swActors, lpms, sws, enumerate).state, a, swActors, lpms, sws)
    {
      var i :| 0 <= i < |hwActors| && hwActors[i] == a;
    }
  }

  /** No resource requirements changed, so no hardware map did. */
  lemma FrameHWReqs(t: TState, r: TState, xs: seq<string>)
    requires Frame(t, r, xs)
    ensures forall m :: HWReqsOf(r.app, m) == HWReqsOf(t.app, m)
  {
  }

  /** A transformation that ends normally has implemented every
      hardware-capable actor on every logic-programmable module, each with
      the hardware map the actor already had; every such actor has a
      software counterpart; no other actor changed and the platform was
      only extended. */
  lemma TransformImplements(platform: Graph, application: Graph, pOrder: seq<string>, aOrder: seq<string>,
                            enumerate: set<string> -> seq<string>)
    requires IsEnumeration(pOrder, platform.vertices.Keys) && IsEnumeration(aOrder, application.vertices.Keys)
    requires Enumerates(enumerate)
    ensures var r := TransformStep(platform, application, pOrder, aOrder, enumerate);
            var lpms := Having(platform, pOrder, LogicProgrammableModule);
            var switches := Having(platform, pOrder, InstrumentedCommunicationModule);
            r.outcome == Done ==>
              AllAttached(platform, lpms, switches) && Grows(platform, r.state.platform.graph) &&
              (forall a :: HasTrait(application, a, InstrumentedHardwareBehaviour) ==>
                 HasTrait(application, a, InstrumentedSoftwareBehaviour) &&
                 HWReqsOf(r.state.app, a) == HWReqsOf(application, a)) &&
              (forall a, l :: HasTrait(application, a, InstrumentedHardwareBehaviour) &&
                              HasTrait(platform, l, LogicProgrammableModule) ==>
                 HWReqsOf(application, a).Some? &&
                 ImplementedOn(r.state, a, HWReqsOf(application, a).value, l, FirstSwitches(platform, lpms, switches))) &&
              (forall m :: !HasTrait(application, m, InstrumentedHardwareBehaviour) ==>
                 VertexOf(r.state.app, m) == VertexOf(application, m))
  {
    var r := TransformStep(platform, application, pOrder, aOrder, enumerate);
    var lpms := Having(platform, pOrder, LogicProgrammableModule);
    var switches := Having(platform, pOrder, InstrumentedCommunicationModule);
    if r.outcome == Done {
      assert AllAttached(platform, lpms, switches) && HasGreyBox(platform);
      var sws := FirstSwitches(platform, lpms, switches);
      var hwActors := Having(application, aOrder, InstrumentedHardwareBehaviour);
      var swActors := Having(application, aOrder, InstrumentedSoftwareBehaviour);
      var start := TState(PState(platform, ExtractOver(platform, platform.vertices.Keys, false)), application);
      assert r == Actors(start, hwActors, |hwActors|, swActors, lpms, sws, enumerate);
      ActorsSummary(start, hwActors, swActors, lpms, sws, enumerate);
      FrameHWReqs(start, r.state, hwActors);
      forall a, l | HasTrait(application, a, InstrumentedHardwareBehaviour) && HasTrait(platform, l, LogicProgrammableModule)
        ensures HWReqsOf(application, a).Some? && ImplementedOn(r.state, a, HWReqsOf(application, a).value, l, sws)
      {
        assert l in lpms;
        ActorOn(r.state, a, swActors, lpms, sws, l);
      }
    }
  }

  /** A transformation that ends normally found resource and software
      requirements on every hardware-capable actor, and changed no
      resource requirements. */
  lemma TransformRequirements(platform: Graph, application: Graph, pOrder: seq<string>, aOrder: seq<string>,
                              enumerate: set<string> -> seq<string>)
    requires IsEnumeration(pOrder, platform.vertices.Keys) && IsEnumeration(aOrder, application.vertices.Keys)
    ensures var r := TransformStep(platform, application, pOrder, aOrder, enumerate);
            r.outcome == Done ==>
              (forall a :: HasTrait(application, a, InstrumentedHardwareBehaviour) ==>
                 ResourceReqsOf(application, a).Some? && HasReqs(application, a)) &&
              (forall m :: ResourceReqsOf(r.state.app, m) == ResourceReqsOf(application, m))
  {
    var r := TransformStep(platform, application, pOrder, aOrder, enumerate);
    var lpms := Having(platform, pOrder, LogicProgrammableModule);
    var switches := Having(platform, pOrder, InstrumentedCommunicationModule);
    if r.outcome == Done {
      assert AllAttached(platform, lpms, switches) && HasGreyBox(platform);
      var sws := FirstSwitches(platform, lpms, switches);
      var hwActors := Having(application, aOrder, InstrumentedHardwareBehaviour);
      var swActors := Having(application, aOrder, InstrumentedSoftwareBehaviour);
      var start := TState(PState(platform, ExtractOver(platform, platform.vertices.Keys, false)), application);
      assert r == Actors(start, hwActors, |hwActors|, swActors, lpms, sws, enumerate);
      ActorsFrame(start, hwActors, |hwActors|, swActors, lpms, sws, enumerate);
      HavingDistinct(application, aOrder, InstrumentedHardwareBehaviour);
      ActorsHadReqs(start, hwActors, |hwActors|, swActors, lpms, sws, enumerate);
      forall a | HasTrait(application, a, InstrumentedHardwareBehaviour)
        ensures ResourceReqsOf(application, a).Some? && HasReqs(application, a)
      {
        assert a in hwActors;
        var i :| 0 <= i < |hwActors| && hwActors[i] == a;
        ActorsHadResources(start, hwActors, |hwActors|, swActors, lpms, sws, enumerate, i);
      }
    }
  }

  /** A transformation that ends normally merges, into the software
      requirements of every hardware-capable actor, one renamed hardware
      instruction map per logic-programmable module and keeps every entry
      it had under any other name. */
  lemma TransformMergesReqs(platform: Graph, application: Graph, pOrder: seq<string>, aOrder: seq<string>,
                            enumerate: set<string> -> seq<string>)
    requires IsEnumeration(pOrder, platform.vertices.Keys) && IsEnumeration(aOrder, application.vertices.Keys)
    ensures var r := TransformStep(platform, application, pOrder, aOrder, enumerate);
            var lpms := Having(platform, pOrder, LogicProgrammableModule);
            r.outcome == Done ==>
              forall a :: HasTrait(application, a, InstrumentedHardwareBehaviour) ==>
                (lpms == [] || HWReqsOf(application, a).Some?) &&
                ReqsOf(r.state.app, a) == ReqsOf(application, a) + AddedReqs(a, HWReqsOf(application, a), lpms)
  {
    var r := TransformStep(platform, application, pOrder, aOrder, enumerate);
    var lpms := Having(platform, pOrder, LogicProgrammableModule);
    var switches := Having(platform, pOrder, InstrumentedCommunicationModule);
    if r.outcome == Done {
      assert AllAttached(platform, lpms, switches) && HasGreyBox(platform);
      var sws := FirstSwitches(platform, lpms, switches);
      var hwActors := Having(application, aOrder, InstrumentedHardwareBehaviour);
      var swActors := Having(application, aOrder, InstrumentedSoftwareBehaviour);
      var start := TState(PState(platform, ExtractOver(platform, platform.vertices.Keys, false)), application);
      assert r == Actors(start, hwActors, |hwActors|, swActors, lpms, sws, enumerate);
      HavingDistinct(application, aOrder, InstrumentedHardwareBehaviour);
      ActorsReqs(start, hwActors, |hwActors|, swActors, lpms, sws, enumerate);
      forall a | HasTrait(application, a, InstrumentedHardwareBehaviour)
        ensures ReqsMerged(application, r.state.app, a, lpms)
      {
        assert a in hwActors;
        var i :| 0 <= i < |hwActors| && hwActors[i] == a;
      }
    }
  }
}
