/** `ApplicationHandler.SequentialSDF(name, actors, hwImplActors)`: a chain
    of actors `Actor_1`, ..., `Actor_<actors>`, each with the same software
    implementation, the first `hwImplActors` of them also with a hardware
    implementation, joined in order by channels of rate 5, with an input
    channel on the first actor and an output channel on the one before the
    last. */
module ApplicationHandlers {
  import opened Graphs
  import opened Text
  import opened Applications

  /** The software implementation every actor gets: 80 floating-point
      operations and a code size of four bytes, in bits. */
  const SWInstrs: map<string, int> := map[FloatOp := 80]
  const SWCodeSize: int := 4 * BytesToBits

  /** The hardware implementation: 10 clock cycles and an area of 110. */
  const HWCycles: int := 10
  const HWArea: int := 110

  /** The rate of every channel. */
  const Rate: int := 5

  /** `"Actor_" + i`, the integer written in decimal. */
  function ActorName(i: int): string
  {
    "Actor_" + IntToString(i)
  }

  lemma ActorNameInjective(i: int, j: int)
    ensures ActorName(i) == ActorName(j) <==> i == j
  {
    if ActorName(i) == ActorName(j) {
      assert ActorName(i)[6..] == IntToString(i) && ActorName(j)[6..] == IntToString(j);
      IntToStringInjective(i, j);
    }
  }

  /** The channel of round `j`, from `Actor_<j - 1>` to `Actor_<j>`. */
  function RoundChannel(j: int): string
  {
    ChannelName(ActorName(j - 1), ActorName(j))
  }

  /** The channel of round `j` ends in the digits of `j`, after its last
      underscore. */
  lemma RoundChannelSuffix(j: int)
    ensures var s := RoundChannel(j);
            0 <= LastIndexOf(s, '_') && s[LastIndexOf(s, '_') + 1..] == IntToString(j)
  {
    var pre := "CH_" + ActorName(j - 1) + "_";
    var digits := IntToString(j);
    assert "Actor_" == "Actor" + ['_'];
    assert ActorName(j) == "Actor" + ['_'] + digits;
    assert RoundChannel(j) == pre + ActorName(j);
    assert pre + ActorName(j) == (pre + "Actor") + ['_'] + digits;
    IntToStringNoUnderscore(j);
    LastIndexOfSplit(pre + "Actor", '_', digits);
  }

  /** Different rounds create differently named channels. */
  lemma RoundChannelInjective(j: int, k: int)
    ensures RoundChannel(j) == RoundChannel(k) <==> j == k
  {
    if RoundChannel(j) == RoundChannel(k) {
      RoundChannelSuffix(j);
      RoundChannelSuffix(k);
      IntToStringInjective(j, k);
    }
  }

  lemma ActorNotChannel(i: int, src: string, dst: string)
    ensures ActorName(i) != ChannelName(src, dst)
  {
    assert ActorName(i)[0] == 'A' && ChannelName(src, dst)[0] == 'C';
  }

  /** Round `k` up to its link: the actor `Actor_<k>` with its software
      implementation, and its hardware implementation when `k - 1 <
      hwImplActors`. */
  function ImplRound(s: AState, k: int, hw: int): AStep
  {
    var name := ActorName(k);
    var r1 := SWStep(ActorStep(s, name), name, SWInstrs, SWCodeSize);
    if r1.outcome != Done || !(k - 1 < hw) then r1 else HWStep(r1.state, name, HWCycles, HWArea)
  }

  /** The registry after `k` rounds: the actors and the channels between
      consecutive actors. */
  function Registry(k: nat): map<string, AppView>
  {
    if k == 0 then map[]
    else
      var m := Registry(k - 1)[ActorName(k) := ActorView];
      if k > 1 then m[ChannelName(ActorName(k - 1), ActorName(k)) := ChannelView] else m
  }

  /** The edges after `k` rounds: those of each channel, in creation order. */
  function SDFEdges(k: nat): seq<Edge>
  {
    if k <= 1 then [] else SDFEdges(k - 1) + ChannelEdges(ActorName(k - 1), ActorName(k))
  }

  lemma {:induction false} RegistryActor(k: nat, j: int)
    requires 1 <= j <= k
    ensures ActorName(j) in Registry(k) && Registry(k)[ActorName(j)] == ActorView
  {
    ActorNotChannel(j, ActorName(k - 1), ActorName(k));
    if j < k {
      RegistryActor(k - 1, j);
      ActorNameInjective(j, k);
    }
  }

  lemma {:induction false} RegistryAbsent(k: nat, i: int)
    requires i < 1 || i > k
    ensures ActorName(i) !in Registry(k)
  {
    if k > 0 {
      RegistryAbsent(k - 1, i);
      ActorNameInjective(i, k);
      ActorNotChannel(i, ActorName(k - 1), ActorName(k));
    }
  }

  /** The names of the first `k` actors. */
  function ActorSet(k: nat): set<string>
  {
    if k == 0 then {} else ActorSet(k - 1) + {ActorName(k)}
  }

  /** The names registered as actors. */
  function ActorsOf(viewers: map<string, AppView>): set<string>
  {
    set m | m in viewers && viewers[m] == ActorView
  }

  lemma {:induction false} ActorSetMembers(k: nat, i: int)
    ensures ActorName(i) in ActorSet(k) <==> 1 <= i <= k
  {
    if k > 0 {
      ActorSetMembers(k - 1, i);
      ActorNameInjective(i, k);
    }
  }

  /** `SequentialSDF` names exactly `actors` distinct actors. */
  lemma {:induction false} ActorSetSize(k: nat)
    ensures |ActorSet(k)| == k
  {
    if k > 0 {
      ActorSetSize(k - 1);
      ActorSetMembers(k - 1, k);
    }
  }

  lemma {:induction false} ActorSetNoChannel(k: nat, src: string, dst: string)
    ensures ChannelName(src, dst) !in ActorSet(k)
  {
    if k > 0 {
      ActorSetNoChannel(k - 1, src, dst);
      ActorNotChannel(k, src, dst);
    }
  }

  /** The names the registry after `k` rounds files as actors are exactly
      the first `k` actor names. */
  lemma {:induction false} RegistryActors(k: nat)
    ensures ActorsOf(Registry(k)) == ActorSet(k)
  {
    if k > 0 {
      RegistryActors(k - 1);
      var ch := ChannelName(ActorName(k - 1), ActorName(k));
      ActorSetNoChannel(k, ActorName(k - 1), ActorName(k));
      ActorNotChannel(k, ActorName(k - 1), ActorName(k));
      forall m ensures m in ActorsOf(Registry(k)) <==> m in ActorSet(k) {
        assert m in ActorsOf(Registry(k - 1)) <==> m in ActorSet(k - 1);
      }
    }
  }

  lemma HasTraitOf(g: Graph, m: string, t: Trait)
    ensures HasTrait(g, m, t) <==> t in VertexOf(g, m).traits
  {
  }

  /** What round `j` leaves on `Actor_<j>`: actor and software traits and
      records, and the hardware trait and records exactly when `j <=
      hwImplActors`. */
  predicate Built(g: Graph, j: int, hw: int)
  {
    var n := ActorName(j);
    HasTrait(g, n, SDFActor) && HasTrait(g, n, InstrumentedSoftwareBehaviour) &&
    PropIs(g, n, ComputationalRequirements, RequirementsV(map[SWInstructions := SWInstrs])) &&
    PropIs(g, n, MaxSizeInBits, CountsV(map["impl" := SWCodeSize])) &&
    (HasTrait(g, n, InstrumentedHardwareBehaviour) <==> j <= hw) &&
    (j <= hw ==>
       PropIs(g, n, ResourceRequirements, RequirementsV(map[HWInstructions := map[ClockCycles := HWCycles]])) &&
       PropIs(g, n, RequiredHardwareImplementationArea, IntV(HWArea)))
  }

  /** The consumption of `Actor_<j>`: the input port for the first actor,
      the port from its predecessor for the others. */
  function ConsRates(j: int): map<string, int>
  {
    if j == 1 then map[BoundaryPort(ActorName(1), Consumption) := Rate] else map[ConsPort(ActorName(j - 1)) := Rate]
  }

  /** The production of `Actor_<j>` after `k` rounds: the port to its
      successor, once that exists. */
  function ProdRates(j: int, k: int): map<string, int>
  {
    if j < k then map[ProdPort(ActorName(j + 1)) := Rate] else map[]
  }

  /** The state after `k` rounds. */
  ghost predicate RoundsInv(s: AState, k: nat, hw: int)
  {
    s.viewers == Registry(k) && s.graph.edges == SDFEdges(k) &&
    (forall j :: 1 <= j <= k ==> Built(s.graph, j, hw)) &&
    (forall j :: 2 <= j <= k ==> ChannelBuilt(s.graph, j)) &&
    (forall j :: 1 <= j <= k ==>
       RatesOf(s.graph, ActorName(j), Consumption) == ConsRates(j) &&
       RatesOf(s.graph, ActorName(j), Production) == ProdRates(j, k)) &&
    (forall j :: j > k ==> !HasTrait(s.graph, ActorName(j), InstrumentedHardwareBehaviour)) &&
    (forall m :: HasTrait(s.graph, m, SDFActor) ==> m in ActorSet(k))
  }

  /** The channel of round `j` as the round leaves it: a channel with no
      initial tokens, produced by `Actor_<j - 1>` and consumed by
      `Actor_<j>`. */
  predicate ChannelBuilt(g: Graph, j: int)
  {
    var ch := RoundChannel(j);
    HasTrait(g, ch, SDFChannel) && PropIs(g, ch, NumInitialTokens, IntV(0)) &&
    PropIs(g, ch, Producer, NameV(ActorName(j - 1))) && PropIs(g, ch, Consumer, NameV(ActorName(j)))
  }

  /** A record that differs at most in ports and rates keeps a channel. */
  lemma ChannelBuiltKept(g: Graph, h: Graph, j: int)
    requires ChannelBuilt(g, j) && SameBut(VertexOf(g, RoundChannel(j)), VertexOf(h, RoundChannel(j)))
    ensures ChannelBuilt(h, j)
  {
    var ch := RoundChannel(j);
    var keep := {Production, Consumption};
    assert ch in h.vertices by {
      assert SDFChannel in VertexOf(h, ch).traits;
    }
    assert VertexOf(g, ch).props - keep == VertexOf(h, ch).props - keep;
    assert NumInitialTokens in VertexOf(g, ch).props - keep;
    assert Producer in VertexOf(g, ch).props - keep;
    assert Consumer in VertexOf(g, ch).props - keep;
  }

  /** A record that differs at most in ports and rates keeps what a round
      built. */
  lemma BuiltKept(g: Graph, h: Graph, j: int, hw: int)
    requires Built(g, j, hw) && SameBut(VertexOf(g, ActorName(j)), VertexOf(h, ActorName(j)))
    ensures Built(h, j, hw)
  {
    var n := ActorName(j);
    var keep := {Production, Consumption};
    assert n in h.vertices by {
      assert SDFActor in VertexOf(h, n).traits;
    }
    assert VertexOf(g, n).props - keep == VertexOf(h, n).props - keep;
    assert ComputationalRequirements in VertexOf(g, n).props - keep;
    assert MaxSizeInBits in VertexOf(g, n).props - keep;
    if j <= hw {
      assert ResourceRequirements in VertexOf(g, n).props - keep;
      assert RequiredHardwareImplementationArea in VertexOf(g, n).props - keep;
    }
  }

  /** What the implementation part of round `k` leaves in `t`, starting
      from `s`. */
  ghost predicate ImplDone(s: AState, t: AState, k: int, hw: int)
  {
    t.viewers == s.viewers[ActorName(k) := ActorView] && t.graph.edges == s.graph.edges &&
    Built(t.graph, k, hw) &&
    RatesOf(t.graph, ActorName(k), Production) == map[] && RatesOf(t.graph, ActorName(k), Consumption) == map[] &&
    forall m :: m != ActorName(k) ==> VertexOf(t.graph, m) == VertexOf(s.graph, m)
  }

  /** Adding `name` as an actor with its software implementation. */
  lemma ActorSWFacts(s: AState, name: string)
    ensures var r := SWStep(ActorStep(s, name), name, SWInstrs, SWCodeSize);
            r.outcome == Done && r.state.viewers == s.viewers[name := ActorView] && r.state.graph.edges == s.graph.edges &&
            VertexOf(r.state.graph, name).traits == VertexOf(s.graph, name).traits + {SDFActor, InstrumentedSoftwareBehaviour} &&
            PropIs(r.state.graph, name, ComputationalRequirements, RequirementsV(map[SWInstructions := SWInstrs])) &&
            PropIs(r.state.graph, name, MaxSizeInBits, CountsV(map["impl" := SWCodeSize])) &&
            RatesOf(r.state.graph, name, Production) == map[] && RatesOf(r.state.graph, name, Consumption) == map[] &&
            forall m :: m != name ==> VertexOf(r.state.graph, m) == VertexOf(s.graph, m)
  {
    var s1 := ActorStep(s, name);
    var r := SWStep(s1, name, SWInstrs, SWCodeSize);
    SWFacts(s1, name, SWInstrs, SWCodeSize);
    SWFrame(s1, name, SWInstrs, SWCodeSize, name);
    assert r.state.viewers == s1.viewers && r.state.graph.edges == s1.graph.edges;
    forall m | m != name ensures VertexOf(r.state.graph, m) == VertexOf(s.graph, m) {
      SWFrame(s1, name, SWInstrs, SWCodeSize, m);
      assert VertexOf(s1.graph, m) == VertexOf(s.graph, m);
    }
  }

  /** Adding the hardware implementation to an actor that has the software
      one. */
  lemma HWFactsFor(t: AState, name: string)
    requires IsActor(t, name)
    requires PropIs(t.graph, name, ComputationalRequirements, RequirementsV(map[SWInstructions := SWInstrs]))
    requires PropIs(t.graph, name, MaxSizeInBits, CountsV(map["impl" := SWCodeSize]))
    ensures var r := HWStep(t, name, HWCycles, HWArea);
            r.outcome == Done && r.state.viewers == t.viewers && r.state.graph.edges == t.graph.edges &&
            VertexOf(r.state.graph, name).traits == VertexOf(t.graph, name).traits + {InstrumentedHardwareBehaviour} &&
            PropIs(r.state.graph, name, ComputationalRequirements, RequirementsV(map[SWInstructions := SWInstrs])) &&
            PropIs(r.state.graph, name, MaxSizeInBits, CountsV(map["impl" := SWCodeSize])) &&
            PropIs(r.state.graph, name, ResourceRequirements, RequirementsV(map[HWInstructions := map[ClockCycles := HWCycles]])) &&
            PropIs(r.state.graph, name, RequiredHardwareImplementationArea, IntV(HWArea))
  {
    var v := Traited(t.graph, name, InstrumentedHardwareBehaviour);
    var props := v.props[ResourceRequirements := RequirementsV(map[HWInstructions := map[ClockCycles := HWCycles]])]
                        [RequiredHardwareImplementationArea := IntV(HWArea)];
    assert HWStep(t, name, HWCycles, HWArea) == AStep(AState(Put(t.graph, name, v.(props := props)), t.viewers), Done);
  }

  /** The hardware implementation keeps the rates of `name` and every other
      record. */
  lemma HWKeepsFor(t: AState, name: string)
    ensures var r := HWStep(t, name, HWCycles, HWArea);
            RatesOf(r.state.graph, name, Production) == RatesOf(t.graph, name, Production) &&
            RatesOf(r.state.graph, name, Consumption) == RatesOf(t.graph, name, Consumption) &&
            forall m :: m != name ==> VertexOf(r.state.graph, m) == VertexOf(t.graph, m)
  {
    var r := HWStep(t, name, HWCycles, HWArea);
    HWFrame(t, name, HWCycles, HWArea, name);
    forall m | m != name ensures VertexOf(r.state.graph, m) == VertexOf(t.graph, m) {
      HWFrame(t, name, HWCycles, HWArea, m);
    }
  }

  /** The implementation part of round `k` always ends normally: it builds
      `Actor_<k>` with empty rates and changes nothing else. */
  lemma ImplRoundFacts(s: AState, k: int, hw: int)
    requires k >= 1 && !HasTrait(s.graph, ActorName(k), InstrumentedHardwareBehaviour)
    ensures ImplRound(s, k, hw).outcome == Done && ImplDone(s, ImplRound(s, k, hw).state, k, hw)
  {
    var name := ActorName(k);
    var r1 := SWStep(ActorStep(s, name), name, SWInstrs, SWCodeSize);
    ActorSWFacts(s, name);
    assert IsActor(r1.state, name);
    if k - 1 < hw {
      HWFactsFor(r1.state, name);
      HWKeepsFor(r1.state, name);
    }
  }

  /** What a channel from `src` to `dst` created in full changes from `t`
      to `r`. */
  ghost predicate ChannelEffect(t: AState, r: AState, src: string, dst: string)
  {
    r.viewers == t.viewers[ChannelName(src, dst) := ChannelView] &&
    r.graph.edges == t.graph.edges + ChannelEdges(src, dst) &&
    RatesOf(r.graph, src, Production) == RatesOf(t.graph, src, Production)[ProdPort(dst) := Rate] &&
    RatesOf(r.graph, dst, Consumption) == RatesOf(t.graph, dst, Consumption)[ConsPort(src) := Rate] &&
    VertexOf(r.graph, ChannelName(src, dst)).traits == VertexOf(t.graph, ChannelName(src, dst)).traits + {SDFChannel} &&
    PropIs(r.graph, ChannelName(src, dst), NumInitialTokens, IntV(0)) &&
    PropIs(r.graph, ChannelName(src, dst), Producer, NameV(src)) &&
    PropIs(r.graph, ChannelName(src, dst), Consumer, NameV(dst)) &&
    forall m :: m != ChannelName(src, dst) ==>
      SameBut(VertexOf(t.graph, m), VertexOf(r.graph, m)) &&
      (m != src ==> RatesOf(r.graph, m, Production) == RatesOf(t.graph, m, Production)) &&
      (m != dst ==> RatesOf(r.graph, m, Consumption) == RatesOf(t.graph, m, Consumption))
  }

  /** What setting a boundary rate on `name` changes from `t` to `r`. */
  ghost predicate BoundaryEffect(t: AState, r: AState, name: string, dir: Prop)
    requires dir == Production || dir == Consumption
  {
    var other := if dir == Production then Consumption else Production;
    r.viewers == t.viewers && r.graph.edges == t.graph.edges &&
    RatesOf(r.graph, name, dir) == RatesOf(t.graph, name, dir)[BoundaryPort(name, dir) := Rate] &&
    RatesOf(r.graph, name, other) == RatesOf(t.graph, name, other) &&
    forall m :: SameBut(VertexOf(t.graph, m), VertexOf(r.graph, m)) && (m != name ==> VertexOf(r.graph, m) == VertexOf(t.graph, m))
  }

  lemma ChannelEffectOf(t: AState, src: string, dst: string)
    requires IsActor(t, src) && IsActor(t, dst)
    requires ProdPort(dst) !in RatesOf(t.graph, src, Production) && ConsPort(src) !in RatesOf(t.graph, dst, Consumption)
    ensures ChannelStep(t, src, dst, Rate, Rate).outcome == Done
    ensures ChannelEffect(t, ChannelStep(t, src, dst, Rate, Rate).state, src, dst)
  {
    ChannelOutcome(t, src, dst, Rate, Rate);
    ChannelDone(t, src, dst, Rate, Rate);
    ChannelRates(t, src, dst, Rate, Rate);
    var g3 := RatedGraph(t, src, dst, Rate, Rate);
    ChannelRated(t, src, dst, Rate, Rate);
    WiringFacts(g3, src, dst);
    forall m | m != ChannelName(src, dst) {
      ChannelFrame(t, src, dst, Rate, Rate, m);
    }
  }

  lemma BoundaryEffectOf(t: AState, name: string, dir: Prop)
    requires IsActor(t, name) && (dir == Production || dir == Consumption)
    ensures BoundaryStep(t, name, dir, Rate).outcome == Done
    ensures BoundaryEffect(t, BoundaryStep(t, name, dir, Rate).state, name, dir)
  {
    BoundaryFacts(t, name, dir, Rate);
    forall m {
      BoundaryFrame(t, name, dir, Rate, m);
    }
  }

  /** The actors before round `k` are untouched by its implementation
      part. */
  lemma ImplKeeps(s: AState, t: AState, k: nat, hw: int)
    requires k >= 1 && RoundsInv(s, k - 1, hw) && ImplDone(s, t, k, hw)
    ensures forall j :: 1 <= j < k ==> VertexOf(t.graph, ActorName(j)) == VertexOf(s.graph, ActorName(j))
    ensures forall j :: 1 <= j <= k ==> Built(t.graph, j, hw)
    ensures forall j :: 2 <= j < k ==> ChannelBuilt(t.graph, j)
    ensures forall j :: j > k ==> !HasTrait(t.graph, ActorName(j), InstrumentedHardwareBehaviour)
    ensures forall m :: HasTrait(t.graph, m, SDFActor) ==> m in ActorSet(k)
  {
    forall m | HasTrait(t.graph, m, SDFActor) ensures m in ActorSet(k) {
      if m != ActorName(k) {
        HasTraitOf(t.graph, m, SDFActor);
        HasTraitOf(s.graph, m, SDFActor);
      }
    }
    forall j | j != k ensures VertexOf(t.graph, ActorName(j)) == VertexOf(s.graph, ActorName(j)) {
      ActorNameInjective(j, k);
    }
    forall j | 1 <= j < k ensures Built(t.graph, j, hw) {
      BuiltKept(s.graph, t.graph, j, hw);
    }
    forall j | 2 <= j < k ensures ChannelBuilt(t.graph, j) {
      ActorNotChannel(k, ActorName(j - 1), ActorName(j));
      assert VertexOf(t.graph, RoundChannel(j)) == VertexOf(s.graph, RoundChannel(j));
      ChannelBuiltKept(s.graph, t.graph, j);
    }
  }

  /** The channel of round `k` always ends normally. */
  lemma LinkChannel(s: AState, t: AState, k: nat, hw: int)
    requires k > 1 && RoundsInv(s, k - 1, hw) && ImplDone(s, t, k, hw)
    ensures ChannelStep(t, ActorName(k - 1), ActorName(k), Rate, Rate).outcome == Done
    ensures ChannelEffect(t, ChannelStep(t, ActorName(k - 1), ActorName(k), Rate, Rate).state, ActorName(k - 1), ActorName(k))
  {
    ImplKeeps(s, t, k, hw);
    RegistryActor(k - 1, k - 1);
    ActorNameInjective(k - 1, k);
    assert Built(t.graph, k - 1, hw) && Built(t.graph, k, hw);
    assert IsActor(t, ActorName(k));
    assert IsActor(t, ActorName(k - 1));
    ChannelEffectOf(t, ActorName(k - 1), ActorName(k));
  }

  /** The round invariant after the channel of round `k`. */
  lemma ChannelInv(s: AState, t: AState, r: AState, k: nat, hw: int)
    requires k > 1 && RoundsInv(s, k - 1, hw) && ImplDone(s, t, k, hw)
    requires ChannelEffect(t, r, ActorName(k - 1), ActorName(k))
    ensures RoundsInv(r, k, hw)
  {
    forall j | 1 <= j <= k
      ensures Built(r.graph, j, hw)
      ensures RatesOf(r.graph, ActorName(j), Consumption) == ConsRates(j)
      ensures RatesOf(r.graph, ActorName(j), Production) == ProdRates(j, k)
    {
      ChannelActorAt(s, t, r, k, hw, j);
    }
    forall j | 2 <= j <= k ensures ChannelBuilt(r.graph, j) {
      ChannelKept(s, t, r, k, hw, j);
    }
    ChannelNoOthers(s, t, r, k, hw);
  }

  /** The channels after the channel of round `k`: the new one as created,
      the earlier ones as round `k - 1` left them. */
  lemma ChannelKept(s: AState, t: AState, r: AState, k: nat, hw: int, j: int)
    requires k > 1 && RoundsInv(s, k - 1, hw) && ImplDone(s, t, k, hw)
    requires ChannelEffect(t, r, ActorName(k - 1), ActorName(k))
    requires 2 <= j <= k
    ensures ChannelBuilt(r.graph, j)
  {
    if j < k {
      ImplKeeps(s, t, k, hw);
      RoundChannelInjective(j, k);
      assert SameBut(VertexOf(t.graph, RoundChannel(j)), VertexOf(r.graph, RoundChannel(j)));
      ChannelBuiltKept(t.graph, r.graph, j);
    } else {
      assert SDFChannel in VertexOf(r.graph, RoundChannel(k)).traits;
    }
  }

  lemma ChannelActorAt(s: AState, t: AState, r: AState, k: nat, hw: int, j: int)
    requires k > 1 && RoundsInv(s, k - 1, hw) && ImplDone(s, t, k, hw)
    requires ChannelEffect(t, r, ActorName(k - 1), ActorName(k))
    requires 1 <= j <= k
    ensures Built(r.graph, j, hw)
    ensures RatesOf(r.graph, ActorName(j), Consumption) == ConsRates(j)
    ensures RatesOf(r.graph, ActorName(j), Production) == ProdRates(j, k)
  {
    var src, name := ActorName(k - 1), ActorName(k);
    ActorNotChannel(j, src, name);
    ActorNameInjective(j, k);
    ActorNameInjective(j, k - 1);
    assert SameBut(VertexOf(t.graph, ActorName(j)), VertexOf(r.graph, ActorName(j)));
    if j < k {
      assert Built(s.graph, j, hw);
      assert VertexOf(t.graph, ActorName(j)) == VertexOf(s.graph, ActorName(j));
      BuiltKept(s.graph, t.graph, j, hw);
    }
    ChannelActor(t, r, k, hw, j);
  }

  /** After the channel of round `k`: no hardware implementation beyond
      `Actor_<k>` and no actor besides `Actor_1` to `Actor_<k>`. */
  lemma ChannelNoOthers(s: AState, t: AState, r: AState, k: nat, hw: int)
    requires k > 1 && RoundsInv(s, k - 1, hw) && ImplDone(s, t, k, hw)
    requires ChannelEffect(t, r, ActorName(k - 1), ActorName(k))
    ensures forall j :: j > k ==> !HasTrait(r.graph, ActorName(j), InstrumentedHardwareBehaviour)
    ensures forall m :: HasTrait(r.graph, m, SDFActor) ==> m in ActorSet(k)
  {
    var src, name := ActorName(k - 1), ActorName(k);
    ImplKeeps(s, t, k, hw);
    forall j | j > k ensures !HasTrait(r.graph, ActorName(j), InstrumentedHardwareBehaviour) {
      ActorNotChannel(j, src, name);
      assert SameBut(VertexOf(t.graph, ActorName(j)), VertexOf(r.graph, ActorName(j)));
    }
    forall m | HasTrait(r.graph, m, SDFActor) ensures m in ActorSet(k) {
      HasTraitOf(r.graph, m, SDFActor);
      HasTraitOf(t.graph, m, SDFActor);
      if m != ChannelName(src, name) {
        assert SameBut(VertexOf(t.graph, m), VertexOf(r.graph, m));
      }
    }
  }

  /** Actor `j` after the channel of round `k`, from what round `k - 1`
      left on it and what the channel changed. */
  lemma ChannelActor(t: AState, r: AState, k: nat, hw: int, j: int)
    requires k > 1 && 1 <= j <= k && Built(t.graph, j, hw)
    requires RatesOf(t.graph, ActorName(j), Consumption) == (if j == k then map[] else ConsRates(j))
    requires RatesOf(t.graph, ActorName(j), Production) == (if j == k then map[] else ProdRates(j, k - 1))
    requires SameBut(VertexOf(t.graph, ActorName(j)), VertexOf(r.graph, ActorName(j)))
    requires RatesOf(r.graph, ActorName(j), Production) ==
      if j == k - 1 then RatesOf(t.graph, ActorName(j), Production)[ProdPort(ActorName(k)) := Rate]
      else RatesOf(t.graph, ActorName(j), Production)
    requires RatesOf(r.graph, ActorName(j), Consumption) ==
      if j == k then RatesOf(t.graph, ActorName(j), Consumption)[ConsPort(ActorName(k - 1)) := Rate]
      else RatesOf(t.graph, ActorName(j), Consumption)
    ensures Built(r.graph, j, hw)
    ensures RatesOf(r.graph, ActorName(j), Consumption) == ConsRates(j)
    ensures RatesOf(r.graph, ActorName(j), Production) == ProdRates(j, k)
  {
    BuiltKept(t.graph, r.graph, j, hw);
  }

  /** The round invariant after the input channel of round 1. */
  lemma InputInv(s: AState, t: AState, r: AState, hw: int)
    requires RoundsInv(s, 0, hw) && ImplDone(s, t, 1, hw)
    requires BoundaryEffect(t, r, ActorName(1), Consumption)
    ensures RoundsInv(r, 1, hw)
  {
    ImplKeeps(s, t, 1, hw);
    BuiltKept(t.graph, r.graph, 1, hw);
    forall j | j > 1 ensures !HasTrait(r.graph, ActorName(j), InstrumentedHardwareBehaviour) {
      assert SameBut(VertexOf(t.graph, ActorName(j)), VertexOf(r.graph, ActorName(j)));
    }
    forall m | HasTrait(r.graph, m, SDFActor) ensures m in ActorSet(1) {
      HasTraitOf(r.graph, m, SDFActor);
      HasTraitOf(t.graph, m, SDFActor);
      assert SameBut(VertexOf(t.graph, m), VertexOf(r.graph, m));
    }
  }

  /** Before the first round: nothing registered, no edges, no actor and
      no hardware implementation. */
  lemma InitInv(name: string, hw: int)
    ensures RoundsInv(NewApplication(name), 0, hw)
  {
    var s0 := NewApplication(name);
    forall m ensures !HasTrait(s0.graph, m, SDFActor) && !HasTrait(s0.graph, m, InstrumentedHardwareBehaviour) {
      assert VertexOf(s0.graph, m).traits <= {Structure, GreyBox};
    }
  }

  /** The production of `Actor_<j>` in the finished application: the port to
      its successor, and on `Actor_<actors - 1>` also the output port. */
  function FinalProd(j: int, actors: int): map<string, int>
  {
    if j == actors - 1 then ProdRates(j, actors)[BoundaryPort(ActorName(j), Production) := Rate] else ProdRates(j, actors)
  }

  /** The graph `SequentialSDF(name, actors, hwImplActors)` returns: the
      channel edges in order, no actor besides `Actor_1` to `Actor_<actors>`,
      each of those built with its rates, and the channel between each two
      consecutive actors with no initial tokens. */
  ghost predicate SDFApplication(g: Graph, actors: int, hw: int)
    requires actors >= 0
  {
    g.edges == SDFEdges(actors) &&
    (forall m :: HasTrait(g, m, SDFActor) ==> m in ActorSet(actors)) &&
    (forall j :: 2 <= j <= actors ==> ChannelBuilt(g, j)) &&
    forall j :: 1 <= j <= actors ==>
      Built(g, j, hw) && RatesOf(g, ActorName(j), Consumption) == ConsRates(j) &&
      RatesOf(g, ActorName(j), Production) == FinalProd(j, actors)
  }

  /** The output channel on `Actor_<actors - 1>` after all the rounds. */
  lemma OutputDone(p: AState, actors: int, hw: int)
    requires actors >= 2 && RoundsInv(p, actors, hw)
    ensures BoundaryStep(p, ActorName(actors - 1), Production, Rate).outcome == Done
    ensures BoundaryEffect(p, BoundaryStep(p, ActorName(actors - 1), Production, Rate).state, ActorName(actors - 1), Production)
  {
    RegistryActor(actors, actors - 1);
    assert Built(p.graph, actors - 1, hw);
    BoundaryEffectOf(p, ActorName(actors - 1), Production);
  }

  /** With fewer than two actors the output channel names an actor that
      was never added. */
  lemma OutputRefused(p: AState, actors: int, hw: int)
    requires actors < 2 && RoundsInv(p, if actors > 0 then actors else 0, hw)
    ensures BoundaryStep(p, ActorName(actors - 1), Production, Rate) == AStep(p, Thrown(Runtime))
  {
    RegistryAbsent(if actors > 0 then actors else 0, actors - 1);
    BoundaryFacts(p, ActorName(actors - 1), Production, Rate);
  }

  /** The finished application, from the state after the rounds and its
      output channel. */
  lemma OutputContents(p: AState, r: AState, actors: int, hw: int)
    requires actors >= 2 && RoundsInv(p, actors, hw)
    requires BoundaryEffect(p, r, ActorName(actors - 1), Production)
    ensures SDFApplication(r.graph, actors, hw)
  {
    forall j | 1 <= j <= actors
      ensures Built(r.graph, j, hw) && RatesOf(r.graph, ActorName(j), Consumption) == ConsRates(j) &&
              RatesOf(r.graph, ActorName(j), Production) == FinalProd(j, actors)
    {
      assert Built(p.graph, j, hw);
      ActorNameInjective(j, actors - 1);
      assert SameBut(VertexOf(p.graph, ActorName(j)), VertexOf(r.graph, ActorName(j)));
      OutputActor(p, r, actors, hw, j);
    }
    forall j | 2 <= j <= actors ensures ChannelBuilt(r.graph, j) {
      assert SameBut(VertexOf(p.graph, RoundChannel(j)), VertexOf(r.graph, RoundChannel(j)));
      ChannelBuiltKept(p.graph, r.graph, j);
    }
    OutputNoOthers(p, r, actors, hw);
  }

  /** Actor `j` after the output channel, from what the rounds left on it
      and what the output channel changed. */
  lemma OutputActor(p: AState, r: AState, actors: int, hw: int, j: int)
    requires 1 <= j <= actors && Built(p.graph, j, hw)
    requires RatesOf(p.graph, ActorName(j), Consumption) == ConsRates(j)
    requires RatesOf(p.graph, ActorName(j), Production) == ProdRates(j, actors)
    requires SameBut(VertexOf(p.graph, ActorName(j)), VertexOf(r.graph, ActorName(j)))
    requires j == actors - 1 ==>
      RatesOf(r.graph, ActorName(j), Production) == RatesOf(p.graph, ActorName(j), Production)[BoundaryPort(ActorName(j), Production) := Rate] &&
      RatesOf(r.graph, ActorName(j), Consumption) == RatesOf(p.graph, ActorName(j), Consumption)
    requires j != actors - 1 ==> VertexOf(r.graph, ActorName(j)) == VertexOf(p.graph, ActorName(j))
    ensures Built(r.graph, j, hw) && RatesOf(r.graph, ActorName(j), Consumption) == ConsRates(j)
    ensures RatesOf(r.graph, ActorName(j), Production) == FinalProd(j, actors)
  {
    BuiltKept(p.graph, r.graph, j, hw);
  }

  /** The output channel adds no actor. */
  lemma OutputNoOthers(p: AState, r: AState, actors: int, hw: int)
    requires actors >= 2 && RoundsInv(p, actors, hw)
    requires BoundaryEffect(p, r, ActorName(actors - 1), Production)
    ensures forall m :: HasTrait(r.graph, m, SDFActor) ==> m in ActorSet(actors)
  {
    forall m | HasTrait(r.graph, m, SDFActor) ensures m in ActorSet(actors) {
      HasTraitOf(r.graph, m, SDFActor);
      HasTraitOf(p.graph, m, SDFActor);
      assert SameBut(VertexOf(p.graph, m), VertexOf(r.graph, m));
    }
  }

  /** One pass of the loop of `SequentialSDF`, for `a = k + 1`: none of its
      calls throws. */
  method Round(app: ApplicationBuilder, k: nat, hwImplActors: int)
    requires k >= 1 && RoundsInv(app.State(), k - 1, hwImplActors)
    modifies app, app.sGraph
    ensures RoundsInv(app.State(), k, hwImplActors)
  {
    ghost var before := app.State();
    ImplRoundFacts(before, k, hwImplActors);
    var actorName := ActorName(k);
    app.AddActor(actorName);
    var o := app.AddSWImplementation(actorName, SWInstrs, SWCodeSize);
    assert o == Done;
    if k - 1 < hwImplActors {
      o := app.AddHWImplementation(actorName, HWCycles, HWArea);
      assert o == Done;
    }
    ghost var t := app.State();
    assert t == ImplRound(before, k, hwImplActors).state;
    if k > 1 {
      LinkChannel(before, t, k, hwImplActors);
      o := app.CreateChannel(ActorName(k - 1), actorName, Rate, Rate);
      assert o == Done;
      ChannelInv(before, t, app.State(), k, hwImplActors);
    } else {
      assert Built(t.graph, 1, hwImplActors);
      BoundaryEffectOf(t, actorName, Consumption);
      o := app.SetInputChannel(actorName, Rate);
      assert o == Done;
      InputInv(before, t, app.State(), hwImplActors);
    }
  }

  /** `SequentialSDF(name, actors, hwImplActors)`: the graph of the builder.
      Only the output channel can throw, and it does exactly when there are
      fewer than two actors. */
  method SequentialSDF(name: string, actors: int, hwImplActors: int) returns (r: Result<SystemGraph>)
    ensures r.Ok? <==> actors >= 2
    ensures r.Err? ==> r.error == Runtime
    ensures r.Ok? ==> SDFApplication(r.value.model, actors, hwImplActors)
  {
    var app := new ApplicationBuilder(name);
    InitInv(name, hwImplActors);
    RunRounds(app, actors, hwImplActors);
    var o := Output(app, actors, hwImplActors);
    if o != Done {
      return Err(o.error);
    }
    return Ok(app.sGraph);
  }

  /** The loop of `SequentialSDF`: rounds 1 to `actors`. */
  method RunRounds(app: ApplicationBuilder, actors: int, hwImplActors: int)
    requires RoundsInv(app.State(), 0, hwImplActors)
    modifies app, app.sGraph
    ensures RoundsInv(app.State(), if actors > 0 then actors else 0, hwImplActors)
  {
    var a := 2;
    while a < actors + 2
      invariant 2 <= a <= (if actors > 0 then actors + 2 else 2)
      invariant RoundsInv(app.State(), a - 2, hwImplActors)
    {
      Round(app, a - 1, hwImplActors);
      a := a + 1;
    }
    assert a - 2 == (if actors > 0 then actors else 0);
  }

  /** The output channel of `SequentialSDF`, after the loop. */
  method Output(app: ApplicationBuilder, actors: int, hwImplActors: int) returns (o: Outcome)
    requires RoundsInv(app.State(), if actors > 0 then actors else 0, hwImplActors)
    modifies app.sGraph
    ensures o == Done <==> actors >= 2
    ensures o != Done ==> o == Thrown(Runtime)
    ensures o == Done ==> SDFApplication(app.sGraph.model, actors, hwImplActors)
  {
    ghost var p := app.State();
    if actors >= 2 {
      OutputDone(p, actors, hwImplActors);
    } else {
      OutputRefused(p, actors, hwImplActors);
    }
    o := app.SetOutputChannel(ActorName(actors - 1), Rate);
    if o == Done {
      OutputContents(p, app.State(), actors, hwImplActors);
    }
  }
}
