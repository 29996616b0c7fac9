/** The linking loop both platform builders run: every source name is joined
    to one destination `dst` by two opposite edges, each end getting a port,
    and the loop stops at the first processing-module/memory pair. The two
    builders differ only in the port names and the edge traits, which a
    `LinkStyle` fixes. */
module Linking {
  import opened Graphs
  import opened Platforms

  /** `ConnectTwoWay` of `PlatformBuilder` (ports `to_from_<other end>`,
      physical edges) or `Connect` of `components.Platform` (ports
      `<own end>_to_<other end>`, containment edges). */
  datatype LinkStyle = TwoWayStyle | NamedStyle

  /** The port named after both ends, `<own end>_to_<other end>`. */
  function PortTo(own: string, other: string): string
  {
    own + "_to_" + other
  }

  /** The port the source gets. */
  function SrcPort(st: LinkStyle, src: string, dst: string): string
  {
    match st
    case TwoWayStyle => "to_from_" + dst
    case NamedStyle => PortTo(src, dst)
  }

  /** The port the destination gets. */
  function DstPort(st: LinkStyle, src: string, dst: string): string
  {
    match st
    case TwoWayStyle => "to_from_" + src
    case NamedStyle => PortTo(dst, src)
  }

  function LinkTraits(st: LinkStyle): set<EdgeTrait>
  {
    match st
    case TwoWayStyle => PhysicalVisual
    case NamedStyle => ContainmentVisual
  }

  /** The two edges one source gets: to `dst`, then back. */
  function PairEdges(st: LinkStyle, src: string, dst: string): seq<Edge>
  {
    var ps, pd := Some(SrcPort(st, src, dst)), Some(DstPort(st, src, dst));
    [Edge(src, dst, ps, pd, LinkTraits(st)), Edge(dst, src, pd, ps, LinkTraits(st))]
  }

  /** The edges the sources `srcs` get, in order. */
  function LinkEdges(st: LinkStyle, srcs: seq<string>, dst: string): seq<Edge>
  {
    if srcs == [] then [] else LinkEdges(st, srcs[..|srcs| - 1], dst) + PairEdges(st, srcs[|srcs| - 1], dst)
  }

  /** One source: a processing module and a memory are refused; otherwise
      `dst` gets its port, then `src` gets its port, then the two edges are
      added. */
  function LinkOne(st: LinkStyle, s: PState, src: string, dst: string): (r: Step)
    ensures r.state.viewers == s.viewers && Grows(s.graph, r.state.graph)
    ensures r.outcome == Done <==> !IllegalPair(KindOf(s.viewers, src), KindOf(s.viewers, dst))
    ensures r.outcome != Done ==> r.state == s && r.outcome == Thrown(UnsupportedOperation)
    ensures r.outcome == Done ==> r.state.graph.edges == s.graph.edges + PairEdges(st, src, dst)
  {
    if IllegalPair(KindOf(s.viewers, src), KindOf(s.viewers, dst)) then Step(s, Thrown(UnsupportedOperation))
    else
      var g1 := AddPorts(s.graph, dst, {DstPort(st, src, dst)});
      var g2 := AddPorts(g1, src, {SrcPort(st, src, dst)});
      GrowsTransitive(s.graph, g1, g2);
      var g3 := BiLink(g2, src, dst, Some(SrcPort(st, src, dst)), Some(DstPort(st, src, dst)), LinkTraits(st));
      GrowsTransitive(s.graph, g2, g3);
      Step(PState(g3, s.viewers), Done)
  }

  /** The sources `srcs` linked to `dst` one after the other, stopping at the
      first refused pair: the links made before it stay. */
  function LinkAll(st: LinkStyle, s: PState, srcs: seq<string>, dst: string): (r: Step)
    ensures r.state.viewers == s.viewers && Grows(s.graph, r.state.graph)
    ensures r.outcome == Done || r.outcome == Thrown(UnsupportedOperation)
  {
    if srcs == [] then Step(s, Done)
    else
      var p := LinkAll(st, s, srcs[..|srcs| - 1], dst);
      if p.outcome != Done then p
      else
        var q := LinkOne(st, p.state, srcs[|srcs| - 1], dst);
        GrowsTransitive(s.graph, p.state.graph, q.state.graph);
        q
  }

  /** One more source, as the linking loops handle it. */
  lemma LinkAllStep(st: LinkStyle, s: PState, srcs: seq<string>, dst: string, i: int)
    requires 0 <= i < |srcs| && LinkAll(st, s, srcs[..i], dst).outcome == Done
    ensures LinkAll(st, s, srcs[..i + 1], dst) == LinkOne(st, LinkAll(st, s, srcs[..i], dst).state, srcs[i], dst)
  {
    var t := srcs[..i + 1];
    assert t[..|t| - 1] == srcs[..i] && t[|t| - 1] == srcs[i];
  }

  /** No source forms a refused pair with `dst`. */
  predicate AllLegal(viewers: map<string, ViewKind>, srcs: seq<string>, dst: string)
  {
    forall x :: x in srcs ==> !IllegalPair(KindOf(viewers, x), KindOf(viewers, dst))
  }

  lemma AllLegalLast(viewers: map<string, ViewKind>, srcs: seq<string>, dst: string)
    requires srcs != []
    ensures AllLegal(viewers, srcs, dst) <==>
              AllLegal(viewers, srcs[..|srcs| - 1], dst) &&
              !IllegalPair(KindOf(viewers, srcs[|srcs| - 1]), KindOf(viewers, dst))
  {
    assert srcs == srcs[..|srcs| - 1] + [srcs[|srcs| - 1]];
  }

  /** A communication module never forms a refused pair. */
  lemma CommunicationLegal(viewers: map<string, ViewKind>, srcs: seq<string>, dst: string)
    requires KindOf(viewers, dst) == Some(CommunicationView)
    ensures AllLegal(viewers, srcs, dst)
  {
  }

  /** Linking succeeds exactly when no source forms a refused pair with
      `dst`. */
  lemma {:induction false} LinkAllOutcome(st: LinkStyle, s: PState, srcs: seq<string>, dst: string)
    ensures LinkAll(st, s, srcs, dst).outcome == Done <==> AllLegal(s.viewers, srcs, dst)
    decreases |srcs|
  {
    if srcs != [] {
      LinkAllOutcome(st, s, srcs[..|srcs| - 1], dst);
      AllLegalLast(s.viewers, srcs, dst);
    }
  }

  /** A successful linking adds two edges per source, in order. */
  lemma {:induction false} LinkAllEdges(st: LinkStyle, s: PState, srcs: seq<string>, dst: string)
    requires LinkAll(st, s, srcs, dst).outcome == Done
    ensures LinkAll(st, s, srcs, dst).state.graph.edges == s.graph.edges + LinkEdges(st, srcs, dst)
    decreases |srcs|
  {
    if srcs != [] {
      var pre := srcs[..|srcs| - 1];
      LinkAllEdges(st, s, pre, dst);
      SeqAssoc(s.graph.edges, LinkEdges(st, pre, dst), PairEdges(st, srcs[|srcs| - 1], dst));
    }
  }

  /** Linking succeeds exactly when no source forms a refused pair with
      `dst`, and then adds two edges per source, in order. */
  lemma LinkAllDone(st: LinkStyle, s: PState, srcs: seq<string>, dst: string)
    ensures var r := LinkAll(st, s, srcs, dst);
            (r.outcome == Done <==> AllLegal(s.viewers, srcs, dst)) &&
            (r.outcome == Done ==> r.state.graph.edges == s.graph.edges + LinkEdges(st, srcs, dst))
  {
    LinkAllOutcome(st, s, srcs, dst);
    if LinkAll(st, s, srcs, dst).outcome == Done {
      LinkAllEdges(st, s, srcs, dst);
    }
  }

  /** A refused pair stops linking: the state is the one reached by the
      sources before it, and the error is the refusal. */
  lemma {:induction false} LinkAllStops(st: LinkStyle, s: PState, srcs: seq<string>, dst: string, j: int)
    requires 0 <= j < |srcs| && IllegalPair(KindOf(s.viewers, srcs[j]), KindOf(s.viewers, dst))
    requires AllLegal(s.viewers, srcs[..j], dst)
    ensures LinkAll(st, s, srcs, dst) == Step(LinkAll(st, s, srcs[..j], dst).state, Thrown(UnsupportedOperation))
    decreases |srcs|
  {
    var pre := srcs[..|srcs| - 1];
    if j < |srcs| - 1 {
      assert pre[..j] == srcs[..j];
      LinkAllStops(st, s, pre, dst, j);
    } else {
      assert pre == srcs[..j];
      LinkAllOutcome(st, s, pre, dst);
    }
  }

  /** The linking loops stop at the first refused pair: the state they leave
      is the one `LinkAll` describes. */
  lemma LinkAllPrefix(st: LinkStyle, s: PState, srcs: seq<string>, dst: string, i: int)
    requires 0 <= i < |srcs| && LinkAll(st, s, srcs[..i], dst).outcome == Done
    requires IllegalPair(KindOf(s.viewers, srcs[i]), KindOf(s.viewers, dst))
    ensures LinkAll(st, s, srcs, dst) == Step(LinkAll(st, s, srcs[..i], dst).state, Thrown(UnsupportedOperation))
  {
    LinkAllDone(st, s, srcs[..i], dst);
    forall k | 0 <= k < i ensures !IllegalPair(KindOf(s.viewers, srcs[k]), KindOf(s.viewers, dst)) {
      assert srcs[..i][k] == srcs[k];
    }
    LinkAllStops(st, s, srcs, dst, i);
  }

  lemma LinkOneConsistent(st: LinkStyle, s: PState, src: string, dst: string)
    requires Consistent(s) && src in s.viewers && dst in s.viewers
    ensures Consistent(LinkOne(st, s, src, dst).state)
  {
    var r := LinkOne(st, s, src, dst);
    if r.outcome == Done {
      var g := r.state.graph.(edges := s.graph.edges);
      var ps, pd := Some(SrcPort(st, src, dst)), Some(DstPort(st, src, dst));
      RegisteredKept(s, r.state.graph);
      assert HasTrait(s.graph, src, TraitOf(s.viewers[src])) && HasTrait(s.graph, dst, TraitOf(s.viewers[dst]));
      DeclaredKept(s.graph, g);
      DeclaredBiLink(g, src, dst, ps, pd, LinkTraits(st));
      assert BiLink(g, src, dst, ps, pd, LinkTraits(st)) == r.state.graph;
    }
  }

  /** Linking keeps the invariant when `dst` and every source are
      registered. */
  lemma {:induction false} LinkAllConsistent(st: LinkStyle, s: PState, srcs: seq<string>, dst: string)
    requires Consistent(s) && dst in s.viewers && forall x :: x in srcs ==> x in s.viewers
    ensures Consistent(LinkAll(st, s, srcs, dst).state)
    decreases |srcs|
  {
    if srcs != [] {
      var pre := srcs[..|srcs| - 1];
      assert forall x :: x in pre ==> x in srcs;
      LinkAllConsistent(st, s, pre, dst);
      var p := LinkAll(st, s, pre, dst);
      if p.outcome == Done {
        LinkOneConsistent(st, p.state, srcs[|srcs| - 1], dst);
      }
    }
  }

  /** The edges added for the sources join each of them to `dst`: `i` is the
      position of such an edge. */
  lemma {:induction false} LinkEdgesJoin(st: LinkStyle, srcs: seq<string>, dst: string, x: string) returns (i: int)
    requires x in srcs
    ensures 0 <= i < |LinkEdges(st, srcs, dst)| &&
            LinkEdges(st, srcs, dst)[i].src == x && LinkEdges(st, srcs, dst)[i].dst == dst
    decreases |srcs|
  {
    var pre := srcs[..|srcs| - 1];
    var all := LinkEdges(st, srcs, dst);
    if srcs[|srcs| - 1] == x {
      i := |LinkEdges(st, pre, dst)|;
      assert all[i] == PairEdges(st, x, dst)[0];
    } else {
      assert x in pre by {
        var k :| 0 <= k < |srcs| && srcs[k] == x;
        assert pre[k] == x;
      }
      i := LinkEdgesJoin(st, pre, dst, x);
      assert all[i] == LinkEdges(st, pre, dst)[i];
    }
  }

  /** After a successful linking, each source is joined to `dst`. */
  lemma LinkAllJoins(st: LinkStyle, s: PState, srcs: seq<string>, dst: string, x: string)
    requires x in srcs && LinkAll(st, s, srcs, dst).outcome == Done
    ensures HasConnection(LinkAll(st, s, srcs, dst).state.graph, x, dst)
  {
    LinkAllEdges(st, s, srcs, dst);
    var i := LinkEdgesJoin(st, srcs, dst, x);
    var g := LinkAll(st, s, srcs, dst).state.graph;
    assert g.edges[|s.graph.edges| + i] == LinkEdges(st, srcs, dst)[i];
  }

  /** Edges are never removed, so joined vertices stay joined. */
  lemma HasConnectionGrows(b: Graph, c: Graph, x: string, y: string)
    requires Grows(b, c) && HasConnection(b, x, y)
    ensures HasConnection(c, x, y)
  {
    var i :| 0 <= i < |b.edges| &&
             ((b.edges[i].src == x && b.edges[i].dst == y) || (b.edges[i].src == y && b.edges[i].dst == x));
    assert c.edges[i] == b.edges[i];
  }
}
