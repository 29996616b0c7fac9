/** `SolutionParser`: the concise report read back from a solved
    design-space-exploration graph. Every vertex is examined once, in the
    graph's iteration order, and contributes a line to each of six sections
    for each view it has: memory mappings, schedules, programmable-logic
    mappings, super loops, throughputs and bounded buffers. The sections are
    then joined into the solution text, which is printed, or written with its
    bold markers turned into `**`. */
module Solutions {
  import opened Graphs
  import opened Text

  /** The terminal escape sequences around section titles. */
  const Bold: string := "\U{1B}[1m"
  const StopBold: string := "\U{1B}[0m"
  const Marker: string := "**"

  datatype Section = Mappings | Schedules | PLMappings | SuperLoops | Throughputs | Buffers

  function Title(sec: Section): string
  {
    match sec
    case Mappings => "Mappings: Actor/Buffer <--> Memory"
    case Schedules => "Schedules:"
    case PLMappings => "PL Mappings:"
    case SuperLoops => "Superloops:"
    case Throughputs => "Actor throughput:"
    case Buffers => "Buffers:"
  }

  /** The text each section's buffer starts with. */
  function Header(sec: Section): string
  {
    "\n" + Bold + Title(sec) + StopBold + "\n"
  }

  /** The view whose vertices contribute to a section. */
  function ViewOf(sec: Section): Trait
  {
    match sec
    case Mappings => MemoryMapped
    case Schedules => Scheduled
    case PLMappings => LogicProgrammableSynthetized
    case SuperLoops => SuperLoopRuntime
    case Throughputs => AnalyzedBehavior
    case Buffers => BoundedBufferLike
  }

  /** The six section buffers. */
  datatype Report = Report(mappings: string, schedules: string, plMappings: string, superLoops: string,
                           throughputs: string, buffers: string)

  function Get(r: Report, sec: Section): string
  {
    match sec
    case Mappings => r.mappings
    case Schedules => r.schedules
    case PLMappings => r.plMappings
    case SuperLoops => r.superLoops
    case Throughputs => r.throughputs
    case Buffers => r.buffers
  }

  /** `append` on one buffer: that buffer grows by `s`, the others keep
      their text. */
  function Append(r: Report, sec: Section, s: string): (q: Report)
  {
    match sec
    case Mappings => r.(mappings := r.mappings + s)
    case Schedules => r.(schedules := r.schedules + s)
    case PLMappings => r.(plMappings := r.plMappings + s)
    case SuperLoops => r.(superLoops := r.superLoops + s)
    case Throughputs => r.(throughputs := r.throughputs + s)
    case Buffers => r.(buffers := r.buffers + s)
  }

  /** The buffers as the constructor creates them: each holds its header. */
  function Headers(): (r: Report)
    ensures forall sec :: Get(r, sec) == "\n" + Bold + Title(sec) + StopBold + "\n"
  {
    Report(Header(Mappings), Header(Schedules), Header(PLMappings), Header(SuperLoops), Header(Throughputs),
           Header(Buffers))
  }

  /** The solution text: the buffers joined in declaration order. */
  function Concat(r: Report): string
  {
    r.mappings + r.schedules + r.plMappings + r.superLoops + r.throughputs + r.buffers
  }

  /** Fields of a vertex as the views read them. */
  function NameField(g: Graph, v: string, p: Prop): Option<string>
  {
    var props := VertexOf(g, v).props;
    if p in props && props[p].NameV? then Some(props[p].name) else None
  }

  function IntField(g: Graph, v: string, p: Prop): Option<int>
  {
    var props := VertexOf(g, v).props;
    if p in props && props[p].IntV? then Some(props[p].i) else None
  }

  function ListField(g: Graph, v: string, p: Prop): Option<seq<string>>
  {
    var props := VertexOf(g, v).props;
    if p in props && props[p].NameListV? then Some(props[p].list) else None
  }

  /** `<v> --> <target>` and a line break. */
  function Arrow(v: string, target: string): string
  {
    v + " --> " + target + "\n"
  }

  /** The byte count of a buffer: tokens times bits, divided by 8 with
      Java's truncating integer division. */
  function ByteCount(tokens: int, bits: int): (r: int)
    ensures tokens >= 0 && bits >= 0 ==> 8 * r <= tokens * bits < 8 * r + 8
  {
    TruncDiv(tokens * bits, 8)
  }

  function SuperLoopLine(v: string, entries: seq<string>): string
  {
    v + ": \n\t" + ListToString(entries) + "\n"
  }

  function ThroughputLine(v: string, num: int, den: int): string
  {
    v + " = " + IntToString(num) + "/" + IntToString(den) + " tokens/sec" + "\n"
  }

  function BufferLine(v: string, tokens: int, bits: int): string
  {
    v + ": " + IntToString(tokens) + " tokens * " + IntToString(bits) + " bits (" +
    IntToString(ByteCount(tokens, bits)) + " Bytes)\n"
  }

  /** Vertex `v` either lacks the view of `sec` or has every field the view
      reads. */
  predicate Readable(g: Graph, v: string, sec: Section)
  {
    !HasTrait(g, v, ViewOf(sec)) ||
    match sec
    case Mappings => NameField(g, v, MappingHost).Some?
    case Schedules => NameField(g, v, RuntimeHost).Some?
    case PLMappings => NameField(g, v, HostLogicProgrammableModule).Some?
    case SuperLoops => ListField(g, v, SuperLoopEntries).Some?
    case Throughputs =>
      IntField(g, v, ThroughputInSecsNumerator).Some? && IntField(g, v, ThroughputInSecsDenominator).Some?
    case Buffers => IntField(g, v, MaxElements).Some? && IntField(g, v, ElementSizeInBits).Some?
  }

  /** What vertex `v` contributes to section `sec`: nothing without the
      section's view, a line built from the view's fields otherwise (a super
      loop only when it has entries), and a runtime failure when a field the
      view reads is missing. */
  function Line(g: Graph, v: string, sec: Section): (r: Result<string>)
    ensures !HasTrait(g, v, ViewOf(sec)) ==> r == Ok("")
    ensures r.Ok? <==> Readable(g, v, sec)
    ensures r.Err? ==> r.error == Runtime
  {
    if !HasTrait(g, v, ViewOf(sec)) then Ok("")
    else
      match sec
      case Mappings =>
        var h := NameField(g, v, MappingHost);
        if h.None? then Err(Runtime) else Ok(Arrow(v, h.value))
      case Schedules =>
        var h := NameField(g, v, RuntimeHost);
        if h.None? then Err(Runtime) else Ok(Arrow(v, h.value))
      case PLMappings =>
        var h := NameField(g, v, HostLogicProgrammableModule);
        if h.None? then Err(Runtime) else Ok(Arrow(v, h.value))
      case SuperLoops =>
        var es := ListField(g, v, SuperLoopEntries);
        if es.None? then Err(Runtime) else if |es.value| > 0 then Ok(SuperLoopLine(v, es.value)) else Ok("")
      case Throughputs =>
        var num, den := IntField(g, v, ThroughputInSecsNumerator), IntField(g, v, ThroughputInSecsDenominator);
        if num.None? || den.None? then Err(Runtime) else Ok(ThroughputLine(v, num.value, den.value))
      case Buffers =>
        var tokens, bits := IntField(g, v, MaxElements), IntField(g, v, ElementSizeInBits);
        if tokens.None? || bits.None? then Err(Runtime) else Ok(BufferLine(v, tokens.value, bits.value))
  }

  function LineText(g: Graph, v: string, sec: Section): string
  {
    var l := Line(g, v, sec);
    if l.Ok? then l.value else ""
  }

  /** Every view of `v` can be read. */
  predicate Complete(g: Graph, v: string)
  {
    Readable(g, v, PLMappings) && Readable(g, v, Mappings) && Readable(g, v, Schedules) &&
    Readable(g, v, SuperLoops) && Readable(g, v, Throughputs) && Readable(g, v, Buffers)
  }

  /** Buffers after some steps, and how the steps ended. */
  datatype Parsed = Parsed(report: Report, outcome: Outcome)

  /** One view of the per-vertex body, once the earlier ones completed. */
  function Visit(g: Graph, v: string, sec: Section, p: Parsed): Parsed
  {
    if p.outcome != Done then p
    else
      var l := Line(g, v, sec);
      if l.Err? then Parsed(p.report, Thrown(l.error)) else Parsed(Append(p.report, sec, l.value), Done)
  }

  /** The order in which the per-vertex body reads the views. */
  const VisitOrder: seq<Section> := [PLMappings, Mappings, Schedules, SuperLoops, Throughputs, Buffers]

  /** The views `views` in turn. */
  function Views(g: Graph, v: string, views: seq<Section>, p: Parsed): Parsed
  {
    if views == [] then p else Views(g, v, views[1..], Visit(g, v, views[0], p))
  }

  /** The per-vertex body: programmable-logic mapping, memory mapping,
      schedule, super loop, throughput, buffer, in that order; a failure
      stops the body with the earlier lines kept. */
  function ParseVertex(g: Graph, v: string, r: Report): Parsed
  {
    Views(g, v, VisitOrder, Parsed(r, Done))
  }

  /** The per-vertex body unrolled: each view in turn. */
  lemma ViewsUnrolled(g: Graph, v: string, r: Report)
    ensures var p1 := Visit(g, v, PLMappings, Parsed(r, Done));
            var p2 := Visit(g, v, Mappings, p1);
            var p3 := Visit(g, v, Schedules, p2);
            var p4 := Visit(g, v, SuperLoops, p3);
            var p5 := Visit(g, v, Throughputs, p4);
            ParseVertex(g, v, r) == Visit(g, v, Buffers, p5)
  {
    var p0 := Parsed(r, Done);
    var p1 := Visit(g, v, PLMappings, p0);
    var p2 := Visit(g, v, Mappings, p1);
    var p3 := Visit(g, v, Schedules, p2);
    var p4 := Visit(g, v, SuperLoops, p3);
    var p5 := Visit(g, v, Throughputs, p4);
    var p6 := Visit(g, v, Buffers, p5);
    calc {
      Views(g, v, VisitOrder, p0);
      Views(g, v, [Mappings, Schedules, SuperLoops, Throughputs, Buffers], p1);
      Views(g, v, [Schedules, SuperLoops, Throughputs, Buffers], p2);
      Views(g, v, [SuperLoops, Throughputs, Buffers], p3);
      Views(g, v, [Throughputs, Buffers], p4);
      Views(g, v, [Buffers], p5);
      Views(g, v, [], p6);
    }
  }

  /** The loop over the first `n` vertices of `order`. */
  function ParseAll(g: Graph, order: seq<string>, n: nat, r: Report): Parsed
    requires n <= |order|
  {
    if n == 0 then Parsed(r, Done)
    else
      var p := ParseAll(g, order, n - 1, r);
      if p.outcome != Done then p else ParseVertex(g, order[n - 1], p.report)
  }

  /** The parser's fields other than the graph. */
  datatype ParserState = ParserState(report: Report, solution: Option<string>)

  datatype ParseResult = ParseResult(state: ParserState, outcome: Outcome)

  /** `ParseSolution`: the loop, then the solution built by appending the
      other buffers to the mappings buffer in place. */
  function ParseStep(g: Graph, order: seq<string>, st: ParserState): ParseResult
  {
    var p := ParseAll(g, order, |order|, st.report);
    if p.outcome != Done then ParseResult(ParserState(p.report, st.solution), p.outcome)
    else
      var s := Concat(p.report);
      ParseResult(ParserState(p.report.(mappings := s), Some(s)), Done)
  }

  /** The text `WriteSolution` writes: every bold marker, then every
      stop-bold marker, replaced by `**`. */
  function Strip(s: string): string
  {
    Replace(Replace(s, Bold, Marker), StopBold, Marker)
  }

  /** Buffers joined section by section. */
  function Plus(a: Report, b: Report): Report
  {
    Report(a.mappings + b.mappings, a.schedules + b.schedules, a.plMappings + b.plMappings,
           a.superLoops + b.superLoops, a.throughputs + b.throughputs, a.buffers + b.buffers)
  }

  const NoLines: Report := Report("", "", "", "", "", "")

  /** Reference definition: the line vertex `v` contributes to each section. */
  function LinesOf(g: Graph, v: string): Report
  {
    Report(LineText(g, v, Mappings), LineText(g, v, Schedules), LineText(g, v, PLMappings),
           LineText(g, v, SuperLoops), LineText(g, v, Throughputs), LineText(g, v, Buffers))
  }

  /** Reference definition: the lines of every section, vertex by vertex,
      for the first `n` vertices of `order`. */
  function Texts(g: Graph, order: seq<string>, n: nat): Report
    requires n <= |order|
  {
    if n == 0 then NoLines else Plus(Texts(g, order, n - 1), LinesOf(g, order[n - 1]))
  }

  /** The first `n` vertices of `order` are complete. */
  predicate AllComplete(g: Graph, order: seq<string>, n: nat)
    requires n <= |order|
  {
    n == 0 || (AllComplete(g, order, n - 1) && Complete(g, order[n - 1]))
  }

  lemma {:induction false} AllCompleteEach(g: Graph, order: seq<string>, n: nat)
    requires n <= |order|
    ensures AllComplete(g, order, n) <==> forall j :: 0 <= j < n ==> Complete(g, order[j])
  {
    if n > 0 {
      AllCompleteEach(g, order, n - 1);
    }
  }

  lemma PlusNoLines(r: Report)
    ensures Plus(r, NoLines) == r
  {
    assert r.mappings + "" == r.mappings;
    assert r.schedules + "" == r.schedules;
    assert r.plMappings + "" == r.plMappings;
    assert r.superLoops + "" == r.superLoops;
    assert r.throughputs + "" == r.throughputs;
    assert r.buffers + "" == r.buffers;
  }

  lemma PlusAssoc(a: Report, b: Report, c: Report)
    ensures Plus(Plus(a, b), c) == Plus(a, Plus(b, c))
  {
    SeqAssoc(a.mappings, b.mappings, c.mappings);
    SeqAssoc(a.schedules, b.schedules, c.schedules);
    SeqAssoc(a.plMappings, b.plMappings, c.plMappings);
    SeqAssoc(a.superLoops, b.superLoops, c.superLoops);
    SeqAssoc(a.throughputs, b.throughputs, c.throughputs);
    SeqAssoc(a.buffers, b.buffers, c.buffers);
  }

  /** One vertex, against the reference: the body completes exactly when
      every view of the vertex can be read, fails with a runtime exception
      otherwise, and on completion each buffer has grown by the vertex's
      line for it. */
  lemma VertexLines(g: Graph, v: string, r: Report)
    ensures var p := ParseVertex(g, v, r);
            (p.outcome == Done <==> Complete(g, v)) &&
            (p.outcome != Done ==> p.outcome == Thrown(Runtime)) &&
            (p.outcome == Done ==> p.report == Plus(r, LinesOf(g, v)))
  {
    ViewsUnrolled(g, v, r);
  }

  /** The loop, against the reference: it completes exactly when every
      vertex is complete, fails with a runtime exception otherwise, and on
      completion each buffer holds its lines in vertex order after what it
      held before. */
  lemma {:induction false} ParseAllLines(g: Graph, order: seq<string>, n: nat, r: Report)
    requires n <= |order|
    ensures var p := ParseAll(g, order, n, r);
            (p.outcome == Done <==> AllComplete(g, order, n)) &&
            (p.outcome != Done ==> p.outcome == Thrown(Runtime)) &&
            (p.outcome == Done ==> p.report == Plus(r, Texts(g, order, n)))
  {
    if n == 0 {
      PlusNoLines(r);
    } else {
      ParseAllLines(g, order, n - 1, r);
      var p := ParseAll(g, order, n - 1, r);
      if p.outcome == Done {
        VertexLines(g, order[n - 1], p.report);
        PlusAssoc(r, Texts(g, order, n - 1), LinesOf(g, order[n - 1]));
      }
    }
  }

  /** The solution starts with the mappings buffer. */
  lemma ConcatSplit(r: Report)
    ensures Concat(r) == r.mappings + (r.schedules + r.plMappings + r.superLoops + r.throughputs + r.buffers)
  {
    SeqAssoc(r.mappings, r.schedules, r.plMappings);
    SeqAssoc(r.mappings, r.schedules + r.plMappings, r.superLoops);
    SeqAssoc(r.mappings, r.schedules + r.plMappings + r.superLoops, r.throughputs);
    SeqAssoc(r.mappings, r.schedules + r.plMappings + r.superLoops + r.throughputs, r.buffers);
  }

  lemma PrefixOfAppend(a: string, b: string)
    ensures a <= a + b
  {
  }

  /** `ParseSolution` from any state: it completes exactly when every
      vertex is complete, and then the solution is the buffers, each grown by
      its lines, joined, and the mappings buffer holds the solution; when it
      fails, the exception is a runtime one and the solution is unchanged. */
  lemma StepLines(g: Graph, order: seq<string>, st: ParserState)
    ensures var q := ParseStep(g, order, st);
            var grown := Plus(st.report, Texts(g, order, |order|));
            (q.outcome == Done <==> AllComplete(g, order, |order|)) &&
            (q.outcome != Done ==> q.outcome == Thrown(Runtime) && q.state.solution == st.solution) &&
            (q.outcome == Done ==>
               q.state.solution == Some(Concat(grown)) && q.state.report == grown.(mappings := Concat(grown)))
  {
    ParseAllLines(g, order, |order|, st.report);
  }

  /** A first parse on fresh buffers: when it completes, the solution is
      the six sections in declaration order, each its header followed by its
      lines in vertex order, and the mappings buffer now holds the whole
      solution; when it fails, some vertex has a view that cannot be read
      and there is still no solution. */
  lemma ParseFirst(g: Graph, order: seq<string>)
    ensures var q := ParseStep(g, order, ParserState(Headers(), None));
            var t := Texts(g, order, |order|);
            (q.outcome == Done <==> forall j :: 0 <= j < |order| ==> Complete(g, order[j])) &&
            (q.outcome != Done ==> q.outcome == Thrown(Runtime) && q.state.solution == None) &&
            (q.outcome == Done ==>
               q.state.solution == Some(
                 (Header(Mappings) + t.mappings) + (Header(Schedules) + t.schedules) +
                 (Header(PLMappings) + t.plMappings) + (Header(SuperLoops) + t.superLoops) +
                 (Header(Throughputs) + t.throughputs) + (Header(Buffers) + t.buffers)) &&
               q.state.report.mappings == q.state.solution.value)
  {
    StepLines(g, order, ParserState(Headers(), None));
    AllCompleteEach(g, order, |order|);
  }

  /** Because the mappings buffer keeps the whole solution, parsing a
      second time does not reproduce the first solution: the new one
      strictly extends it, starting with a second copy of the mapping
      lines. */
  lemma ParseAgain(g: Graph, order: seq<string>)
    ensures var q1 := ParseStep(g, order, ParserState(Headers(), None));
            var q2 := ParseStep(g, order, q1.state);
            q1.outcome == Done ==>
              q2.outcome == Done && q1.state.solution.Some? && q2.state.solution.Some? &&
              q1.state.solution.value + Texts(g, order, |order|).mappings <= q2.state.solution.value &&
              q1.state.solution.value < q2.state.solution.value
  {
    var q1 := ParseStep(g, order, ParserState(Headers(), None));
    StepLines(g, order, ParserState(Headers(), None));
    StepLines(g, order, q1.state);
    if q1.outcome == Done {
      var t := Texts(g, order, |order|);
      var s1 := q1.state.solution.value;
      var r2 := Plus(q1.state.report, t);
      var rest := r2.schedules + r2.plMappings + r2.superLoops + r2.throughputs + r2.buffers;
      ConcatSplit(r2);
      PrefixOfAppend(s1 + t.mappings, rest);
      assert |r2.schedules| >= |Header(Schedules)| > 0;
    }
  }

  /** After `WriteSolution`'s replacements no bold or stop-bold marker is
      left. */
  lemma StripRemoves(s: string)
    ensures !Contains(Strip(s), Bold) && !Contains(Strip(s), StopBold)
  {
    var once := Replace(s, Bold, Marker);
    assert !SharesChar(Marker, Bold) by {
      forall i | 0 <= i < |Marker| ensures Marker[i] !in Bold {
        assert Marker[i] == '*';
      }
    }
    assert !SharesChar(Marker, StopBold) by {
      forall i | 0 <= i < |Marker| ensures Marker[i] !in StopBold {
        assert Marker[i] == '*';
      }
    }
    assert !SharesChar(Bold, Marker) by {
      forall i | 0 <= i < |Bold| ensures Bold[i] !in Marker {
        assert Bold[i] != '*';
      }
    }
    ReplaceRemoves(s, Bold, Marker);
    ReplaceRemoves(once, StopBold, Marker);
    if Contains(Strip(s), Bold) {
      ReplaceKeepsAbsent(once, StopBold, Marker, Bold);
    }
  }

  /** The report generator. The graph is read, never changed. */
  class SolutionParser {
    const graph: SystemGraph
    var memoryMappings: string
    var schedules: string
    var plMappings: string
    var superLoops: string
    var actorThroughputs: string
    var boundedBuffers: string
    var solution: Option<string>

    function Sections(): Report
      reads this
    {
      Report(memoryMappings, schedules, plMappings, superLoops, actorThroughputs, boundedBuffers)
    }

    function State(): ParserState
      reads this
    {
      ParserState(Sections(), solution)
    }

    constructor (g: SystemGraph)
      ensures graph == g && State() == ParserState(Headers(), None)
    {
      graph := g;
      memoryMappings := Header(Mappings);
      schedules := Header(Schedules);
      plMappings := Header(PLMappings);
      superLoops := Header(SuperLoops);
      actorThroughputs := Header(Throughputs);
      boundedBuffers := Header(Buffers);
      solution := None;
    }

    /** The body of the loop for vertex `v`: the six views in turn, each
        stopping the body when it fails. */
    method VisitVertex(v: string) returns (outcome: Outcome)
      modifies this
      ensures Parsed(Sections(), outcome) == ParseVertex(graph.model, v, old(Sections()))
      ensures solution == old(solution)
    {
      ViewsUnrolled(graph.model, v, Sections());
      outcome := VisitPLMapping(v);
      if outcome != Done {
        return;
      }
      outcome := VisitMapping(v);
      if outcome != Done {
        return;
      }
      outcome := VisitSchedule(v);
      if outcome != Done {
        return;
      }
      outcome := VisitSuperLoop(v);
      if outcome != Done {
        return;
      }
      outcome := VisitThroughput(v);
      if outcome != Done {
        return;
      }
      outcome := VisitBuffer(v);
    }

    method VisitPLMapping(v: string) returns (outcome: Outcome)
      modifies this
      ensures Parsed(Sections(), outcome) == Visit(graph.model, v, PLMappings, Parsed(old(Sections()), Done))
      ensures solution == old(solution)
    {
      outcome := Done;
      if HasTrait(graph.model, v, LogicProgrammableSynthetized) {
        var host := NameField(graph.model, v, HostLogicProgrammableModule);
        if host.None? {
          return Thrown(Runtime);
        }
        plMappings := plMappings + Arrow(v, host.value);
      }
    }

    method VisitMapping(v: string) returns (outcome: Outcome)
      modifies this
      ensures Parsed(Sections(), outcome) == Visit(graph.model, v, Mappings, Parsed(old(Sections()), Done))
      ensures solution == old(solution)
    {
      outcome := Done;
      if HasTrait(graph.model, v, MemoryMapped) {
        var host := NameField(graph.model, v, MappingHost);
        if host.None? {
          return Thrown(Runtime);
        }
        memoryMappings := memoryMappings + Arrow(v, host.value);
      }
    }

    method VisitSchedule(v: string) returns (outcome: Outcome)
      modifies this
      ensures Parsed(Sections(), outcome) == Visit(graph.model, v, Schedules, Parsed(old(Sections()), Done))
      ensures solution == old(solution)
    {
      outcome := Done;
      if HasTrait(graph.model, v, Scheduled) {
        var host := NameField(graph.model, v, RuntimeHost);
        if host.None? {
          return Thrown(Runtime);
        }
        schedules := schedules + Arrow(v, host.value);
      }
    }

    method VisitSuperLoop(v: string) returns (outcome: Outcome)
      modifies this
      ensures Parsed(Sections(), outcome) == Visit(graph.model, v, SuperLoops, Parsed(old(Sections()), Done))
      ensures solution == old(solution)
    {
      outcome := Done;
      if HasTrait(graph.model, v, SuperLoopRuntime) {
        var entries := ListField(graph.model, v, SuperLoopEntries);
        if entries.None? {
          return Thrown(Runtime);
        }
        if |entries.value| > 0 {
          superLoops := superLoops + SuperLoopLine(v, entries.value);
        }
      }
    }

    method VisitThroughput(v: string) returns (outcome: Outcome)
      modifies this
      ensures Parsed(Sections(), outcome) == Visit(graph.model, v, Throughputs, Parsed(old(Sections()), Done))
      ensures solution == old(solution)
    {
      outcome := Done;
      if HasTrait(graph.model, v, AnalyzedBehavior) {
        var num := IntField(graph.model, v, ThroughputInSecsNumerator);
        var den := IntField(graph.model, v, ThroughputInSecsDenominator);
        if num.None? || den.None? {
          return Thrown(Runtime);
        }
        actorThroughputs := actorThroughputs + ThroughputLine(v, num.value, den.value);
      }
    }

    method VisitBuffer(v: string) returns (outcome: Outcome)
      modifies this
      ensures Parsed(Sections(), outcome) == Visit(graph.model, v, Buffers, Parsed(old(Sections()), Done))
      ensures solution == old(solution)
    {
      outcome := Done;
      if HasTrait(graph.model, v, BoundedBufferLike) {
        var tokens := IntField(graph.model, v, MaxElements);
        var bits := IntField(graph.model, v, ElementSizeInBits);
        if tokens.None? || bits.None? {
          return Thrown(Runtime);
        }
        boundedBuffers := boundedBuffers + BufferLine(v, tokens.value, bits.value);
      }
    }

    /** `ParseSolution`, visiting the vertices in the graph's iteration
        order `order`. */
    method ParseSolution(order: seq<string>) returns (outcome: Outcome)
      requires IsEnumeration(order, graph.model.vertices.Keys)
      modifies this
      ensures ParseResult(State(), outcome) == ParseStep(graph.model, order, old(State()))
    {
      outcome := VisitAll(order);
      if outcome == Done {
        Join();
      }
    }

    /** The loop of `ParseSolution`: the body for each vertex in turn,
        stopping at the first failure. */
    method VisitAll(order: seq<string>) returns (outcome: Outcome)
      modifies this
      ensures Parsed(Sections(), outcome) == ParseAll(graph.model, order, |order|, old(Sections()))
      ensures solution == old(solution)
    {
      var i := 0;
      while i < |order|
        invariant 0 <= i <= |order|
        invariant ParseAll(graph.model, order, i, old(Sections())) == Parsed(Sections(), Done)
        invariant solution == old(solution)
      {
        var o := VisitVertex(order[i]);
        if o != Done {
          ParseAllStop(graph.model, order, i + 1, |order|, old(Sections()));
          return o;
        }
        i := i + 1;
      }
      outcome := Done;
    }

    /** The end of `ParseSolution`: the other buffers appended to the
        mappings buffer, which becomes the solution too. */
    method Join()
      modifies this
      ensures solution == Some(Concat(old(Sections())))
      ensures Sections() == old(Sections()).(mappings := solution.value)
    {
      var s := memoryMappings + schedules + plMappings + superLoops + actorThroughputs + boundedBuffers;
      memoryMappings := s;
      solution := Some(s);
    }

    /** `PrintSolution`: the solution and a line break on standard output,
        which is returned here; without a solution the assertion fails. */
    method PrintSolution() returns (outcome: Outcome, out: string)
      ensures solution.None? ==> outcome == Thrown(AssertionFailed) && out == ""
      ensures solution.Some? ==> outcome == Done && out == solution.value + "\n"
    {
      if solution.None? {
        return Thrown(AssertionFailed), "";
      }
      return Done, solution.value + "\n";
    }

    /** `WriteSolution`: the text written to `outPath`, which is returned
        here; without a solution the assertion fails. */
    method WriteSolution(outPath: string) returns (outcome: Outcome, written: string)
      ensures solution.None? ==> outcome == Thrown(AssertionFailed) && written == ""
      ensures solution.Some? ==> outcome == Done && written == Strip(solution.value)
      ensures solution.Some? ==> !Contains(written, Bold) && !Contains(written, StopBold)
    {
      if solution.None? {
        return Thrown(AssertionFailed), "";
      }
      var stripped := Replace(Replace(solution.value, Bold, Marker), StopBold, Marker);
      StripRemoves(solution.value);
      return Done, stripped;
    }
  }

  /** Once a vertex fails, the later ones are not visited. */
  lemma {:induction false} ParseAllStop(g: Graph, order: seq<string>, n: nat, m: nat, r: Report)
    requires n <= m <= |order| && ParseAll(g, order, n, r).outcome != Done
    ensures ParseAll(g, order, m, r) == ParseAll(g, order, n, r)
    decreases m - n
  {
    if n < m {
      ParseAllStop(g, order, n, m - 1, r);
    }
  }
}
