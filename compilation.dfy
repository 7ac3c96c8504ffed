/**
  The DAG compilation pass of `DAGBuilder.doBuild`, as a fold over the stage
  registry in insertion order, and what it produces stated in closed form.

  Each stage is visited with a 1-based position. A stage reading an RDD
  becomes a source vertex; otherwise the stage in the last position becomes
  the sink vertex, and every other stage an intermediate vertex. Names are
  the decimal text of one shared counter starting at 0: a source takes two
  (vertex, then data source), the sink two (vertex, then data sink), an
  intermediate one. A sink or intermediate stage whose input lists upstream
  stage ids gets one incoming edge per listed id, from the vertex named by the
  decimal text of the upstream descriptor's `vertexId * 2` (32-bit Java
  arithmetic). An id missing from the registry, or a peer name no vertex
  carries yet, stops the pass with a build error.
*/
module Compilation {
  import opened Wrappers
  import opened JavaText
  import opened Descriptors
  import opened TezDag

  /** The `LinkedHashMap<Integer, VertexDescriptor>`: its keys in insertion
      order and the current value of each descriptor. */
  datatype Registry = Registry(order: seq<Int32>, stages: map<Int32, Stage>)

  ghost predicate WellKeyed(r: Registry) {
    forall i :: 0 <= i < |r.order| ==> r.order[i] in r.stages
  }

  /** What a registry built by `addVertex` from valid descriptors satisfies. */
  ghost predicate ValidRegistry(r: Registry) {
    && WellKeyed(r)
    && (forall i, j :: 0 <= i < j < |r.order| ==> r.order[i] != r.order[j])
    && (forall k :: k in r.stages ==> k in r.order)
    && (forall k :: k in r.stages ==> r.stages[k].stageId == k && r.stages[k].numPartitions >= 1)
  }

  /** The stage at 0-based position `i` of the iteration. */
  function At(r: Registry, i: nat): Stage
    requires WellKeyed(r) && i < |r.order|
  {
    r.stages[r.order[i]]
  }

  /** The classification of the stage at position `i`. */
  function Kind(r: Registry, i: nat): (k: VertexKind)
    requires WellKeyed(r) && i < |r.order|
    ensures k == Source <==> At(r, i).input.External?
    ensures k == Sink ==> i + 1 == |r.order|
  {
    if At(r, i).input.External? then Source
    else if i + 1 == |r.order| then Sink
    else Intermediate
  }

  /** How many names a vertex of kind `k` uses up. */
  function Cost(k: VertexKind): nat {
    if k == Intermediate then 1 else 2
  }

  /** The counter's value when the stage at position `n` is reached. */
  function NameBase(r: Registry, n: nat): nat
    requires WellKeyed(r) && n <= |r.order|
  {
    if n == 0 then 0 else NameBase(r, n - 1) + Cost(Kind(r, n - 1))
  }

  /** The name under which an upstream descriptor's vertex is looked up. */
  function PeerName(vertexId: Int32): (s: string)
    ensures |s| >= 1 && (s[0] == '-' <==> Wrap32(vertexId * 2) < 0)
    ensures forall i :: 0 < i < |s| ==> IsDigit(s[i])
  {
    IntToString(Wrap32(vertexId * 2))
  }

  /** The vertex the stage at position `i` creates when the counter is at `next`. */
  function CreatedVertex(r: Registry, outputPath: string, i: nat, next: nat): (v: Vertex)
    requires WellKeyed(r) && i < |r.order|
    ensures v.kind == Kind(r, i) && v.payload == At(r, i).payload
    ensures v.binding.Some? <==> v.kind != Intermediate
  {
    var s := At(r, i);
    match Kind(r, i)
    case Source =>
      Vertex(NatToString(next), Source, s.payload, None, Some(DataSource(NatToString(next + 1), s.input.path)))
    case Sink =>
      Vertex(NatToString(next), Sink, s.payload, Some(s.numPartitions), Some(DataSink(NatToString(next + 1), outputPath)))
    case Intermediate =>
      Vertex(NatToString(next), Intermediate, s.payload, Some(s.numPartitions), None)
  }

  datatype BuildError =
    | UnknownStage(stageId: Int32)  // `vertexes.get(stageId)` is null
    | MissingPeer(name: string)     // no vertex carries the peer name

  /** Edge wiring for one stage: done, or stopped with the DAG as it was then. */
  datatype Wiring = Wired(dag: Dag) | Dangling(dag: Dag, error: BuildError)

  /** The pass after some stages: the DAG and the counter, or the error and the
      DAG as it was when the error was raised. */
  datatype Progress = Built(dag: Dag, next: nat) | Broken(dag: Dag, error: BuildError)

  /** One iteration of the inner loop: look up the upstream stage, find its
      vertex by the peer name, and add the edge into `target`. */
  function Connect(r: Registry, d: Dag, id: Int32, target: string): (w: Wiring)
    ensures w.dag.vertices == d.vertices
    ensures w.Wired? <==> id in r.stages && HasVertex(d.vertices, PeerName(r.stages[id].vertexId))
    ensures w.Wired? ==> w.dag.edges == d.edges + [Edge(PeerOf(r, id), target)]
    ensures w.Dangling? ==> w.dag == d
  {
    if id !in r.stages then Dangling(d, UnknownStage(id))
    else
      var peer := PeerName(r.stages[id].vertexId);
      if !HasVertex(d.vertices, peer) then Dangling(d, MissingPeer(peer))
      else Wired(AddEdge(d, Edge(peer, target)))
  }

  /** The inner loop after its first `k` upstream ids. */
  function WireUpTo(r: Registry, d: Dag, ids: seq<Int32>, target: string, k: nat): Wiring
    requires k <= |ids|
  {
    if k == 0 then Wired(d)
    else
      var w := WireUpTo(r, d, ids, target, k - 1);
      if w.Dangling? then w else Connect(r, w.dag, ids[k - 1], target)
  }

  /** One iteration of the outer loop, for the stage at position `i`. */
  function Step(r: Registry, outputPath: string, i: nat, d: Dag, next: nat): Progress
    requires WellKeyed(r) && i < |r.order|
  {
    var d' := AddVertex(d, CreatedVertex(r, outputPath, i, next));
    var next' := next + Cost(Kind(r, i));
    match At(r, i).input
    case External(_, _) => Built(d', next')
    case Named(_) => Built(d', next')
    case Upstream(ids) =>
      var w := WireUpTo(r, d', ids, NatToString(next), |ids|);
      if w.Wired? then Built(w.dag, next') else Broken(w.dag, w.error)
  }

  /** The pass after the first `n` stages, starting from an empty DAG and a counter of 0. */
  function CompileUpTo(r: Registry, outputPath: string, n: nat): Progress
    requires WellKeyed(r) && n <= |r.order|
  {
    if n == 0 then Built(EmptyDag, 0)
    else
      var p := CompileUpTo(r, outputPath, n - 1);
      if p.Broken? then p else Step(r, outputPath, n - 1, p.dag, p.next)
  }

  /** Unless the pass has already stopped, one more stage is one more `Step`. */
  lemma NextStage(r: Registry, outputPath: string, n: nat)
    requires WellKeyed(r) && n < |r.order|
    ensures var p := CompileUpTo(r, outputPath, n);
      p.Built? ==> CompileUpTo(r, outputPath, n + 1) == Step(r, outputPath, n, p.dag, p.next)
  {
  }

  function Compile(r: Registry, outputPath: string): Progress
    requires WellKeyed(r)
  {
    CompileUpTo(r, outputPath, |r.order|)
  }

  // ---------------------------------------------------------------------
  // Closed forms: what the first n stages produce.

  function ExpectedVertices(r: Registry, outputPath: string, n: nat): seq<Vertex>
    requires WellKeyed(r) && n <= |r.order|
  {
    if n == 0 then []
    else ExpectedVertices(r, outputPath, n - 1) + [CreatedVertex(r, outputPath, n - 1, NameBase(r, n - 1))]
  }

  function PeerOf(r: Registry, id: Int32): string {
    if id in r.stages then PeerName(r.stages[id].vertexId) else ""
  }

  /** The edges for the first `k` upstream ids, all entering `target`. */
  function PeerEdges(r: Registry, ids: seq<Int32>, target: string, k: nat): seq<Edge>
    requires k <= |ids|
  {
    if k == 0 then [] else PeerEdges(r, ids, target, k - 1) + [Edge(PeerOf(r, ids[k - 1]), target)]
  }

  function StageEdges(r: Registry, i: nat): seq<Edge>
    requires WellKeyed(r) && i < |r.order|
  {
    match At(r, i).input
    case Upstream(ids) => PeerEdges(r, ids, NatToString(NameBase(r, i)), |ids|)
    case _ => []
  }

  function ExpectedEdges(r: Registry, n: nat): seq<Edge>
    requires WellKeyed(r) && n <= |r.order|
  {
    if n == 0 then [] else ExpectedEdges(r, n - 1) + StageEdges(r, n - 1)
  }

  /** Every upstream id of the stage at position `i` is registered, and its
      peer number is the name number of a vertex created at or before `i`. */
  ghost predicate Resolves(r: Registry, i: nat)
    requires WellKeyed(r) && i < |r.order|
  {
    At(r, i).input.Upstream? ==>
      var ids := At(r, i).input.ids;
      forall k :: 0 <= k < |ids| ==>
        && ids[k] in r.stages
        && exists j :: 0 <= j <= i && NameBase(r, j) == Wrap32(r.stages[ids[k]].vertexId * 2)
  }

  function CountKind(r: Registry, kind: VertexKind, n: nat): nat
    requires WellKeyed(r) && n <= |r.order|
  {
    if n == 0 then 0 else CountKind(r, kind, n - 1) + if Kind(r, n - 1) == kind then 1 else 0
  }

  function UpstreamTotal(r: Registry, n: nat): nat
    requires WellKeyed(r) && n <= |r.order|
  {
    if n == 0 then 0
    else UpstreamTotal(r, n - 1) + if At(r, n - 1).input.Upstream? then |At(r, n - 1).input.ids| else 0
  }

  // ---------------------------------------------------------------------
  // Classification and name counting.

  /** A stage reading an RDD is a source in any position; any other stage is
      the sink exactly when it is in the last position. */
  lemma KindByPosition(r: Registry, i: nat)
    requires WellKeyed(r) && i < |r.order|
    ensures At(r, i).input.External? ==> Kind(r, i) == Source
    ensures !At(r, i).input.External? ==> (Kind(r, i) == Sink <==> i + 1 == |r.order|)
    ensures Kind(r, i) == Intermediate <==> !At(r, i).input.External? && i + 1 < |r.order|
  {
  }

  /** There is a sink exactly when the registry is non-empty and its last
      stage does not read an RDD; there is never more than one. */
  lemma {:induction false} SinkCount(r: Registry, n: nat)
    requires WellKeyed(r) && n <= |r.order|
    ensures CountKind(r, Sink, n) == if n == |r.order| && n > 0 && !At(r, n - 1).input.External? then 1 else 0
  {
    if n > 0 {
      SinkCount(r, n - 1);
    }
  }

  lemma AtMostOneSink(r: Registry)
    requires WellKeyed(r)
    ensures CountKind(r, Sink, |r.order|) <= 1
  {
    SinkCount(r, |r.order|);
  }

  /** The counter ends at 2 per source, 2 per sink and 1 per intermediate. */
  lemma {:induction false} NameBaseByKind(r: Registry, n: nat)
    requires WellKeyed(r) && n <= |r.order|
    ensures NameBase(r, n) == 2 * CountKind(r, Source, n) + 2 * CountKind(r, Sink, n) + CountKind(r, Intermediate, n)
  {
    if n > 0 {
      NameBaseByKind(r, n - 1);
    }
  }

  lemma {:induction false} NameBaseGrows(r: Registry, i: nat, j: nat)
    requires WellKeyed(r) && i < j <= |r.order|
    ensures NameBase(r, i) < NameBase(r, j)
    decreases j
  {
    if i < j - 1 {
      NameBaseGrows(r, i, j - 1);
    }
  }

  // ---------------------------------------------------------------------
  // The shape of a successful pass.

  lemma {:induction false} ExpectedVerticesLength(r: Registry, outputPath: string, n: nat)
    requires WellKeyed(r) && n <= |r.order|
    ensures |ExpectedVertices(r, outputPath, n)| == n
  {
    if n > 0 {
      ExpectedVerticesLength(r, outputPath, n - 1);
    }
  }

  lemma {:induction false} ExpectedVerticesAt(r: Registry, outputPath: string, n: nat, j: nat)
    requires WellKeyed(r) && j < n <= |r.order|
    ensures |ExpectedVertices(r, outputPath, n)| == n
    ensures ExpectedVertices(r, outputPath, n)[j] == CreatedVertex(r, outputPath, j, NameBase(r, j))
  {
    ExpectedVerticesLength(r, outputPath, n);
    if j < n - 1 {
      ExpectedVerticesAt(r, outputPath, n - 1, j);
    } else {
      ExpectedVerticesLength(r, outputPath, n - 1);
    }
  }

  /** The inner loop succeeds exactly when every id is registered and its peer
      vertex exists; it never touches the vertices, and on success it has
      appended one edge per id, in order, all entering `target`. */
  lemma {:induction false} WireUpToShape(r: Registry, d: Dag, ids: seq<Int32>, target: string, k: nat)
    requires k <= |ids|
    ensures WireUpTo(r, d, ids, target, k).dag.vertices == d.vertices
    ensures WireUpTo(r, d, ids, target, k).Wired? <==>
      forall m :: 0 <= m < k ==> ids[m] in r.stages && HasVertex(d.vertices, PeerName(r.stages[ids[m]].vertexId))
    ensures WireUpTo(r, d, ids, target, k).Wired? ==>
      WireUpTo(r, d, ids, target, k).dag.edges == d.edges + PeerEdges(r, ids, target, k)
  {
    if k > 0 {
      WireUpToShape(r, d, ids, target, k - 1);
    }
  }

  /** After `n` stages without error, the DAG holds exactly the expected
      vertices and edges, and the counter stands at the expected value. */
  lemma {:induction false} BuiltShape(r: Registry, outputPath: string, n: nat)
    requires WellKeyed(r) && n <= |r.order|
    ensures CompileUpTo(r, outputPath, n).Built? ==>
      && CompileUpTo(r, outputPath, n).dag.vertices == ExpectedVertices(r, outputPath, n)
      && CompileUpTo(r, outputPath, n).dag.edges == ExpectedEdges(r, n)
      && CompileUpTo(r, outputPath, n).next == NameBase(r, n)
  {
    if n > 0 && CompileUpTo(r, outputPath, n).Built? {
      var p := CompileUpTo(r, outputPath, n - 1);
      BuiltShape(r, outputPath, n - 1);
      var d' := AddVertex(p.dag, CreatedVertex(r, outputPath, n - 1, p.next));
      match At(r, n - 1).input
      case External(_, _) =>
      case Named(_) =>
      case Upstream(ids) =>
        WireUpToShape(r, d', ids, NatToString(p.next), |ids|);
    }
  }

  /** The vertices of the first `n` stages carry exactly the names of the
      numbers below `NameBase(r, n)` at their own creation positions. */
  lemma ExpectedVertexNames(r: Registry, outputPath: string, n: nat, name: string)
    requires WellKeyed(r) && n <= |r.order|
    ensures HasVertex(ExpectedVertices(r, outputPath, n), name) <==>
      exists j :: 0 <= j < n && NatToString(NameBase(r, j)) == name
  {
    var vs := ExpectedVertices(r, outputPath, n);
    ExpectedVerticesLength(r, outputPath, n);
    if HasVertex(vs, name) {
      var i :| 0 <= i < |vs| && vs[i].name == name;
      ExpectedVerticesAt(r, outputPath, n, i);
    }
    if exists j :: 0 <= j < n && NatToString(NameBase(r, j)) == name {
      var j :| 0 <= j < n && NatToString(NameBase(r, j)) == name;
      ExpectedVerticesAt(r, outputPath, n, j);
      assert vs[j].name == name;
    }
  }

  /** A peer name is found among the first `i + 1` stages' vertices exactly
      when the wrapped `vertexId * 2` equals one of their name numbers. */
  lemma PeerFound(r: Registry, outputPath: string, i: nat, vertexId: Int32)
    requires WellKeyed(r) && i < |r.order|
    ensures HasVertex(ExpectedVertices(r, outputPath, i + 1), PeerName(vertexId)) <==>
      exists j :: 0 <= j <= i && NameBase(r, j) == Wrap32(vertexId * 2)
  {
    ExpectedVertexNames(r, outputPath, i + 1, PeerName(vertexId));
    forall j | 0 <= j <= i
      ensures NatToString(NameBase(r, j)) == PeerName(vertexId) <==> NameBase(r, j) == Wrap32(vertexId * 2)
    {
      IntToStringMatchesNat(Wrap32(vertexId * 2), NameBase(r, j));
    }
  }

  /** Given the DAG and counter the first `i` stages produce, the stage at
      position `i` completes exactly when it resolves all its upstream ids. */
  lemma StepSucceedsIff(r: Registry, outputPath: string, i: nat, d: Dag, next: nat)
    requires WellKeyed(r) && i < |r.order|
    requires d.vertices == ExpectedVertices(r, outputPath, i) && next == NameBase(r, i)
    ensures Step(r, outputPath, i, d, next).Built? <==> Resolves(r, i)
  {
    var d' := AddVertex(d, CreatedVertex(r, outputPath, i, next));
    assert d'.vertices == ExpectedVertices(r, outputPath, i + 1);
    match At(r, i).input
    case External(_, _) =>
    case Named(_) =>
    case Upstream(ids) =>
      WireUpToShape(r, d', ids, NatToString(next), |ids|);
      forall m | 0 <= m < |ids| && ids[m] in r.stages
        ensures HasVertex(d'.vertices, PeerName(r.stages[ids[m]].vertexId)) <==>
          exists j :: 0 <= j <= i && NameBase(r, j) == Wrap32(r.stages[ids[m]].vertexId * 2)
      {
        PeerFound(r, outputPath, i, r.stages[ids[m]].vertexId);
      }
  }

  /** The first `n` stages all resolve their upstream ids. */
  ghost predicate ResolvedUpTo(r: Registry, n: nat)
    requires WellKeyed(r) && n <= |r.order|
  {
    n == 0 || (ResolvedUpTo(r, n - 1) && Resolves(r, n - 1))
  }

  lemma {:induction false} ResolvedUpToAll(r: Registry, n: nat)
    requires WellKeyed(r) && n <= |r.order|
    ensures ResolvedUpTo(r, n) <==> forall i :: 0 <= i < n ==> Resolves(r, i)
  {
    if n > 0 {
      ResolvedUpToAll(r, n - 1);
    }
  }

  lemma {:induction false} CompileUpToSucceedsIff(r: Registry, outputPath: string, n: nat)
    requires WellKeyed(r) && n <= |r.order|
    ensures CompileUpTo(r, outputPath, n).Built? <==> ResolvedUpTo(r, n)
  {
    if n > 0 {
      CompileUpToSucceedsIff(r, outputPath, n - 1);
      var p := CompileUpTo(r, outputPath, n - 1);
      if p.Built? {
        BuiltShape(r, outputPath, n - 1);
        StepSucceedsIff(r, outputPath, n - 1, p.dag, p.next);
      }
    }
  }

  /** The pass over the first `n` stages succeeds if and only if every one of
      them resolves all of its upstream ids. */
  lemma CompileSucceedsIff(r: Registry, outputPath: string, n: nat)
    requires WellKeyed(r) && n <= |r.order|
    ensures CompileUpTo(r, outputPath, n).Built? <==> forall i :: 0 <= i < n ==> Resolves(r, i)
  {
    CompileUpToSucceedsIff(r, outputPath, n);
    ResolvedUpToAll(r, n);
  }

  /** Once the pass has stopped on an error, later stages change nothing. */
  lemma {:induction false} BrokenStaysBroken(r: Registry, outputPath: string, m: nat, n: nat)
    requires WellKeyed(r) && m <= n <= |r.order|
    requires CompileUpTo(r, outputPath, m).Broken?
    ensures CompileUpTo(r, outputPath, n) == CompileUpTo(r, outputPath, m)
    decreases n
  {
    if m < n {
      BrokenStaysBroken(r, outputPath, m, n - 1);
    }
  }

  lemma {:induction false} DanglingStaysDangling(r: Registry, d: Dag, ids: seq<Int32>, target: string, m: nat, k: nat)
    requires m <= k <= |ids|
    requires WireUpTo(r, d, ids, target, m).Dangling?
    ensures WireUpTo(r, d, ids, target, k) == WireUpTo(r, d, ids, target, m)
    decreases k
  {
    if m < k {
      DanglingStaysDangling(r, d, ids, target, m, k - 1);
    }
  }

  // ---------------------------------------------------------------------
  // Names.

  lemma NamesAppend(vs: seq<Vertex>, v: Vertex)
    ensures Names(vs + [v]) == Names(vs) + NamesOf(v)
  {
    assert (vs + [v])[..|vs|] == vs;
  }

  /** The names of the first `n` vertices: those of the first `n - 1`, then the last one's. */
  lemma NextNames(r: Registry, outputPath: string, n: nat)
    requires WellKeyed(r) && 0 < n <= |r.order|
    ensures Names(ExpectedVertices(r, outputPath, n)) ==
      Names(ExpectedVertices(r, outputPath, n - 1)) + NamesOf(CreatedVertex(r, outputPath, n - 1, NameBase(r, n - 1)))
  {
    NamesAppend(ExpectedVertices(r, outputPath, n - 1), CreatedVertex(r, outputPath, n - 1, NameBase(r, n - 1)));
  }

  /** `names` is the decimal text of `b`, `b + 1`, ... in order. */
  ghost predicate NumberedFrom(names: seq<string>, b: nat) {
    forall j :: 0 <= j < |names| ==> names[j] == NatToString(b + j)
  }

  /** The vertex created with the counter at `b` uses up the names `b`,
      `b + 1`, ..., as many as its kind costs. */
  lemma CreatedNames(r: Registry, outputPath: string, i: nat, b: nat)
    requires WellKeyed(r) && i < |r.order|
    ensures |NamesOf(CreatedVertex(r, outputPath, i, b))| == Cost(Kind(r, i))
    ensures NumberedFrom(NamesOf(CreatedVertex(r, outputPath, i, b)), b)
  {
  }

  /** Names numbered from 0 up to `b`, followed by names numbered from `b`,
      are numbered from 0. */
  lemma NumberedAppend(before: seq<string>, created: seq<string>, b: nat)
    requires |before| == b
    requires NumberedFrom(before, 0)
    requires NumberedFrom(created, b)
    ensures NumberedFrom(before + created, 0)
  {
    var names := before + created;
    forall k | 0 <= k < |names| ensures names[k] == NatToString(0 + k) {
      if k >= b {
        assert names[k] == created[k - b];
      }
    }
  }

  /** Names numbered from 0, followed by those of the vertex created next,
      are numbered from 0. */
  lemma AppendCreated(r: Registry, outputPath: string, i: nat, before: seq<string>)
    requires WellKeyed(r) && i < |r.order|
    requires NumberedFrom(before, 0)
    ensures var names := before + NamesOf(CreatedVertex(r, outputPath, i, |before|));
      |names| == |before| + Cost(Kind(r, i)) && NumberedFrom(names, 0)
  {
    CreatedNames(r, outputPath, i, |before|);
    NumberedAppend(before, NamesOf(CreatedVertex(r, outputPath, i, |before|)), |before|);
  }

  /** The names of the first `n` stages' vertices, numbered one stage further. */
  lemma NamesStep(r: Registry, outputPath: string, n: nat)
    requires WellKeyed(r) && 0 < n <= |r.order|
    requires var names := Names(ExpectedVertices(r, outputPath, n - 1));
      |names| == NameBase(r, n - 1) && NumberedFrom(names, 0)
    ensures var names := Names(ExpectedVertices(r, outputPath, n));
      |names| == NameBase(r, n) && NumberedFrom(names, 0)
  {
    NextNames(r, outputPath, n);
    AppendCreated(r, outputPath, n - 1, Names(ExpectedVertices(r, outputPath, n - 1)));
  }

  /** The k-th name of the first `n` stages' vertices is the decimal text of k. */
  lemma {:induction false} ExpectedNames(r: Registry, outputPath: string, n: nat)
    requires WellKeyed(r) && n <= |r.order|
    ensures var names := Names(ExpectedVertices(r, outputPath, n));
      |names| == NameBase(r, n) && NumberedFrom(names, 0)
  {
    if n > 0 {
      ExpectedNames(r, outputPath, n - 1);
      NamesStep(r, outputPath, n);
    }
  }

  /** A successful pass names every vertex and binding after the counter, in
      creation order: the k-th name created is the decimal text of k, and the
      counter ends just past the last name. */
  lemma NamesInCreationOrder(r: Registry, outputPath: string)
    requires WellKeyed(r)
    requires Compile(r, outputPath).Built?
    ensures |Names(Compile(r, outputPath).dag.vertices)| == Compile(r, outputPath).next
    ensures forall k :: 0 <= k < Compile(r, outputPath).next ==>
      Names(Compile(r, outputPath).dag.vertices)[k] == NatToString(k)
  {
    BuiltShape(r, outputPath, |r.order|);
    ExpectedNames(r, outputPath, |r.order|);
    var names := Names(Compile(r, outputPath).dag.vertices);
    forall k | 0 <= k < |names| ensures names[k] == NatToString(k) {
      assert names[k] == NatToString(0 + k);
    }
  }

  /** No two vertices or bindings of a successful pass share a name. */
  lemma NamesDistinct(r: Registry, outputPath: string)
    requires WellKeyed(r)
    requires Compile(r, outputPath).Built?
    ensures var names := Names(Compile(r, outputPath).dag.vertices);
      forall a, b :: 0 <= a < b < |names| ==> names[a] != names[b]
  {
    NamesInCreationOrder(r, outputPath);
    var names := Names(Compile(r, outputPath).dag.vertices);
    forall a, b | 0 <= a < b < |names| ensures names[a] != names[b] {
      NatToStringInjective(a, b);
    }
  }

  // ---------------------------------------------------------------------
  // Vertices and edges of a successful pass.

  /** Source vertices have no task count and a data source over the RDD's
      name; sink and intermediate vertices have the descriptor's partition
      count, which is at least 1; only the sink has a data sink, over the
      output path. */
  lemma VertexAttributes(r: Registry, outputPath: string, i: nat)
    requires ValidRegistry(r) && i < |r.order|
    requires Compile(r, outputPath).Built?
    ensures |Compile(r, outputPath).dag.vertices| == |r.order|
    ensures var v := Compile(r, outputPath).dag.vertices[i];
      && v.kind == Kind(r, i)
      && v.payload == At(r, i).payload
      && (v.kind == Source ==> v.parallelism == None && v.binding.Some? && v.binding.value == DataSource(v.binding.value.name, At(r, i).input.path))
      && (v.kind != Source ==> v.parallelism == Some(At(r, i).numPartitions as int) && v.parallelism.value >= 1)
      && (v.kind == Sink ==> v.binding.Some? && v.binding.value == DataSink(v.binding.value.name, outputPath))
      && (v.kind == Intermediate ==> v.binding == None)
  {
    BuiltShape(r, outputPath, |r.order|);
    ExpectedVerticesAt(r, outputPath, |r.order|, i);
  }

  lemma {:induction false} PeerEdgesLength(r: Registry, ids: seq<Int32>, target: string, k: nat)
    requires k <= |ids|
    ensures |PeerEdges(r, ids, target, k)| == k
  {
    if k > 0 {
      PeerEdgesLength(r, ids, target, k - 1);
    }
  }

  lemma {:induction false} PeerEdgesShape(r: Registry, ids: seq<Int32>, target: string, k: nat, m: nat)
    requires m < k <= |ids|
    ensures |PeerEdges(r, ids, target, k)| == k
    ensures PeerEdges(r, ids, target, k)[m] == Edge(PeerOf(r, ids[m]), target)
  {
    PeerEdgesLength(r, ids, target, k);
    if m < k - 1 {
      PeerEdgesShape(r, ids, target, k - 1, m);
    } else {
      PeerEdgesLength(r, ids, target, k - 1);
    }
  }

  /** One edge per listed upstream id of every non-source stage, repeats
      included; stages with a `String` input contribute none. */
  lemma {:induction false} EdgeCount(r: Registry, n: nat)
    requires WellKeyed(r) && n <= |r.order|
    ensures |ExpectedEdges(r, n)| == UpstreamTotal(r, n)
  {
    if n > 0 {
      EdgeCount(r, n - 1);
      match At(r, n - 1).input
      case Upstream(ids) => PeerEdgesLength(r, ids, NatToString(NameBase(r, n - 1)), |ids|);
      case _ =>
    }
  }

  /** Every edge of a successful pass starts at a vertex of the DAG and enters
      the sink or an intermediate vertex; their number is the total length of
      the upstream lists. */
  lemma EdgesWellFormed(r: Registry, outputPath: string)
    requires WellKeyed(r)
    requires Compile(r, outputPath).Built?
    ensures EdgesResolved(Compile(r, outputPath).dag)
    ensures |Compile(r, outputPath).dag.edges| == UpstreamTotal(r, |r.order|)
  {
    var n := |r.order|;
    BuiltShape(r, outputPath, n);
    EdgeCount(r, n);
    CompileSucceedsIff(r, outputPath, n);
    var d := Compile(r, outputPath).dag;
    ExpectedVerticesLength(r, outputPath, n);
    forall e | e in d.edges
      ensures HasVertex(d.vertices, e.from)
      ensures exists i :: 0 <= i < |d.vertices| && d.vertices[i].name == e.to && d.vertices[i].kind != Source
    {
      var i, m := EdgeOrigin(r, n, e);
      ExpectedVerticesAt(r, outputPath, n, i);
      assert d.vertices[i].name == e.to && d.vertices[i].kind != Source;
      var ids := At(r, i).input.ids;
      assert Resolves(r, i);
      var j :| 0 <= j <= i && NameBase(r, j) == Wrap32(r.stages[ids[m]].vertexId * 2);
      IntToStringMatchesNat(Wrap32(r.stages[ids[m]].vertexId * 2), NameBase(r, j));
      ExpectedVerticesAt(r, outputPath, n, j);
      assert d.vertices[j].name == e.from;
    }
  }

  /** Each expected edge comes from the `m`-th upstream id of the stage at
      position `i`, and enters that stage's vertex. */
  lemma {:induction false} EdgeOrigin(r: Registry, n: nat, e: Edge) returns (i: nat, m: nat)
    requires WellKeyed(r) && n <= |r.order|
    requires e in ExpectedEdges(r, n)
    ensures i < n && At(r, i).input.Upstream? && m < |At(r, i).input.ids|
    ensures Kind(r, i) != Source
    ensures e == Edge(PeerOf(r, At(r, i).input.ids[m]), NatToString(NameBase(r, i)))
  {
    var prev := ExpectedEdges(r, n - 1);
    if e in prev {
      i, m := EdgeOrigin(r, n - 1, e);
    } else {
      i := n - 1;
      var ids := At(r, i).input.ids;
      var target := NatToString(NameBase(r, i));
      PeerEdgesLength(r, ids, target, |ids|);
      var edges := PeerEdges(r, ids, target, |ids|);
      var x :| 0 <= x < |edges| && edges[x] == e;
      m := x;
      PeerEdgesShape(r, ids, target, |ids|, m);
    }
  }

  /** Peer names are always even numbers, so a vertex whose name is odd (any
      vertex created right after an intermediate one) can never be the start
      of an edge. */
  lemma PeerNamesEven(vertexId: Int32, m: nat)
    requires PeerName(vertexId) == NatToString(m)
    ensures m % 2 == 0
  {
    IntToStringMatchesNat(Wrap32(vertexId * 2), m);
    Wrap32KeepsParity(vertexId * 2);
  }

  /** In a successful pass no edge leaves a vertex whose name is odd: a stage
      whose vertex is created right after an intermediate one is never
      reachable as anyone's upstream. */
  lemma EdgesLeaveEvenNames(r: Registry, outputPath: string, e: Edge, i: nat)
    requires WellKeyed(r)
    requires Compile(r, outputPath).Built?
    requires e in Compile(r, outputPath).dag.edges
    requires i < |r.order| && i < |Compile(r, outputPath).dag.vertices|
    requires Compile(r, outputPath).dag.vertices[i].name == e.from
    ensures NameBase(r, i) % 2 == 0
  {
    var n := |r.order|;
    BuiltShape(r, outputPath, n);
    CompileSucceedsIff(r, outputPath, n);
    var j, m := EdgeOrigin(r, n, e);
    var id := At(r, j).input.ids[m];
    assert Resolves(r, j);
    ExpectedVerticesAt(r, outputPath, n, i);
    PeerNamesEven(r.stages[id].vertexId, NameBase(r, i));
  }
}
