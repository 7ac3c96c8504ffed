/**
  An abstract stand-in for the Tez `DAG` the builder fills: vertices in the
  order they were added, each with its name, its kind, its serialized task,
  its parallelism and its data-source or data-sink binding, and edges as
  pairs of vertex names. Every edge shares one edge configuration (ordered,
  hash-partitioned key/value transfer), so edges carry no property here.
*/
module TezDag {
  import opened Wrappers

  datatype VertexKind = Source | Sink | Intermediate

  /** A named data-source (input path) or data-sink (output path) attached to a vertex. */
  datatype Binding =
    | DataSource(name: string, path: string)
    | DataSink(name: string, path: string)

  /** `parallelism` is None where the source creates the vertex without a
      task count (Tez then decides it from the input). */
  datatype Vertex = Vertex(
    name: string,
    kind: VertexKind,
    payload: seq<bv8>,
    parallelism: Option<int>,
    binding: Option<Binding>)

  datatype Edge = Edge(from: string, to: string)

  datatype Dag = Dag(vertices: seq<Vertex>, edges: seq<Edge>)

  const EmptyDag: Dag := Dag([], [])

  /** `DAG.getVertex(name) != null`. */
  predicate HasVertex(vertices: seq<Vertex>, name: string) {
    exists i :: 0 <= i < |vertices| && vertices[i].name == name
  }

  function AddVertex(d: Dag, v: Vertex): Dag {
    d.(vertices := d.vertices + [v])
  }

  function AddEdge(d: Dag, e: Edge): Dag {
    d.(edges := d.edges + [e])
  }

  /** The names a vertex introduces: its own, then its binding's. */
  function NamesOf(v: Vertex): seq<string> {
    [v.name] + if v.binding.Some? then [v.binding.value.name] else []
  }

  /** Every vertex and binding name, in the order the vertices were added. */
  function Names(vertices: seq<Vertex>): seq<string> {
    if |vertices| == 0 then [] else Names(vertices[..|vertices| - 1]) + NamesOf(vertices[|vertices| - 1])
  }

  /** Every edge joins two vertices of the graph and enters a non-source vertex. */
  ghost predicate EdgesResolved(d: Dag) {
    forall e :: e in d.edges ==>
      HasVertex(d.vertices, e.from) &&
      exists i :: 0 <= i < |d.vertices| && d.vertices[i].name == e.to && d.vertices[i].kind != Source
  }
}
