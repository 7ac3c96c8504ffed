# DAG assembly and execution for Spark on Tez

This project models the part of spark-native-yarn that turns a Spark job into
a Tez DAG and runs it, and proves properties of that model in Dafny.

- `VertexDescriptor` is the per-stage record. It holds a stage id, a vertex
  id, an input and a serialized task, and a partition count whose setter
  ignores non-positive values.
- `DAGBuilder` holds a registry of descriptors, kept in a `LinkedHashMap`
  keyed by stage id. `doBuild` makes one pass over that registry:
  - It classifies each stage as a source, an intermediate or the sink.
  - It names every vertex and binding from one shared counter.
  - It wires each stage's incoming edges from the vertex named after
    `vertexId * 2` of each upstream stage.
- `build` wraps `doBuild` and hands out a `DAGTask`. The task runs the DAG
  on the Tez client and always stops the client.

Files:

- `wrappers.dfy`: the `Option` type.
- `java_text.dfy`: Java's 32-bit `int` with explicit wrap-around, its
  decimal text, and parsers that invert that text.
- `vertex_descriptor.dfy`: the `VertexDescriptor` class, its value view
  `Stage`, the guard of `setNumPartitions` and the text of `toString`.
- `tez_dag.dfy`: an abstract Tez DAG. Vertices are records of name, kind,
  payload, optional parallelism and optional binding. Edges are name pairs.
- `compilation.dfy`: the compilation pass as a left fold over the registry
  (`CompileUpTo`), and what it produces stated in closed form.
- `lifecycle.dfy`: the Tez client reduced to a trace of calls and a script
  saying which calls throw. Also `run` and `execute` as functions of that
  script.
- `dag_builder.dfy`: the `DagBuilder` and `DagTask` classes.
  - `DoBuild` runs the source's loop, `VisitStages`, one `AddStage` per
    stage. It is proved to leave exactly the DAG the fold describes,
    including the partial DAG and the error when compilation fails.
  - `Run` and `Execute` are proved to make exactly the calls the lifecycle
    functions describe.
- `scenarios.dfy`: a three-stage pipeline compiled end to end, and a run
  whose DAG fails.

Three consequences of the code that are easy to misread:

- There is at most one sink, and none when the last stage reads an RDD or
  the registry is empty (`SinkCount`).
- Upstream ids form a list; a repeated id adds a repeated edge
  (`EdgeCount`).
- In the three-stage pipeline the sink is "3", its data sink is "4", and
  the counter ends at 5 (`ThreeStageScenario`).

## Model

| member | source | states |
|---|---|---|
| Descriptors.VertexDescriptor.constructor | src/main/java/org/apache/spark/tez/VertexDescriptor.java:32-46 | the four final fields hold the constructor arguments, the type hints are null and the partition count starts at 1, so the class invariant holds |
| Descriptors.VertexDescriptor.GetNumPartitions | src/main/java/org/apache/spark/tez/VertexDescriptor.java:84-86 | on a descriptor that keeps its invariant the returned partition count is at least 1 |
| Descriptors.VertexDescriptor.ToString | src/main/java/org/apache/spark/tez/VertexDescriptor.java:91-93 | the text starts with "(stage: ", ends with ')' right after the rendered input, and the stage and vertex ids can be parsed back out of it whatever the input renders as |
| Descriptors.DescriptorTextIds | src/main/java/org/apache/spark/tez/VertexDescriptor.java:91-93 | reading the two ids back from the "(stage: …; vertex:…; input:…)" text gives exactly the descriptor's stage and vertex ids |
| Descriptors.VertexDescriptor.SetInputFormatClass | src/main/java/org/apache/spark/tez/VertexDescriptor.java:99-101 | sets the input format class and changes no other field |
| Descriptors.VertexDescriptor.SetKey | src/main/java/org/apache/spark/tez/VertexDescriptor.java:107-109 | sets the key class and changes no other field |
| Descriptors.VertexDescriptor.SetValue | src/main/java/org/apache/spark/tez/VertexDescriptor.java:115-117 | sets the value class and changes no other field |
| Descriptors.VertexDescriptor.SetNumPartitions | src/main/java/org/apache/spark/tez/VertexDescriptor.java:123-127 | the count becomes the request if it is positive and stays as it was otherwise; the invariant "at least 1" is kept; no other field changes |
| Descriptors.Guarded | src/main/java/org/apache/spark/tez/VertexDescriptor.java:123-127 | the guarded update yields either the request or the old count, and is positive exactly when one of the two is |
| Descriptors.AfterRequestsIsLastPositive | src/main/java/org/apache/spark/tez/VertexDescriptor.java:123-127 | after any series of setter calls the count is the last positive request, or the starting count when there is none |
| Descriptors.PartitionsStayPositive | src/main/java/org/apache/spark/tez/VertexDescriptor.java:32 | starting from 1, no series of setter calls brings the count below 1 |
| Descriptors.SetThreeThenZero | src/main/java/org/apache/spark/tez/VertexDescriptor.java:123-127 | setting 3 and then 0 leaves the count at 3 |
| JavaText.Wrap32 | src/main/scala/org/apache/spark/tez/DAGBuilder.java:185 | Java's `int` product differs from the true product by a multiple of 2^32 and equals it when it is in range |
| JavaText.Wrap32KeepsParity | src/main/scala/org/apache/spark/tez/DAGBuilder.java:185 | wrap-around keeps a number's parity, so `vertexId * 2` is even even when it overflows |
| JavaText.ParseIntToString | src/main/scala/org/apache/spark/tez/DAGBuilder.java:163-164 | the decimal text `String.valueOf` gives an `int` reads back as that `int` |
| JavaText.NatToStringInjective | src/main/scala/org/apache/spark/tez/DAGBuilder.java:163-164 | two counter values have the same name if and only if they are equal |
| JavaText.IntToStringMatchesNat | src/main/scala/org/apache/spark/tez/DAGBuilder.java:185-186 | a peer name built from an `int` equals a counter name if and only if the two numbers are equal; a negative peer number matches no name |
| Builder.DagBuilder.constructor | src/main/scala/org/apache/spark/tez/DAGBuilder.java:59-66 | the builder starts with an empty registry and an empty DAG, bound to the given client and output path |
| Builder.DagBuilder.AddVertex | src/main/scala/org/apache/spark/tez/DAGBuilder.java:129-131 | the registry maps the descriptor's stage id to the descriptor and every other entry is unchanged; a known stage id keeps its position, a new one goes last; the registry stays keyed by stage id |
| Builder.DagBuilder.Snapshot | src/main/scala/org/apache/spark/tez/DAGBuilder.java:41 | a registry built by `AddVertex` has distinct keys in insertion order, each key is its descriptor's stage id and each partition count is at least 1 |
| Builder.DagBuilder.DoBuild | src/main/scala/org/apache/spark/tez/DAGBuilder.java:144-213 | the loop leaves exactly the DAG the fold `Compile` gives for the registry, and fails exactly when the fold does, with the same error |
| Builder.DagBuilder.VisitStages | src/main/scala/org/apache/spark/tez/DAGBuilder.java:151-211 | the loop over the registry leaves the DAG of the fold `Compile`, and reports an error exactly when the fold stops on one, the same error |
| Builder.DagBuilder.AddStage | src/main/scala/org/apache/spark/tez/DAGBuilder.java:153-210 | one iteration takes the fold over the first stages one stage further: the DAG and counter it leaves, or the error and the partial DAG, are those of the fold over one more stage |
| Builder.DagBuilder.WireInputs | src/main/scala/org/apache/spark/tez/DAGBuilder.java:183-189 | the edge loop adds one edge per upstream id and stops at the first id with no descriptor or no peer vertex, exactly as `WireUpTo` says |
| Builder.DagBuilder.Build | src/main/scala/org/apache/spark/tez/DAGBuilder.java:71-77 | a task is returned exactly when compilation succeeds; otherwise the outcome carries the compilation error |
| Builder.DagBuilder.Run | src/main/scala/org/apache/spark/tez/DAGBuilder.java:98-123 | the client receives the calls `RunCalls` lists and the outcome is `RunResult` |
| Builder.DagTask.Execute | src/main/scala/org/apache/spark/tez/DAGBuilder.java:77-92 | the client receives the calls of `run` and then `stop`, whatever `run` did |
| Lifecycle.TezClient.WaitTillReady | src/main/scala/org/apache/spark/tez/DAGBuilder.java:106 | the call is recorded, and it succeeds unless the script says it throws |
| Lifecycle.TezClient.SubmitDag | src/main/scala/org/apache/spark/tez/DAGBuilder.java:110 | the submission of this DAG is recorded, and it succeeds unless the script says it throws |
| Lifecycle.TezClient.WaitForCompletion | src/main/scala/org/apache/spark/tez/DAGBuilder.java:114 | the call is recorded and returns the scripted terminal status, or nothing when it throws |
| Lifecycle.TezClient.Stop | src/main/scala/org/apache/spark/tez/DAGBuilder.java:86 | the call is recorded, and it succeeds unless the script says it throws |
| Lifecycle.StopExactlyOnce | src/main/scala/org/apache/spark/tez/DAGBuilder.java:79-91 | on every path `execute` calls `stop` exactly once, as its last call, and a throwing `stop` changes nothing |
| Lifecycle.RunOrder | src/main/scala/org/apache/spark/tez/DAGBuilder.java:98-123 | `run`'s calls are a prefix of wait-ready, submit, wait-for-completion that ends at the first call that throws; the only DAG submitted is the builder's |
| Lifecycle.RunRaisesIff | src/main/scala/org/apache/spark/tez/DAGBuilder.java:98-123 | `run` throws if and only if a client call throws, naming the last call made; a terminal status other than SUCCEEDED is only reported, with its diagnostics |
| Compilation.Kind | src/main/scala/org/apache/spark/tez/DAGBuilder.java:157-192 | the classification: a stage is a source exactly when its input is an RDD, and the sink only when it is in the last position |
| Compilation.PeerName | src/main/scala/org/apache/spark/tez/DAGBuilder.java:185-186 | the peer name is the decimal text of Java's wrapped `vertexId * 2`: never empty, a '-' first exactly when that number is negative, and digits after the first character |
| Compilation.CreatedVertex | src/main/scala/org/apache/spark/tez/DAGBuilder.java:157-199 | the vertex a stage creates has the stage's kind and serialized task, and carries a data-source or data-sink binding exactly when it is not intermediate |
| Compilation.CreatedNames | src/main/scala/org/apache/spark/tez/DAGBuilder.java:163-196 | the names that vertex and its binding use up are the decimal texts of the counter's next values, in order, as many as its kind costs |
| Compilation.Connect | src/main/scala/org/apache/spark/tez/DAGBuilder.java:184-188 | one iteration of the edge loop succeeds exactly when the id is registered and its peer vertex exists; it then appends the one edge from the peer into the target, and otherwise leaves the DAG as it was |
| Compilation.KindByPosition | src/main/scala/org/apache/spark/tez/DAGBuilder.java:152-192 | an RDD stage is a source in any position; any other stage is the sink if and only if it is last, and intermediate if and only if it is not |
| Compilation.SinkCount | src/main/scala/org/apache/spark/tez/DAGBuilder.java:172 | there is one sink when the registry is non-empty and its last stage does not read an RDD, and none otherwise |
| Compilation.AtMostOneSink | src/main/scala/org/apache/spark/tez/DAGBuilder.java:172 | no registry yields more than one sink |
| Compilation.NameBaseByKind | src/main/scala/org/apache/spark/tez/DAGBuilder.java:151-196 | the counter ends at 2 per source plus 2 per sink plus 1 per intermediate |
| Compilation.NameBaseGrows | src/main/scala/org/apache/spark/tez/DAGBuilder.java:163-196 | each stage's vertex name number is strictly greater than every earlier stage's |
| Compilation.BuiltShape | src/main/scala/org/apache/spark/tez/DAGBuilder.java:153-211 | after any number of stages without error, the DAG holds exactly the expected vertices and edges and the counter stands at the expected value |
| Compilation.WireUpToShape | src/main/scala/org/apache/spark/tez/DAGBuilder.java:183-189 | the edge loop never touches the vertices; it succeeds if and only if every id is registered and its peer vertex exists; on success it has appended one edge per id, in order, into the new vertex |
| Compilation.ExpectedVertexNames | src/main/scala/org/apache/spark/tez/DAGBuilder.java:163-196 | a vertex name occurs among the first stages' vertices if and only if it is the text of one of their name numbers |
| Compilation.PeerFound | src/main/scala/org/apache/spark/tez/DAGBuilder.java:185-186 | a peer lookup succeeds if and only if the wrapped `vertexId * 2` is the name number of a vertex created so far |
| Compilation.StepSucceedsIff | src/main/scala/org/apache/spark/tez/DAGBuilder.java:153-210 | one stage completes if and only if each of its upstream ids is registered and names a vertex created at or before it |
| Compilation.CompileSucceedsIff | src/main/scala/org/apache/spark/tez/DAGBuilder.java:71-76 | compilation succeeds if and only if every stage resolves all its upstream ids, so `build` fails exactly on the other registries |
| Compilation.BrokenStaysBroken | src/main/scala/org/apache/spark/tez/DAGBuilder.java:71-76 | once a stage fails, the later stages change neither the DAG nor the error |
| Compilation.DanglingStaysDangling | src/main/scala/org/apache/spark/tez/DAGBuilder.java:183-189 | once an upstream id fails, the later ids change neither the DAG nor the error |
| Compilation.NamesInCreationOrder | src/main/scala/org/apache/spark/tez/DAGBuilder.java:151-196 | the k-th vertex or binding name created is the decimal text of k, and the counter ends just past the last name |
| Compilation.NamesDistinct | src/main/scala/org/apache/spark/tez/DAGBuilder.java:163-196 | no two vertices or bindings of a compiled DAG share a name |
| Compilation.VertexAttributes | src/main/scala/org/apache/spark/tez/DAGBuilder.java:157-199 | the i-th vertex has the i-th stage's kind and payload; a source has no task count and a data source over the RDD's path; sink and intermediate vertices have the descriptor's partition count, at least 1; only the sink has a data sink, over the output path |
| Compilation.EdgeCount | src/main/scala/org/apache/spark/tez/DAGBuilder.java:182-208 | the edges number the total length of the upstream lists, repeats included; stages with a `String` input add none |
| Compilation.EdgesWellFormed | src/main/scala/org/apache/spark/tez/DAGBuilder.java:180-206 | in a compiled DAG every edge starts at a vertex of the DAG and enters a sink or intermediate vertex |
| Compilation.EdgeOrigin | src/main/scala/org/apache/spark/tez/DAGBuilder.java:183-206 | each edge comes from one upstream id of a non-source stage and enters that stage's own vertex |
| Compilation.PeerNamesEven | src/main/scala/org/apache/spark/tez/DAGBuilder.java:185 | a peer name can only spell an even number |
| Compilation.EdgesLeaveEvenNames | src/main/scala/org/apache/spark/tez/DAGBuilder.java:185-204 | no edge of a compiled DAG leaves a vertex whose name number is odd |
| Scenarios.FirstStageOfThree | src/main/scala/org/apache/spark/tez/DAGBuilder.java:157-170 | an RDD stage first in the registry becomes source "0" with data source "1" |
| Scenarios.SecondStageOfThree | src/main/scala/org/apache/spark/tez/DAGBuilder.java:192-208 | the next stage, reading stage 1, becomes intermediate "2" with an edge from "0" |
| Scenarios.ThreeStageScenario | src/main/scala/org/apache/spark/tez/DAGBuilder.java:144-213 | the three-stage pipeline compiles to source "0", intermediate "2" and sink "3" with data sink "4", edges "0"→"2" and "2"→"3", and the counter at 5 |
| Scenarios.FailedRunScenario | src/main/scala/org/apache/spark/tez/DAGBuilder.java:98-123 | a DAG ending FAILED is reported with "DAG diagnostics: " and its diagnostics, and the client is waited on, submitted to, waited on and stopped once each |

## Left out

- Tez and Hadoop objects are not modelled: `DAG`, `Vertex`, `Edge`, `DataSourceDescriptor`, `DataSinkDescriptor`, `MRInput`, `MROutput`, `Configuration`, `UserPayload`, `MRHelpers` and `OrderedPartitionedKVEdgeConfig`. An abstract DAG of named vertices and name-pair edges stands in for them. The shared edge configuration, the processor class name, the reducer resources and the local resources attached to every vertex leave no trace in it.
- Tez's own checks inside `DAG.addVertex`, `getVertex`, `Edge.create` and `DAG.addEdge` are not modelled. A peer lookup that misses becomes a `MissingPeer` build error, where the code would fail inside Tez when the edge is created or added. `DAG.addEdge` is taken to accept a repeated edge, as `EdgeCount` counts repeats. `NamesDistinct` shows that duplicate vertex names cannot arise.
- An upstream id with no descriptor becomes an `UnknownStage` build error. In the code this is a `NullPointerException`, which `build` wraps.
- `TezClient` and `DAGClient` are merged into one client. It records the calls made on it and follows a script saying which calls throw and which terminal status the DAG reaches. Asynchronous execution, status polling and the network are not modelled.
- Only terminal DAG states appear, because `waitForCompletionWithStatusUpdates` returns only those.
- `applicationInstanceName`, which is built from the client name and the clock, is left out. It only names the DAG.
- Logging, `System.out` and `printStackTrace` are left out, with one exception: the `logger.error` line for a DAG that did not succeed is kept as `RunOutcome.reported`, the text "DAG diagnostics: " followed by the diagnostics.
- The map-based `DAGBuilder.toString` is left out.
- `src/main/java/org/apache/spark/tez/io/KeyWritable.java` is not part of this model. Its behaviour lives in a superclass that is not shown.
- Builder.DagBuilder.DoBuild: requires an empty DAG, so `build` is modelled as called once. A second call would add the same vertex names again, and what Tez does with duplicate names is not visible.
- Builder.DagBuilder.DoBuild: keeps `sequenceCounter` as an unbounded natural number. Java's `int` counter would wrap only after about 2^31 names.
- A `null` input or one of an unexpected type is not modelled. The input is always one of `TezRDD`, `String` or `Iterable<Integer>`, so the `ClassCastException` path is absent.
- Descriptors.VertexDescriptor.ToString: renders a `TezRDD` input as its recorded `toString()` text (`shown`). It renders an `Iterable<Integer>` the way a Java `List` prints, "[1, 2]".
- The serialized task is an immutable byte sequence. The aliasing and position state of a shared `ByteBuffer` are not modelled.
- The type hints set by `setInputFormatClass`, `setKey` and `setValue` are class names, with `None` for `null`.
