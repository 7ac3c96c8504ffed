/**
  `DAGBuilder`: a registry of stage descriptors keyed by stage id in
  insertion order, the compilation pass that fills the DAG from it, and the
  task that runs the DAG on the Tez client and always stops the client.
*/
module Builder {
  import opened Wrappers
  import opened JavaText
  import opened Descriptors
  import opened TezDag
  import opened Compilation
  import opened Lifecycle

  /** What `build` ends with: the task, or the `IllegalStateException`
      wrapping the compilation failure. */
  datatype BuildOutcome = Task(task: DagTask) | IllegalState(cause: BuildError)

  class DagBuilder {
    const client: TezClient
    const outputPath: string
    var order: seq<Int32>                         // the registry's keys, in insertion order
    var vertexes: map<Int32, VertexDescriptor>    // the registry's entries
    var dag: Dag

    /** The registry is keyed by each descriptor's stage id, each key once. */
    ghost predicate Valid()
      reads this, vertexes.Values
    {
      && (forall i :: 0 <= i < |order| ==> order[i] in vertexes)
      && (forall i, j :: 0 <= i < j < |order| ==> order[i] != order[j])
      && (forall k :: k in vertexes ==> k in order)
      && (forall k :: k in vertexes ==> vertexes[k].stageId == k && vertexes[k].Valid())
    }

    /** The registry's current value. */
    ghost function Snapshot(): (r: Registry)
      reads this, vertexes.Values
      ensures Valid() ==> ValidRegistry(r)
    {
      Registry(order, map k | k in vertexes :: vertexes[k].View())
    }

    constructor (client: TezClient, outputPath: string)
      ensures Valid()
      ensures this.client == client && this.outputPath == outputPath
      ensures order == [] && vertexes == map[] && dag == EmptyDag
    {
      this.client := client;
      this.outputPath := outputPath;
      order, vertexes := [], map[];
      dag := EmptyDag;
    }

    /** `vertexes.put(vd.getStageId(), vd)`: a known stage id keeps its
        position and gets the new descriptor; a new one goes to the end. */
    method AddVertex(vd: VertexDescriptor)
      requires Valid() && vd.Valid()
      modifies this`order, this`vertexes
      ensures Valid()
      ensures vertexes == old(vertexes)[vd.stageId := vd]
      ensures order == if vd.stageId in old(vertexes) then old(order) else old(order) + [vd.stageId]
    {
      if vd.stageId !in vertexes {
        order := order + [vd.stageId];
      }
      vertexes := vertexes[vd.stageId := vd];
    }

    /** `r` is the registry's value: the same keys in the same order, and
        each descriptor's current value, which keeps its invariant. */
    ghost predicate Mirrors(r: Registry)
      reads this`order, this`vertexes, vertexes.Values
    {
      && r.order == order
      && WellKeyed(r)
      && (forall k :: k in vertexes <==> k in r.stages)
      && (forall k :: k in vertexes ==> r.stages[k] == vertexes[k].View() && vertexes[k].Valid())
    }

    lemma SnapshotMirrors()
      requires Valid()
      ensures Mirrors(Snapshot())
    {
    }

    /** `doBuild`: one pass over the registry, adding vertices and edges to
        the DAG. It ends where `Compile` does: with the whole DAG, or with the
        error and the DAG as far as it got. */
    method DoBuild() returns (failure: Option<BuildError>)
      requires Valid() && dag == EmptyDag
      modifies this`dag
      ensures var p := Compile(old(Snapshot()), outputPath);
        && dag == p.dag
        && failure == if p.Built? then None else Some(p.error)
    {
      ghost var r := Snapshot();
      SnapshotMirrors();
      failure := VisitStages(r);
    }

    /** The loop of `doBuild`, over a registry whose value is `r`. */
    method VisitStages(ghost r: Registry) returns (failure: Option<BuildError>)
      requires Mirrors(r) && dag == EmptyDag
      modifies this`dag
      ensures var p := Compile(r, outputPath);
        && dag == p.dag
        && failure == if p.Built? then None else Some(p.error)
    {
      var sequenceCounter: nat := 0;
      var counter := 0;
      while counter < |order|
        invariant Mirrors(r)
        invariant 0 <= counter <= |order|
        invariant CompileUpTo(r, outputPath, counter) == Built(dag, sequenceCounter)
      {
        counter := counter + 1;
        sequenceCounter, failure := AddStage(r, counter - 1, sequenceCounter);
        if failure.Some? {
          BrokenStaysBroken(r, outputPath, counter, |order|);
          return;
        }
      }
      failure := None;
    }

    /** One iteration of `doBuild`'s loop, for the stage at position `i`
        (`last` is the source's `counter == vertexes.size()`): it takes the
        pass over the first `i` stages one stage further, as `Step` says. */
    method AddStage(ghost r: Registry, i: nat, sequenceCounter: nat)
      returns (next: nat, failure: Option<BuildError>)
      requires Mirrors(r) && i < |order|
      requires CompileUpTo(r, outputPath, i) == Built(dag, sequenceCounter)
      modifies this`dag
      ensures var p := CompileUpTo(r, outputPath, i + 1);
        if failure.None? then p == Built(dag, next) else p == Broken(dag, failure.value)
    {
      NextStage(r, outputPath, i);
      var vd := vertexes[order[i]];
      var last := i + 1 == |order|;
      assert vd.Valid() && vd.View() == At(r, i);
      var vertexName := NatToString(sequenceCounter);
      if vd.input.External? {
        var dsName := NatToString(sequenceCounter + 1);
        next := sequenceCounter + 2;
        dag := TezDag.AddVertex(dag, Vertex(vertexName, Source, vd.serTaskData, None, Some(DataSource(dsName, vd.input.path))));
        return next, None;
      }
      if last {
        var dsName := NatToString(sequenceCounter + 1);
        next := sequenceCounter + 2;
        dag := TezDag.AddVertex(dag, Vertex(vertexName, Sink, vd.serTaskData, Some(vd.GetNumPartitions()), Some(DataSink(dsName, outputPath))));
      } else {
        next := sequenceCounter + 1;
        dag := TezDag.AddVertex(dag, Vertex(vertexName, Intermediate, vd.serTaskData, Some(vd.GetNumPartitions()), None));
      }
      assert dag == TezDag.AddVertex(old(dag), CreatedVertex(r, outputPath, i, sequenceCounter));
      if vd.input.Named? {
        return next, None;
      }
      failure := WireInputs(r, vd.input.ids, vertexName);
    }

    /** `doBuild`'s inner loop: one edge from each upstream stage's vertex
        into `vertexName`, stopping at the first id with no descriptor or
        whose vertex is not in the DAG. It does what `WireUpTo` says. */
    method WireInputs(ghost r: Registry, ids: seq<Int32>, vertexName: string) returns (failure: Option<BuildError>)
      requires Mirrors(r)
      modifies this`dag
      ensures var w := WireUpTo(r, old(dag), ids, vertexName, |ids|);
        if failure.None? then w == Wired(dag) else w == Dangling(dag, failure.value)
    {
      for k := 0 to |ids|
        invariant WireUpTo(r, old(dag), ids, vertexName, k) == Wired(dag)
      {
        var id := ids[k];
        assert WireUpTo(r, old(dag), ids, vertexName, k + 1) == Connect(r, dag, id, vertexName);
        if id !in vertexes {
          DanglingStaysDangling(r, old(dag), ids, vertexName, k + 1, |ids|);
          return Some(UnknownStage(id));
        }
        var peer := PeerName(vertexes[id].vertexId);
        assert peer == PeerOf(r, id);
        if !HasVertex(dag.vertices, peer) {
          DanglingStaysDangling(r, old(dag), ids, vertexName, k + 1, |ids|);
          return Some(MissingPeer(peer));
        }
        dag := AddEdge(dag, Edge(peer, vertexName));
      }
      failure := None;
    }

    /** `build`: compile, and hand out the task only if compilation succeeded. */
    method Build() returns (outcome: BuildOutcome)
      requires Valid() && dag == EmptyDag
      modifies this`dag
      ensures var p := Compile(old(Snapshot()), outputPath);
        && dag == p.dag
        && (outcome.Task? <==> p.Built?)
        && (outcome.IllegalState? ==> outcome.cause == p.error)
      ensures outcome.Task? ==> fresh(outcome.task) && outcome.task.builder == this
    {
      var failure := DoBuild();
      if failure.Some? {
        return IllegalState(failure.value);
      }
      var task := new DagTask(this);
      return Task(task);
    }

    /** `run`: the client calls in order, each only if the previous one did not throw. */
    method Run() returns (outcome: RunOutcome)
      modifies client
      ensures client.calls == old(client.calls) + RunCalls(client.script, dag)
      ensures outcome == RunResult(client.script, dag)
    {
      var ready := client.WaitTillReady();
      if !ready {
        return Raised(Call.WaitTillReady);
      }
      var submitted := client.SubmitDag(dag);
      if !submitted {
        return Raised(Call.SubmitDag(dag));
      }
      var status := client.WaitForCompletion();
      if status.None? {
        return Raised(Call.WaitForCompletion);
      }
      var reported := if status.value.state != Succeeded then Some("DAG diagnostics: " + status.value.diagnostics) else None;
      return Completed(status.value, reported);
    }
  }

  /** The task `build` returns. `Execute` has no way to fail: whatever `run`
      raises is caught, and the client is stopped afterwards in every case. */
  class DagTask {
    const builder: DagBuilder

    constructor (builder: DagBuilder)
      ensures this.builder == builder
    {
      this.builder := builder;
    }

    method Execute()
      modifies builder.client
      ensures builder.client.calls == old(builder.client.calls) + ExecuteCalls(builder.client.script, builder.dag)
    {
      var outcome := builder.Run();
      var stopped := builder.client.Stop();
    }
  }
}
