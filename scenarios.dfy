/**
  Worked examples: a three-stage pipeline compiled end to end, and a run
  whose DAG fails.
*/
module Scenarios {
  import opened Wrappers
  import opened JavaText
  import opened Descriptors
  import opened TezDag
  import opened Compilation
  import opened Lifecycle

  /** Stage 1 reads `in.txt`; stage 2 (vertex id 1) reads stage 1; stage 3,
      last, reads stage 2 with 4 partitions. */
  function ThreeStages(): Registry {
    Registry([1, 2, 3], map[
      1 := Stage(1, 0, External("in.txt", "in.txt"), [], 1),
      2 := Stage(2, 1, Upstream([1]), [], 1),
      3 := Stage(3, 2, Upstream([2]), [], 4)])
  }

  function SourceVertex(): Vertex {
    Vertex("0", Source, [], None, Some(DataSource("1", "in.txt")))
  }

  function MiddleVertex(): Vertex {
    Vertex("2", Intermediate, [], Some(1), None)
  }

  function SinkVertex(): Vertex {
    Vertex("3", Sink, [], Some(4), Some(DataSink("4", "out")))
  }

  /** Stage 1 becomes the source "0" with data source "1". */
  lemma FirstStageOfThree()
    ensures WellKeyed(ThreeStages())
    ensures CompileUpTo(ThreeStages(), "out", 1) == Built(Dag([SourceVertex()], []), 2)
  {
    var r := ThreeStages();
    assert NatToString(0) == "0" && NatToString(1) == "1";
    assert Kind(r, 0) == Source;
    assert CreatedVertex(r, "out", 0, 0) == SourceVertex();
  }

  /** Stage 2 becomes the intermediate "2": the names "0" and "1" are taken,
      and its edge comes from "0", the vertex of vertex id 0. */
  lemma SecondStageOfThree()
    ensures WellKeyed(ThreeStages())
    ensures CompileUpTo(ThreeStages(), "out", 2)
      == Built(Dag([SourceVertex(), MiddleVertex()], [Edge("0", "2")]), 3)
  {
    FirstStageOfThree();
    var r := ThreeStages();
    var v0, v1 := SourceVertex(), MiddleVertex();
    assert NatToString(0) == "0" && NatToString(2) == "2";
    assert PeerName(0) == "0";
    assert Kind(r, 1) == Intermediate;
    assert CreatedVertex(r, "out", 1, 2) == v1;
    assert At(r, 1).input == Upstream([1]);
    assert AddVertex(Dag([v0], []), v1) == Dag([v0, v1], []);
    assert [v0, v1][0].name == "0";
    assert WireUpTo(r, Dag([v0, v1], []), [1], "2", 1) == Wired(Dag([v0, v1], [Edge("0", "2")]));
    assert Step(r, "out", 1, Dag([v0], []), 2) == Built(Dag([v0, v1], [Edge("0", "2")]), 3);
  }

  /** Stage 1 reads `in.txt` and stages 2 and 3 each read the one before:
      vertex "0" is the source with data source "1", vertex "2" the
      intermediate fed from "0", vertex "3" the sink with 4 partitions and
      data sink "4" fed from "2"; five names in all, two edges. */
  lemma ThreeStageScenario()
    ensures WellKeyed(ThreeStages())
    ensures Compile(ThreeStages(), "out") == Built(Dag(
      [ Vertex("0", Source, [], None, Some(DataSource("1", "in.txt"))),
        Vertex("2", Intermediate, [], Some(1), None),
        Vertex("3", Sink, [], Some(4), Some(DataSink("4", "out"))) ],
      [ Edge("0", "2"), Edge("2", "3") ]), 5)
  {
    SecondStageOfThree();
    var r := ThreeStages();
    var v0, v1, v2 := SourceVertex(), MiddleVertex(), SinkVertex();
    assert NatToString(2) == "2" && NatToString(3) == "3" && NatToString(4) == "4";
    assert PeerName(1) == "2";
    assert Kind(r, 2) == Sink;
    assert CreatedVertex(r, "out", 2, 3) == v2;
    assert At(r, 2).input == Upstream([2]);
    assert AddVertex(Dag([v0, v1], [Edge("0", "2")]), v2) == Dag([v0, v1, v2], [Edge("0", "2")]);
    assert [v0, v1, v2][1].name == "2";
    assert WireUpTo(r, Dag([v0, v1, v2], [Edge("0", "2")]), [2], "3", 1)
      == Wired(Dag([v0, v1, v2], [Edge("0", "2"), Edge("2", "3")]));
    assert Step(r, "out", 2, Dag([v0, v1], [Edge("0", "2")]), 3)
      == Built(Dag([v0, v1, v2], [Edge("0", "2"), Edge("2", "3")]), 5);
  }

  /** A DAG that ends `FAILED` with diagnostics "x": the failure is only
      reported, and the client is waited on, submitted to, waited on and
      stopped, once each. */
  lemma FailedRunScenario(d: Dag)
    ensures var s := ClientScript(false, false, Some(DagStatus(Failed, "x")), false);
      && RunResult(s, d) == Completed(DagStatus(Failed, "x"), Some("DAG diagnostics: x"))
      && ExecuteCalls(s, d) == [WaitTillReady, SubmitDag(d), WaitForCompletion, Stop]
  {
    assert "DAG diagnostics: " + "x" == "DAG diagnostics: x";
  }
}
