/**
  The stage record `VertexDescriptor`: the data a caller hands the DAG builder
  for one stage. Its identity, its input and its serialized task are fixed at
  construction; the partition count and three type hints are set afterwards.
  The partition count starts at 1 and its setter ignores non-positive values,
  so it never reaches 0 (a zero would make the partitioner divide by zero).
*/
module Descriptors {
  import opened Wrappers
  import opened JavaText

  /** What a stage reads. The source holds this in an `Object` and tells the
      three cases apart by runtime type. */
  datatype Input =
    | External(path: string, shown: string)  // a `TezRDD`: `name()` is the input path, `shown` its `toString()`
    | Named(text: string)                     // a `String`: no upstream edges
    | Upstream(ids: seq<Int32>)               // an `Iterable<Integer>` of upstream stage ids, repeats allowed

  /** The value of a descriptor at one moment: what the DAG compiler reads. */
  datatype Stage = Stage(
    stageId: Int32,
    vertexId: Int32,
    input: Input,
    payload: seq<bv8>,
    numPartitions: Int32)

  /** `setNumPartitions`' guard: a positive request replaces the count, any
      other request leaves it as it was. */
  function Guarded(current: Int32, request: Int32): (r: Int32)
    ensures r == request || r == current
    ensures r > 0 <==> request > 0 || current > 0
  {
    if request > 0 then request else current
  }

  /** The partition count after a series of `setNumPartitions` calls, in order. */
  function AfterRequests(current: Int32, requests: seq<Int32>): Int32
    decreases |requests|
  {
    if |requests| == 0 then current else AfterRequests(Guarded(current, requests[0]), requests[1..])
  }

  /** The last positive value in `requests`, if any. */
  function LastPositive(requests: seq<Int32>): Option<Int32> {
    if |requests| == 0 then None
    else match LastPositive(requests[1..])
      case Some(p) => Some(p)
      case None => if requests[0] > 0 then Some(requests[0]) else None
  }

  /** Only the last positive request matters; without one the count is unchanged. */
  lemma {:induction false} AfterRequestsIsLastPositive(current: Int32, requests: seq<Int32>)
    ensures AfterRequests(current, requests) == match LastPositive(requests)
                                                case Some(p) => p
                                                case None => current
    decreases |requests|
  {
    if |requests| > 0 {
      AfterRequestsIsLastPositive(Guarded(current, requests[0]), requests[1..]);
    }
  }

  /** From the initial count of 1, no series of requests brings the count below 1. */
  lemma PartitionsStayPositive(requests: seq<Int32>)
    ensures AfterRequests(1, requests) >= 1
  {
    AfterRequestsIsLastPositive(1, requests);
    LastPositiveIsPositive(requests);
  }

  lemma {:induction false} LastPositiveIsPositive(requests: seq<Int32>)
    ensures LastPositive(requests).Some? ==> LastPositive(requests).value > 0
  {
    if |requests| > 0 {
      LastPositiveIsPositive(requests[1..]);
    }
  }

  /** `AbstractCollection.toString` of a list of integers: `[1, 2, 3]`. */
  function JoinIds(ids: seq<Int32>): string {
    if |ids| == 0 then ""
    else if |ids| == 1 then IntToString(ids[0])
    else IntToString(ids[0]) + ", " + JoinIds(ids[1..])
  }

  /** How Java string concatenation renders the `input` object. */
  function Render(input: Input): string {
    match input
    case External(_, shown) => shown
    case Named(text) => text
    case Upstream(ids) => "[" + JoinIds(ids) + "]"
  }

  /** The text of `VertexDescriptor.toString`. */
  function DescriptorText(stageId: Int32, vertexId: Int32, input: Input): string {
    "(stage: " + IntToString(stageId) + "; vertex:" + IntToString(vertexId) + "; input:" + Render(input) + ")"
  }

  /** Reads the stage and vertex ids back out of a descriptor's text. */
  function ParseDescriptorIds(text: string): Option<(int, int)> {
    if |text| >= 8 && text[..8] == "(stage: " then
      var rest := text[8..];
      var stage := UpTo(rest, ';');
      var tail := rest[|stage|..];
      if |tail| >= 9 && tail[..9] == "; vertex:" then
        Some((ParseInt(stage), ParseInt(UpTo(tail[9..], ';'))))
      else None
    else None
  }

  lemma NoSeparatorInInt(x: int)
    ensures ';' !in IntToString(x)
  {
    var s := IntToString(x);
    forall i | 0 <= i < |s| ensures s[i] != ';' {
      if i > 0 { assert IsDigit(s[i]); }
    }
  }

  /** The parser finds the two fields between the fixed labels, provided
      neither field contains the separator. */
  lemma ParseFields(a: string, b: string, r: string)
    requires ';' !in a && ';' !in b
    requires |r| > 0 && r[0] == ';'
    ensures ParseDescriptorIds("(stage: " + a + "; vertex:" + b + r) == Some((ParseInt(a), ParseInt(b)))
  {
    var tail := "; vertex:" + b + r;
    var text := "(stage: " + a + "; vertex:" + b + r;
    assert text == "(stage: " + (a + tail);
    assert text[8..] == a + tail;
    UpToStopsAtSeparator(a, tail, ';');
    assert (a + tail)[|a|..] == tail;
    assert tail[9..] == b + r;
    UpToStopsAtSeparator(b, r, ';');
  }

  /** The descriptor's text determines its stage and vertex ids, whatever its input renders as. */
  lemma DescriptorTextIds(stageId: Int32, vertexId: Int32, input: Input)
    ensures ParseDescriptorIds(DescriptorText(stageId, vertexId, input)) == Some((stageId as int, vertexId as int))
  {
    var a, b, r := IntToString(stageId), IntToString(vertexId), "; input:" + Render(input) + ")";
    assert DescriptorText(stageId, vertexId, input) == "(stage: " + a + "; vertex:" + b + r;
    NoSeparatorInInt(stageId);
    NoSeparatorInInt(vertexId);
    ParseFields(a, b, r);
    ParseIntToString(stageId);
    ParseIntToString(vertexId);
  }

  class VertexDescriptor {
    const stageId: Int32
    const vertexId: Int32
    const input: Input
    const serTaskData: seq<bv8>
    var inputFormatClass: Option<string>  // class names; None is Java's null
    var key: Option<string>
    var value: Option<string>
    var numPartitions: Int32

    /** The class invariant: the partition count is never below 1. */
    ghost predicate Valid()
      reads this
    {
      numPartitions >= 1
    }

    constructor (stageId: Int32, vertexId: Int32, input: Input, serTaskData: seq<bv8>)
      ensures Valid()
      ensures this.stageId == stageId && this.vertexId == vertexId
      ensures this.input == input && this.serTaskData == serTaskData
      ensures numPartitions == 1
      ensures inputFormatClass == None && key == None && value == None
    {
      this.stageId := stageId;
      this.vertexId := vertexId;
      this.input := input;
      this.serTaskData := serTaskData;
      inputFormatClass, key, value := None, None, None;
      numPartitions := 1;
    }

    function GetNumPartitions(): (n: Int32)
      reads this
      requires Valid()
      ensures n >= 1
    {
      numPartitions
    }

    /** The descriptor's current value. */
    function View(): (s: Stage)
      reads this
    {
      Stage(stageId, vertexId, input, serTaskData, numPartitions)
    }

    function ToString(): (s: string)
      ensures |s| >= 8 && s[..8] == "(stage: " && s[|s| - 1] == ')'
      ensures ParseDescriptorIds(s) == Some((stageId as int, vertexId as int))
      ensures |s| > |Render(input)| && s[|s| - 1 - |Render(input)|..|s| - 1] == Render(input)
    {
      DescriptorTextIds(stageId, vertexId, input);
      DescriptorText(stageId, vertexId, input)
    }

    method SetInputFormatClass(c: Option<string>)
      modifies this`inputFormatClass
      ensures inputFormatClass == c
    {
      inputFormatClass := c;
    }

    method SetKey(c: Option<string>)
      modifies this`key
      ensures key == c
    {
      key := c;
    }

    method SetValue(c: Option<string>)
      modifies this`value
      ensures value == c
    {
      value := c;
    }

    method SetNumPartitions(n: Int32)
      requires Valid()
      modifies this`numPartitions
      ensures Valid()
      ensures numPartitions == Guarded(old(numPartitions), n)
    {
      if n > 0 {
        numPartitions := n;
      }
    }
  }

  /** A client of the class: a zero request after a positive one is ignored. */
  method SetThreeThenZero() returns (d: VertexDescriptor)
    ensures d.Valid() && d.GetNumPartitions() == 3
  {
    d := new VertexDescriptor(0, 0, Named("in"), []);
    d.SetNumPartitions(3);
    d.SetNumPartitions(0);
    d.SetKey(Some("org.apache.hadoop.io.Text"));
  }
}
