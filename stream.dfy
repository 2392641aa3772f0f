/** The newline-delimited JSON streams the gateway reads: the reply of
    `/api/create` in `save_model_config` and the reply of `/api/pull` in the
    pull route. Each line arrives decoded; `None` stands for a blank line or
    one that is not JSON, which both loops skip. */
module Stream {
  import opened Json

  type Line = Option<Dict>

  /** `data.get('status') == 'success'` */
  predicate IsSuccess(d: Dict) {
    "status" in d && d["status"] == JStr("success")
  }

  /** A line that ends the create loop: an event with an `error` key, or
      one whose status is "success". */
  predicate StopsCreate(line: Line) {
    line.Some? && ("error" in line.value || IsSuccess(line.value))
  }

  /** A line that ends the pull loop: an event whose status is "success". */
  predicate StopsPull(line: Line) {
    line.Some? && IsSuccess(line.value)
  }

  /** The index of the first line in `lines[from..]` that satisfies `p`, or `|lines|`. */
  function FirstWhere(lines: seq<Line>, p: Line -> bool, from: nat): (k: nat)
    requires from <= |lines|
    ensures from <= k <= |lines|
    ensures k < |lines| ==> p(lines[k])
    ensures forall i :: from <= i < k ==> !p(lines[i])
    decreases |lines| - from
  {
    if from == |lines| then from
    else if p(lines[from]) then from
    else FirstWhere(lines, p, from + 1)
  }

  /** The first satisfying line is the one with no satisfying line before it. */
  lemma {:induction false} FirstWhereAt(lines: seq<Line>, p: Line -> bool, from: nat, k: nat)
    requires from <= k <= |lines|
    requires k < |lines| ==> p(lines[k])
    requires forall i :: from <= i < k ==> !p(lines[i])
    ensures FirstWhere(lines, p, from) == k
    decreases k - from
  {
    if from < k {
      FirstWhereAt(lines, p, from + 1, k);
    }
  }

  /** How a create stream ends: the error the loop recorded (`None` in
      Python, `JNull` here, when it recorded none) and how many lines it read. */
  datatype CreateEnd = CreateEnd(error: Json, consumed: nat)

  /** Reference meaning of the create loop: reading stops after the first
      error event or success status; an error event's error is recorded,
      and it is examined before the status of the same event. */
  function CreateStreamEnd(lines: seq<Line>): (r: CreateEnd)
    ensures r.consumed <= |lines|
    ensures forall i :: 0 <= i < r.consumed - 1 ==> !StopsCreate(lines[i])
    ensures r.consumed < |lines| ==> 0 < r.consumed && StopsCreate(lines[r.consumed - 1])
    ensures r.error != JNull ==>
      0 < r.consumed && lines[r.consumed - 1].Some? && "error" in lines[r.consumed - 1].value
      && r.error == lines[r.consumed - 1].value["error"]
  {
    var k := FirstWhere(lines, StopsCreate, 0);
    if k < |lines| then CreateEnd(Get(lines[k].value, "error", JNull), k + 1)
    else CreateEnd(JNull, |lines|)
  }

  /** The `for line in response.iter_lines()` loop of `save_model_config`. */
  method ReduceCreateStream(lines: seq<Line>) returns (error: Json, consumed: nat)
    ensures CreateEnd(error, consumed) == CreateStreamEnd(lines)
  {
    error := JNull;
    var status := JNull;
    consumed := 0;
    while consumed < |lines|
      invariant consumed <= |lines|
      invariant forall i :: 0 <= i < consumed ==> !StopsCreate(lines[i])
      invariant error == JNull
      decreases |lines| - consumed
    {
      var line := lines[consumed];
      consumed := consumed + 1;
      if line.Some? {
        var data := line.value;
        if "error" in data {
          error := data["error"];
          FirstWhereAt(lines, StopsCreate, 0, consumed - 1);
          return;
        }
        if "status" in data {
          status := data["status"];
          if status == JStr("success") {
            FirstWhereAt(lines, StopsCreate, 0, consumed - 1);
            return;
          }
        }
      }
    }
    FirstWhereAt(lines, StopsCreate, 0, consumed);
  }

  /** Reference meaning of the pull loop: reading stops after the first
      success status; error events are read past. */
  function PullStreamEnd(lines: seq<Line>): (consumed: nat)
    ensures consumed <= |lines|
    ensures forall i :: 0 <= i < consumed - 1 ==> !StopsPull(lines[i])
    ensures consumed < |lines| ==> 0 < consumed && StopsPull(lines[consumed - 1])
  {
    var k := FirstWhere(lines, StopsPull, 0);
    if k < |lines| then k + 1 else |lines|
  }

  /** The `for line in response.iter_lines()` loop of the pull route. */
  method ReducePullStream(lines: seq<Line>) returns (consumed: nat)
    ensures consumed == PullStreamEnd(lines)
  {
    consumed := 0;
    while consumed < |lines|
      invariant consumed <= |lines|
      invariant forall i :: 0 <= i < consumed ==> !StopsPull(lines[i])
      decreases |lines| - consumed
    {
      var line := lines[consumed];
      consumed := consumed + 1;
      if line.Some? && Get(line.value, "status", JNull) == JStr("success") {
        FirstWhereAt(lines, StopsPull, 0, consumed - 1);
        return;
      }
    }
    FirstWhereAt(lines, StopsPull, 0, consumed);
  }

  // ---------------------------------------------------------------------
  // Properties of the two loops.

  /** Every line is read up to and including the first stopping line, and
      at least one line is read from a non-empty stream. */
  lemma ConsumedBounds(lines: seq<Line>)
    ensures CreateStreamEnd(lines).consumed <= |lines|
    ensures PullStreamEnd(lines) <= |lines|
    ensures lines != [] ==> CreateStreamEnd(lines).consumed >= 1 && PullStreamEnd(lines) >= 1
  {
  }

  /** A create stream that simply ends, with no error event and no success
      status, reads every line and records no error. */
  lemma {:induction false} CreateStreamThatEnds(lines: seq<Line>)
    requires forall i :: 0 <= i < |lines| ==> !StopsCreate(lines[i])
    ensures CreateStreamEnd(lines) == CreateEnd(JNull, |lines|)
  {
    FirstWhereAt(lines, StopsCreate, 0, |lines|);
  }

  /** The first error event decides the outcome: its error is recorded, even
      when the same event also reports success, and nothing after it is read. */
  lemma {:induction false} FirstErrorDecides(lines: seq<Line>, k: nat)
    requires k < |lines| && lines[k].Some? && "error" in lines[k].value
    requires forall i :: 0 <= i < k ==> !StopsCreate(lines[i])
    ensures CreateStreamEnd(lines) == CreateEnd(lines[k].value["error"], k + 1)
  {
    FirstWhereAt(lines, StopsCreate, 0, k);
  }

  /** A success status before any error hides later errors. */
  lemma {:induction false} SuccessHidesLaterErrors(lines: seq<Line>, k: nat)
    requires k < |lines| && lines[k].Some? && IsSuccess(lines[k].value) && "error" !in lines[k].value
    requires forall i :: 0 <= i < k ==> !StopsCreate(lines[i])
    ensures CreateStreamEnd(lines) == CreateEnd(JNull, k + 1)
  {
    FirstWhereAt(lines, StopsCreate, 0, k);
  }

  /** Blank and undecodable lines are skipped: one more of them in front
      changes only the number of lines read. */
  lemma {:induction false} SkippedLine(lines: seq<Line>)
    ensures CreateStreamEnd([None] + lines).error == CreateStreamEnd(lines).error
    ensures CreateStreamEnd([None] + lines).consumed == CreateStreamEnd(lines).consumed + 1
    ensures PullStreamEnd([None] + lines) == PullStreamEnd(lines) + 1
  {
    var ls := [None] + lines;
    var k := FirstWhere(lines, StopsCreate, 0);
    FirstWhereAt(ls, StopsCreate, 0, k + 1);
    var j := FirstWhere(lines, StopsPull, 0);
    FirstWhereAt(ls, StopsPull, 0, j + 1);
  }

  /** What follows the stopping line is never read: appending to a stream
      that already stops changes nothing. */
  lemma {:induction false} CreateIgnoresRest(lines: seq<Line>, rest: seq<Line>)
    requires exists i :: 0 <= i < |lines| && StopsCreate(lines[i])
    ensures CreateStreamEnd(lines + rest) == CreateStreamEnd(lines)
  {
    var k := FirstWhere(lines, StopsCreate, 0);
    FirstWhereAt(lines + rest, StopsCreate, 0, k);
  }

  /** The create loop reads no further than the pull loop would, and exactly
      as far when the stream carries no error events. */
  lemma {:induction false} PullReadsAtLeastCreate(lines: seq<Line>)
    ensures CreateStreamEnd(lines).consumed <= PullStreamEnd(lines)
    ensures (forall i :: 0 <= i < |lines| ==> lines[i].None? || "error" !in lines[i].value) ==>
      CreateStreamEnd(lines).consumed == PullStreamEnd(lines)
  {
    var k := FirstWhere(lines, StopsCreate, 0);
    var j := FirstWhere(lines, StopsPull, 0);
    if forall i :: 0 <= i < |lines| ==> lines[i].None? || "error" !in lines[i].value {
      FirstWhereAt(lines, StopsPull, 0, k);
    }
  }
}
