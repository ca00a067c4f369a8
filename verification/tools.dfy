/** Tool-call dispatch: `_handle_tool_calls` of llms/models.py, which runs
    the known tools and discards their responses, and of llm.py, which runs
    them and returns one tool-response record per run. */
module Tools {
  import opened Py
  import opened Json

  /** A tool call requested by a model: its id, the tool name and the
      arguments as JSON text. */
  datatype ToolCall = ToolCall(id: string, name: string, arguments: string)

  /** `execute(**arguments)` of one tool. */
  type Tool = map<string, Json> -> Outcome<Json>

  /** The tools the model object holds, by name. */
  type Toolbox = map<string, Tool>

  /** The record llm.py appends for each completed call. */
  datatype ToolResponse = ToolResponse(role: string, toolCallId: string, name: string, content: Json)

  /** What one pass of the loop body does with one call. */
  datatype Step = Skipped | Executed(response: Json) | Failed(error: Exception)

  /** One loop iteration: the arguments are decoded first, whatever the
      tool name; an unknown name is skipped; `**arguments` needs a dict. */
  function StepOf(call: ToolCall, tools: Toolbox, decode: Decoder): (s: Step)
    ensures s.Skipped? <==> decode(call.arguments).Some? && call.name !in tools
    ensures decode(call.arguments).None? ==> s == Failed(JsonDecodeError)
  {
    match decode(call.arguments)
    case None => Failed(JsonDecodeError)
    case Some(arguments) =>
      if call.name !in tools then Skipped
      else if !arguments.Object? then Failed(TypeError)
      else
        match tools[call.name](arguments.fields)
        case Returned(v) => Executed(v)
        case Raised(e) => Failed(e)
  }

  /** The position of the first call whose processing raises, or the number
      of calls when none does. */
  function FirstFailure(calls: seq<ToolCall>, tools: Toolbox, decode: Decoder): (f: nat)
    ensures f <= |calls|
    ensures forall i :: 0 <= i < f ==> !StepOf(calls[i], tools, decode).Failed?
    ensures f < |calls| ==> StepOf(calls[f], tools, decode).Failed?
  {
    if calls == [] then 0
    else if StepOf(calls[0], tools, decode).Failed? then 0
    else 1 + FirstFailure(calls[1..], tools, decode)
  }

  /** The calls naming a tool of the toolbox, in their order. */
  function Known(calls: seq<ToolCall>, tools: Toolbox): (r: seq<ToolCall>)
    ensures |r| <= |calls|
  {
    if calls == [] then []
    else
      var last := calls[|calls| - 1];
      assert calls == calls[..|calls| - 1] + [last];
      Known(calls[..|calls| - 1], tools) + (if last.name in tools then [last] else [])
  }

  /** The response of a call that completed. */
  function ResponseOf(call: ToolCall, tools: Toolbox, decode: Decoder): Json {
    match StepOf(call, tools, decode)
    case Executed(v) => v
    case _ => Null
  }

  /** The record llm.py builds for a completed call. */
  function Record(call: ToolCall, tools: Toolbox, decode: Decoder): ToolResponse {
    ToolResponse("tool", call.id, call.name, ResponseOf(call, tools, decode))
  }

  /** `_handle_tool_calls` of llm.py. It runs the known tools in the order
      of the calls, once each, until a call raises; that exception escapes
      and the records built so far are lost. Otherwise it returns one
      record per completed call, in order. `completed` lists the calls whose
      tool ran and returned; a known tool that raised is not among them. */
  method HandleToolCalls(calls: seq<ToolCall>, tools: Toolbox, decode: Decoder)
    returns (result: Outcome<seq<ToolResponse>>, completed: seq<ToolCall>)
    ensures completed == Known(calls[..FirstFailure(calls, tools, decode)], tools)
    ensures result.Returned? <==> FirstFailure(calls, tools, decode) == |calls|
    ensures result.Raised? ==>
              result.error == StepOf(calls[FirstFailure(calls, tools, decode)], tools, decode).error
    ensures result.Returned? ==> |result.value| == |completed|
    ensures result.Returned? ==> forall k :: 0 <= k < |completed| ==>
              && result.value[k].role == "tool"
              && result.value[k].toolCallId == completed[k].id
              && result.value[k].name == completed[k].name
              && StepOf(completed[k], tools, decode) == Executed(result.value[k].content)
  {
    var responses: seq<ToolResponse> := [];
    completed := [];
    var i := 0;
    while i < |calls|
      invariant 0 <= i <= |calls|
      invariant forall j :: 0 <= j < i ==> !StepOf(calls[j], tools, decode).Failed?
      invariant completed == Known(calls[..i], tools)
      invariant |responses| == |completed|
      invariant forall k :: 0 <= k < |completed| ==> StepOf(completed[k], tools, decode).Executed?
      invariant forall k :: 0 <= k < |completed| ==> responses[k] == Record(completed[k], tools, decode)
    {
      var call := calls[i];
      assert calls[..i + 1] == calls[..i] + [call];
      var step := StepOf(call, tools, decode);
      match step {
        case Failed(e) =>
          FirstFailureAt(calls, tools, decode, i);
          return Raised(e), completed;
        case Skipped =>
        case Executed(v) =>
          responses := responses + [Record(call, tools, decode)];
          completed := completed + [call];
      }
      i := i + 1;
    }
    FirstFailureAt(calls, tools, decode, |calls|);
    assert calls[..|calls|] == calls;
    result := Returned(responses);
  }

  /** `_handle_tool_calls` of llms/models.py: the same loop, but the
      responses are never collected, so it returns an empty list whenever
      it returns. */
  method HandleToolCallsDiscarding(calls: seq<ToolCall>, tools: Toolbox, decode: Decoder)
    returns (result: Outcome<seq<ToolResponse>>, completed: seq<ToolCall>)
    ensures completed == Known(calls[..FirstFailure(calls, tools, decode)], tools)
    ensures result.Returned? <==> FirstFailure(calls, tools, decode) == |calls|
    ensures result.Raised? ==>
              result.error == StepOf(calls[FirstFailure(calls, tools, decode)], tools, decode).error
    ensures result.Returned? ==> result.value == []
  {
    completed := [];
    var i := 0;
    while i < |calls|
      invariant 0 <= i <= |calls|
      invariant forall j :: 0 <= j < i ==> !StepOf(calls[j], tools, decode).Failed?
      invariant completed == Known(calls[..i], tools)
    {
      var call := calls[i];
      assert calls[..i + 1] == calls[..i] + [call];
      match StepOf(call, tools, decode) {
        case Failed(e) =>
          FirstFailureAt(calls, tools, decode, i);
          return Raised(e), completed;
        case Skipped =>
        case Executed(_) =>
          completed := completed + [call];
      }
      i := i + 1;
    }
    FirstFailureAt(calls, tools, decode, |calls|);
    assert calls[..|calls|] == calls;
    result := Returned([]);
  }

  /** The first failure is the first position whose step fails. */
  lemma {:induction false} FirstFailureAt(calls: seq<ToolCall>, tools: Toolbox, decode: Decoder, i: nat)
    requires i <= |calls|
    requires forall j :: 0 <= j < i ==> !StepOf(calls[j], tools, decode).Failed?
    requires i < |calls| ==> StepOf(calls[i], tools, decode).Failed?
    ensures FirstFailure(calls, tools, decode) == i
  {
    if calls != [] && i > 0 {
      FirstFailureAt(calls[1..], tools, decode, i - 1);
    }
  }

  /** Filtering keeps the order of the calls: the known calls of two
      consecutive batches are those of the first batch, then the second. */
  lemma {:induction false} KnownSplits(a: seq<ToolCall>, b: seq<ToolCall>, tools: Toolbox)
    ensures Known(a + b, tools) == Known(a, tools) + Known(b, tools)
    decreases |b|
  {
    if b == [] {
      assert a + b == a;
    } else {
      var init := b[..|b| - 1];
      assert (a + b)[..|a + b| - 1] == a + init;
      KnownSplits(a, init, tools);
    }
  }

  /** A call is kept exactly when it names a tool of the toolbox. */
  lemma {:induction false} KnownMembers(calls: seq<ToolCall>, tools: Toolbox)
    ensures forall c :: c in Known(calls, tools) <==> c in calls && c.name in tools
  {
    if calls != [] {
      var init := calls[..|calls| - 1];
      KnownMembers(init, tools);
      assert calls == init + [calls[|calls| - 1]];
    }
  }

  /** No calls, no records. */
  lemma EmptyCallsGiveNoRecords(tools: Toolbox, decode: Decoder)
    ensures FirstFailure([], tools, decode) == 0 && Known([], tools) == []
  {
  }

  /** A call naming an unknown tool with arguments that are not JSON still
      raises: the arguments are decoded before the name is checked. */
  lemma UnknownToolStillDecoded(call: ToolCall, tools: Toolbox, decode: Decoder)
    requires call.name !in tools && decode(call.arguments).None?
    ensures FirstFailure([call], tools, decode) == 0
  {
  }
}
