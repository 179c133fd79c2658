/**
 * The tool-use orchestrator of `LLMClient`: the buffered loop
 * `chat_completion_with_tools` and the streaming loop
 * `chat_completion_with_tools_streaming`, with the reassembly of streamed
 * tool-call fragments. The model is a function from the conversation sent to
 * the reply received, and each tool handler a function from its decoded
 * arguments to its result or the text of the exception it raises.
 */
module Orchestrator {
  import opened Wrappers
  import opened Json
  import opened Foreign
  import opened Folds

  // Conversations

  /** A tool call as the model emits it; `arguments` is the JSON text (or, in buffered mode, any value). */
  datatype ToolCall = ToolCall(id: string, name: string, arguments: Json)

  /** One non-streamed reply: `choices[0].message`. */
  datatype Reply = Reply(role: string, content: Option<string>, toolCalls: seq<ToolCall>)

  /** An entry of `current_messages`. */
  datatype Message =
    | Chat(role: string, content: Option<string>)   // a message of the caller
    | Assistant(role: string, content: Option<string>, toolCalls: seq<ToolCall>)
    | ToolResult(callId: string, text: string)

  /** A streamed tool-call fragment; an absent or empty `id`, `name` or `arguments` is "". */
  datatype ToolCallDelta = ToolCallDelta(index: Option<nat>, id: string, name: string, arguments: string)

  /** A stream chunk: no choices, or the delta of `choices[0]` (absent content is ""). */
  datatype Chunk = NoChoices | Delta(content: string, toolCalls: seq<ToolCallDelta>)

  /** A stream: the chunks that arrive, then the exception that ends it, if any. */
  datatype StreamReply = StreamReply(chunks: seq<Chunk>, failure: Option<string>)

  /** A yielded pair `(text, metadata)`; a metadata dict `{"search_time": t}` is `Some(t)`. */
  datatype Event = Event(text: string, metadata: Option<real>)

  /**
   * What the loops call out to: the JSON library, the tool handlers by name,
   * and the model, called with tools (`complete`), with tools and
   * `stream=True` (`stream`), and without tools (`plain`).
   */
  datatype Env = Env(
    lib: Library,
    handlers: map<string, Json -> Result<Json, string>>,
    complete: seq<Message> -> Result<Reply, string>,
    stream: seq<Message> -> Result<StreamReply, string>,
    plain: seq<Message> -> Result<Reply, string>)

  function Max(a: int, b: int): int {
    if a < b then b else a
  }

  /** `message.get("content", "") or ""` */
  function ContentOf(m: Message): string {
    match m
    case Chat(_, c) => c.GetOr("")
    case Assistant(_, c, _) => c.GetOr("")
    case ToolResult(_, c) => c
  }

  // Running one tool call

  /**
   * The `search_time` a tool's string result adds: its value when the string
   * decodes to an object with that key and `float` accepts the value, else
   * nothing (the decode, key and conversion errors are swallowed).
   */
  function Harvest(lib: Library, s: string): real {
    match Loads(lib, s)
    case Failure(_) => 0.0
    case Success(v) =>
      if !v.JObject? then 0.0
      else
        match Get(v.fields, "search_time")
        case None => 0.0
        case Some(x) =>
          match PyFloat(lib, x)
          case Success(t) => t
          case Failure(_) => 0.0
  }

  /**
   * A string adds time only when it decodes to an object with a
   * `search_time` key, and then exactly the `float` of that value when the
   * conversion succeeds; a value `float` rejects adds nothing.
   */
  lemma HarvestSpec(lib: Library, s: string)
    ensures Harvest(lib, s) != 0.0 ==> Loads(lib, s).Success? && Loads(lib, s).value.JObject?
                                       && Get(Loads(lib, s).value.fields, "search_time").Some?
    ensures (Loads(lib, s).Success? && Loads(lib, s).value.JObject?
             && Get(Loads(lib, s).value.fields, "search_time").Some?
             && PyFloat(lib, Get(Loads(lib, s).value.fields, "search_time").value).Success?)
            ==> Harvest(lib, s) == PyFloat(lib, Get(Loads(lib, s).value.fields, "search_time").value).value
    ensures (Loads(lib, s).Success? && Loads(lib, s).value.JObject?
             && Get(Loads(lib, s).value.fields, "search_time").Some?
             && PyFloat(lib, Get(Loads(lib, s).value.fields, "search_time").value).Failure?)
            ==> Harvest(lib, s) == 0.0
  {
  }

  /** The arguments a handler is called with: a string is decoded with `json.loads`, anything else passed as is. */
  function Arguments(lib: Library, a: Json): Result<Json, string> {
    if a.JString? then Loads(lib, a.s) else Success(a)
  }

  /** `await handler(**args)` for a call whose name has a handler. */
  function HandlerResult(env: Env, call: ToolCall): Result<Json, string>
    requires call.name in env.handlers
  {
    match Arguments(env.lib, call.arguments)
    case Failure(e) => Failure(e)
    case Success(args) => env.handlers[call.name](args)
  }

  /** The content of a tool message and the search time it adds. */
  datatype Outcome = Outcome(content: string, searchTime: real)

  function UnknownFunction(name: string): string {
    "Error: Unknown function " + name
  }

  /**
   * One tool call: an unknown name and a raising handler become an error
   * message; a string result is the content as is and may carry a search
   * time; any other result is dumped as JSON and adds no time.
   */
  function ExecuteTool(env: Env, call: ToolCall): Outcome {
    if call.name !in env.handlers then Outcome(UnknownFunction(call.name), 0.0)
    else
      match HandlerResult(env, call)
      case Failure(e) => Outcome("Error: " + e, 0.0)
      case Success(result) =>
        if result.JString? then Outcome(result.s, Harvest(env.lib, result.s))
        else Outcome(env.lib.dumps(result), 0.0)
  }

  /**
   * One tool call: an unknown name and a raising handler become an error
   * message and add no time; a non-string result adds no time; any time
   * added is the one harvested from the very text sent back to the model.
   */
  lemma ExecuteToolSpec(env: Env, call: ToolCall)
    ensures call.name !in env.handlers ==> ExecuteTool(env, call) == Outcome(UnknownFunction(call.name), 0.0)
    ensures call.name in env.handlers && HandlerResult(env, call).Failure? ==>
              ExecuteTool(env, call) == Outcome("Error: " + HandlerResult(env, call).error, 0.0)
    ensures call.name in env.handlers && HandlerResult(env, call).Success? && !HandlerResult(env, call).value.JString? ==>
              ExecuteTool(env, call).searchTime == 0.0
    ensures ExecuteTool(env, call).searchTime != 0.0 ==>
              ExecuteTool(env, call).searchTime == Harvest(env.lib, ExecuteTool(env, call).content)
  {
  }

  /**
   * The tool messages of one turn and the search time they add: one message
   * per call, with that call's id, in the order the calls were emitted.
   */
  function ToolTurn(env: Env, calls: seq<ToolCall>): (seq<Message>, real) {
    if calls == [] then ([], 0.0)
    else
      var prev := ToolTurn(env, calls[..|calls| - 1]);
      var o := ExecuteTool(env, calls[|calls| - 1]);
      (prev.0 + [ToolResult(calls[|calls| - 1].id, o.content)], prev.1 + o.searchTime)
  }

  /**
   * A turn answers each call with one message carrying its id, in order, and
   * adds no time when no call's result carries one.
   */
  lemma {:induction false} ToolTurnSpec(env: Env, calls: seq<ToolCall>)
    ensures |ToolTurn(env, calls).0| == |calls|
    ensures forall i | 0 <= i < |calls| ::
              ToolTurn(env, calls).0[i] == ToolResult(calls[i].id, ExecuteTool(env, calls[i]).content)
    ensures (forall i | 0 <= i < |calls| :: ExecuteTool(env, calls[i]).searchTime == 0.0) ==> ToolTurn(env, calls).1 == 0.0
  {
    if calls != [] {
      ToolTurnSpec(env, calls[..|calls| - 1]);
    }
  }

  /** The `for tool_call in ...` loop: appends one tool message per call to `current`. */
  method RunToolCalls(env: Env, calls: seq<ToolCall>, current: seq<Message>, total: real)
    returns (next: seq<Message>, nextTotal: real)
    ensures next == current + ToolTurn(env, calls).0
    ensures nextTotal == total + ToolTurn(env, calls).1
  {
    next := current;
    nextTotal := total;
    for i := 0 to |calls|
      invariant next == current + ToolTurn(env, calls[..i]).0
      invariant nextTotal == total + ToolTurn(env, calls[..i]).1
    {
      assert calls[..i + 1][..i] == calls[..i];
      var o := ExecuteTool(env, calls[i]);
      next := next + [ToolResult(calls[i].id, o.content)];
      nextTotal := nextTotal + o.searchTime;
    }
    assert calls[..|calls|] == calls;
  }

  // Transcripts

  /** `tools` answers `calls`: one tool message per call, with its id, in order. */
  predicate Answers(tools: seq<Message>, calls: seq<ToolCall>) {
    |tools| == |calls| && forall i | 0 <= i < |calls| :: tools[i].ToolResult? && tools[i].callId == calls[i].id
  }

  /** A series of turns: each an assistant message followed by the answers to its tool calls. */
  predicate Turns(ms: seq<Message>)
    decreases |ms|
  {
    ms == [] ||
    (ms[0].Assistant? && 1 + |ms[0].toolCalls| <= |ms|
     && Answers(ms[1..1 + |ms[0].toolCalls|], ms[0].toolCalls)
     && Turns(ms[1 + |ms[0].toolCalls|..]))
  }

  lemma TurnsCons(a: Message, tools: seq<Message>, rest: seq<Message>)
    requires a.Assistant? && Answers(tools, a.toolCalls) && Turns(rest)
    ensures Turns([a] + tools + rest)
  {
    var ms := [a] + tools + rest;
    assert ms[1..1 + |tools|] == tools;
    assert ms[1 + |tools|..] == rest;
  }

  lemma ToolTurnLast(env: Env, calls: seq<ToolCall>)
    requires calls != []
    ensures ToolTurn(env, calls).0 != [] && ToolTurn(env, calls).0[|ToolTurn(env, calls).0| - 1].ToolResult?
  {
  }

  lemma TurnTools(env: Env, calls: seq<ToolCall>)
    ensures Answers(ToolTurn(env, calls).0, calls)
  {
    ToolTurnSpec(env, calls);
  }

  // The buffered loop

  /**
   * A buffered run: the final transcript, the tool turns executed, whether
   * the budget ran out, and the returned `(content, search_time)` or the
   * exception that escaped.
   */
  datatype Run = Run(messages: seq<Message>, toolTurns: nat, exhausted: bool, result: Result<(string, real), string>)

  const IndexErrorText := "list index out of range"

  /**
   * `chat_completion_with_tools` from the loop state `(msgs, iterations,
   * total)`: each turn calls the model with tools and records its reply; a
   * reply without tool calls ends the run with its content; otherwise its
   * calls run and the next turn starts. With the budget spent no further
   * call is made and the content of the last message is returned.
   */
  function Buffered(env: Env, msgs: seq<Message>, iterations: int, maxIterations: int, total: real): Run
    decreases maxIterations - iterations
  {
    if iterations >= maxIterations then
      if msgs == [] then Run(msgs, 0, true, Failure(IndexErrorText))
      else Run(msgs, 0, true, Success((ContentOf(msgs[|msgs| - 1]), total)))
    else
      match env.complete(msgs)
      case Failure(e) => Run(msgs, 0, false, Failure(e))
      case Success(reply) =>
        var withReply := msgs + [Assistant(reply.role, reply.content, reply.toolCalls)];
        if reply.toolCalls == [] then Run(withReply, 0, false, Success((reply.content.GetOr(""), total)))
        else
          var (tools, t) := ToolTurn(env, reply.toolCalls);
          var rest := Buffered(env, withReply + tools, iterations + 1, maxIterations, total + t);
          Run(rest.messages, rest.toolTurns + 1, rest.exhausted, rest.result)
  }

  /**
   * What a buffered run guarantees: the caller's messages stay a prefix; at
   * most `max_iterations` tool turns run and a run stops early only on a
   * reply without tool calls, whose content it returns; a run that spends the
   * budget returns the content of the last message (the last tool result
   * after at least one turn) or, with no message at all, raises IndexError.
   */
  lemma {:induction false} BufferedSpec(env: Env, msgs: seq<Message>, iterations: int, maxIterations: int, total: real)
    decreases maxIterations - iterations
    ensures var r := Buffered(env, msgs, iterations, maxIterations, total);
      && msgs <= r.messages
      && iterations + r.toolTurns <= Max(iterations, maxIterations)
      && (!r.exhausted ==> iterations + r.toolTurns < maxIterations)
      && (r.exhausted ==> iterations + r.toolTurns == Max(iterations, maxIterations))
      && (r.exhausted && r.toolTurns == 0 ==> r.messages == msgs)
      && (r.exhausted ==> (r.result.Failure? <==> r.messages == []))
      && (r.exhausted && r.messages != [] ==> r.result.value.0 == ContentOf(r.messages[|r.messages| - 1]))
      && (r.exhausted && r.toolTurns > 0 ==> r.messages != [] && r.messages[|r.messages| - 1].ToolResult?)
      && (!r.exhausted && r.result.Success? ==>
            r.messages != [] && r.messages[|r.messages| - 1].Assistant?
            && r.messages[|r.messages| - 1].toolCalls == []
            && r.result.value.0 == ContentOf(r.messages[|r.messages| - 1]))
  {
    if iterations < maxIterations && env.complete(msgs).Success? {
      var reply := env.complete(msgs).value;
      if reply.toolCalls != [] {
        var withReply := msgs + [Assistant(reply.role, reply.content, reply.toolCalls)];
        var (tools, t) := ToolTurn(env, reply.toolCalls);
        ToolTurnLast(env, reply.toolCalls);
        BufferedSpec(env, withReply + tools, iterations + 1, maxIterations, total + t);
      }
    }
  }

  /** After the caller's messages, a buffered transcript is a series of turns. */
  lemma {:induction false} BufferedTranscript(env: Env, msgs: seq<Message>, iterations: int, maxIterations: int, total: real)
    ensures var r := Buffered(env, msgs, iterations, maxIterations, total);
            msgs <= r.messages && Turns(r.messages[|msgs|..])
    decreases maxIterations - iterations
  {
    var r := Buffered(env, msgs, iterations, maxIterations, total);
    if iterations < maxIterations && env.complete(msgs).Success? {
      var reply := env.complete(msgs).value;
      var a := Assistant(reply.role, reply.content, reply.toolCalls);
      var withReply := msgs + [a];
      if reply.toolCalls == [] {
        assert r.messages[|msgs|..] == [a] + [] + [];
        TurnsCons(a, [], []);
      } else {
        var (tools, t) := ToolTurn(env, reply.toolCalls);
        TurnTools(env, reply.toolCalls);
        BufferedTranscript(env, withReply + tools, iterations + 1, maxIterations, total + t);
        var rest := Buffered(env, withReply + tools, iterations + 1, maxIterations, total + t);
        assert r.messages[|msgs|..] == [a] + tools + rest.messages[|withReply + tools|..];
        TurnsCons(a, tools, rest.messages[|withReply + tools|..]);
      }
    } else {
      assert r.messages[|msgs|..] == [];
    }
  }

  /** `chat_completion_with_tools(messages, tools, tool_handlers, max_iterations)` */
  method ChatCompletionWithTools(env: Env, messages: seq<Message>, maxIterations: int)
    returns (r: Result<(string, real), string>)
    ensures r == Buffered(env, messages, 0, maxIterations, 0.0).result
  {
    var current := messages;
    var iterations := 0;
    var total := 0.0;
    while iterations < maxIterations
      invariant Buffered(env, current, iterations, maxIterations, total).result
                == Buffered(env, messages, 0, maxIterations, 0.0).result
      decreases maxIterations - iterations
    {
      var completion := env.complete(current);
      if completion.Failure? {
        return Failure(completion.error);
      }
      var message := completion.value;
      current := current + [Assistant(message.role, message.content, message.toolCalls)];
      if message.toolCalls == [] {
        return Success((message.content.GetOr(""), total));
      }
      current, total := RunToolCalls(env, message.toolCalls, current, total);
      iterations := iterations + 1;
    }
    if current == [] {
      return Failure(IndexErrorText);
    }
    return Success((ContentOf(current[|current| - 1]), total));
  }

  // Reassembling streamed tool calls

  /** A slot of `tool_calls_to_execute`. */
  datatype Slot = Slot(id: string, name: string, arguments: string)

  const EmptySlot := Slot("", "", "")

  /** The `while len(...) <= index: append(...)` growth: empty slots appended until there are `n`. */
  function Grow(slots: seq<Slot>, n: nat): (r: seq<Slot>)
    decreases n - |slots|
    ensures |r| == Max(|slots|, n)
    ensures r[..|slots|] == slots
    ensures forall k | |slots| <= k < |r| :: r[k] == EmptySlot
  {
    if |slots| >= n then slots else Grow(slots + [EmptySlot], n)
  }

  /** A fragment merged into its slot: a non-empty id or name replaces, arguments are appended. */
  function Merge(s: Slot, d: ToolCallDelta): Slot {
    Slot(if d.id != "" then d.id else s.id,
         if d.name != "" then d.name else s.name,
         s.arguments + d.arguments)
  }

  /** One fragment applied to the slots; a fragment without an index is ignored. */
  function ApplyDelta(slots: seq<Slot>, d: ToolCallDelta): seq<Slot> {
    match d.index
    case None => slots
    case Some(i) =>
      var grown := Grow(slots, i + 1);
      grown[i := Merge(grown[i], d)]
  }

  /**
   * A fragment with index `i` grows the slots to more than `i`, merges into
   * slot `i` and leaves every other slot as it was; new slots are empty.
   */
  lemma ApplyDeltaSpec(slots: seq<Slot>, d: ToolCallDelta)
    ensures d.index.None? ==> ApplyDelta(slots, d) == slots
    ensures d.index.Some? ==> |ApplyDelta(slots, d)| == Max(|slots|, d.index.value + 1)
    ensures forall k | 0 <= k < |slots| && d.index != Some(k) :: ApplyDelta(slots, d)[k] == slots[k]
    ensures forall k | |slots| <= k < |ApplyDelta(slots, d)| && d.index != Some(k) :: ApplyDelta(slots, d)[k] == EmptySlot
    ensures d.index.Some? ==>
              ApplyDelta(slots, d)[d.index.value]
              == Merge(if d.index.value < |slots| then slots[d.index.value] else EmptySlot, d)
  {
    if d.index.Some? {
      var grown := Grow(slots, d.index.value + 1);
      assert forall k | 0 <= k < |slots| :: grown[k] == grown[..|slots|][k];
    }
  }

  /** The slots after the fragments of `ds` are applied to `slots` in arrival order. */
  function ApplyAll(slots: seq<Slot>, ds: seq<ToolCallDelta>): seq<Slot> {
    if ds == [] then slots else ApplyDelta(ApplyAll(slots, ds[..|ds| - 1]), ds[|ds| - 1])
  }

  /** The slots a whole stream of fragments builds from none. */
  function Reassemble(ds: seq<ToolCallDelta>): seq<Slot> {
    ApplyAll([], ds)
  }

  /** Applying `a + b` is applying `a`, then `b`. */
  lemma {:induction false} ApplyAllConcat(slots: seq<Slot>, a: seq<ToolCallDelta>, b: seq<ToolCallDelta>)
    ensures ApplyAll(slots, a + b) == ApplyAll(ApplyAll(slots, a), b)
    decreases |b|
  {
    if b == [] {
      assert a + b == a;
    } else {
      assert (a + b)[..|a + b| - 1] == a + b[..|b| - 1];
      ApplyAllConcat(slots, a, b[..|b| - 1]);
    }
  }

  /** The `for tool_call_delta in delta.tool_calls` loop of one chunk. */
  method ApplyToolDeltas(slots: seq<Slot>, ds: seq<ToolCallDelta>) returns (r: seq<Slot>)
    ensures r == ApplyAll(slots, ds)
  {
    r := slots;
    for j := 0 to |ds|
      invariant r == ApplyAll(slots, ds[..j])
    {
      assert ds[..j + 1][..j] == ds[..j];
      r := ApplyToolDelta(r, ds[j]);
    }
    assert ds[..|ds|] == ds;
  }

  /** One more than the largest index among the fragments, or 0. */
  function SlotCount(ds: seq<ToolCallDelta>): nat {
    if ds == [] then 0
    else
      var d := ds[|ds| - 1];
      Max(SlotCount(ds[..|ds| - 1]), if d.index.Some? then d.index.value + 1 else 0)
  }

  /** The last non-empty id among the fragments with index `i`, or "". */
  function IdAt(ds: seq<ToolCallDelta>, i: nat): string {
    if ds == [] then ""
    else if ds[|ds| - 1].index == Some(i) && ds[|ds| - 1].id != "" then ds[|ds| - 1].id
    else IdAt(ds[..|ds| - 1], i)
  }

  /** The last non-empty name among the fragments with index `i`, or "". */
  function NameAt(ds: seq<ToolCallDelta>, i: nat): string {
    if ds == [] then ""
    else if ds[|ds| - 1].index == Some(i) && ds[|ds| - 1].name != "" then ds[|ds| - 1].name
    else NameAt(ds[..|ds| - 1], i)
  }

  /** The argument fragments with index `i`, concatenated in arrival order. */
  function ArgumentsAt(ds: seq<ToolCallDelta>, i: nat): string {
    if ds == [] then ""
    else ArgumentsAt(ds[..|ds| - 1], i) + (if ds[|ds| - 1].index == Some(i) then ds[|ds| - 1].arguments else "")
  }

  /** No fragment targets a slot at or beyond the slot count. */
  lemma {:induction false} BeyondSlots(ds: seq<ToolCallDelta>, i: nat)
    requires SlotCount(ds) <= i
    ensures IdAt(ds, i) == "" && NameAt(ds, i) == "" && ArgumentsAt(ds, i) == ""
  {
    if ds != [] {
      BeyondSlots(ds[..|ds| - 1], i);
    }
  }

  /**
   * Reassembly, slot by slot: there is one slot per index up to the largest
   * seen; each holds the last non-empty id and name sent for its index and
   * the concatenation of its argument fragments in arrival order.
   */
  lemma {:induction false} ReassembleSpec(ds: seq<ToolCallDelta>)
    ensures |Reassemble(ds)| == SlotCount(ds)
    ensures forall i | 0 <= i < |Reassemble(ds)| ::
              Reassemble(ds)[i] == Slot(IdAt(ds, i), NameAt(ds, i), ArgumentsAt(ds, i))
  {
    if ds != [] {
      var init := ds[..|ds| - 1];
      var d := ds[|ds| - 1];
      ReassembleSpec(init);
      var prev := Reassemble(init);
      var r := Reassemble(ds);
      ApplyDeltaSpec(prev, d);
      forall i | 0 <= i < |r|
        ensures r[i] == Slot(IdAt(ds, i), NameAt(ds, i), ArgumentsAt(ds, i))
      {
        if i >= |prev| {
          BeyondSlots(init, i);
        }
      }
    }
  }

  /** `ApplyDelta` written as the source's loop: grow slot by slot, then update in place. */
  method ApplyToolDelta(slots: seq<Slot>, d: ToolCallDelta) returns (r: seq<Slot>)
    ensures r == ApplyDelta(slots, d)
  {
    r := slots;
    if d.index.Some? {
      var i := d.index.value;
      while |r| <= i
        invariant Grow(r, i + 1) == Grow(slots, i + 1)
        decreases i + 1 - |r|
      {
        r := r + [EmptySlot];
      }
      r := r[i := Merge(r[i], d)];
    }
  }

  function ChunkDeltas(c: Chunk): seq<ToolCallDelta> {
    if c.Delta? then c.toolCalls else []
  }

  function ChunkText(c: Chunk): string {
    if c.Delta? then c.content else ""
  }

  /** The chunk's `(delta.content, None)` yield, when its content is non-empty. */
  function ChunkEvents(c: Chunk): seq<Event> {
    if c.Delta? && c.content != "" then [Event(c.content, None)] else []
  }

  /** All tool-call fragments of a stream, in arrival order. */
  function StreamDeltas(chunks: seq<Chunk>): seq<ToolCallDelta> {
    FlatMap(ChunkDeltas, chunks)
  }

  /** `accumulated_content`: the stream's content fragments, concatenated. */
  function StreamText(chunks: seq<Chunk>): string {
    FlatMap(ChunkText, chunks)
  }

  /** The events yielded while a stream is read. */
  function TextEvents(chunks: seq<Chunk>): seq<Event> {
    FlatMap(ChunkEvents, chunks)
  }

  /** The concatenated texts of some events. */
  function EventText(events: seq<Event>): string {
    if events == [] then "" else EventText(events[..|events| - 1]) + events[|events| - 1].text
  }

  lemma {:induction false} EventTextConcat(a: seq<Event>, b: seq<Event>)
    ensures EventText(a + b) == EventText(a) + EventText(b)
    decreases |b|
  {
    if b == [] {
      assert a + b == a;
    } else {
      assert (a + b)[..|a + b| - 1] == a + b[..|b| - 1];
      EventTextConcat(a, b[..|b| - 1]);
    }
  }

  /**
   * The events of a stream carry no metadata, none has empty text, and
   * together they spell out exactly the accumulated content.
   */
  lemma {:induction false} TextEventsSpec(chunks: seq<Chunk>)
    ensures forall e | e in TextEvents(chunks) :: e.metadata.None? && e.text != ""
    ensures EventText(TextEvents(chunks)) == StreamText(chunks)
  {
    if chunks != [] {
      var init := chunks[..|chunks| - 1];
      TextEventsSpec(init);
      EventTextConcat(TextEvents(init), ChunkEvents(chunks[|chunks| - 1]));
      assert EventText([]) == "";
    }
  }

  /** The `async for chunk in stream` loop: content, yields and reassembled slots. */
  method ConsumeStream(chunks: seq<Chunk>) returns (content: string, slots: seq<Slot>, texts: seq<Event>)
    ensures content == StreamText(chunks)
    ensures slots == Reassemble(StreamDeltas(chunks))
    ensures texts == TextEvents(chunks)
  {
    content, slots, texts := "", [], [];
    for i := 0 to |chunks|
      invariant content == StreamText(chunks[..i])
      invariant texts == TextEvents(chunks[..i])
      invariant slots == Reassemble(StreamDeltas(chunks[..i]))
    {
      assert chunks[..i + 1][..i] == chunks[..i];
      var c := chunks[i];
      if c.Delta? && c.content != "" {
        content := content + c.content;
        texts := texts + [Event(c.content, None)];
      }
      ApplyAllConcat([], StreamDeltas(chunks[..i]), ChunkDeltas(c));
      slots := ApplyToolDeltas(slots, ChunkDeltas(c));
    }
    assert chunks[..|chunks|] == chunks;
  }

  // Keeping complete calls

  function CallOf(s: Slot): ToolCall {
    ToolCall(s.id, s.name, JString(s.arguments))
  }

  predicate Complete(s: Slot) {
    s.id != "" && s.name != ""
  }

  function KeptSlot(s: Slot): seq<ToolCall> {
    if Complete(s) then [CallOf(s)] else []
  }

  /** `formatted_tool_calls`: the calls of the slots with both an id and a name, in slot order. */
  function Kept(slots: seq<Slot>): seq<ToolCall> {
    FlatMap(KeptSlot, slots)
  }

  /** Exactly the complete slots are kept, each as its call; a slot lacking an id or a name is dropped. */
  lemma {:induction false} KeptSpec(slots: seq<Slot>)
    ensures forall s | s in slots && Complete(s) :: CallOf(s) in Kept(slots)
    ensures forall c | c in Kept(slots) :: c.id != "" && c.name != "" && exists s | s in slots && Complete(s) :: c == CallOf(s)
    ensures Kept(slots) == [] <==> forall s | s in slots :: !Complete(s)
  {
    if slots != [] {
      var init := slots[..|slots| - 1];
      var last := slots[|slots| - 1];
      KeptSpec(init);
      assert slots == init + [last];
      forall c | c in Kept(slots)
        ensures c.id != "" && c.name != "" && exists s | s in slots && Complete(s) :: c == CallOf(s)
      {
        if c in Kept(init) {
          var s :| s in init && Complete(s) && c == CallOf(s);
          assert s in slots;
        } else {
          assert c == CallOf(last) && last in slots;
        }
      }
    }
  }

  /** The `for tc in tool_calls_to_execute` loop that builds `formatted_tool_calls`. */
  method KeepComplete(slots: seq<Slot>) returns (calls: seq<ToolCall>)
    ensures calls == Kept(slots)
  {
    calls := [];
    for i := 0 to |slots|
      invariant calls == Kept(slots[..i])
    {
      assert slots[..i + 1][..i] == slots[..i];
      if slots[i].id != "" && slots[i].name != "" {
        calls := calls + [CallOf(slots[i])];
      }
    }
    assert slots[..|slots|] == slots;
  }

  // The streaming loop

  /**
   * A streaming run: the final transcript, the tool turns executed, whether
   * the extra call after the budget was made, the events yielded, and the
   * exception that escaped, if any.
   */
  datatype StreamRun = StreamRun(messages: seq<Message>, toolTurns: nat, finalCall: bool,
                                 events: seq<Event>, failure: Option<string>)

  /** The transcript after a streamed reply: its message is recorded when it has content or fragments. */
  function Record(msgs: seq<Message>, chunks: seq<Chunk>): seq<Message> {
    var content := StreamText(chunks);
    var slots := Reassemble(StreamDeltas(chunks));
    if content != "" || slots != [] then msgs + [Assistant("assistant", Some(content), Kept(slots))] else msgs
  }

  /** The complete tool calls of a streamed reply. */
  function StreamCalls(chunks: seq<Chunk>): seq<ToolCall> {
    Kept(Reassemble(StreamDeltas(chunks)))
  }

  /**
   * One turn of the streaming loop: it stops (an exception, with the text
   * yielded so far; or a reply without a complete call, recorded, with the
   * closing `("", metadata)` event), or it continues with the text it
   * yielded and the transcript and total after the complete calls ran.
   */
  datatype Turn =
    | Stopped(messages: seq<Message>, events: seq<Event>, failure: Option<string>)
    | Continued(texts: seq<Event>, next: seq<Message>, nextTotal: real)

  /** The turn of the streaming loop that starts from `msgs` and `total`. */
  function StreamTurn(env: Env, msgs: seq<Message>, total: real): Turn {
    match env.stream(msgs)
    case Failure(e) => Stopped(msgs, [], Some(e))
    case Success(sr) =>
      if sr.failure.Some? then Stopped(msgs, TextEvents(sr.chunks), sr.failure)
      else if StreamCalls(sr.chunks) == [] then
        Stopped(Record(msgs, sr.chunks), TextEvents(sr.chunks) + [Event("", Some(total))], None)
      else
        var turn := ToolTurn(env, StreamCalls(sr.chunks));
        Continued(TextEvents(sr.chunks), Record(msgs, sr.chunks) + turn.0, total + turn.1)
  }

  /**
   * `chat_completion_with_tools_streaming` from the loop state: turn after
   * turn until one stops; with the budget spent, one more call without
   * tools is made and its content is yielded with the metadata.
   */
  function Streamed(env: Env, msgs: seq<Message>, iterations: int, maxIterations: int, total: real): StreamRun
    decreases maxIterations - iterations
  {
    if iterations >= maxIterations then
      match env.plain(msgs)
      case Failure(e) => StreamRun(msgs, 0, true, [], Some(e))
      case Success(reply) => StreamRun(msgs, 0, true, [Event(reply.content.GetOr(""), Some(total))], None)
    else
      match StreamTurn(env, msgs, total)
      case Stopped(m, ev, f) => StreamRun(m, 0, false, ev, f)
      case Continued(texts, next, t) =>
        var rest := Streamed(env, next, iterations + 1, maxIterations, t);
        StreamRun(rest.messages, rest.toolTurns + 1, rest.finalCall, texts + rest.events, rest.failure)
  }

  /** No event carries metadata. */
  predicate NoMetadata(events: seq<Event>) {
    forall e | e in events :: e.metadata.None?
  }

  /** The last event, and no other, carries metadata. */
  predicate MetadataLast(events: seq<Event>) {
    events != [] && events[|events| - 1].metadata.Some? && NoMetadata(events[..|events| - 1])
  }

  lemma EventsAppend(a: seq<Event>, b: seq<Event>)
    requires NoMetadata(a)
    ensures NoMetadata(b) ==> NoMetadata(a + b)
    ensures MetadataLast(b) ==> MetadataLast(a + b)
  {
    if b != [] {
      assert (a + b)[..|a + b| - 1] == a + b[..|b| - 1];
    }
  }

  /**
   * A single turn's events: the text it yields carries no metadata; a turn
   * that stops normally ends with the one metadata event, and one that
   * raises yields none.
   */
  lemma StreamTurnEvents(env: Env, msgs: seq<Message>, total: real)
    ensures match StreamTurn(env, msgs, total)
            case Stopped(_, ev, f) => (f.None? ==> MetadataLast(ev)) && (f.Some? ==> NoMetadata(ev))
            case Continued(texts, _, _) => NoMetadata(texts)
  {
    if env.stream(msgs).Success? {
      var chunks := env.stream(msgs).value.chunks;
      TextEventsSpec(chunks);
      if env.stream(msgs).value.failure.None? && StreamCalls(chunks) == [] {
        EventsAppend(TextEvents(chunks), [Event("", Some(total))]);
      }
    }
  }

  /**
   * A single turn's transcript: a turn that stops adds at most its reply,
   * with no calls; one that continues adds its reply and the answers to the
   * reply's calls.
   */
  lemma StreamTurnTranscript(env: Env, msgs: seq<Message>, total: real)
    ensures match StreamTurn(env, msgs, total)
            case Stopped(m, _, _) => msgs <= m && Turns(m[|msgs|..])
            case Continued(_, next, _) =>
              && |msgs| < |next| && next[..|msgs|] == msgs && next[|msgs|].Assistant?
              && 1 + |msgs| + |next[|msgs|].toolCalls| == |next|
              && Answers(next[|msgs| + 1..], next[|msgs|].toolCalls)
  {
    if env.stream(msgs).Success? && env.stream(msgs).value.failure.None? {
      var chunks := env.stream(msgs).value.chunks;
      var content := StreamText(chunks);
      var slots := Reassemble(StreamDeltas(chunks));
      var calls := StreamCalls(chunks);
      var a := Assistant("assistant", Some(content), calls);
      if calls == [] {
        var m := Record(msgs, chunks);
        if content != "" || slots != [] {
          assert m[|msgs|..] == [a] + [] + [];
          TurnsCons(a, [], []);
        } else {
          assert m[|msgs|..] == [];
        }
      } else {
        assert slots != [] by {
          assert Kept([]) == [];
        }
        var tools := ToolTurn(env, calls).0;
        TurnTools(env, calls);
        var next := Record(msgs, chunks) + tools;
        assert next == msgs + [a] + tools;
        assert next[|msgs| + 1..] == tools;
      }
    } else {
      assert msgs[|msgs|..] == [];
    }
  }

  /**
   * The budget of a streaming run: at most `max_iterations` tool turns run,
   * and the extra call without tools is made exactly when they all ran.
   */
  lemma {:induction false} StreamedBudget(env: Env, msgs: seq<Message>, iterations: int, maxIterations: int, total: real)
    decreases maxIterations - iterations
    ensures var r := Streamed(env, msgs, iterations, maxIterations, total);
      && iterations + r.toolTurns <= Max(iterations, maxIterations)
      && (r.finalCall ==> iterations + r.toolTurns == Max(iterations, maxIterations))
      && (!r.finalCall ==> iterations + r.toolTurns < maxIterations)
  {
    if iterations < maxIterations {
      match StreamTurn(env, msgs, total)
      case Stopped(_, _, _) =>
      case Continued(_, next, t) =>
        StreamedBudget(env, next, iterations + 1, maxIterations, t);
    }
  }

  /**
   * The events of a streaming run: one that ends normally yields its
   * metadata in its last event and in no other, and one that raises yields
   * none.
   */
  lemma {:induction false} StreamedEvents(env: Env, msgs: seq<Message>, iterations: int, maxIterations: int, total: real)
    decreases maxIterations - iterations
    ensures var r := Streamed(env, msgs, iterations, maxIterations, total);
      && (r.failure.None? ==> MetadataLast(r.events))
      && (r.failure.Some? ==> NoMetadata(r.events))
  {
    if iterations < maxIterations {
      StreamTurnEvents(env, msgs, total);
      match StreamTurn(env, msgs, total)
      case Stopped(_, _, _) =>
      case Continued(texts, next, t) =>
        StreamedEvents(env, next, iterations + 1, maxIterations, t);
        EventsAppend(texts, Streamed(env, next, iterations + 1, maxIterations, t).events);
    } else if env.plain(msgs).Success? {
      assert [Event(env.plain(msgs).value.content.GetOr(""), Some(total))][..0] == [];
    }
  }

  /** A transcript that goes on from one more turn after `msgs` is still a series of turns after `msgs`. */
  lemma TurnsExtend(msgs: seq<Message>, next: seq<Message>, r: seq<Message>)
    requires |msgs| < |next| && next[..|msgs|] == msgs && next[|msgs|].Assistant?
    requires 1 + |msgs| + |next[|msgs|].toolCalls| == |next|
    requires Answers(next[|msgs| + 1..], next[|msgs|].toolCalls)
    requires next <= r && Turns(r[|next|..])
    ensures msgs <= r && Turns(r[|msgs|..])
  {
    var a := next[|msgs|];
    var tools := next[|msgs| + 1..];
    assert r[|msgs|..] == [a] + tools + r[|next|..];
    TurnsCons(a, tools, r[|next|..]);
  }

  /** After the caller's messages, a streamed transcript is a series of turns. */
  lemma {:induction false} StreamedTranscript(env: Env, msgs: seq<Message>, iterations: int, maxIterations: int, total: real)
    ensures var r := Streamed(env, msgs, iterations, maxIterations, total);
            msgs <= r.messages && Turns(r.messages[|msgs|..])
    decreases maxIterations - iterations
  {
    if iterations < maxIterations {
      StreamTurnTranscript(env, msgs, total);
      match StreamTurn(env, msgs, total)
      case Stopped(_, _, _) =>
      case Continued(_, next, t) =>
        StreamedTranscript(env, next, iterations + 1, maxIterations, t);
        TurnsExtend(msgs, next, Streamed(env, next, iterations + 1, maxIterations, t).messages);
    } else {
      assert msgs[|msgs|..] == [];
    }
  }

  /**
   * One turn of the streaming loop, as the body of the `while` loop runs it:
   * stream a reply, yield its text, record it, and either stop or run the
   * complete calls.
   */
  method StreamingTurn(env: Env, current: seq<Message>, total: real) returns (t: Turn)
    ensures t == StreamTurn(env, current, total)
  {
    var stream := env.stream(current);
    if stream.Failure? {
      return Stopped(current, [], Some(stream.error));
    }
    var chunks := stream.value.chunks;
    var content, slots, texts := ConsumeStream(chunks);
    if stream.value.failure.Some? {
      return Stopped(current, texts, stream.value.failure);
    }
    var calls := KeepComplete(slots);
    var next := current;
    if content != "" || slots != [] {
      next := next + [Assistant("assistant", Some(content), calls)];
    }
    if calls == [] {
      return Stopped(next, texts + [Event("", Some(total))], None);
    }
    var nextTotal;
    next, nextTotal := RunToolCalls(env, calls, next, total);
    return Continued(texts, next, nextTotal);
  }

  /** `chat_completion_with_tools_streaming(...)`: the events it yields and the exception that ends it, if any. */
  method ChatCompletionWithToolsStreaming(env: Env, messages: seq<Message>, maxIterations: int)
    returns (events: seq<Event>, failure: Option<string>)
    ensures events == Streamed(env, messages, 0, maxIterations, 0.0).events
    ensures failure == Streamed(env, messages, 0, maxIterations, 0.0).failure
  {
    var current := messages;
    var iterations := 0;
    var total := 0.0;
    events := [];
    ghost var whole := Streamed(env, messages, 0, maxIterations, 0.0);
    assert events + whole.events == whole.events;
    while iterations < maxIterations
      invariant events + Streamed(env, current, iterations, maxIterations, total).events == whole.events
      invariant Streamed(env, current, iterations, maxIterations, total).failure == whole.failure
      decreases maxIterations - iterations
    {
      var turn := StreamingTurn(env, current, total);
      match turn {
        case Stopped(_, ev, f) =>
          return events + ev, f;
        case Continued(texts, next, t) =>
          ghost var rest := Streamed(env, next, iterations + 1, maxIterations, t);
          assert events + (texts + rest.events) == (events + texts) + rest.events;
          events := events + texts;
          current, total := next, t;
          iterations := iterations + 1;
      }
    }
    var final := env.plain(current);
    if final.Failure? {
      assert events + [] == events;
      return events, Some(final.error);
    }
    events := events + [Event(final.value.content.GetOr(""), Some(total))];
    return events, None;
  }
}
