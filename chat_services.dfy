/**
 * The chat turn driver `ChatService` of backend/app/chat/services.py.
 *
 * A turn appends the user's text to the conversation log, folds the model's first
 * event stream into a table of tool-call slots (yielding every text delta as it
 * arrives), runs each slot's tool, logging one assistant entry per run, and, when
 * the table is non-empty, yields the text deltas of a second stream requested
 * without tools.
 *
 * The model provider is not modelled: the first stream is an input sequence and
 * the second one an oracle from the conversation log to an event sequence.
 */
module ChatServices {
  import opened Wrappers
  import opened PyJson
  import OD = OrderedDict

  /** One conversation-log entry `{"role": role, "content": content}`. */
  datatype Msg = Msg(role: string, content: string)

  /**
   * One event of a response stream, by its `type`. `index` is the event's
   * `output_index` attribute (None when the event has none) and `delta` its
   * `delta` attribute (JNull when it has none). An arguments delta without a
   * `delta` attribute makes `event.delta` raise AttributeError; the model
   * reads it as JNull, which raises TypeError at the `+=` instead.
   */
  datatype Event =
    | TextDelta(text: string)                    // response.output_text.delta
    | TextDone                                   // response.output_text.done
    | ItemAdded(index: Option<int>)              // response.output_item.added
    | CallDelta(index: Option<int>, delta: Json) // response.function_call.delta, response.tool_call.delta
    | ArgsDelta(index: Option<int>, delta: Json) // response.function_call_arguments.delta
    | ArgsDone(index: Option<int>)               // response.function_call_arguments.done
    | Other                                      // every other type

  /** `getattr(event, "output_index", 0)`. */
  function Key(index: Option<int>): int {
    index.GetOr(0)
  }

  /** The slot key an event touches, if it is one of the four tool-event kinds. */
  function KeyOf(e: Event): Option<int> {
    match e
    case ItemAdded(i) => Some(Key(i))
    case CallDelta(i, _) => Some(Key(i))
    case ArgsDelta(i, _) => Some(Key(i))
    case ArgsDone(i) => Some(Key(i))
    case _ => None
  }

  /** A tool-call slot `{"name": name, "arguments": arguments, "done": done}`. */
  datatype Slot = Slot(name: Json, arguments: string, done: bool)

  /** `{"name": None, "arguments": "", "done": False}`. */
  const EmptySlot := Slot(JNull, "", false)

  /** `tool_calls`: slots by `output_index`, in first-insertion order. */
  type Table = OD.Dict<int, Slot>

  /** The JSON codec of RFC 8259 (`json.loads`, `json.dumps`) and Python's `repr`,
    * as opaque functions; `loads` gives None where it raises JSONDecodeError. */
  datatype Codec = Codec(loads: string -> Option<Json>, dumps: Json -> string, repr: Json -> string)

  /** An entry of the `tools` declaration list; only its `"name"` key is read. */
  datatype ToolDecl = ToolDecl(name: Option<string>, description: string)

  /** The one tool `services.py` declares. */
  const WeatherTool := ToolDecl(Some("get_weather"), "Get current temperature for a given location.")

  // ---------------------------------------------------------------------------
  // First pass: the fold over the first stream
  // ---------------------------------------------------------------------------

  /** `if idx not in tool_calls: tool_calls[idx] = {...}`. */
  function Ensure(t: Table, k: int): (r: Table)
    requires OD.Valid(t)
    ensures OD.Valid(r) && k in r.entries
    ensures k in t.entries ==> r == t
    ensures k !in t.entries ==> r == OD.Set(t, k, EmptySlot)
  {
    if k in t.entries then t else OD.Set(t, k, EmptySlot)
  }

  /** The text an argument delta contributes: a string as it is, a dict through
    * `json.dumps`; anything else makes `+=` raise TypeError (None). */
  function Fragment(delta: Json, dumps: Json -> string): (r: Option<string>)
    ensures r.None? <==> !(delta.JStr? || delta.JObj?)
  {
    match delta
    case JStr(s) => Some(s)
    case JObj(_) => Some(dumps(delta))
    case _ => None
  }

  /** The events whose handling raises. */
  predicate Fails(e: Event) {
    e.ArgsDelta? && !(e.delta.JStr? || e.delta.JObj?)
  }

  predicate NoFailure(events: seq<Event>) {
    forall i :: 0 <= i < |events| ==> !Fails(events[i])
  }

  /** The state of the first loop: what it has yielded, the slot table, and the
    * exception that ended it, if any. */
  datatype Collected = Collected(texts: seq<string>, table: Table, failure: Option<Exc>)

  /** The first loop's body for one event. */
  function Step(c: Collected, e: Event, dumps: Json -> string): (r: Collected)
    requires OD.Valid(c.table)
    ensures OD.Valid(r.table)
  {
    if c.failure.Some? then c
    else
      match e
      case TextDelta(s) => c.(texts := c.texts + [s])
      case TextDone => c
      case Other => c
      case ItemAdded(i) => c.(table := OD.Set(c.table, Key(i), EmptySlot))
      case CallDelta(i, d) =>
        var t := Ensure(c.table, Key(i));
        if d.JObj? && Binds(d.fields, "name")
        then c.(table := OD.Set(t, Key(i), t.entries[Key(i)].(name := Field(d, "name"))))
        else c.(table := t)
      case ArgsDelta(i, d) =>
        var t := Ensure(c.table, Key(i));
        (match Fragment(d, dumps)
         case None => Collected(c.texts, t, Some(TypeError))
         case Some(f) =>
           c.(table := OD.Set(t, Key(i), t.entries[Key(i)].(arguments := t.entries[Key(i)].arguments + f))))
      case ArgsDone(i) =>
        var t := Ensure(c.table, Key(i));
        c.(table := OD.Set(t, Key(i), t.entries[Key(i)].(done := true)))
  }

  /** The first loop run over `events`, stopping at the first event that raises. */
  function Collect(events: seq<Event>, dumps: Json -> string): (r: Collected)
    ensures OD.Valid(r.table)
    decreases |events|
  {
    if events == [] then Collected([], OD.Empty(), None)
    else Step(Collect(events[..|events| - 1], dumps), events[|events| - 1], dumps)
  }

  /** The text deltas of a stream, in order. */
  function TextsOf(events: seq<Event>): seq<string>
    decreases |events|
  {
    if events == [] then []
    else
      var e := events[|events| - 1];
      TextsOf(events[..|events| - 1]) + (if e.TextDelta? then [e.text] else [])
  }

  // ---------------------------------------------------------------------------
  // Reference definitions of the slot table, index by index
  // ---------------------------------------------------------------------------

  /** The events since the last `output_item.added` for key `k`. */
  function SinceReset(events: seq<Event>, k: int): seq<Event>
    decreases |events|
  {
    if events == [] then []
    else
      var e := events[|events| - 1];
      if e.ItemAdded? && Key(e.index) == k then []
      else SinceReset(events[..|events| - 1], k) + [e]
  }

  /** The in-order concatenation of the argument fragments for key `k`. */
  function Fragments(events: seq<Event>, k: int, dumps: Json -> string): string
    decreases |events|
  {
    if events == [] then ""
    else
      var e := events[|events| - 1];
      var f := if e.ArgsDelta? && Key(e.index) == k && Fragment(e.delta, dumps).Some?
               then Fragment(e.delta, dumps).value else "";
      Fragments(events[..|events| - 1], k, dumps) + f
  }

  /** The name carried by the last naming delta (a dict with `"name"`) for key `k`, or None. */
  function LastName(events: seq<Event>, k: int): Json
    decreases |events|
  {
    if events == [] then JNull
    else
      var e := events[|events| - 1];
      if e.CallDelta? && Key(e.index) == k && e.delta.JObj? && Binds(e.delta.fields, "name")
      then Field(e.delta, "name")
      else LastName(events[..|events| - 1], k)
  }

  /** True when some `function_call_arguments.done` for key `k` is among `events`. */
  predicate DoneIn(events: seq<Event>, k: int) {
    exists i :: 0 <= i < |events| && events[i].ArgsDone? && Key(events[i].index) == k
  }

  /** What slot `k` holds after `events`, defined index by index. */
  function SlotOf(events: seq<Event>, k: int, dumps: Json -> string): Slot {
    var s := SinceReset(events, k);
    Slot(LastName(s, k), Fragments(s, k, dumps), DoneIn(s, k))
  }

  /** The keys of `events` in order of first mention. */
  function FirstSeen(events: seq<Event>): seq<int>
    decreases |events|
  {
    if events == [] then []
    else
      var pre := FirstSeen(events[..|events| - 1]);
      var e := events[|events| - 1];
      if KeyOf(e).Some? && KeyOf(e).value !in pre then pre + [KeyOf(e).value] else pre
  }

  /** True when some event of `events` touches key `k`. */
  predicate Mentioned(events: seq<Event>, k: int) {
    exists i :: 0 <= i < |events| && KeyOf(events[i]) == Some(k)
  }

  // ---------------------------------------------------------------------------
  // Second pass: running the slots
  // ---------------------------------------------------------------------------

  /** The name a slot runs under: its own when truthy, else the sole declared
    * tool's name, else none, and the slot is skipped. */
  function ResolveName(tools: seq<ToolDecl>, name: Json): Option<Json> {
    if Truthy(name) then Some(name)
    else if |tools| == 1 && tools[0].name.Some? then Some(JStr(tools[0].name.value))
    else None
  }

  /** `json.loads(args_str or "{}")`, and `{}` when that raises JSONDecodeError. */
  function ParseArgs(loads: string -> Option<Json>, args: string): Json {
    match loads(if args == "" then "{}" else args)
    case Some(v) => v
    case None => JObj([])
  }

  /** The outcome of `TOOL_HANDLERS.get(name)`. */
  datatype HandlerLookup = Found | NotFound | Unhashable

  /** `TOOL_HANDLERS` holds `get_weather` only; a list or dict key raises TypeError. */
  function LookupHandler(name: Json): HandlerLookup {
    if name.JArr? || name.JObj? then Unhashable
    else if name == JStr("get_weather") then Found
    else NotFound
  }

  /** The text of `get_weather(location)`, with `location` already formatted. */
  function GetWeather(location: string): (r: string)
    ensures r == Prefix + location + Suffix
    ensures |r| == |Prefix| + |location| + |Suffix|
    ensures r[|Prefix|..|r| - |Suffix|] == location
  {
    Prefix + location + Suffix
  }

  const Prefix := "The current temperature in "
  const Suffix := " is 72°F."

  /** The result of one call of the handler. */
  datatype Call = Returned(result: string) | RaisedTypeError

  /** `get_weather(**kwargs)`: the keyword arguments must be exactly `location`. */
  function CallWithKeywords(kwargs: seq<(string, Json)>, repr: Json -> string): Call {
    if |kwargs| == 1 && kwargs[0].0 == "location"
    then Returned(GetWeather(PyStr(kwargs[0].1, repr)))
    else RaisedTypeError
  }

  /** `get_weather(arg)`: Python does not check the argument's type. */
  function CallPositional(arg: Json, repr: Json -> string): string {
    GetWeather(PyStr(arg, repr))
  }

  /** The handler call: with keywords when the arguments are a dict, positionally
    * otherwise, and once more with `args.get("location")` after a TypeError. */
  function RunHandler(args: Json, repr: Json -> string): string {
    if args.JObj? then
      match CallWithKeywords(args.fields, repr)
      case Returned(s) => s
      case RaisedTypeError => CallPositional(Field(args, "location"), repr)
    else CallPositional(args, repr)
  }

  /** The log entry of one executed slot. */
  function ToolEntry(name: Json, result: string, repr: Json -> string): Msg {
    Msg("assistant", "TOOL_NAME: " + PyStr(name, repr) + ", RESULT: " + result)
  }

  /** What running one slot does. */
  datatype SlotOutcome = Skipped | Executed(entry: Msg) | Failed(exc: Exc)

  /** The second loop's body for one slot. */
  function RunSlot(tools: seq<ToolDecl>, slot: Slot, codec: Codec): SlotOutcome {
    match ResolveName(tools, slot.name)
    case None => Skipped
    case Some(name) =>
      var args := ParseArgs(codec.loads, slot.arguments);
      match LookupHandler(name)
      case Unhashable => Failed(TypeError)
      case NotFound => Skipped
      case Found => Executed(ToolEntry(name, RunHandler(args, codec.repr), codec.repr))
  }

  /** The state of the second loop: the log, and the exception that ended it, if any. */
  datatype Ran = Ran(history: seq<Msg>, failure: Option<Exc>)

  /** The second loop run over the slots of `keys`, stopping at the first that raises. */
  function RunSlots(tools: seq<ToolDecl>, t: Table, keys: seq<int>, history: seq<Msg>, codec: Codec): Ran
    requires forall i :: 0 <= i < |keys| ==> keys[i] in t.entries
    decreases |keys|
  {
    if keys == [] then Ran(history, None)
    else
      var r := RunSlots(tools, t, keys[..|keys| - 1], history, codec);
      if r.failure.Some? then r
      else
        match RunSlot(tools, t.entries[keys[|keys| - 1]], codec)
        case Skipped => r
        case Executed(m) => Ran(r.history + [m], None)
        case Failed(x) => Ran(r.history, Some(x))
  }

  /** One more slot of the loop, when the slots before it did not raise. */
  lemma RunSlotsNext(tools: seq<ToolDecl>, t: Table, keys: seq<int>, j: nat, history: seq<Msg>, codec: Codec)
    requires j < |keys| && forall i :: 0 <= i < |keys| ==> keys[i] in t.entries
    ensures var r := RunSlots(tools, t, keys[..j], history, codec);
            r.failure.None? ==>
              RunSlots(tools, t, keys[..j + 1], history, codec) ==
                match RunSlot(tools, t.entries[keys[j]], codec)
                case Skipped => r
                case Executed(m) => Ran(r.history + [m], None)
                case Failed(x) => Ran(r.history, Some(x))
  {
    assert keys[..j + 1][..j] == keys[..j];
  }

  /** The second loop never reads a slot's `done` flag. */
  lemma RunSlotIgnoresDone(tools: seq<ToolDecl>, s: Slot, b: bool, codec: Codec)
    ensures RunSlot(tools, s.(done := b), codec) == RunSlot(tools, s, codec)
  {
  }

  /** Two tables whose slots of `keys` differ at most in `done` run alike. */
  lemma {:induction false} RunSlotsIgnoresDone(tools: seq<ToolDecl>, t: Table, u: Table, keys: seq<int>, history: seq<Msg>, codec: Codec)
    requires forall i :: 0 <= i < |keys| ==> keys[i] in t.entries && keys[i] in u.entries
    requires forall i :: 0 <= i < |keys| ==> u.entries[keys[i]] == t.entries[keys[i]].(done := u.entries[keys[i]].done)
    ensures RunSlots(tools, u, keys, history, codec) == RunSlots(tools, t, keys, history, codec)
    decreases |keys|
  {
    if keys != [] {
      var n := |keys| - 1;
      var pre := keys[..n];
      assert forall i :: 0 <= i < |pre| ==> pre[i] == keys[i];
      RunSlotsIgnoresDone(tools, t, u, pre, history, codec);
      RunSlotIgnoresDone(tools, t.entries[keys[n]], u.entries[keys[n]].done, codec);
    }
  }

  /** The entries the executed outcomes contribute, in order. */
  function Entries(outcomes: seq<SlotOutcome>): seq<Msg>
    decreases |outcomes|
  {
    if outcomes == [] then []
    else
      var o := outcomes[|outcomes| - 1];
      Entries(outcomes[..|outcomes| - 1]) + (if o.Executed? then [o.entry] else [])
  }

  /** How many of the outcomes are executions. */
  function ExecutedCount(outcomes: seq<SlotOutcome>): nat
    decreases |outcomes|
  {
    if outcomes == [] then 0
    else ExecutedCount(outcomes[..|outcomes| - 1]) + (if outcomes[|outcomes| - 1].Executed? then 1 else 0)
  }

  /** The outcome of each slot of `keys`, each run on its own. */
  function Outcomes(tools: seq<ToolDecl>, t: Table, keys: seq<int>, codec: Codec): (r: seq<SlotOutcome>)
    requires forall i :: 0 <= i < |keys| ==> keys[i] in t.entries
    ensures |r| == |keys|
  {
    seq(|keys|, i requires 0 <= i < |keys| => RunSlot(tools, t.entries[keys[i]], codec))
  }

  // ---------------------------------------------------------------------------
  // The whole turn
  // ---------------------------------------------------------------------------

  /** How the generator ended: normally, saying whether the second stream was
    * requested, or by an exception. */
  datatype Outcome = Completed(finalRequested: bool) | Aborted(exc: Exc)

  /** The log after the turn, the yielded strings, and how the generator ended. */
  datatype Turn = Turn(history: seq<Msg>, yielded: seq<string>, outcome: Outcome)

  /** `process_message(message)` run to exhaustion on a log `history`. */
  function TurnSpec(history: seq<Msg>, tools: seq<ToolDecl>, message: string, events: seq<Event>,
                    finalStream: seq<Msg> -> seq<Event>, codec: Codec): Turn
  {
    var h1 := history + [Msg("user", message)];
    var c := Collect(events, codec.dumps);
    if c.failure.Some? then Turn(h1, c.texts, Aborted(c.failure.value))
    else
      var x := RunSlots(tools, c.table, c.table.keys, h1, codec);
      if x.failure.Some? then Turn(x.history, c.texts, Aborted(x.failure.value))
      else if OD.NonEmpty(c.table) then Turn(x.history, c.texts + TextsOf(finalStream(x.history)), Completed(true))
      else Turn(x.history, c.texts, Completed(false))
  }

  /** `ChatService`: the conversation log and the declared tools. The provider
    * client, the model name, the MCP and Composio clients are not modelled. */
  class ChatService {
    var chatHistory: seq<Msg>
    const tools: seq<ToolDecl>

    /** `ChatService()`: an empty log and the one-entry `tools` list. */
    constructor ()
      ensures chatHistory == [] && tools == [WeatherTool]
    {
      chatHistory := [];
      tools := [WeatherTool];
    }

    /** `init_chat_services()`: seeds the log with the developer prompt. */
    method InitChatServices(prompt: string)
      modifies this
      ensures chatHistory == old(chatHistory) + [Msg("developer", prompt)]
    {
      AddChatHistory("developer", prompt);
    }

    /** `add_chat_history(role, message)`: appends one entry at the end. */
    method AddChatHistory(role: string, message: string)
      modifies this
      ensures chatHistory == old(chatHistory) + [Msg(role, message)]
    {
      chatHistory := chatHistory + [Msg(role, message)];
    }

    /** `process_message(message)`, with the first stream `events` and the second
      * stream a function of the log it is requested with. Returns everything the
      * generator yields and how it ends. */
    method ProcessMessage(message: string, events: seq<Event>, finalStream: seq<Msg> -> seq<Event>, codec: Codec)
      returns (yielded: seq<string>, outcome: Outcome)
      modifies this
      ensures Turn(chatHistory, yielded, outcome) == TurnSpec(old(chatHistory), tools, message, events, finalStream, codec)
    {
      AddChatHistory("user", message);
      var toolCalls, failure;
      yielded, toolCalls, failure := FirstPass(events, codec.dumps);
      if failure.Some? {
        outcome := Aborted(failure.value);
        return;
      }
      failure := ExecuteToolCalls(toolCalls, codec);
      if failure.Some? {
        outcome := Aborted(failure.value);
        return;
      }
      if OD.NonEmpty(toolCalls) {
        var finalTexts := FinalPass(finalStream(chatHistory));
        yielded := yielded + finalTexts;
        outcome := Completed(true);
      } else {
        outcome := Completed(false);
      }
    }

    /** The second loop of `process_message`: runs every slot in first-insertion
      * order, logging one entry per executed slot, until a slot raises. */
    method ExecuteToolCalls(toolCalls: Table, codec: Codec) returns (failure: Option<Exc>)
      requires OD.Valid(toolCalls)
      modifies this
      ensures Ran(chatHistory, failure) == RunSlots(tools, toolCalls, toolCalls.keys, old(chatHistory), codec)
    {
      ghost var h0 := chatHistory;
      var keys := toolCalls.keys;
      var j := 0;
      while j < |keys|
        invariant 0 <= j <= |keys|
        invariant RunSlots(tools, toolCalls, keys[..j], h0, codec) == Ran(chatHistory, None)
      {
        RunSlotsNext(tools, toolCalls, keys, j, h0, codec);
        var outcome := ExecuteSlot(toolCalls.entries[keys[j]], codec);
        match outcome {
          case Skipped =>
          case Failed(x) =>
            RunSlotsKeepsFailure(tools, toolCalls, keys, j + 1, h0, codec);
            return Some(x);
          case Executed(m) =>
            chatHistory := chatHistory + [m];
        }
        j := j + 1;
      }
      assert keys[..|keys|] == keys;
      failure := None;
    }

    /** The second loop's body for one slot: the name fallback, argument parsing,
      * the handler lookup, and the call with its `TypeError` retry. */
    method ExecuteSlot(entry: Slot, codec: Codec) returns (outcome: SlotOutcome)
      ensures outcome == RunSlot(tools, entry, codec)
    {
      var toolName := entry.name;
      if !Truthy(toolName) {
        if |tools| == 1 && tools[0].name.Some? {
          toolName := JStr(tools[0].name.value);
        } else {
          return Skipped;
        }
      }
      var parsed := codec.loads(if entry.arguments == "" then "{}" else entry.arguments);
      var parsedArgs := if parsed.Some? then parsed.value else JObj([]);
      var handler := LookupHandler(toolName);
      if handler == Unhashable {
        return Failed(TypeError);
      } else if handler == NotFound {
        return Skipped;
      }
      var result: string;
      if parsedArgs.JObj? {
        var call := CallWithKeywords(parsedArgs.fields, codec.repr);
        if call.Returned? {
          result := call.result;
        } else {
          result := CallPositional(Field(parsedArgs, "location"), codec.repr);
        }
      } else {
        result := CallPositional(parsedArgs, codec.repr);
      }
      outcome := Executed(ToolEntry(toolName, result, codec.repr));
    }
  }

  /** The body of the first loop of `process_message` for one event. */
  method HandleEvent(texts: seq<string>, table: Table, e: Event, dumps: Json -> string)
    returns (yielded: seq<string>, toolCalls: Table, failure: Option<Exc>)
    requires OD.Valid(table)
    ensures Collected(yielded, toolCalls, failure) == Step(Collected(texts, table, None), e, dumps)
  {
    yielded, toolCalls, failure := texts, table, None;
    match e {
      case TextDelta(s) =>
        yielded := yielded + [s];
      case ItemAdded(index) =>
        toolCalls := OD.Set(toolCalls, Key(index), EmptySlot);
      case CallDelta(index, delta) =>
        var idx := Key(index);
        if idx !in toolCalls.entries {
          toolCalls := OD.Set(toolCalls, idx, EmptySlot);
        }
        assert toolCalls == Ensure(table, idx);
        if delta.JObj? && Binds(delta.fields, "name") {
          toolCalls := OD.Set(toolCalls, idx, toolCalls.entries[idx].(name := Field(delta, "name")));
        }
      case ArgsDelta(index, delta) =>
        var idx := Key(index);
        if idx !in toolCalls.entries {
          toolCalls := OD.Set(toolCalls, idx, EmptySlot);
        }
        assert toolCalls == Ensure(table, idx);
        if delta.JObj? {
          var frag := dumps(delta);
          assert Fragment(delta, dumps) == Some(frag);
          toolCalls := OD.Set(toolCalls, idx, toolCalls.entries[idx].(arguments := toolCalls.entries[idx].arguments + frag));
        } else if delta.JStr? {
          var frag := delta.s;
          assert Fragment(delta, dumps) == Some(frag);
          toolCalls := OD.Set(toolCalls, idx, toolCalls.entries[idx].(arguments := toolCalls.entries[idx].arguments + frag));
        } else {
          // `arguments += frag` raises TypeError and ends the generator.
          failure := Some(TypeError);
        }
      case ArgsDone(index) =>
        var idx := Key(index);
        if idx !in toolCalls.entries {
          toolCalls := OD.Set(toolCalls, idx, EmptySlot);
        }
        assert toolCalls == Ensure(table, idx);
        toolCalls := OD.Set(toolCalls, idx, toolCalls.entries[idx].(done := true));
      case TextDone =>
      case Other =>
    }
  }

  /** The first loop of `process_message`: yields every text delta and fills the
    * slot table, until an event raises. */
  method FirstPass(events: seq<Event>, dumps: Json -> string)
    returns (yielded: seq<string>, toolCalls: Table, failure: Option<Exc>)
    ensures Collected(yielded, toolCalls, failure) == Collect(events, dumps)
  {
    toolCalls := OD.Empty();
    yielded := [];
    var i := 0;
    while i < |events|
      invariant 0 <= i <= |events|
      invariant Collect(events[..i], dumps) == Collected(yielded, toolCalls, None)
    {
      assert events[..i + 1][..i] == events[..i];
      yielded, toolCalls, failure := HandleEvent(yielded, toolCalls, events[i], dumps);
      if failure.Some? {
        CollectKeepsFailure(events, i + 1, dumps);
        return;
      }
      i := i + 1;
    }
    assert events[..|events|] == events;
    failure := None;
  }

  /** The third loop of `process_message`: yields the text deltas of the second stream. */
  method FinalPass(finalEvents: seq<Event>) returns (yielded: seq<string>)
    ensures yielded == TextsOf(finalEvents)
  {
    yielded := [];
    var k := 0;
    while k < |finalEvents|
      invariant 0 <= k <= |finalEvents|
      invariant yielded == TextsOf(finalEvents[..k])
    {
      assert finalEvents[..k + 1][..k] == finalEvents[..k];
      if finalEvents[k].TextDelta? {
        yielded := yielded + [finalEvents[k].text];
      }
      k := k + 1;
    }
    assert finalEvents[..|finalEvents|] == finalEvents;
  }

  // ---------------------------------------------------------------------------
  // Lemmas
  // ---------------------------------------------------------------------------

  /** Once an event has raised, the rest of the stream is not read. */
  lemma {:induction false} CollectKeepsFailure(events: seq<Event>, n: nat, dumps: Json -> string)
    requires n <= |events|
    requires Collect(events[..n], dumps).failure.Some?
    ensures Collect(events, dumps) == Collect(events[..n], dumps)
    decreases |events| - n
  {
    if n < |events| {
      assert events[..n + 1][..n] == events[..n];
      CollectKeepsFailure(events, n + 1, dumps);
    } else {
      assert events[..n] == events;
    }
  }

  /** Once a slot has raised, the remaining slots are not run. */
  lemma {:induction false} RunSlotsKeepsFailure(tools: seq<ToolDecl>, t: Table, keys: seq<int>, n: nat,
                                                history: seq<Msg>, codec: Codec)
    requires n <= |keys|
    requires forall i :: 0 <= i < |keys| ==> keys[i] in t.entries
    requires RunSlots(tools, t, keys[..n], history, codec).failure.Some?
    ensures RunSlots(tools, t, keys, history, codec) == RunSlots(tools, t, keys[..n], history, codec)
    decreases |keys| - n
  {
    if n < |keys| {
      assert keys[..n + 1][..n] == keys[..n];
      RunSlotsKeepsFailure(tools, t, keys, n + 1, history, codec);
    } else {
      assert keys[..n] == keys;
    }
  }

  /** The first loop ends early exactly when some event raises. */
  lemma {:induction false} CollectFailsIff(events: seq<Event>, dumps: Json -> string)
    ensures Collect(events, dumps).failure.Some? <==> !NoFailure(events)
    ensures Collect(events, dumps).failure.Some? ==> Collect(events, dumps).failure == Some(TypeError)
    decreases |events|
  {
    if events != [] {
      var pre := events[..|events| - 1];
      var e := events[|events| - 1];
      CollectFailsIff(pre, dumps);
      StepFailure(Collect(pre, dumps), e, dumps);
      assert NoFailure(events) <==> NoFailure(pre) && !Fails(e) by {
        assert forall i :: 0 <= i < |pre| ==> pre[i] == events[i];
      }
    }
  }

  /** An event raises exactly when it is a failing argument delta, and an earlier
    * exception is kept. */
  lemma StepFailure(c: Collected, e: Event, dumps: Json -> string)
    requires OD.Valid(c.table)
    ensures Step(c, e, dumps).failure
            == if c.failure.Some? then c.failure else if Fails(e) then Some(TypeError) else None
  {
  }

  /** Every text delta is yielded, in arrival order, and nothing else is. */
  lemma {:induction false} CollectYieldsTextDeltas(events: seq<Event>, dumps: Json -> string)
    requires NoFailure(events)
    ensures Collect(events, dumps).texts == TextsOf(events)
    decreases |events|
  {
    if events != [] {
      var pre := events[..|events| - 1];
      assert NoFailure(pre) by {
        assert forall i :: 0 <= i < |pre| ==> pre[i] == events[i];
      }
      CollectYieldsTextDeltas(pre, dumps);
      CollectFailsIff(pre, dumps);
    }
  }

  /** When an event raises, exactly the text deltas before it have been yielded. */
  lemma CollectYieldsUntilFailure(events: seq<Event>, n: nat, dumps: Json -> string)
    requires n < |events| && Fails(events[n]) && NoFailure(events[..n])
    ensures Collect(events, dumps).texts == TextsOf(events[..n])
    ensures Collect(events, dumps).failure == Some(TypeError)
  {
    var pre := events[..n];
    CollectYieldsTextDeltas(pre, dumps);
    CollectFailsIff(pre, dumps);
    assert events[..n + 1][..n] == pre;
    CollectKeepsFailure(events, n + 1, dumps);
  }

  /** A key's slot before an event: the one in the table, or an empty one. */
  ghost function Before(t: Table, k: int): Slot {
    if k in t.entries then t.entries[k] else EmptySlot
  }

  /** What one non-raising event does to the slot under key `k`. */
  ghost function ApplyEvent(slot: Slot, e: Event, k: int, dumps: Json -> string): Slot {
    if KeyOf(e) != Some(k) then slot
    else
      match e
      case ItemAdded(_) => EmptySlot
      case CallDelta(_, d) => if d.JObj? && Binds(d.fields, "name") then slot.(name := Field(d, "name")) else slot
      case ArgsDelta(_, d) =>
        if Fragment(d, dumps).Some? then slot.(arguments := slot.arguments + Fragment(d, dumps).value) else slot
      case ArgsDone(_) => slot.(done := true)
      case _ => slot
  }

  /** One step of the first loop, seen from one key. */
  lemma StepEffect(c: Collected, e: Event, k: int, dumps: Json -> string)
    requires OD.Valid(c.table) && c.failure.None? && !Fails(e)
    ensures Step(c, e, dumps).failure.None?
    ensures k in Step(c, e, dumps).table.entries <==> k in c.table.entries || KeyOf(e) == Some(k)
    ensures k in Step(c, e, dumps).table.entries ==>
            Step(c, e, dumps).table.entries[k] == ApplyEvent(Before(c.table, k), e, k, dumps)
  {
    StepEntries(c, e, dumps);
  }

  /** One step of the first loop on the whole table: a tool event rewrites the slot
    * of its own key and no other; any other event leaves the table alone. */
  lemma StepEntries(c: Collected, e: Event, dumps: Json -> string)
    requires OD.Valid(c.table) && c.failure.None? && !Fails(e)
    ensures Step(c, e, dumps).failure.None?
    ensures KeyOf(e).None? ==> Step(c, e, dumps).table.entries == c.table.entries
    ensures KeyOf(e).Some? ==>
            var j := KeyOf(e).value;
            Step(c, e, dumps).table.entries == c.table.entries[j := ApplyEvent(Before(c.table, j), e, j, dumps)]
  {
    if KeyOf(e).Some? && !e.ItemAdded? {
      var j := KeyOf(e).value;
      var t := Ensure(c.table, j);
      var v := ApplyEvent(Before(c.table, j), e, j, dumps);
      assert t.entries[j] == Before(c.table, j);
      assert Step(c, e, dumps).table.entries == t.entries[j := v] by {
        if e.ArgsDelta? {
          assert Fragment(e.delta, dumps).Some?;
        }
      }
      assert t.entries[j := v] == c.table.entries[j := v];
    }
  }

  /** The index-by-index definition follows the same one-event update. */
  lemma SlotOfStep(pre: seq<Event>, e: Event, k: int, dumps: Json -> string)
    requires !Fails(e)
    ensures SlotOf(pre + [e], k, dumps) == ApplyEvent(SlotOf(pre, k, dumps), e, k, dumps)
  {
    var events := pre + [e];
    assert events[..|events| - 1] == pre;
    var s := SinceReset(pre, k);
    if !(e.ItemAdded? && Key(e.index) == k) {
      assert SinceReset(events, k) == s + [e];
      assert (s + [e])[..|s|] == s;
      assert DoneIn(s + [e], k) <==> DoneIn(s, k) || (e.ArgsDone? && Key(e.index) == k) by {
        assert forall i :: 0 <= i < |s| ==> (s + [e])[i] == s[i];
      }
    }
  }

  /** Every slot holds what its own events since its last `output_item.added` put
    * there: the last name given, the concatenated fragments, whether a done was
    * seen; a key never touched has no slot. */
  lemma {:induction false} CollectSlot(events: seq<Event>, k: int, dumps: Json -> string)
    requires NoFailure(events)
    ensures k in Collect(events, dumps).table.entries ==> Collect(events, dumps).table.entries[k] == SlotOf(events, k, dumps)
    ensures k !in Collect(events, dumps).table.entries ==> SlotOf(events, k, dumps) == EmptySlot
    decreases |events|
  {
    if events != [] {
      var pre := events[..|events| - 1];
      var e := events[|events| - 1];
      assert events == pre + [e];
      assert NoFailure(pre) by {
        assert forall i :: 0 <= i < |pre| ==> pre[i] == events[i];
      }
      CollectSlot(pre, k, dumps);
      CollectFailsIff(pre, dumps);
      StepEffect(Collect(pre, dumps), e, k, dumps);
      SlotOfStep(pre, e, k, dumps);
    }
  }

  /** Slots appear in order of the first event that touches their key; a later
    * `output_item.added` for the same key does not move it. */
  lemma {:induction false} CollectOrder(events: seq<Event>, dumps: Json -> string)
    requires NoFailure(events)
    ensures Collect(events, dumps).table.keys == FirstSeen(events)
    decreases |events|
  {
    if events != [] {
      var pre := events[..|events| - 1];
      assert NoFailure(pre) by {
        assert forall i :: 0 <= i < |pre| ==> pre[i] == events[i];
      }
      CollectOrder(pre, dumps);
      CollectFailsIff(pre, dumps);
      StepKeys(Collect(pre, dumps), events[|events| - 1], dumps);
    }
  }

  /** One step of the first loop appends a key it touches for the first time to the
    * key order and otherwise leaves the order alone. */
  lemma StepKeys(c: Collected, e: Event, dumps: Json -> string)
    requires OD.Valid(c.table) && c.failure.None? && !Fails(e)
    ensures Step(c, e, dumps).table.keys ==
            if KeyOf(e).Some? && KeyOf(e).value !in c.table.keys then c.table.keys + [KeyOf(e).value]
            else c.table.keys
  {
    if KeyOf(e).Some? {
      OD.InKeys(c.table, KeyOf(e).value);
      if e.ArgsDelta? {
        assert Fragment(e.delta, dumps).Some?;
      }
    }
  }

  /** A key has a slot exactly when some event touches it. */
  lemma {:induction false} CollectKeys(events: seq<Event>, k: int, dumps: Json -> string)
    requires NoFailure(events)
    ensures k in Collect(events, dumps).table.entries <==> Mentioned(events, k)
    decreases |events|
  {
    if events != [] {
      var pre := events[..|events| - 1];
      var e := events[|events| - 1];
      assert NoFailure(pre) by {
        assert forall i :: 0 <= i < |pre| ==> pre[i] == events[i];
      }
      CollectKeys(pre, k, dumps);
      CollectFailsIff(pre, dumps);
      StepEffect(Collect(pre, dumps), e, k, dumps);
      assert Mentioned(events, k) <==> Mentioned(pre, k) || KeyOf(e) == Some(k) by {
        assert forall i :: 0 <= i < |pre| ==> pre[i] == events[i];
      }
    }
  }

  /** Some key is first seen exactly when some tool event arrives. */
  lemma {:induction false} FirstSeenEmpty(events: seq<Event>)
    ensures FirstSeen(events) == [] <==> forall i :: 0 <= i < |events| ==> KeyOf(events[i]).None?
    decreases |events|
  {
    if events != [] {
      var pre := events[..|events| - 1];
      FirstSeenEmpty(pre);
      assert forall i :: 0 <= i < |pre| ==> pre[i] == events[i];
    }
  }

  /** An event for another key leaves a slot as it was. */
  lemma OtherKeysUntouched(events: seq<Event>, e: Event, k: int, dumps: Json -> string)
    requires NoFailure(events) && !Fails(e) && KeyOf(e) != Some(k)
    requires k in Collect(events, dumps).table.entries
    ensures k in Collect(events + [e], dumps).table.entries
    ensures Collect(events + [e], dumps).table.entries[k] == Collect(events, dumps).table.entries[k]
  {
    assert (events + [e])[..|events|] == events;
    CollectFailsIff(events, dumps);
  }

  /** The second loop appends, after the given log, one entry per executed slot in
    * key order; skipped slots add nothing. */
  lemma {:induction false} RunSlotsAppends(tools: seq<ToolDecl>, t: Table, keys: seq<int>, history: seq<Msg>, codec: Codec)
    requires forall i :: 0 <= i < |keys| ==> keys[i] in t.entries
    requires forall i :: 0 <= i < |keys| ==> !Outcomes(tools, t, keys, codec)[i].Failed?
    ensures RunSlots(tools, t, keys, history, codec) == Ran(history + Entries(Outcomes(tools, t, keys, codec)), None)
    ensures |Entries(Outcomes(tools, t, keys, codec))| == ExecutedCount(Outcomes(tools, t, keys, codec))
    decreases |keys|
  {
    if keys != [] {
      var pre := keys[..|keys| - 1];
      var os := Outcomes(tools, t, keys, codec);
      assert Outcomes(tools, t, pre, codec) == os[..|os| - 1];
      RunSlotsAppends(tools, t, pre, history, codec);
    }
  }

  /** The second loop ends early exactly when some slot's name is a list or a dict. */
  lemma {:induction false} RunSlotsFailsIff(tools: seq<ToolDecl>, t: Table, keys: seq<int>, history: seq<Msg>, codec: Codec)
    requires forall i :: 0 <= i < |keys| ==> keys[i] in t.entries
    ensures RunSlots(tools, t, keys, history, codec).failure.Some?
            <==> exists i :: 0 <= i < |keys| && Outcomes(tools, t, keys, codec)[i].Failed?
    decreases |keys|
  {
    if keys != [] {
      var pre := keys[..|keys| - 1];
      var last := RunSlot(tools, t.entries[keys[|keys| - 1]], codec);
      RunSlotsFailsIff(tools, t, pre, history, codec);
      var os := Outcomes(tools, t, keys, codec);
      var ps := Outcomes(tools, t, pre, codec);
      assert forall i :: 0 <= i < |pre| ==> ps[i] == os[i] by {
        assert forall i :: 0 <= i < |pre| ==> pre[i] == keys[i];
      }
      assert os[|keys| - 1] == last;
      assert RunSlots(tools, t, keys, history, codec).failure.Some? <==>
             RunSlots(tools, t, pre, history, codec).failure.Some? || last.Failed?;
      if exists i :: 0 <= i < |keys| && os[i].Failed? {
        var i :| 0 <= i < |keys| && os[i].Failed?;
        if i < |pre| {
          assert ps[i].Failed?;
        }
      }
      if RunSlots(tools, t, pre, history, codec).failure.Some? {
        var i :| 0 <= i < |pre| && ps[i].Failed?;
        assert os[i].Failed?;
      } else if last.Failed? {
        assert os[|keys| - 1].Failed?;
      }
    }
  }

  /** A slot is skipped exactly when it has no usable name or no handler; with the
    * one declared tool, a slot without a name runs `get_weather`. */
  lemma RunSlotNames(tools: seq<ToolDecl>, slot: Slot, codec: Codec)
    ensures RunSlot(tools, slot, codec).Skipped?
            <==> ResolveName(tools, slot.name).None? || LookupHandler(ResolveName(tools, slot.name).value) == NotFound
    ensures !Truthy(slot.name) && tools == [WeatherTool] ==>
            RunSlot(tools, slot, codec) == Executed(ToolEntry(JStr("get_weather"), RunHandler(ParseArgs(codec.loads, slot.arguments), codec.repr), codec.repr))
    ensures !Truthy(slot.name) && |tools| != 1 ==> RunSlot(tools, slot, codec) == Skipped
  {
  }

  /** Empty and undecodable argument buffers both run the tool with `{}`. */
  lemma ParseArgsFallback(loads: string -> Option<Json>, args: string)
    requires loads("{}") == Some(JObj([]))
    ensures args == "" ==> ParseArgs(loads, args) == JObj([])
    ensures loads(args).None? ==> ParseArgs(loads, args) == JObj([])
    ensures args != "" && loads(args).Some? ==> ParseArgs(loads, args) == loads(args).value
  {
  }

  /** The TypeError retry makes a dict-argument call `get_weather(args.get("location"))`
    * whatever other keys it has; a non-dict is passed as it is. */
  lemma RunHandlerIsLocationCall(args: Json, repr: Json -> string)
    ensures args.JObj? ==> RunHandler(args, repr) == GetWeather(PyStr(Field(args, "location"), repr))
    ensures !args.JObj? ==> RunHandler(args, repr) == GetWeather(PyStr(args, repr))
    ensures args == JObj([]) ==> RunHandler(args, repr) == "The current temperature in None is 72°F."
  {
    if args.JObj? && |args.fields| == 1 && args.fields[0].0 == "location" {
      assert Lookup(args.fields, "location") == Some(args.fields[0].1);
    }
  }

  /** The log only grows: the old log, then the user entry, then the tool entries. */
  lemma TurnHistory(history: seq<Msg>, tools: seq<ToolDecl>, message: string, events: seq<Event>,
                    finalStream: seq<Msg> -> seq<Event>, codec: Codec)
    requires NoFailure(events)
    requires var t := Collect(events, codec.dumps).table;
             forall i :: 0 <= i < |t.keys| ==> !Outcomes(tools, t, t.keys, codec)[i].Failed?
    ensures var t := Collect(events, codec.dumps).table;
            TurnSpec(history, tools, message, events, finalStream, codec).history
              == history + [Msg("user", message)] + Entries(Outcomes(tools, t, t.keys, codec))
  {
    var t := Collect(events, codec.dumps).table;
    CollectFailsIff(events, codec.dumps);
    RunSlotsAppends(tools, t, t.keys, history + [Msg("user", message)], codec);
  }

  /** The second stream is requested exactly when the slot table is non-empty,
    * i.e. when some tool event arrived, even if every slot was skipped; its text
    * comes after all first-stream text. With no slots the turn yields the first
    * stream's text deltas only. */
  lemma TurnSecondStream(history: seq<Msg>, tools: seq<ToolDecl>, message: string, events: seq<Event>,
                         finalStream: seq<Msg> -> seq<Event>, codec: Codec)
    requires NoFailure(events)
    requires var t := Collect(events, codec.dumps).table;
             forall i :: 0 <= i < |t.keys| ==> !Outcomes(tools, t, t.keys, codec)[i].Failed?
    ensures var r := TurnSpec(history, tools, message, events, finalStream, codec);
            && r.outcome == Completed(exists i :: 0 <= i < |events| && KeyOf(events[i]).Some?)
            && (r.outcome.finalRequested ==> r.yielded == TextsOf(events) + TextsOf(finalStream(r.history)))
            && (!r.outcome.finalRequested ==> r.yielded == TextsOf(events))
  {
    var c := Collect(events, codec.dumps);
    CollectFailsIff(events, codec.dumps);
    CollectYieldsTextDeltas(events, codec.dumps);
    RunSlotsAppends(tools, c.table, c.table.keys, history + [Msg("user", message)], codec);
    CollectOrder(events, codec.dumps);
    FirstSeenEmpty(events);
  }

  /** The two argument fragments of the worked example. */
  const ExampleFragments := ["{\"location\": ", "\"Paris\"}"]

  /** A first stream like the worked example's: a text delta, then slot 1 whose
    * arguments arrive in the two fragments `f0` and `f1`. */
  function TwoFragmentEvents(text: string, f0: string, f1: string): seq<Event> {
    [TextDelta(text), ItemAdded(Some(1)), ArgsDelta(Some(1), JStr(f0)), ArgsDelta(Some(1), JStr(f1)),
     ArgsDone(Some(1)), TextDone]
  }

  /** The worked example's stream. */
  const ExampleEvents := TwoFragmentEvents("Let me check... ", ExampleFragments[0], ExampleFragments[1])

  /** The slot the worked example collects: no name, the two fragments joined, done. */
  const ExampleSlot := Slot(JNull, ExampleFragments[0] + ExampleFragments[1], true)

  /** The log entry the worked example's slot produces. */
  const ExampleEntry := Msg("assistant", "TOOL_NAME: " + "get_weather" + ", RESULT: " + (Prefix + "Paris" + Suffix))

  /** One more event of a stream is one more step of the first loop. */
  lemma CollectPrefix(events: seq<Event>, k: int, d: Json -> string)
    requires 0 < k <= |events|
    ensures Collect(events[..k], d) == Step(Collect(events[..k - 1], d), events[k - 1], d)
  {
    assert events[..k][..k - 1] == events[..k - 1];
  }

  /** The first three events of such a stream yield the text and open slot 1 with
    * the first fragment. */
  lemma TwoFragmentFirstHalf(text: string, f0: string, f1: string, d: Json -> string)
    ensures Collect(TwoFragmentEvents(text, f0, f1)[..3], d)
            == Collected([text], OD.Set(OD.Empty(), 1, Slot(JNull, f0, false)), None)
  {
    var events := TwoFragmentEvents(text, f0, f1);
    var t2 := OD.Set(OD.Empty(), 1, EmptySlot);
    CollectPrefix(events, 1, d);
    assert events[..0] == [];
    CollectPrefix(events, 2, d);
    assert Collect(events[..2], d) == Collected([text], t2, None);
    CollectPrefix(events, 3, d);
    assert Ensure(t2, 1) == t2;
    assert "" + f0 == f0;
  }

  /** The first pass over such a stream yields the text and fills one slot with the
    * fragments joined and the done flag set. */
  lemma TwoFragmentFirstPass(text: string, f0: string, f1: string, d: Json -> string)
    ensures Collect(TwoFragmentEvents(text, f0, f1), d)
            == Collected([text], OD.Set(OD.Empty(), 1, Slot(JNull, f0 + f1, true)), None)
  {
    var events := TwoFragmentEvents(text, f0, f1);
    var c3 := Collected([text], OD.Set(OD.Empty(), 1, Slot(JNull, f0, false)), None);
    calc {
      Collect(events, d);
      { assert events[..6] == events; CollectPrefix(events, 6, d); }
      Step(Collect(events[..5], d), TextDone, d);
      { CollectPrefix(events, 5, d); }
      Step(Step(Collect(events[..4], d), ArgsDone(Some(1)), d), TextDone, d);
      { CollectPrefix(events, 4, d); TwoFragmentFirstHalf(text, f0, f1, d); }
      Step(Step(Step(c3, ArgsDelta(Some(1), JStr(f1)), d), ArgsDone(Some(1)), d), TextDone, d);
      { TwoFragmentSecondHalf(text, f0, f1, d); }
      Collected([text], OD.Set(OD.Empty(), 1, Slot(JNull, f0 + f1, true)), None);
    }
  }

  /** The last three events of such a stream append the second fragment, mark the
    * slot done and change nothing else. */
  lemma TwoFragmentSecondHalf(text: string, f0: string, f1: string, d: Json -> string)
    ensures var c3 := Collected([text], OD.Set(OD.Empty(), 1, Slot(JNull, f0, false)), None);
            Step(Step(Step(c3, ArgsDelta(Some(1), JStr(f1)), d), ArgsDone(Some(1)), d), TextDone, d)
            == Collected([text], OD.Set(OD.Empty(), 1, Slot(JNull, f0 + f1, true)), None)
  {
    var t3 := OD.Set(OD.Empty(), 1, Slot(JNull, f0, false));
    var t4 := OD.Set(OD.Empty(), 1, Slot(JNull, f0 + f1, false));
    var t5 := OD.Set(OD.Empty(), 1, Slot(JNull, f0 + f1, true));
    assert Ensure(t3, 1) == t3;
    assert Step(Collected([text], t3, None), ArgsDelta(Some(1), JStr(f1)), d) == Collected([text], t4, None);
    assert Ensure(t4, 1) == t4;
    assert Step(Collected([text], t4, None), ArgsDone(Some(1)), d) == Collected([text], t5, None);
  }

  /** Running the example slot calls `get_weather` by keyword and logs its text. */
  lemma ExampleSlotRuns(history: seq<Msg>, codec: Codec)
    requires codec.loads(ExampleSlot.arguments) == Some(JObj([("location", JStr("Paris"))]))
    ensures RunSlots([WeatherTool], OD.Set(OD.Empty(), 1, ExampleSlot), [1], history, codec)
            == Ran(history + [ExampleEntry], None)
  {
    assert [1][..0] == [];
    var args := ParseArgs(codec.loads, ExampleSlot.arguments);
    assert args == JObj([("location", JStr("Paris"))]);
    assert RunHandler(args, codec.repr) == Prefix + "Paris" + Suffix;
    assert RunSlot([WeatherTool], ExampleSlot, codec) == Executed(ExampleEntry);
  }

  /** The worked example as a whole: it yields the text, logs one weather entry and
    * then yields the second stream's text. */
  lemma WeatherTurnExample(history: seq<Msg>, finalStream: seq<Msg> -> seq<Event>, codec: Codec)
    requires codec.loads(ExampleSlot.arguments) == Some(JObj([("location", JStr("Paris"))]))
    ensures var h := history + [Msg("user", "weather in Paris?"), ExampleEntry];
            TurnSpec(history, [WeatherTool], "weather in Paris?", ExampleEvents, finalStream, codec)
              == Turn(h, ["Let me check... "] + TextsOf(finalStream(h)), Completed(true))
  {
    var h1 := history + [Msg("user", "weather in Paris?")];
    TwoFragmentFirstPass("Let me check... ", ExampleFragments[0], ExampleFragments[1], codec.dumps);
    ExampleSlotRuns(h1, codec);
    assert h1 + [ExampleEntry] == history + [Msg("user", "weather in Paris?"), ExampleEntry];
  }
}
