/**
 * The message reducer of frontend/src/components/Chat/ChatInterface.tsx: the
 * `messages` state of the chat view and the helpers that rewrite its last message
 * as events of the stream arrive. Every helper leaves an empty list alone and
 * replaces only the last message.
 */
module ChatInterface {
  import opened Wrappers
  import opened PyJson

  datatype BlockType = InitResponse | FinalResponse | ToolUse | ToolResult

  /** A `ChatBlock`; an absent `content` is `None`, and an absent or `undefined`
    * tool field is `JNull`. */
  datatype ChatBlock = ChatBlock(
    kind: BlockType, content: Option<string>,
    toolName: Json := JNull, toolInput: Json := JNull, toolResult: Json := JNull)

  datatype ChatResponse = ChatResponse(blocks: seq<ChatBlock>, stopReason: string, totalIterations: int)

  datatype Role = User | Assistant

  /** A `Message`; its timestamp is not modelled. */
  datatype Message = Message(
    id: string, role: Role, content: string,
    response: Option<ChatResponse>, isLoading: Option<bool>)

  /** `{ blocks: [], stop_reason: "", total_iterations: 0 }`. */
  const EmptyResponse := ChatResponse([], "", 0)

  const Separator := "\n\n"

  const ErrorNote := "\n\n[Error receiving stream]"

  predicate IsText(b: ChatBlock) {
    b.kind == InitResponse || b.kind == FinalResponse
  }

  /** `b.content || ""`. */
  function Text(b: ChatBlock): string {
    b.content.GetOr("")
  }

  const TextKinds: set<BlockType> := {InitResponse, FinalResponse}

  /** `blocks.filter((b) => kinds has b.type).map((b) => b.content || "")`. */
  function ContentsOf(blocks: seq<ChatBlock>, kinds: set<BlockType>): (r: seq<string>)
    ensures |r| <= |blocks|
    decreases |blocks|
  {
    if blocks == [] then []
    else
      var last := blocks[|blocks| - 1];
      ContentsOf(blocks[..|blocks| - 1], kinds) + (if last.kind in kinds then [Text(last)] else [])
  }

  /** `xs.join(sep)`. */
  function JoinWith(xs: seq<string>, sep: string): string
    decreases |xs|
  {
    if xs == [] then ""
    else if |xs| == 1 then xs[0]
    else JoinWith(xs[..|xs| - 1], sep) + sep + xs[|xs| - 1]
  }

  /** The response of a message, created empty where it is missing. */
  function ResponseOf(m: Message): ChatResponse {
    m.response.GetOr(EmptyResponse)
  }

  // ---------------------------------------------------------------------------
  // upsertTextBlock
  // ---------------------------------------------------------------------------

  /** The index of the last text block, or -1 when there is none. */
  function StreamingIndex(blocks: seq<ChatBlock>): (i: int)
    ensures -1 <= i < |blocks|
    ensures i >= 0 ==> IsText(blocks[i])
    ensures forall j :: i < j < |blocks| ==> !IsText(blocks[j])
    decreases |blocks|
  {
    if blocks == [] then -1
    else if IsText(blocks[|blocks| - 1]) then |blocks| - 1
    else StreamingIndex(blocks[..|blocks| - 1])
  }

  function TextKind(isFinal: bool): BlockType {
    if isFinal then FinalResponse else InitResponse
  }

  /** The blocks after `upsertTextBlock(text, isFinal)`. */
  function UpsertBlocks(blocks: seq<ChatBlock>, text: string, isFinal: bool): seq<ChatBlock> {
    var i := StreamingIndex(blocks);
    if i >= 0 then blocks[i := blocks[i].(content := Some(Text(blocks[i]) + text), kind := TextKind(isFinal))]
    else blocks + [ChatBlock(TextKind(isFinal), Some(text))]
  }

  function UpsertMessage(m: Message, text: string, isFinal: bool): Message {
    var blocks := UpsertBlocks(ResponseOf(m).blocks, text, isFinal);
    m.(response := Some(ResponseOf(m).(blocks := blocks)),
       content := JoinWith(ContentsOf(blocks, TextKinds), Separator),
       isLoading := Some(!isFinal))
  }

  /** `setMessages` with the `upsertTextBlock` updater. */
  function Upserted(prev: seq<Message>, text: string, isFinal: bool): (r: seq<Message>)
    ensures |r| == |prev|
    ensures prev != [] ==> r[..|r| - 1] == prev[..|prev| - 1]
  {
    if prev == [] then prev
    else prev[..|prev| - 1] + [UpsertMessage(prev[|prev| - 1], text, isFinal)]
  }

  /** With a text block present, the last one gets `text` appended and becomes final
    * exactly when `isFinal`; every other block stays as it was. */
  lemma UpsertExisting(blocks: seq<ChatBlock>, text: string, isFinal: bool)
    requires exists j :: 0 <= j < |blocks| && IsText(blocks[j])
    ensures var r := UpsertBlocks(blocks, text, isFinal);
            var i := StreamingIndex(blocks);
            && |r| == |blocks| && 0 <= i
            && (forall j :: i < j < |blocks| ==> !IsText(blocks[j]))
            && r[i].content == Some(Text(blocks[i]) + text)
            && (r[i].kind == FinalResponse <==> isFinal)
            && IsText(r[i])
            && forall j :: 0 <= j < |blocks| && j != i ==> r[j] == blocks[j]
  {
  }

  /** With no text block, one new text block holding `text` is appended. */
  lemma UpsertFresh(blocks: seq<ChatBlock>, text: string, isFinal: bool)
    requires forall j :: 0 <= j < |blocks| ==> !IsText(blocks[j])
    ensures UpsertBlocks(blocks, text, isFinal) == blocks + [ChatBlock(TextKind(isFinal), Some(text))]
  {
  }

  /** The block count grows by at most one and tool blocks are untouched. */
  lemma UpsertBlockCount(blocks: seq<ChatBlock>, text: string, isFinal: bool)
    ensures var r := UpsertBlocks(blocks, text, isFinal);
            && |blocks| <= |r| <= |blocks| + 1
            && forall j :: 0 <= j < |blocks| && !IsText(blocks[j]) ==> r[j] == blocks[j]
  {
  }

  /** The joined text of the blocks grows by exactly `text`: the message's content
    * after an upsert is its blocks' previous text followed by the new text. */
  lemma UpsertExtendsText(blocks: seq<ChatBlock>, text: string, isFinal: bool)
    ensures JoinWith(ContentsOf(UpsertBlocks(blocks, text, isFinal), TextKinds), Separator)
         == JoinWith(ContentsOf(blocks, TextKinds), Separator) + text
  {
    var i := StreamingIndex(blocks);
    var r := UpsertBlocks(blocks, text, isFinal);
    if i < 0 {
      NoContents(blocks, TextKinds);
      ContentsAppend(blocks, [ChatBlock(TextKind(isFinal), Some(text))], TextKinds);
      assert [ChatBlock(TextKind(isFinal), Some(text))][..0] == [];
    } else {
      var before, after := blocks[..i], blocks[i + 1..];
      var b' := r[i];
      assert blocks == before + [blocks[i]] + after;
      assert r == before + [b'] + after;
      NoContents(after, TextKinds);
      ContentsAppend(before + [blocks[i]], after, TextKinds);
      ContentsAppend(before + [b'], after, TextKinds);
      ContentsAppend(before, [blocks[i]], TextKinds);
      ContentsAppend(before, [b'], TextKinds);
      assert [blocks[i]][..0] == [] && [b'][..0] == [];
      var xs := ContentsOf(before, TextKinds);
      assert ContentsOf(blocks, TextKinds) == xs + [Text(blocks[i])];
      assert ContentsOf(r, TextKinds) == xs + [Text(blocks[i]) + text];
      JoinAppendLast(xs, Text(blocks[i]), text, Separator);
    }
  }

  /** After an upsert the message shows its joined text, is loading exactly when the
    * text was not final, and nothing but the last message changes. */
  lemma UpsertedMessage(prev: seq<Message>, text: string, isFinal: bool)
    requires prev != []
    ensures var r := Upserted(prev, text, isFinal);
            var m := r[|r| - 1];
            var old_ := prev[|prev| - 1];
            && m.content == JoinWith(ContentsOf(ResponseOf(old_).blocks, TextKinds), Separator) + text
            && m.isLoading == Some(!isFinal)
            && m.id == old_.id && m.role == old_.role
            && m.response == Some(ResponseOf(old_).(blocks := UpsertBlocks(ResponseOf(old_).blocks, text, isFinal)))
  {
    UpsertExtendsText(ResponseOf(prev[|prev| - 1]).blocks, text, isFinal);
  }

  lemma {:induction false} ContentsAppend(a: seq<ChatBlock>, b: seq<ChatBlock>, kinds: set<BlockType>)
    ensures ContentsOf(a + b, kinds) == ContentsOf(a, kinds) + ContentsOf(b, kinds)
    decreases |b|
  {
    if b == [] {
      assert a + b == a;
    } else {
      assert (a + b)[..|a + b| - 1] == a + b[..|b| - 1];
      ContentsAppend(a, b[..|b| - 1], kinds);
    }
  }

  lemma {:induction false} NoContents(blocks: seq<ChatBlock>, kinds: set<BlockType>)
    requires forall j :: 0 <= j < |blocks| ==> blocks[j].kind !in kinds
    ensures ContentsOf(blocks, kinds) == []
    decreases |blocks|
  {
    if blocks != [] {
      NoContents(blocks[..|blocks| - 1], kinds);
    }
  }

  lemma JoinAppendLast(xs: seq<string>, y: string, t: string, sep: string)
    ensures JoinWith(xs + [y + t], sep) == JoinWith(xs + [y], sep) + t
  {
    assert (xs + [y + t])[..|xs|] == xs;
    assert (xs + [y])[..|xs|] == xs;
  }

  // ---------------------------------------------------------------------------
  // appendToolBlock
  // ---------------------------------------------------------------------------

  function AppendMessage(m: Message, block: ChatBlock): Message {
    m.(response := Some(ResponseOf(m).(blocks := ResponseOf(m).blocks + [block])))
  }

  /** `setMessages` with the `appendToolBlock` updater. */
  function ToolAppended(prev: seq<Message>, block: ChatBlock): (r: seq<Message>)
    ensures |r| == |prev|
    ensures prev != [] ==> r[..|r| - 1] == prev[..|prev| - 1]
  {
    if prev == [] then prev
    else prev[..|prev| - 1] + [AppendMessage(prev[|prev| - 1], block)]
  }

  /** The last message's blocks are its old blocks (none if it had no response)
    * followed by the new block; its content and loading flag are kept. */
  lemma ToolAppendedBlocks(prev: seq<Message>, block: ChatBlock)
    requires prev != []
    ensures var m := ToolAppended(prev, block)[|prev| - 1];
            var old_ := prev[|prev| - 1];
            && m.response.Some?
            && m.response.value.blocks == (if old_.response.None? then [] else old_.response.value.blocks) + [block]
            && m.content == old_.content && m.isLoading == old_.isLoading
  {
  }

  // ---------------------------------------------------------------------------
  // finalizeTextBlocks
  // ---------------------------------------------------------------------------

  function FinalizeBlock(b: ChatBlock): ChatBlock {
    if b.kind == InitResponse then b.(kind := FinalResponse) else b
  }

  function FinalizeBlocks(blocks: seq<ChatBlock>): (r: seq<ChatBlock>)
    ensures |r| == |blocks|
    ensures forall j :: 0 <= j < |blocks| ==> r[j] == FinalizeBlock(blocks[j])
  {
    seq(|blocks|, j requires 0 <= j < |blocks| => FinalizeBlock(blocks[j]))
  }

  function FinalizeMessage(m: Message): Message {
    if m.response.None? then m.(isLoading := Some(false))
    else
      var blocks := FinalizeBlocks(m.response.value.blocks);
      var finals := JoinWith(ContentsOf(blocks, {FinalResponse}), Separator);
      var inits := JoinWith(ContentsOf(blocks, {InitResponse}), Separator);
      m.(response := Some(m.response.value.(blocks := blocks)),
         content := if finals != "" then finals else inits,
         isLoading := Some(false))
  }

  /** `setMessages` with the `finalizeTextBlocks` updater. */
  function Finalized(prev: seq<Message>): (r: seq<Message>)
    ensures |r| == |prev|
    ensures prev != [] ==> r[..|r| - 1] == prev[..|prev| - 1]
  {
    if prev == [] then prev
    else prev[..|prev| - 1] + [FinalizeMessage(prev[|prev| - 1])]
  }

  /** Finalized blocks hold the text of every former text block, now all final. */
  lemma {:induction false} FinalizedContents(blocks: seq<ChatBlock>)
    ensures ContentsOf(FinalizeBlocks(blocks), {FinalResponse}) == ContentsOf(blocks, TextKinds)
    ensures ContentsOf(FinalizeBlocks(blocks), {InitResponse}) == []
    decreases |blocks|
  {
    if blocks != [] {
      var init := blocks[..|blocks| - 1];
      assert FinalizeBlocks(blocks)[..|blocks| - 1] == FinalizeBlocks(init);
      FinalizedContents(init);
    }
  }

  /** After finalizing, no `init_response` block is left, the block count and the
    * tool blocks are as before, loading is off, and the content is the text of all
    * text blocks: the `init_response` fallback can never be taken. */
  lemma FinalizeEffect(prev: seq<Message>)
    requires prev != [] && prev[|prev| - 1].response.Some?
    ensures var m := Finalized(prev)[|prev| - 1];
            var before := prev[|prev| - 1].response.value.blocks;
            var after := m.response.value.blocks;
            && |after| == |before|
            && (forall j :: 0 <= j < |after| ==> after[j].kind != InitResponse)
            && (forall j :: 0 <= j < |after| && !IsText(before[j]) ==> after[j] == before[j])
            && m.isLoading == Some(false)
            && m.content == JoinWith(ContentsOf(before, TextKinds), Separator)
  {
    FinalizedContents(prev[|prev| - 1].response.value.blocks);
  }

  /** Finalizing twice is finalizing once. */
  lemma FinalizeIdempotent(prev: seq<Message>)
    ensures Finalized(Finalized(prev)) == Finalized(prev)
  {
    if prev != [] {
      var m := prev[|prev| - 1];
      var once := Finalized(prev);
      assert once[..|once| - 1] == prev[..|prev| - 1];
      if m.response.Some? {
        var blocks := m.response.value.blocks;
        FinalizedContents(blocks);
        FinalizedContents(FinalizeBlocks(blocks));
        assert FinalizeBlocks(FinalizeBlocks(blocks)) == FinalizeBlocks(blocks);
      }
    }
  }

  // ---------------------------------------------------------------------------
  // onerror and sendMessage
  // ---------------------------------------------------------------------------

  /** The `onerror` updater: the last message gets the error note and stops loading. */
  function ErrorMarked(prev: seq<Message>): (r: seq<Message>)
    ensures |r| == |prev|
    ensures prev != [] ==> r[..|r| - 1] == prev[..|prev| - 1]
    ensures prev != [] ==>
              && r[|r| - 1].content == prev[|prev| - 1].content + "\n\n[Error receiving stream]"
              && r[|r| - 1].isLoading == Some(false)
              && r[|r| - 1].response == prev[|prev| - 1].response
  {
    if prev == [] then prev
    else
      var last := prev[|prev| - 1];
      prev[..|prev| - 1] + [last.(isLoading := Some(false), content := last.content + ErrorNote)]
  }

  /** The characters `String.prototype.trim` removes: white space and line terminators. */
  predicate IsSpace(c: char) {
    || c == '\t' || c == '\n' || c == '\U{000B}' || c == '\U{000C}' || c == '\r' || c == ' '
    || c == '\U{00A0}' || c == '\U{1680}' || ('\U{2000}' <= c <= '\U{200A}')
    || c == '\U{2028}' || c == '\U{2029}' || c == '\U{202F}' || c == '\U{205F}' || c == '\U{3000}'
    || c == '\U{FEFF}'
  }

  function TrimStart(s: string): (r: string)
    ensures |r| <= |s| && r == s[|s| - |r|..]
    ensures forall i :: 0 <= i < |s| - |r| ==> IsSpace(s[i])
    ensures r == [] || !IsSpace(r[0])
    decreases |s|
  {
    if s != [] && IsSpace(s[0]) then TrimStart(s[1..]) else s
  }

  function TrimEnd(s: string): (r: string)
    ensures |r| <= |s| && r == s[..|r|]
    ensures forall i :: |r| <= i < |s| ==> IsSpace(s[i])
    ensures r == [] || !IsSpace(r[|r| - 1])
    decreases |s|
  {
    if s != [] && IsSpace(s[|s| - 1]) then TrimEnd(s[..|s| - 1]) else s
  }

  /** `s.trim()`. */
  function Trim(s: string): string {
    TrimEnd(TrimStart(s))
  }

  /** A string trims to nothing exactly when it is all white space. */
  lemma TrimBlank(s: string)
    ensures Trim(s) == "" <==> forall i :: 0 <= i < |s| ==> IsSpace(s[i])
  {
    var a := TrimStart(s);
    var k := |s| - |a|;
    if Trim(s) == "" {
      // What TrimStart leaves starts with a non-space, which TrimEnd would keep.
      assert a == [];
    }
    if forall i :: 0 <= i < |s| ==> IsSpace(s[i]) {
      assert a == [] || a[0] == s[k];
    }
  }

  /** Otherwise the trimmed string is a slice of it that neither starts nor ends
    * with white space. */
  lemma TrimSlice(s: string)
    ensures Trim(s) != "" ==> !IsSpace(Trim(s)[0]) && !IsSpace(Trim(s)[|Trim(s)| - 1])
    ensures var k := |s| - |TrimStart(s)|; k + |Trim(s)| <= |s| && Trim(s) == s[k..k + |Trim(s)|]
  {
    var a := TrimStart(s);
    var b := TrimEnd(a);
    var k := |s| - |a|;
    assert Trim(s) == b;
    assert a == s[k..] && b == a[..|b|];
    assert s[k..k + |b|] == a[..|b|];
    if b != "" {
      assert b[0] == a[0];
    }
  }

  function UserMessage(id: string, content: string): Message {
    Message(id, User, content, None, None)
  }

  function AssistantMessage(id: string): Message {
    Message(id, Assistant, "", Some(EmptyResponse), Some(true))
  }

  // ---------------------------------------------------------------------------
  // onmessage
  // ---------------------------------------------------------------------------

  /** `parsed.content ?? ""`; any value other than a string or null is shown through
    * `show` (JavaScript's string conversion). */
  function ContentText(v: Json, show: Json -> string): string {
    match v
    case JNull => ""
    case JStr(s) => s
    case _ => show(v)
  }

  /** The `onmessage` handler: `parse` is `JSON.parse` (None where it throws, which
    * the handler catches). */
  function Dispatched(prev: seq<Message>, data: string, parse: string -> Option<Json>,
                      show: Json -> string): seq<Message>
  {
    match parse(data)
    case None => prev
    case Some(parsed) =>
      if !parsed.JObj? then prev
      else
        var kind := Field(parsed, "type");
        if kind == JStr("init_response") then Upserted(prev, ContentText(Field(parsed, "content"), show), false)
        else if kind == JStr("final_response") then Upserted(prev, ContentText(Field(parsed, "content"), show), true)
        else if kind == JStr("tool_use") then
          ToolAppended(prev, ChatBlock(ToolUse, None, Field(parsed, "tool_name"), Field(parsed, "tool_input")))
        else if kind == JStr("tool_result") then
          ToolAppended(prev, ChatBlock(ToolResult, None, Field(parsed, "tool_name"), Field(parsed, "tool_input"),
                                       Field(parsed, "tool_result")))
        else prev
  }

  /** Data that does not parse, is not an object, or has no known `type` leaves the
    * messages as they are; the four known types reach their helpers, and a text
    * event without `content` appends nothing to the text. */
  lemma DispatchRouting(prev: seq<Message>, data: string, parse: string -> Option<Json>, show: Json -> string)
    ensures parse(data).None? ==> Dispatched(prev, data, parse, show) == prev
    ensures parse(data).Some? && !parse(data).value.JObj? ==> Dispatched(prev, data, parse, show) == prev
    ensures parse(data).Some? && parse(data).value.JObj? &&
            Field(parse(data).value, "type") !in [JStr("init_response"), JStr("final_response"), JStr("tool_use"), JStr("tool_result")] ==>
              Dispatched(prev, data, parse, show) == prev
    ensures parse(data).Some? && parse(data).value.JObj? &&
            Field(parse(data).value, "type") == JStr("init_response") && !Binds(parse(data).value.fields, "content") ==>
              Dispatched(prev, data, parse, show) == Upserted(prev, "", false)
    ensures parse(data).Some? && parse(data).value.JObj? && Field(parse(data).value, "type") == JStr("tool_use") ==>
              Dispatched(prev, data, parse, show) ==
                ToolAppended(prev, ChatBlock(ToolUse, None, Field(parse(data).value, "tool_name"), Field(parse(data).value, "tool_input")))
  {
  }

  // ---------------------------------------------------------------------------
  // The component's state
  // ---------------------------------------------------------------------------

  /** The `messages` and `isLoading` state of one `ChatInterface`. */
  class ChatInterfaceState {
    var messages: seq<Message>
    var isLoading: bool

    constructor ()
      ensures messages == [] && !isLoading
    {
      messages := [];
      isLoading := false;
    }

    /** The backward search for the last text block. */
    static method FindStreamingIndex(blocks: seq<ChatBlock>) returns (idx: int)
      ensures idx == StreamingIndex(blocks)
    {
      var i := |blocks| - 1;
      while i >= 0
        invariant -1 <= i < |blocks|
        invariant forall j :: i < j < |blocks| ==> !IsText(blocks[j])
      {
        if IsText(blocks[i]) {
          LastTextIndex(blocks, i);
          return i;
        }
        i := i - 1;
      }
      LastTextIndex(blocks, -1);
      idx := -1;
    }

    method UpsertTextBlock(text: string, isFinal: bool)
      modifies this
      ensures messages == Upserted(old(messages), text, isFinal) && isLoading == old(isLoading)
    {
      if |messages| == 0 {
        return;
      }
      var newMessages := messages;
      var lastIndex := |newMessages| - 1;
      var m0 := newMessages[lastIndex];
      var last := m0;
      if last.response.None? {
        last := last.(response := Some(EmptyResponse));
      }
      assert last.response == Some(ResponseOf(m0));
      var blocks := last.response.value.blocks;
      var streamingIdx := FindStreamingIndex(blocks);
      if streamingIdx >= 0 {
        var existing := blocks[streamingIdx];
        existing := existing.(content := Some(existing.content.GetOr("") + text));
        existing := existing.(kind := if isFinal then FinalResponse else InitResponse);
        blocks := blocks[streamingIdx := existing];
      } else {
        blocks := blocks + [ChatBlock(if isFinal then FinalResponse else InitResponse, Some(text))];
      }
      assert blocks == UpsertBlocks(ResponseOf(m0).blocks, text, isFinal);
      last := last.(response := Some(last.response.value.(blocks := blocks)));
      last := last.(content := JoinWith(ContentsOf(blocks, TextKinds), Separator), isLoading := Some(!isFinal));
      assert last == UpsertMessage(m0, text, isFinal);
      newMessages := newMessages[lastIndex := last];
      assert newMessages == messages[..lastIndex] + [last];
      messages := newMessages;
    }

    method AppendToolBlock(block: ChatBlock)
      modifies this
      ensures messages == ToolAppended(old(messages), block) && isLoading == old(isLoading)
    {
      if |messages| == 0 {
        return;
      }
      var lastIndex := |messages| - 1;
      var last := messages[lastIndex];
      if last.response.None? {
        last := last.(response := Some(EmptyResponse));
      }
      last := last.(response := Some(last.response.value.(blocks := last.response.value.blocks + [block])));
      messages := messages[lastIndex := last];
    }

    method FinalizeTextBlocks()
      modifies this
      ensures messages == Finalized(old(messages)) && isLoading == old(isLoading)
    {
      if |messages| == 0 {
        return;
      }
      var lastIndex := |messages| - 1;
      var last := messages[lastIndex];
      if last.response.None? {
        messages := messages[lastIndex := last.(isLoading := Some(false))];
        return;
      }
      var blocks := FinalizeBlocks(last.response.value.blocks);
      var finalText := JoinWith(ContentsOf(blocks, {FinalResponse}), Separator);
      if finalText == "" {
        finalText := JoinWith(ContentsOf(blocks, {InitResponse}), Separator);
      }
      last := last.(response := Some(last.response.value.(blocks := blocks)), content := finalText, isLoading := Some(false));
      messages := messages[lastIndex := last];
    }

    /** `sendMessage`'s state updates: a blank message, or one sent while loading,
      * changes nothing; otherwise the trimmed user message and an empty loading
      * assistant message are appended and loading starts. The request itself and
      * the message ids' clock are outside the model. */
    method SendMessage(content: string, userId: string, assistantId: string)
      modifies this
      ensures Trim(content) == "" || old(isLoading) ==>
                messages == old(messages) && isLoading == old(isLoading)
      ensures Trim(content) != "" && !old(isLoading) ==>
                messages == old(messages) + [UserMessage(userId, Trim(content)), AssistantMessage(assistantId)]
                && isLoading
    {
      if Trim(content) == "" || isLoading {
        return;
      }
      messages := messages + [UserMessage(userId, Trim(content)), AssistantMessage(assistantId)];
      isLoading := true;
    }

    /** `onmessage`. */
    method OnMessage(data: string, parse: string -> Option<Json>, show: Json -> string)
      modifies this
      ensures messages == Dispatched(old(messages), data, parse, show) && isLoading == old(isLoading)
    {
      var parsed := parse(data);
      if parsed.None? || !parsed.value.JObj? {
        return;
      }
      var p := parsed.value;
      var kind := Field(p, "type");
      if kind == JStr("init_response") {
        UpsertTextBlock(ContentText(Field(p, "content"), show), false);
      } else if kind == JStr("final_response") {
        UpsertTextBlock(ContentText(Field(p, "content"), show), true);
      } else if kind == JStr("tool_use") {
        AppendToolBlock(ChatBlock(ToolUse, None, Field(p, "tool_name"), Field(p, "tool_input")));
      } else if kind == JStr("tool_result") {
        AppendToolBlock(ChatBlock(ToolResult, None, Field(p, "tool_name"), Field(p, "tool_input"), Field(p, "tool_result")));
      }
    }

    /** `onerror`: the error note on the last message, and loading stops. */
    method OnError()
      modifies this
      ensures messages == ErrorMarked(old(messages)) && !isLoading
    {
      if |messages| > 0 {
        var lastIndex := |messages| - 1;
        var last := messages[lastIndex];
        messages := messages[lastIndex := last.(isLoading := Some(false), content := last.content + ErrorNote)];
      }
      isLoading := false;
    }

    /** `onclose`: the text is finalized and loading stops. */
    method OnClose()
      modifies this
      ensures messages == Finalized(old(messages)) && !isLoading
    {
      FinalizeTextBlocks();
      isLoading := false;
    }
  }

  /** The last text block is unique: any index that is a text block with no text
    * block after it (or -1 with no text block at all) is `StreamingIndex`. */
  lemma LastTextIndex(blocks: seq<ChatBlock>, i: int)
    requires -1 <= i < |blocks|
    requires i >= 0 ==> IsText(blocks[i])
    requires forall j :: i < j < |blocks| ==> !IsText(blocks[j])
    ensures i == StreamingIndex(blocks)
  {
  }
}
