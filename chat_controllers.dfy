/**
 * The HTTP endpoints of backend/app/chat/controllers.py: the `/message` stream
 * over one shared `ChatService`, its `text/event-stream` framing, and `/health`.
 */
module ChatControllers {
  import opened Wrappers
  import opened PyJson
  import opened ChatServices
  import ES = EventStream

  // ---------------------------------------------------------------------------
  // Framing
  // ---------------------------------------------------------------------------

  /** The frame `generate_response` writes for a chunk: a `data: ` prefix, the chunk
    * itself, and two line feeds; the chunk's own line feeds are not escaped. */
  function Frame(chunk: string): (r: string)
    ensures |r| == |chunk| + 8
    ensures r[..6] == "data: " && r[6..|r| - 2] == chunk && r[|r| - 2..] == "\n\n"
  {
    "data: " + chunk + "\n\n"
  }

  /** For a chunk without line feeds, the frame as written is the event encoding. */
  lemma FrameIsEncoding(chunk: string)
    requires forall i :: 0 <= i < |chunk| ==> chunk[i] != ES.LF
    ensures Frame(chunk) == ES.EncodeEvent(chunk)
  {
    assert ES.LfAt(chunk) == |chunk|;
  }

  /** A chunk without line terminators arrives intact as one `message` event. */
  lemma FrameRoundTrip(chunk: string)
    requires ES.NoEol(chunk)
    ensures ES.Parse(Frame(chunk)) == [ES.Event("message", chunk)]
  {
    FrameIsEncoding(chunk);
    assert ES.NoCR(chunk);
    ES.BodyRoundTrip([chunk]);
    assert [chunk][1..] == [];
    var b := ES.Body([chunk]);
    assert b == ES.EncodeEvent(chunk) + "";
    assert b == Frame(chunk);
    assert ES.Parse(b) == [ES.Event("message", chunk)];
  }

  /** A chunk holding a line feed does not arrive intact: the text after the line
    * feed is read as a field name of its own and dropped. */
  lemma FrameSplitsMultilineChunk()
    ensures ES.Parse(Frame("a\nb")) == [ES.Event("message", "a")]
  {
    var st1 := ES.State("", "a\n", []);
    SplitChunkFrame();
    calc {
      ES.Parse(Frame("a\nb"));
      ES.ParseFrom(ES.Start, "data: a" + [ES.LF] + "b\n\n").events;
      { FirstLineOfSplitChunk(); ES.ParseLine(ES.Start, "data: a", "b\n\n"); }
      ES.ParseFrom(st1, "b\n\n").events;
      { SecondLineOfSplitChunk(); }
      ES.ParseFrom(st1, "\n").events;
      { LastLineOfSplitChunk(); }
      [ES.Event("message", "a")];
    }
  }

  /** The frame of that chunk, cut at its first line feed. */
  lemma SplitChunkFrame()
    ensures Frame("a\nb") == "data: a" + [ES.LF] + "b\n\n"
    ensures Frame("a\nb")[0] != ES.BOM
  {
    assert Frame("a\nb") == "data: a\nb\n\n";
  }

  lemma FirstLineOfSplitChunk()
    ensures ES.NoEol("data: a")
    ensures ES.ProcessLine(ES.Start, "data: a") == ES.State("", "a\n", [])
  {
    assert "data: " + "a" == "data: a";
    assert "" + "a" + [ES.LF] == "a\n";
    ES.DataLinePlain("a");
    ES.DataLine(ES.Start, "a");
  }

  /** The second line, `b`, names a field nobody reads. */
  lemma SecondLineOfSplitChunk()
    ensures ES.ParseFrom(ES.State("", "a\n", []), "b\n\n") == ES.ParseFrom(ES.State("", "a\n", []), "\n")
  {
    var st1 := ES.State("", "a\n", []);
    assert "b\n\n" == "b" + [ES.LF] + "\n";
    ES.ParseLine(st1, "b", "\n");
    assert ES.ColonAt("b") == 1;
    assert ES.ProcessLine(st1, "b") == st1;
  }

  /** The empty line dispatches `a`. */
  lemma LastLineOfSplitChunk()
    ensures ES.ParseFrom(ES.State("", "a\n", []), "\n").events == [ES.Event("message", "a")]
  {
    var st1 := ES.State("", "a\n", []);
    assert "\n" == "" + [ES.LF] + "";
    ES.ParseLine(st1, "", "");
    assert st1.data[..|st1.data| - 1] == "a";
  }

  /** `generate_response` as written: one literal frame per yielded chunk, in order. */
  function FramesAsWritten(chunks: seq<string>): (frames: seq<string>)
    ensures |frames| == |chunks|
    ensures forall i :: 0 <= i < |chunks| ==> frames[i] == Frame(chunks[i])
  {
    seq(|chunks|, i requires 0 <= i < |chunks| => Frame(chunks[i]))
  }

  /** The corrected `generate_response`: one frame per yielded chunk, in order, each
    * sending the chunk as one event, with a `data:` line per line of the chunk. */
  function GenerateResponse(chunks: seq<string>): (frames: seq<string>)
    ensures |frames| == |chunks|
    ensures forall i :: 0 <= i < |chunks| ==> frames[i] == ES.EncodeEvent(chunks[i])
  {
    seq(|chunks|, i requires 0 <= i < |chunks| => ES.EncodeEvent(chunks[i]))
  }

  /** Where no chunk holds a line feed, the corrected frames are exactly the ones
    * written at backend/app/chat/controllers.py. */
  lemma GenerateResponseAsWritten(chunks: seq<string>)
    requires forall i, j :: 0 <= i < |chunks| && 0 <= j < |chunks[i]| ==> chunks[i][j] != ES.LF
    ensures GenerateResponse(chunks) == FramesAsWritten(chunks)
  {
    forall i | 0 <= i < |chunks|
      ensures GenerateResponse(chunks)[i] == FramesAsWritten(chunks)[i]
    {
      FrameIsEncoding(chunks[i]);
    }
  }

  /** The bytes of a response body, frame after frame. */
  function Concat(frames: seq<string>): string
    decreases |frames|
  {
    if frames == [] then "" else frames[0] + Concat(frames[1..])
  }

  /** A client reading the whole response receives every chunk as one `message`
    * event, in order, as long as no chunk holds a carriage return. */
  lemma GenerateResponseRoundTrip(chunks: seq<string>)
    requires forall i :: 0 <= i < |chunks| ==> ES.NoCR(chunks[i])
    ensures ES.Parse(Concat(GenerateResponse(chunks))) == ES.Messages(chunks)
  {
    ConcatIsBody(chunks);
    ES.BodyRoundTrip(chunks);
  }

  /** The stream as written is received intact exactly as far as the corrected one
    * is: when no chunk holds a CR or LF, every chunk arrives as one `message` event,
    * in order. */
  lemma FramesAsWrittenRoundTrip(chunks: seq<string>)
    requires forall i :: 0 <= i < |chunks| ==> ES.NoEol(chunks[i])
    ensures ES.Parse(Concat(FramesAsWritten(chunks))) == ES.Messages(chunks)
  {
    GenerateResponseAsWritten(chunks);
    assert forall i :: 0 <= i < |chunks| ==> ES.NoCR(chunks[i]);
    GenerateResponseRoundTrip(chunks);
  }

  lemma {:induction false} ConcatIsBody(chunks: seq<string>)
    ensures Concat(GenerateResponse(chunks)) == ES.Body(chunks)
    decreases |chunks|
  {
    if chunks != [] {
      ConcatIsBody(chunks[1..]);
      assert GenerateResponse(chunks)[1..] == GenerateResponse(chunks[1..]);
    }
  }

  // ---------------------------------------------------------------------------
  // Endpoints
  // ---------------------------------------------------------------------------

  /** A Flask response: a JSON body with a status, or a streamed body of frames,
    * together with how the generator behind it ended. */
  datatype Response =
    | JsonResponse(status: int, body: Json)
    | StreamResponse(contentType: string, frames: seq<string>, outcome: Outcome)

  const MessageRequired := JsonResponse(400, JObj([("error", JStr("Message required"))]))

  const Healthy := JsonResponse(200, JObj([("status", JStr("healthy")), ("service", JStr("chat"))]))

  /** `GET /health`: always healthy. */
  function HealthCheck(): (r: Response)
    ensures r.JsonResponse? && r.status == 200
    ensures r.body == JObj([("status", JStr("healthy")), ("service", JStr("chat"))])
  {
    Healthy
  }

  /** The blueprint with its module-level `chat_service`, created and seeded once
    * and shared by every request. */
  class ChatController {
    const service: ChatService

    /** Module import: `ChatService()` then `init_chat_services()`. */
    constructor (prompt: string)
      ensures fresh(service)
      ensures service.chatHistory == [Msg("developer", prompt)] && service.tools == [WeatherTool]
    {
      service := new ChatService();
      new;
      service.InitChatServices(prompt);
    }

    /** `GET /message?message=...`: a missing or empty message is refused before the
      * service is touched; any other message streams the frames of one turn, and
      * the shared log keeps what the turn appended. */
    method SendMessage(message: Option<string>, events: seq<Event>,
                       finalStream: seq<Msg> -> seq<Event>, codec: Codec)
      returns (r: Response)
      modifies service
      ensures (message.None? || message.value == "") ==>
                r == MessageRequired && service.chatHistory == old(service.chatHistory)
      ensures message.Some? && message.value != "" ==>
                var t := TurnSpec(old(service.chatHistory), service.tools, message.value, events, finalStream, codec);
                && r == StreamResponse("text/event-stream", FramesAsWritten(t.yielded), t.outcome)
                && service.chatHistory == t.history
    {
      if message.None? || message.value == "" {
        return MessageRequired;
      }
      var yielded, outcome := service.ProcessMessage(message.value, events, finalStream, codec);
      r := StreamResponse("text/event-stream", FramesAsWritten(yielded), outcome);
    }
  }
}
