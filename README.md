# Chat assistant with tool calling: a Dafny model

The modelled system is a chat assistant:

- a Flask backend streams a language model's answer to the browser as server-sent events;
- a React page renders that answer;
- a small account service handles sign-up, login and profiles.

This project models the parts of the system that make decisions and proves what
they guarantee:

- **The chat turn driver.** `ChatService.process_message` in
  `backend/app/chat/services.py`. It appends the user's message to the
  conversation log. It folds the model's first event stream into a table of
  tool-call slots while forwarding text deltas. It runs each slot (name fallback,
  argument parsing with fallback, handler lookup, one `TypeError` retry) and
  appends the results to the log. Only when the slot table is non-empty does it
  request a second stream and forward that stream's text too.
- **The tool-result formatters, in two generations.**
  `backend/app/chat/agent/utils/formaters.py` and
  `backend/app/chat/utils/formaters.py` turn the nested JSON a search provider
  returns into canonical records. When a step fails, the parser returns a
  one-key error dict instead.
- **The chat HTTP controller.** `backend/app/chat/controllers.py` holds a
  request guard, the framing of each yielded chunk as an event-stream message,
  and a health check. The framing is checked against the event-stream parsing
  algorithm of the WHATWG HTML Living Standard, section 9.2.6 ("Event stream
  interpretation").
- **The browser's message reducer.** In
  `frontend/src/components/Chat/ChatInterface.tsx`, `upsertTextBlock`,
  `appendToolBlock` and `finalizeTextBlocks` transform the list of messages.
  The `onmessage` switch dispatches events to them. The `sendMessage` guard and
  the `onerror` and `onclose` handlers complete the set.
- **The account handlers.** `backend/app/user/controllers.py` decides which user
  and session changes happen, and in which order the 400/401/403/404/409 checks
  are made.

Modules:

| module | models |
|---|---|
| `Wrappers` | `Option` |
| `PyJson` | JSON values with Python's semantics for `dict.get`, truthiness, iteration, `"".join`, `[0]`, and the exceptions these raise |
| `OrderedDict` | a Python `dict` with its insertion order |
| `ChatServices` | `backend/app/chat/services.py` |
| `EventStream` | the receiving side of server-sent events (WHATWG HTML, section 9.2.6) and the framing that round-trips through it |
| `ChatControllers` | `backend/app/chat/controllers.py` |
| `ComposioResults` | what both formatter generations share: the `data.results` lookup, the try/except guard, the vector record |
| `AgentFormatters` | `backend/app/chat/agent/utils/formaters.py` |
| `UtilsFormatters` | `backend/app/chat/utils/formaters.py` |
| `ChatInterface` | `frontend/src/components/Chat/ChatInterface.tsx` |
| `UserControllers` | `backend/app/user/controllers.py` |

The loops of the source are Dafny methods. Each method is proved equal to a
specification function: `ChatServices.ChatService.ProcessMessage`, the
formatter methods, `ChatInterface.ChatInterfaceState.FindStreamingIndex`, and
the `UserControllers.UserApp` handlers. The lemmas then prove the promised
properties about those functions.

State the source mutates is held in a class:

- `ChatService.chatHistory`;
- the React `messages` and `isLoading` state in `ChatInterfaceState`;
- the user table and session in `UserApp`.

Each state-changing method states its whole new state.

In these places the model follows the code as written:

- Tool slots run in the order their index was first inserted into the slot table, not in index order.
- The `done` flag set by `response.function_call_arguments.done` is never read. Every slot in the table is run, complete or not.
- Only a `TypeError` from a tool handler is retried. Any other exception leaves the generator, and so does an argument fragment that is neither a string nor a dict. The model returns these as the turn's failure (`Outcome.Aborted`), with the log as it was at that moment. They are not contained per tool.
- The second stream is requested whenever the slot table is non-empty, even when every slot was skipped.
- Text is sent to the browser as raw `data: <chunk>` lines. No JSON `{type, ...}` events are sent. As a result the browser's `JSON.parse` dispatch (`ChatInterface.Dispatched`) only reacts to chunks that happen to be JSON objects with a known `type`.
- `parse_vector_search_results` (first generation) has no try/except. It keeps only the last item's record, and an empty list raises `UnboundLocalError`.
- In the second generation every error dict says "news", whichever parser failed. The first-generation event parser also uses the news prefix.
- Several record classes the formatters import are not defined in the schema files: `AIPreviewResult`, `MarketResult`, `PriceMovement`, the second generation's `FinanceSearchResults` and `EventSearchResults`, and others. They are defined here from the fields the formatters pass, and they do not validate. As written, the import of the second generation (`backend/app/chat/utils/formaters.py:1-7`) raises ImportError for the same reason, just as the first generation's does.
- `finalizeTextBlocks`'s fallback to an `init_response` block is dead code: by then every text block has been made final. `ChatInterface.FinalizeEffect` states the content that results.

## Model

| member | source | states |
|---|---|---|
| ChatServices.GetWeather | backend/app/chat/services.py:23-25 | the reply is the fixed prefix, the location, then the fixed suffix, and the location can be cut back out of it |
| ChatServices.ChatService.constructor | backend/app/chat/services.py:56-64 | a new service has an empty log and the single `get_weather` declaration |
| ChatServices.ChatService.InitChatServices | backend/app/chat/services.py:66-76 | exactly one developer entry holding the prompt is appended; earlier entries stay as they were |
| ChatServices.ChatService.AddChatHistory | backend/app/chat/services.py:78-87 | exactly one `{role, content}` entry is appended at the end; earlier entries stay as they were |
| ChatServices.ChatService.ProcessMessage | backend/app/chat/services.py:89-228 | the new log, the yielded strings and the outcome are exactly those of the turn specification `TurnSpec` on the old log |
| ChatServices.ChatService.ExecuteToolCalls | backend/app/chat/services.py:159-205 | the loop over the slots leaves the log and the failure that running the slots in insertion order specifies |
| ChatServices.ChatService.ExecuteSlot | backend/app/chat/services.py:161-196 | one slot's name fallback, argument parsing, handler lookup and call give exactly the outcome `RunSlot` specifies |
| ChatServices.RunSlotIgnoresDone | backend/app/chat/services.py:160-205 | a slot's `done` flag does not affect what running it does |
| ChatServices.RunSlotsIgnoresDone | backend/app/chat/services.py:160-205 | two slot tables that differ only in `done` flags run identically |
| ChatServices.RunSlotsNext | backend/app/chat/services.py:160-205 | after slots that did not raise, one more slot adds nothing when skipped, its entry when executed, and ends the loop when it raises |
| ChatServices.HandleEvent | backend/app/chat/services.py:108-157 | one event's effect on the yielded texts, the slot table and the failure is that of one step of the fold |
| ChatServices.FirstPass | backend/app/chat/services.py:101-157 | the first loop yields, tabulates and fails exactly as the fold `Collect` over the first stream |
| ChatServices.FinalPass | backend/app/chat/services.py:219-228 | the final loop yields exactly the text deltas of the final stream, in order |
| ChatServices.Ensure | backend/app/chat/services.py:129-154 | an index already in the table leaves it unchanged; an absent one gets the empty slot, appended last in key order |
| ChatServices.Fragment | backend/app/chat/services.py:139-147 | an argument delta contributes a fragment exactly when it is a string or a dict |
| ChatServices.Step | backend/app/chat/services.py:108-157 | one event keeps the slot table a well-formed ordered dict |
| ChatServices.Collect | backend/app/chat/services.py:101-157 | the fold over the first stream yields a well-formed ordered slot table |
| ChatServices.Outcomes | backend/app/chat/services.py:160-205 | one outcome per slot key, in the same order |
| ChatServices.CollectKeepsFailure | backend/app/chat/services.py:104-148 | once an event has raised, the rest of the stream changes nothing |
| ChatServices.RunSlotsKeepsFailure | backend/app/chat/services.py:160-205 | once a slot has raised, the remaining slots change nothing |
| ChatServices.CollectFailsIff | backend/app/chat/services.py:138-147 | the first pass fails exactly when some argument delta is neither a string nor a dict, and then with `TypeError` |
| ChatServices.StepFailure | backend/app/chat/services.py:138-147 | one event fails the pass exactly when no earlier event has and its argument delta is neither a string nor a dict, the failure being `TypeError` |
| ChatServices.CollectYieldsTextDeltas | backend/app/chat/services.py:109-113 | without a failure, the first pass yields every text delta, in arrival order, and nothing else |
| ChatServices.CollectYieldsUntilFailure | backend/app/chat/services.py:104-148 | when event n is the first to raise, exactly the text deltas before it have been yielded and the failure is `TypeError` |
| ChatServices.StepEntries | backend/app/chat/services.py:119-157 | a non-raising tool event rewrites only its own index's slot (adding it if missing), and any other event leaves the table unchanged |
| ChatServices.StepEffect | backend/app/chat/services.py:119-157 | an event touches only the slot of its own index (missing index means 0), creating it when absent |
| ChatServices.SlotOfStep | backend/app/chat/services.py:119-157 | the closed-form slot of an index after one more event is that event applied to the slot before it |
| ChatServices.CollectSlot | backend/app/chat/services.py:119-157 | each slot holds the name of the last name-bearing delta, the in-order concatenation of its fragments since its last `output_item.added`, and whether a done event came after that reset |
| ChatServices.StepKeys | backend/app/chat/services.py:119-157 | an event touching an index not yet in the table appends it to the key order; any other event keeps the order |
| ChatServices.CollectOrder | backend/app/chat/services.py:119-157 | the table's key order is the order in which indices were first mentioned; re-adding an index does not move it |
| ChatServices.CollectKeys | backend/app/chat/services.py:119-157 | an index has a slot exactly when some tool event mentions it |
| ChatServices.FirstSeenEmpty | backend/app/chat/services.py:119-157 | the table is empty exactly when no tool event appears in the stream |
| ChatServices.OtherKeysUntouched | backend/app/chat/services.py:119-157 | an event for another index never changes a slot |
| ChatServices.RunSlotsAppends | backend/app/chat/services.py:160-205 | without a failure, the log gains exactly one assistant entry per executed slot, in slot order, and skipped slots add nothing |
| ChatServices.RunSlotsFailsIff | backend/app/chat/services.py:180-196 | the pass fails exactly when some slot's resolved name cannot be hashed for the handler lookup |
| ChatServices.RunSlotNames | backend/app/chat/services.py:161-183 | a slot is skipped exactly when it has no usable name (the sole declared tool's name is the fallback) or no handler; a nameless slot with the single declaration runs `get_weather` |
| ChatServices.ParseArgsFallback | backend/app/chat/services.py:172-176 | an empty buffer and unparseable JSON both give `{}`; otherwise the parsed value |
| ChatServices.RunHandlerIsLocationCall | backend/app/chat/services.py:185-196 | a dict argument ends up as `get_weather(args.get("location"))` through the `TypeError` retry, anything else positionally; `{}` gives "The current temperature in None is 72°F." |
| ChatServices.TurnHistory | backend/app/chat/services.py:89-205 | without failures the log becomes the old log, the user entry, then one entry per executed slot in slot order |
| ChatServices.TurnSecondStream | backend/app/chat/services.py:207-228 | the second stream is requested exactly when some tool event appeared; its text follows all first-pass text; without it, only first-pass text is yielded |
| ChatServices.CollectPrefix | backend/app/chat/services.py:104-157 | folding a prefix one event longer is one more step |
| ChatServices.TwoFragmentFirstHalf | backend/app/chat/services.py:110-148 | for a text delta, an added item and a first fragment, the table holds one nameless slot with that fragment |
| ChatServices.TwoFragmentSecondHalf | backend/app/chat/services.py:138-157 | a second string fragment is appended to the slot's arguments, the done event marks the slot, and the final text-done event changes nothing |
| ChatServices.TwoFragmentFirstPass | backend/app/chat/services.py:110-157 | two fragments for one index concatenate, and the done event marks the slot |
| ChatServices.ExampleSlotRuns | backend/app/chat/services.py:160-205 | a nameless slot with `{"location": "Paris"}` arguments appends the one `get_weather` entry |
| ChatServices.WeatherTurnExample | backend/app/chat/services.py:89-228 | a whole turn with a nameless tool call: the log and the yielded text of the weather example |
| EventStream.LineEnd | backend/app/chat/controllers.py:11 | the first line ends at the first CR or LF, or at the end of the input |
| EventStream.ColonAt | backend/app/chat/controllers.py:11 | the field name runs up to the first colon |
| EventStream.ParseLine | backend/app/chat/controllers.py:11 | an LF-terminated line is processed before the rest of the stream |
| EventStream.LineEndOf | backend/app/chat/controllers.py:11 | a line without CR or LF ends where the line terminator starts |
| EventStream.DataLine | backend/app/chat/controllers.py:11 | a `data: v` line appends `v` and an LF to the data buffer |
| EventStream.DataLinePlain | backend/app/chat/controllers.py:11 | a `data: ` line holds a CR or LF only where its value does |
| EventStream.ColonAtFirst | backend/app/chat/controllers.py:11 | the field separator is the first colon of the line |
| EventStream.LfAt | backend/app/chat/controllers.py:11 | the next line break of a chunk is its first LF |
| EventStream.ParseDataLine | backend/app/chat/controllers.py:11 | one `data:` line adds its value to the buffer |
| EventStream.ParseDataLines | backend/app/chat/controllers.py:11 | a multi-line chunk framed as one `data:` line per line is read back as the whole chunk |
| EventStream.ParseEncodeEvent | backend/app/chat/controllers.py:11 | an encoded chunk is read back as exactly one `message` event carrying it |
| EventStream.ParseFrameLines | backend/app/chat/controllers.py:11 | the `data:` lines of an encoded chunk fill the data buffer with the chunk and a final LF, leaving the blank line and the rest of the stream |
| EventStream.ParseBlankLine | backend/app/chat/controllers.py:11 | the blank line after those lines dispatches the chunk as a `message` event and empties the buffer |
| EventStream.DispatchData | backend/app/chat/controllers.py:11 | dispatching a buffer of the chunk and a final LF sends the chunk itself as a `message` event |
| EventStream.Messages | backend/app/chat/controllers.py:9-11 | one `message` event per chunk, in order |
| EventStream.MessagesCons | backend/app/chat/controllers.py:9-11 | the events of a non-empty chunk list are the first chunk's event followed by the rest's |
| EventStream.ParseBody | backend/app/chat/controllers.py:9-11 | the encoded stream is read back as the chunks' events appended to the earlier ones |
| EventStream.BodyRoundTrip | backend/app/chat/controllers.py:9-11 | parsing the encoded stream gives back exactly the chunks, in order, for chunks without CR |
| EventStream.BodyStart | backend/app/chat/controllers.py:9-11 | an encoded stream never starts with a byte-order mark or a blank line |
| EventStream.DataLinesStart | backend/app/chat/controllers.py:11 | the `data:` lines of a chunk are never empty and begin with `d` |
| ChatControllers.Frame | backend/app/chat/controllers.py:11 | the frame is `data: `, the chunk, then a blank line |
| ChatControllers.FrameIsEncoding | backend/app/chat/controllers.py:11 | for a chunk without LF the frame is the standard encoding of one event |
| ChatControllers.FrameRoundTrip | backend/app/chat/controllers.py:11 | a chunk without line breaks is received as exactly one event carrying it |
| ChatControllers.FrameSplitsMultilineChunk | backend/app/chat/controllers.py:11 | the literal frame of `a\nb` is received as the event `a`: the text after the LF is lost |
| ChatControllers.FirstLineOfSplitChunk | backend/app/chat/controllers.py:11 | the first line of that frame puts only `a` in the data buffer |
| ChatControllers.SecondLineOfSplitChunk | backend/app/chat/controllers.py:11 | the second line of that frame, `b`, is a field line with no colon that changes nothing |
| ChatControllers.LastLineOfSplitChunk | backend/app/chat/controllers.py:11 | the empty line ending that frame dispatches the message `a` |
| ChatControllers.FramesAsWritten | backend/app/chat/controllers.py:9-11 | `generate_response` as written: exactly one literal `data: chunk\n\n` frame per chunk, in order |
| ChatControllers.GenerateResponse | backend/app/chat/controllers.py:9-11 | the corrected framing (not what the code sends): exactly one frame per chunk, in order, each the event-stream encoding of its chunk with one `data:` line per line |
| ChatControllers.GenerateResponseAsWritten | backend/app/chat/controllers.py:9-11 | for chunks without LF the corrected frames equal the frames the code sends |
| ChatControllers.GenerateResponseRoundTrip | backend/app/chat/controllers.py:9-11 | for the corrected framing, the WHATWG event-stream algorithm receives exactly the yielded chunks, in order, for chunks without CR |
| ChatControllers.FramesAsWrittenRoundTrip | backend/app/chat/controllers.py:9-11 | for the frames the code sends, the WHATWG event-stream algorithm receives exactly the yielded chunks, in order, when no chunk holds a CR or LF |
| ChatControllers.ConcatIsBody | backend/app/chat/controllers.py:9-11 | the frames concatenated are the encoded event stream |
| ChatControllers.HealthCheck | backend/app/chat/controllers.py:26-29 | always 200 with `{"status": "healthy", "service": "chat"}` |
| ChatControllers.ChatController.constructor | backend/app/chat/controllers.py:5-6 | the one shared service starts with only the developer prompt in its log |
| ChatControllers.ChatController.SendMessage | backend/app/chat/controllers.py:14-23 | a missing or empty message gives 400 `Message required` and leaves the log alone; otherwise an event stream with one literal `data: chunk\n\n` frame per chunk of the turn (`FramesAsWritten`), with the log advanced as the turn specifies, so history accumulates across requests |
| PyJson.Lookup | backend/app/chat/agent/utils/formaters.py:37-47 | a key is found exactly when it is bound, and the value found is bound to it |
| PyJson.GetOr | backend/app/chat/agent/utils/formaters.py:26-27 | `.get` works only on a dict and gives the default for a missing key |
| PyJson.KeyStrings | backend/app/chat/agent/utils/formaters.py:157 | iterating a dict gives its keys, in order |
| PyJson.CharStrings | backend/app/chat/agent/utils/formaters.py:263-264 | iterating a string gives its one-character strings, in order |
| PyJson.Iter | backend/app/chat/agent/utils/formaters.py:34 | only lists, strings and dicts are iterable; a list iterates its items |
| PyJson.Join | backend/app/chat/agent/utils/formaters.py:263-264 | `"".join` succeeds exactly when every item is a string, giving their concatenation |
| PyJson.ConcatCharStrings | backend/app/chat/agent/utils/formaters.py:263-264 | joining a string's characters gives back the string |
| PyJson.JoinOfStrings | backend/app/chat/agent/utils/formaters.py:263-264 | a string joins to itself, a list of strings to their concatenation, and None raises `TypeError` |
| PyJson.Index0 | backend/app/chat/utils/formaters.py:34 | `[0]` succeeds exactly on a non-empty list or string; a dict raises `KeyError`, an empty value `IndexError` |
| PyJson.AsStr | backend/app/chat/utils/schemas.py:59-60 | a required `str` field accepts exactly strings |
| PyJson.MapItems | backend/app/chat/utils/formaters.py:61-75 | a loop that appends one record per item succeeds exactly when every item does, pointwise and in order; otherwise it raises the first failure |
| PyJson.MapItemsKeepsFailure | backend/app/chat/utils/formaters.py:61-75 | once an item has raised, later items change nothing |
| PyJson.MapItemsFirstFailure | backend/app/chat/utils/formaters.py:61-75 | when the items before position i all convert and item i raises, the whole loop raises item i's exception |
| PyJson.MapLoop | backend/app/chat/utils/formaters.py:61-75 | the appending loop computes `MapItems` |
| OrderedDict.Empty | backend/app/chat/services.py:101 | `{}` has no keys |
| OrderedDict.Set | backend/app/chat/services.py:119-122 | assignment updates the value; a new key goes last and an existing key keeps its place |
| OrderedDict.NonEmptyIffEntries | backend/app/chat/services.py:208 | the dict is truthy exactly when it has an entry |
| OrderedDict.InKeys | backend/app/chat/services.py:119-122 | a key has an entry exactly when it is listed in the key order |
| ComposioResults.SearchData | backend/app/chat/agent/utils/formaters.py:26-27 | a non-dict payload raises `AttributeError`; a missing `data` gives `{}` |
| ComposioResults.Guard | backend/app/chat/agent/utils/formaters.py:85-89 | a parser's result is its record exactly when the body succeeded, otherwise the error dict with the parser's prefix and the exception |
| ComposioResults.VectorOf | backend/app/chat/utils/formaters.py:115-118 | a vector record is built exactly from a dict whose `movie` is a string, and its title is that string |
| AgentFormatters.NoneIfEmpty | backend/app/chat/agent/utils/formaters.py:77-78 | an empty list becomes None; anything else is kept |
| AgentFormatters.ForumsLoop | backend/app/chat/agent/utils/formaters.py:51-72 | the forum loop with its nested answer loop computes the forum records, in order |
| AgentFormatters.ParseComposioSearchResults | backend/app/chat/agent/utils/formaters.py:22-89 | the method returns exactly the search parser's reply |
| AgentFormatters.SearchOrganicMirrors | backend/app/chat/agent/utils/formaters.py:34-48 | one organic record per input entry, in order, every field copied one for one; None exactly when there were none |
| AgentFormatters.SearchForumsMirror | backend/app/chat/agent/utils/formaters.py:51-72 | one forum record per input forum whose answers mirror that forum's answers; a missing `extensions` is `[]`; None exactly when empty |
| AgentFormatters.SearchOverview | backend/app/chat/agent/utils/formaters.py:29-31 | `ai_overview` is the empty preview exactly when the input's is truthy, otherwise None; `markets` is always None |
| AgentFormatters.SearchRejectsNonDictEntry | backend/app/chat/agent/utils/formaters.py:34-48 | a non-dict organic entry turns the whole reply into the search error dict with `AttributeError` |
| AgentFormatters.StripPrice | backend/app/chat/agent/utils/formaters.py:106 | the stripped price contains no `,` and no `$` and is no longer than the input |
| AgentFormatters.MarketResultOf | backend/app/chat/agent/utils/formaters.py:97-132 | a market record carries its region tag; its name, link, stock and `serpapi_link` are the item's `.get`s; its price follows the price rules (with numbers as exact reals); it has a price movement exactly when the item's `price_movement` is a dict, and then with that dict's movement, percentage and value |
| AgentFormatters.Dicts | backend/app/chat/agent/utils/formaters.py:143-146 | only dict items are kept |
| AgentFormatters.RegionResults | backend/app/chat/agent/utils/formaters.py:143-148 | every record of a region carries that region's tag |
| AgentFormatters.RegionMarkets | backend/app/chat/agent/utils/formaters.py:135-167 | the region loop keeps `markets` a well-formed ordered dict (which regions it keeps is stated by `RegionMarketsEntries`) |
| AgentFormatters.RegionMarketsLast | backend/app/chat/agent/utils/formaters.py:148-167 | one more region: bound to its market records when it is a known region whose value is a list holding a dict, and otherwise nothing changes |
| AgentFormatters.RegionMarketsEntries | backend/app/chat/agent/utils/formaters.py:148-167 | for a dict with distinct keys, a key is kept exactly when it is a known region whose value is a list holding at least one dict, and it is then bound to the market records of that list's dict items |
| AgentFormatters.FeaturedResults | backend/app/chat/agent/utils/formaters.py:170-190 | every featured record is tagged `featured` |
| AgentFormatters.AllMarkets | backend/app/chat/agent/utils/formaters.py:135-190 | both loops keep `markets` a well-formed ordered dict |
| AgentFormatters.RegionResultsNext | backend/app/chat/agent/utils/formaters.py:158-164 | one more item appends its market record when it is a dict and leaves the list unchanged otherwise |
| AgentFormatters.ItemsLoop | backend/app/chat/agent/utils/formaters.py:157-164 | the item loop computes the region's records |
| AgentFormatters.RegionsLoop | backend/app/chat/agent/utils/formaters.py:148-167 | the loop over `markets` computes `RegionMarkets` |
| AgentFormatters.FeaturedLoop | backend/app/chat/agent/utils/formaters.py:172-188 | the loop over `discover_more` computes `FeaturedResults` |
| AgentFormatters.ParseComposioFinanceSearchResults | backend/app/chat/agent/utils/formaters.py:92-207 | the method returns exactly the finance parser's reply |
| AgentFormatters.FinanceRegions | backend/app/chat/agent/utils/formaters.py:135-190 | in the finance reply, a region other than `featured` is present exactly when the input's `markets` dict keeps it by the region rule, and it holds that region's market records |
| AgentFormatters.RegionMarketsShape | backend/app/chat/agent/utils/formaters.py:135-167 | every key kept is a whitelisted region with a non-empty list of records tagged with it |
| AgentFormatters.FinanceMarketsShape | backend/app/chat/agent/utils/formaters.py:135-201 | keys are whitelisted regions or `featured`, each with a non-empty list of records tagged with its key; the other sections are None |
| AgentFormatters.FinanceFeatured | backend/app/chat/agent/utils/formaters.py:170-197 | `featured` is present exactly when `discover_more` gives featured records and then holds them; `markets` is None exactly when no region and no featured record survived |
| AgentFormatters.AllMarketsFeatured | backend/app/chat/agent/utils/formaters.py:170-197 | after both loops `markets` is non-empty exactly when a region or `featured` contributed, and has a `featured` entry, equal to the featured list, exactly when that list is non-empty |
| AgentFormatters.RegionResultsMirror | backend/app/chat/agent/utils/formaters.py:143-148 | a region's records are its dict items, in order, each turned into a market record |
| AgentFormatters.StripPriceSplits | backend/app/chat/agent/utils/formaters.py:106 | stripping works character by character, keeping order |
| AgentFormatters.StripPriceKeepsClean | backend/app/chat/agent/utils/formaters.py:106 | a price without `,` and `$` is unchanged |
| AgentFormatters.PriceRules | backend/app/chat/agent/utils/formaters.py:100-112 | a non-None `extracted_price` wins; otherwise a missing price gives None, a number gives that number, a bool gives 1.0 or 0.0, a string gives the float of its text without `,` and `$` (None when that does not parse), and any other value gives None; `"$a,b"` is parsed as `ab`; numbers are exact reals, so `float()`'s rounding and overflow are not modelled |
| AgentFormatters.StripDollarAndComma | backend/app/chat/agent/utils/formaters.py:106 | `"$" + a + "," + b` strips to `a + b` |
| AgentFormatters.ParseComposioNewsSearchResults | backend/app/chat/agent/utils/formaters.py:210-245 | the method returns exactly the news parser's reply |
| AgentFormatters.NewsMirrors | backend/app/chat/agent/utils/formaters.py:216-239 | one organic record per news entry, in order, None exactly when empty; the other sections are None |
| AgentFormatters.ParseComposioEventSearchResults | backend/app/chat/agent/utils/formaters.py:248-283 | the method returns exactly the event parser's reply |
| AgentFormatters.EventJoins | backend/app/chat/agent/utils/formaters.py:258-268 | `date` and `address` are the concatenations of their string parts |
| AgentFormatters.EventWithoutDateFails | backend/app/chat/agent/utils/formaters.py:258-283 | an event without `date` turns the reply into an error dict with the news prefix |
| AgentFormatters.ParseVectorSearchResults | backend/app/chat/agent/utils/formaters.py:286-293 | the method returns exactly the vector parser's result |
| AgentFormatters.VectorLastOnly | backend/app/chat/agent/utils/formaters.py:286-293 | success exactly when the list is non-empty and every item is a dict with a string `movie`; only the last title is returned; an empty list raises `UnboundLocalError` |
| UtilsFormatters.FinanceOf | backend/app/chat/utils/formaters.py:36-46 | a record is built exactly from a dict whose `price_movement` is a dict |
| UtilsFormatters.ParseComposioFinanceSearchResults | backend/app/chat/utils/formaters.py:26-52 | the method returns exactly the finance parser's reply |
| UtilsFormatters.FinanceReadsFirstSectionOnly | backend/app/chat/utils/formaters.py:29-34 | only the first `discover_more` section is read: payloads that differ only in later sections give the same reply |
| UtilsFormatters.FinanceNeedsDiscoverMore | backend/app/chat/utils/formaters.py:29-34 | a missing `discover_more` gives the error dict with `KeyError`, an empty one with `IndexError` |
| UtilsFormatters.FinanceRecords | backend/app/chat/utils/formaters.py:36-52 | success exactly when every item is a dict with a dict `price_movement`; one record per item with `extracted_price` and `stock` both the title and the movement fields copied; an item without `price_movement` gives the error dict |
| UtilsFormatters.NewsOf | backend/app/chat/utils/formaters.py:63-73 | a record is built exactly from a dict whose seven fields are strings; a dict otherwise fails validation, a non-dict with `AttributeError` |
| UtilsFormatters.ParseComposioNewsSearchResults | backend/app/chat/utils/formaters.py:55-79 | the method returns exactly the news parser's reply |
| UtilsFormatters.NewsMirrors | backend/app/chat/utils/formaters.py:61-79 | `{"results": L}` with one record per entry, in order; no entries give `[]`; success exactly when every entry validates; a failure is `AttributeError` or a validation error |
| UtilsFormatters.EventOf | backend/app/chat/utils/formaters.py:93-102 | a record is built exactly from a dict whose `date` and `address` join; they hold the joined strings |
| UtilsFormatters.ParseComposioEventSearchResults | backend/app/chat/utils/formaters.py:82-110 | the method returns exactly the event parser's reply |
| UtilsFormatters.EventsJoined | backend/app/chat/utils/formaters.py:91-106 | one record per event, in order, with `date` and `address` joined from their parts with `""` |
| UtilsFormatters.ParseVectorSearchResults | backend/app/chat/utils/formaters.py:113-121 | the method returns exactly the vector parser's result |
| UtilsFormatters.VectorMirrors | backend/app/chat/utils/formaters.py:113-121 | `{"results": M}` with one record per item, same order and length; success exactly when every item is a dict with a string `movie` |
| ChatInterface.ContentsOf | frontend/src/components/Chat/ChatInterface.tsx:71-75 | at most one content per block |
| ChatInterface.StreamingIndex | frontend/src/components/Chat/ChatInterface.tsx:41-51 | the index of the last text block, or -1 when there is none |
| ChatInterface.Upserted | frontend/src/components/Chat/ChatInterface.tsx:26-84 | the message count is unchanged, and so is every message but the last; an empty list stays empty |
| ChatInterface.UpsertExisting | frontend/src/components/Chat/ChatInterface.tsx:53-62 | with a text block present, the last one gets the text appended and its kind becomes final exactly when `isFinal`; every other block is unchanged |
| ChatInterface.UpsertFresh | frontend/src/components/Chat/ChatInterface.tsx:63-67 | without a text block, one new text block is appended |
| ChatInterface.UpsertBlockCount | frontend/src/components/Chat/ChatInterface.tsx:41-67 | the block count grows by at most one and tool blocks are untouched |
| ChatInterface.UpsertExtendsText | frontend/src/components/Chat/ChatInterface.tsx:53-78 | the joined text of the text blocks grows by exactly the new text |
| ChatInterface.UpsertedMessage | frontend/src/components/Chat/ChatInterface.tsx:33-81 | the last message's content is the joined text blocks plus the new text, `isLoading` is `!isFinal`, and its id and role are kept |
| ChatInterface.ContentsAppend | frontend/src/components/Chat/ChatInterface.tsx:71-75 | collecting contents distributes over concatenation |
| ChatInterface.NoContents | frontend/src/components/Chat/ChatInterface.tsx:71-75 | blocks of other kinds contribute nothing |
| ChatInterface.JoinAppendLast | frontend/src/components/Chat/ChatInterface.tsx:71-78 | extending the last part extends the join by the same text |
| ChatInterface.ToolAppended | frontend/src/components/Chat/ChatInterface.tsx:87-107 | the message count is unchanged, and so is every message but the last |
| ChatInterface.ToolAppendedBlocks | frontend/src/components/Chat/ChatInterface.tsx:94-102 | the last message's blocks are the old blocks (none if it had no response) followed by the new block; its content and loading flag are kept |
| ChatInterface.FinalizeBlocks | frontend/src/components/Chat/ChatInterface.tsx:124-129 | each block is finalised in place |
| ChatInterface.Finalized | frontend/src/components/Chat/ChatInterface.tsx:110-149 | the message count is unchanged, and so is every message but the last |
| ChatInterface.FinalizedContents | frontend/src/components/Chat/ChatInterface.tsx:124-142 | after finalising, the final blocks' contents are exactly the old text contents and no `init_response` content remains |
| ChatInterface.FinalizeEffect | frontend/src/components/Chat/ChatInterface.tsx:117-145 | block count and non-text blocks are unchanged, no `init_response` block remains, `isLoading` is false, and the content is the joined text |
| ChatInterface.FinalizeIdempotent | frontend/src/components/Chat/ChatInterface.tsx:110-149 | finalising twice equals finalising once |
| ChatInterface.ErrorMarked | frontend/src/components/Chat/ChatInterface.tsx:225-236 | only the last message changes: the error note is appended to its content and `isLoading` becomes false |
| ChatInterface.TrimStart | frontend/src/components/Chat/ChatInterface.tsx:153 | leading whitespace is removed and nothing more |
| ChatInterface.TrimEnd | frontend/src/components/Chat/ChatInterface.tsx:153 | trailing whitespace is removed and nothing more |
| ChatInterface.TrimBlank | frontend/src/components/Chat/ChatInterface.tsx:153 | the trimmed content is empty exactly when it was all whitespace |
| ChatInterface.TrimSlice | frontend/src/components/Chat/ChatInterface.tsx:158 | the trimmed content is a slice of the input with no whitespace at either end |
| ChatInterface.DispatchRouting | frontend/src/components/Chat/ChatInterface.tsx:187-221 | unparseable data, a non-object or an unknown `type` leaves the messages alone; `init_response` without content upserts `""`; `tool_use` appends a tool block with the named fields |
| ChatInterface.ChatInterfaceState.constructor | frontend/src/components/Chat/ChatInterface.tsx:10-11 | no messages and not loading |
| ChatInterface.ChatInterfaceState.FindStreamingIndex | frontend/src/components/Chat/ChatInterface.tsx:41-51 | the backward search finds the last text block, or -1 |
| ChatInterface.ChatInterfaceState.UpsertTextBlock | frontend/src/components/Chat/ChatInterface.tsx:26-84 | the messages become those `Upserted` specifies |
| ChatInterface.ChatInterfaceState.AppendToolBlock | frontend/src/components/Chat/ChatInterface.tsx:87-107 | the messages become those `ToolAppended` specifies |
| ChatInterface.ChatInterfaceState.FinalizeTextBlocks | frontend/src/components/Chat/ChatInterface.tsx:110-149 | the messages become those `Finalized` specifies |
| ChatInterface.ChatInterfaceState.SendMessage | frontend/src/components/Chat/ChatInterface.tsx:152-172 | blank content or a send while loading does nothing; otherwise exactly the trimmed user message and an empty loading assistant message are appended, and loading starts |
| ChatInterface.ChatInterfaceState.OnMessage | frontend/src/components/Chat/ChatInterface.tsx:187-222 | the messages become those the dispatch specifies |
| ChatInterface.ChatInterfaceState.OnError | frontend/src/components/Chat/ChatInterface.tsx:223-237 | the last message is marked with the error note and loading stops |
| ChatInterface.ChatInterfaceState.OnClose | frontend/src/components/Chat/ChatInterface.tsx:240-243 | the text blocks are finalised and loading stops |
| ChatInterface.LastTextIndex | frontend/src/components/Chat/ChatInterface.tsx:41-51 | any index of a text block with no text block after it is the streaming index |
| UserControllers.FindBy | backend/app/user/controllers.py:41-44 | a user is found exactly when some user has that column value, and the one found has it |
| UserControllers.FindById | backend/app/user/controllers.py:98-100 | a user is found exactly when some user has that id |
| UserControllers.GetUsers | backend/app/user/controllers.py:9-14 | 200 with one summary per stored user, in order |
| UserControllers.GetUser | backend/app/user/controllers.py:26-29 | 200 with that user's summary exactly when the id exists, otherwise 404 |
| UserControllers.SignupRequiresCredentials | backend/app/user/controllers.py:39-40 | a missing or empty username or password gives 400 and the store is unchanged |
| UserControllers.SignupConflicts | backend/app/user/controllers.py:41-44 | a taken username gives 409 "username taken" before a taken email gives "email taken"; neither inserts |
| UserControllers.SignupSuccess | backend/app/user/controllers.py:39-59 | 201 exactly when the credentials are present, both are free and the commit succeeds; then exactly one user with the hashed password and the next id is added; otherwise nothing changes |
| UserControllers.SignupRollsBack | backend/app/user/controllers.py:45-53 | a failing commit rolls back and gives 500 "database error" |
| UserControllers.LoginEffect | backend/app/user/controllers.py:62-81 | login never changes users; only success changes the session, setting `user_id` to the user's id |
| UserControllers.LoginRejects | backend/app/user/controllers.py:70-72 | an unknown user or a failed hash check gives 401 with nothing changed |
| UserControllers.LoginSucceeds | backend/app/user/controllers.py:62-81 | for a known username with string hash and password, login answers 200 exactly when the hash checks, and then stores the user's id in the session and returns its id and username |
| UserControllers.LogoutClears | backend/app/user/controllers.py:84-87 | the whole session is emptied and the table kept; afterwards `profile` gives 401 for every user id, and `me` gives 401 |
| UserControllers.ProfileOrder | backend/app/user/controllers.py:90-102 | 401 without a session user, then 403 for another user's id, then 404 for an unknown id, and 200 exactly when the session user is that existing user |
| UserControllers.CurrentUserUnauthenticated | backend/app/user/controllers.py:105-111 | 401 exactly when the session has no `user_id` or it is 0 |
| UserControllers.CreateUserAppends | backend/app/user/controllers.py:17-23 | exactly one user is added, echoed with 201, and the user list grows by its summary |
| UserControllers.SignupKeepsValid | backend/app/user/controllers.py:32-59 | signup keeps ids distinct, increasing and below the next id |
| UserControllers.LoginKeepsValid | backend/app/user/controllers.py:62-81 | login keeps ids distinct, increasing and below the next id |
| UserControllers.LogoutKeepsValid | backend/app/user/controllers.py:84-87 | logout keeps ids distinct, increasing and below the next id |
| UserControllers.CreateUserKeepsValid | backend/app/user/controllers.py:17-23 | creating a user keeps ids distinct, increasing and below the next id |
| UserControllers.AppendKeepsValid | backend/app/user/controllers.py:47-49 | adding a user with the next id keeps the store valid |
| UserControllers.SignupThenLogin | backend/app/user/controllers.py:32-102 | after a successful sign-up, logging in with the same body succeeds, the session holds the new id, that user's profile gives 200, and (for a non-zero id) `/users/me` answers 200 with its id, username and email |
| UserControllers.FindByAppend | backend/app/user/controllers.py:41-44 | a value first held by an appended user finds that user |
| UserControllers.UserApp.constructor | backend/app/user/controllers.py:9-111 | an empty store with next id 1 and an empty session |
| UserControllers.UserApp.Signup | backend/app/user/controllers.py:32-59 | the new store and response are those the sign-up rules give |
| UserControllers.UserApp.Login | backend/app/user/controllers.py:62-81 | the new session and response are those the login rules give |
| UserControllers.UserApp.Logout | backend/app/user/controllers.py:84-87 | the new session and response are those of logging out |
| UserControllers.UserApp.CreateUser | backend/app/user/controllers.py:17-23 | the new store and response are those the creation rules give |

## Left out

- The calls to the model provider (`responses.create`) are left out. The first stream is an input sequence of events, and the second is a function from the log at that moment to a sequence of events.
- `json.loads`, `json.dumps` and `str()` of a value are function-valued parameters (`ChatServices.Codec`). They are not implementations of RFC 8259.
- `float()`, `JSON.parse`, `String()`, bcrypt's hash/check pair and `User.to_dict` are parameters too. Bcrypt is assumed deterministic (no salt), and `SignupThenLogin` asks for `check(hash(p), p)`.
- `ChatServices.ChatService.ProcessMessage` collects what the generator yields into a sequence. It does not model lazy delivery to the client or cancellation.
- Raises out of `process_message` are a failure outcome. They are not an error event sent to the client.
- MCP servers and client, the planner agent, `main.py`, prompts, tool declarations beyond the single `get_weather` entry, `seed.py`, app and database configuration, and all other UI components and fetch wrappers are left out. They are network code, static configuration or rendering.
- `parse_composio_search_results` of the second generation (`backend/app/chat/utils/formaters.py:12-23`) is left out. It subscripts a typing generic with a dict, so its behaviour depends on typing internals.
- Pydantic is reduced to its effect here. Records declared with required `str` fields accept exactly strings. The undeclared records hold their fields as raw values without validation. `model_dump()` is the record itself.
- The exception message text inside an error dict is not modelled. The model keeps the exception kind and the prefix.
- Every sequence of characters is a `string`; bytes, encodings and Unicode normalisation are not modelled.
- A JSON object is a list of key/value pairs. A lookup takes the first binding of a key. Python's `json.loads` and the browser's `JSON.parse` both keep the last duplicate key, so on an object with a repeated key `ChatServices.ParseArgs`, the composio lookups and `ChatInterface.Dispatched` may read a different value than the code. The region lemmas (`AgentFormatters.RegionMarketsEntries`, `AgentFormatters.FinanceRegions`) assume distinct keys for the same reason.
- The first generation's record classes: `SearchResults` in `backend/app/chat/agent/utils/schemas.py:28-32` requires `tool_name: str` and `result`, which the formatters never pass. As written, pydantic raises ValidationError there, so every first-generation composio parser would return its error dict. The records the formatters import but the schema file does not define (`AIPreviewResult`, `MarketResult`, `PriceMovement` and others) would already make the import fail. The model instead builds each record from the fields that are passed, so its successful replies are the ones the code evidently means to return.
- A chunk containing CR cannot be carried through event-stream framing, so the round-trip lemmas require chunks without CR.
- The page reads the stream with `@microsoft/fetch-event-source` (`ChatInterface.tsx:6,176`), not the browser's `EventSource`. That library's own line parser is not modelled; the framing is proved against the WHATWG event-stream algorithm instead.
- The event-stream `id` and `retry` fields, reconnection and `Last-Event-ID` are not modelled; they do not change any event's type or data. `fetchEventSource`'s `onopen` status check and the re-throw in `onerror` are not modelled either.
- Timestamps (`new Date()`), scrolling, `setTimeout`, console and logger output, and the debug prints are left out.
- Message ids come from `Date.now()` and are parameters.
- In `UserControllers` the database is in memory. Queries compare serialised values for equality. A commit failure is a boolean parameter. HTTP request parsing (`request.get_json()`) is the `body` argument.
- AgentFormatters.PriceRules: JSON numbers are exact reals (`PyJson.Json.JNum`), so `float(price_val)` at `backend/app/chat/agent/utils/formaters.py:104` is taken as exact. Python rounds an integer above 2^53 to the nearest float and raises OverflowError for an integer beyond float range. That OverflowError is outside the inner `except (ValueError, TypeError)`, so the source returns the finance error dict where the model returns a record. NaN and Infinity, which `json.loads` accepts, cannot be represented.
- AgentFormatters.MarketResultOf: its price is `PriceOf`, with the same gap as `AgentFormatters.PriceRules`: no float rounding, no OverflowError and no NaN or Infinity.
- `ChatInterface.ContentText`: a non-string `content` is shown through the `show` parameter, because `String()` of an arbitrary value is not modelled. The page passes `parsed.content ?? ""` on unconverted. When it pushes a fresh text block it stores the value raw, so a falsy non-string such as `0` or `false` shows as `""` in the message's text copy (`ChatInterface.tsx:63-64,75`). The model shows `show(v)` there.

## Findings

| source | as written | input that shows it | evidently intended | confidence | as-written member | corrected member |
|---|---|---|---|---|---|---|
| backend/app/chat/controllers.py:11 | each chunk is framed as `"data: " + chunk + "\n\n"`, so a chunk containing a line feed becomes two lines and only the first is a `data` line | the chunk `a\nb` is received as the event `a`; `b` is read as a field line with no colon and dropped | one `data:` line per line of the chunk, so the browser receives the chunk intact | not executed | ChatControllers.FrameSplitsMultilineChunk | ChatControllers.GenerateResponse |
