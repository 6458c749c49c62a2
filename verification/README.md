# Protocol conversion and routing of oh-my-api, verified

oh-my-api is a gateway between clients and model providers that speak three protocols: Anthropic messages,
OpenAI Chat completions and OpenAI Responses. This project models the parts of it that hold state or walk
graphs, in Dafny, and proves what they are for. `dafny verify dfyconfig.toml` checks everything.

How it is built:

- A component of the gateway that updates fields is a class with the same fields, or a method with the same
  loop. Next to it stands a step function on values that says what one call does; the method is proved to do
  just that, and the results about whole runs are lemmas about the step function.
- What a stream *says* and when a stream is *well formed* are defined without looking at any mapper: `Meaning`
  reads Chat chunks and Anthropic events, `Responses` reads Responses events, and `ClaudeGrammar` and
  `ResponsesGrammar` accept exactly the streams that a client can follow. Most results connect two of these.
- Go walks a map in any order. A method that does so takes any order, and reports it as a ghost result where
  the order can be seen in what it returns; results hold for every order.
- Locks: `JobSession`, `HubSessions` and `MetadataPublisher` are state machines whose steps are what a thread
  does while it holds a lock, or one case of a select. Their results hold for every interleaving of the steps.

| files | what they are about |
|---|---|
| Wire, Responses, Meaning, ClaudeGrammar, ResponsesGrammar | records on the wire, and independent readers of them |
| ChatToClaude, ClaudeOutput, ClaudeWellFormed, Endings | Chat to Anthropic: shape of the output, and how messages end |
| ClaudeToChat, RoundTrip | Anthropic to Chat, and the way there and back |
| ResponsesToChat, ResponsesKept, ResponsesNamed, ResponsesById, ResponsesBare | Responses to Chat and on to Anthropic: what is lost, and that it is nothing else |
| ChatToResponses, ResponsesOutput, ResponsesDelivered, ClaudeToResponses | Chat to Responses, and from Anthropic: complete responses |
| Envelopes | ids, model names, roles, media and usage around the text, for all mappers |
| Streams | the loops that put two mappers in a row |
| Batch, BatchAnswer, BatchAgrees, BatchById | whole Responses objects as answers; reading a stream into one, compared with streaming it |
| ModelConfig, Cycles, Aliases, Plans, Resolver, ContextLengths | groups, redirects, cycles, plans, context lengths |
| GroupEdits, RenameResolves | editing groups, and what that does to resolution |
| JobWaiter, JobWriter, JobSession, JobAnswers, JobRaces | cascade jobs between hub and spoke, step by step |
| SessionTable, SessionView, HubSessions | sessions as objects and as machines |
| MetadataPublisher, MetadataSnapshot, CallableNames | publishing metadata, what the hub accepts, and which names are told to it |
| Conversation, ConversationAnswers | what a Chat conversation says, told from its messages alone |
| ChatRequest, ChatRequestFifo, ChatRequestBack, ChatRequestRoundTrip, ChatRequestCalls | requests from Chat to Responses and back |
| Health, ModelIndex, IndexLookup | provider health, the index of context lengths |
| Collections | sequences without repetition, maps walked in any order |

## Where the code does not do what it is expected to

The model follows the code. Each point has a lemma that gives an input, or an exact condition.

- The stream mappers do not look at their finish flag before they send content. `WellFormedIffQuiet` and
  `ResponseSaysAll` say exactly for which streams the output is well formed all the same. Text after the finish
  breaks it in both protocols (`LateTextBreaks`); a call without an id is missing (`NamelessCallIsDropped`).
- Collecting a Responses stream into an object forgets argument text that comes before its call, which
  streaming keeps; it also has no incomplete reason and no reasoning. `StreamingAgrees` has the exact conditions,
  `EarlyTextIsForgotten` a stream.
- Argument text that comes before its call is kept by output index and by item id, but taken from one place only: of
  early text with and without the index, the part without it is lost (`MixedTextIsLost`, exactly when: `ChatSaysNamed`).
  Text for a call without any number is lost when it comes early or when there is a second such call
  (`ChatSaysBare`).
- The own texts of several reasoning items in one object come out with the last item first (`LastDetailFirst`).
- A job that has finished without an error still takes frames (internal/cascade/job.go:60-74): the text of one that
  comes after the final frame is added to an answer that was complete, and its status can replace the one there.
  `OutcomeKeptIff` says exactly when, `LateFrameIsAdded` gives the run. With the frames of one answer only, the
  outcome is fixed (`ReplyIsFixed`).
- The status of a streaming job whose frames before the last have no text depends on when its caller looks
  (`LateErrorRaces`): an error that ends it is answered as such or as 200 with its text lost. `AlwaysOkIff` and
  `AlwaysChunksIff` say for which frames the moment does not matter. The frames of the spoke's own writer are
  such that the body is right at every moment (`BodyArrives`).
- A streaming caller that gives up before it has looked leaves the table without closing its pipe
  (internal/cascade/job.go:204-209). If the first frame had text and the cancellation finds the job gone, the reader
  of the session waits for that pipe for good, and no other job of the session gets a frame (`GivingUpBlocks`);
  `StuckIff` says exactly when a reader that waits is lost.
- When registration times out just after the new session was installed (internal/cascade/hub.go:149-157), the
  session is removed but not closed; a caller that got hold of it in between waits until its own context ends.
  `AbandonedIff` says that this is the only way for a session to be lost, and `ExpiredStaysOpen` that it stays so.
- handleMetadataReject is documented to ignore rejections of older snapshots. One that is the latest when it
  arrives but is taken only after the next snapshot went out makes that one go out twice; the channel is not
  emptied between connections either. `ForNothingIff` has the exact condition.
- Updating a group to a name with a slash is accepted, and the resulting configuration is always refused by the
  resolver (`SlashIsAccepted`, `RenameStaysValidIff`). Renaming or deleting a group that smart_route names is accepted too, and then
  refused by the resolver (`RenameKeepsResolution`, `DeleteIgnoresSmartRoute`).
- The names a spoke lists are documented to be those its resolver lets others call. A name that is defined twice, first
  open to all and last as internal, is listed and refused; nothing forbids such a configuration (`ListedIffCallable`).
- The documentation of Lookup promises every part of a name without its date. A part that was already added as
  an earlier part without its date keeps a second date (`ADateStaysOn`).

## Model

| member | source | states |
|---|---|---|
| ChatToClaude.Mapper.Map | internal/codec/stream_map_chat_to_anthropic.go:116-256 | one chunk advances every field of the mapper and sends the events that `MapStep` says, item by item in the order role, reasoning, text, tools, finish, then usage |
| ChatToClaude.Mapper.CloseOpenContentBlocks | internal/codec/stream_map_chat_to_anthropic.go:93-114 | stops thinking, then text, then each tool block once, tools in increasing block index whatever order the tool map is walked in |
| ChatToClaude.SortedUnique | internal/codec/stream_map_chat_to_anthropic.go:106-111 | an increasing list is fixed by its members, so the map order cannot show in the stops |
| ChatToClaude.Mapper.Flush | internal/codec/stream_map_chat_to_anthropic.go:283-301 | the end of the stream: closes what is open, defaults the stop reason to end_turn, and changes nothing once the stop was sent |
| ClaudeOutput.OneMessage | internal/codec/stream_map_chat_to_anthropic.go:38-114 | for every input: nothing at all, or message_start first with zero usage, exactly one message_delta and then exactly one message_stop, and no second message_start |
| ClaudeOutput.FlushTwice | internal/codec/stream_map_chat_to_anthropic.go:283-301 | a second Flush sends nothing and changes nothing |
| Envelopes.StartTold | internal/codec/stream_map_chat_to_anthropic.go:38-62 | for every Chat stream, message_start has the id of the first chunk that carries anything, else an id of its own, and the model asked for, else that chunk's, else the first one named before |
| Envelopes.MediaTold | internal/codec/request_openai_to_anthropic.go:525-552 | a text fragment becomes a media block exactly if it is a data URI with a comma, of its media type less a base64 mark and its content, opened and closed at once |
| ClaudeWellFormed.WellFormedIffQuiet | internal/codec/stream_map_chat_to_anthropic.go:116-301 | the whole output is accepted by an independent reader of the protocol (blocks opened at 0, 1, 2, ..., deltas of the right kind on open blocks only, each block stopped once, message_stop last) if and only if no content follows the finish; the usage record that ends the message cuts off the rest |
| ClaudeWellFormed.LateTextBreaks | internal/codec/stream_map_chat_to_anthropic.go:116-256 | text in the chunk after the finish: the output is not well formed |
| Endings.MessageEnds | internal/codec/stream_map_chat_to_anthropic.go:243-301 | for every input, the one message_delta carries the stop reason of the first finish reason of the Chat stream (end_turn without one) and the usage record that counts: the last one up to the finish, or else the first after it |
| Endings.StopTold | internal/codec/stream_map_chat_to_anthropic.go:243-301 | for every Chat stream that came to anything, the stop reason of the one message_delta is max_tokens if and only if the first finish reason is length, tool_use if and only if it is tool_calls, and end_turn for any other one or none |
| ClaudeToChat.Mapper.Map | internal/codec/stream_map_anthropic_to_chat.go:92-196 | one event advances every field and sends the chunks that `MapStep` says |
| ClaudeToChat.Mapper.MergeUsage | internal/codec/stream_map_anthropic_to_chat.go:54-74 | start and delta usage merge: output counts only come from message_delta, a delta without input count keeps the one from the start, cached counts stay once seen, and the total is the sum |
| ClaudeToChat.MeaningKept | internal/codec/stream_map_anthropic_to_chat.go:92-196 | for every event sequence, well formed or not, the Chat chunks say exactly what the events said: text, reasoning, tool calls with id, name and arguments in order, finish reason |
| Envelopes.ChatNamedForClaude | internal/codec/stream_map_anthropic_to_chat.go:41-150 | every chunk carries the response id and the model known by then, told from the message_start events so far and the model asked for; each message_start, and nothing else, gives the assistant role |
| Envelopes.DeltaReports | internal/codec/stream_map_anthropic_to_chat.go:54-182 | for every event stream, a message_delta with a stop reason or usage sends one chunk and any other none; the chunk finishes exactly if there is a stop reason and carries all usage seen so far exactly if a message_delta has given some |
| Endings.FinishTold | internal/codec/stream_map_anthropic_to_chat.go:152-191 | for every event stream, the Chat finish reason is length if and only if the first event that ends the message says max_tokens, tool_calls if and only if it says tool_use, stop for every other reason and for a bare message_stop, and missing if nothing ends it |
| RoundTrip.ClaudeMeaning | internal/codec/stream_map_chat_to_anthropic.go:116-256 | when nothing follows the finish, the Claude events say the plain text and all reasoning of the chunks, and the same calls if and only if the first record of each call carries an id |
| RoundTrip.RoundTripIff | internal/codec/stream_map_anthropic_to_chat.go:54-196 | Chat to Claude and back says the same if and only if there is no data URI among the text fragments, every call is announced with its id, and the finish reason is stop, length or tool_calls |
| Endings.UsageReturns | internal/codec/stream_map_anthropic_to_chat.go:54-90 | for every Chat stream, Chat to Claude and back reports the prompt and completion counts of the usage record that counted (a negative prompt count as 0), the total recomputed from them and the details gone |
| ResponsesToChat.Mapper.Map | internal/codec/stream_map_response_to_chat.go:181-398 | one event advances every field and sends the chunks that `MapStep` says, or fails on a response.failed event |
| ResponsesToChat.Mapper.Find | internal/codec/stream_map_response_to_chat.go:80-119 | a tool is found by output index, else by item id, else as the only tool there is, and an item id that is found this way is remembered |
| ResponsesToChat.Mapper.Ensure | internal/codec/stream_map_response_to_chat.go:121-157 | a new tool gets the next index and a known one keeps its index |
| ResponsesKept.ChatSaysAll | internal/codec/stream_map_response_to_chat.go:80-157 | with one output index per tool event and each index announced once, every argument fragment reaches its call, in order, whether it came before or after the announcement; text, reasoning, finish reason and usage are the stream's own |
| ResponsesKept.ClaudeSaysAll | internal/codec/stream_write_anthropic.go:39-98 | the same on to Claude: the events are well formed, no tool delta is dropped for want of a block, each call has all its argument text, and the stop reason fits |
| ResponsesNamed.ChatSaysNamed | internal/codec/stream_map_response_to_chat.go:80-157 | calls named by output index, by item id or by both, each announced once: text, reasoning, finish reason and usage are the stream's own, every call has the text that arrives at it, told from the events alone, and this is all text sent for it if and only if every delta shares a name with its announcement, or, if it came early, is kept where the announcement takes it from |
| ResponsesById.ChatSaysById | internal/codec/stream_map_response_to_chat.go:88-106 | streams that give item ids and no output index, each announced once: every call has all argument text sent with its item id, early or late, in order |
| ResponsesById.IdsAreEnough | internal/codec/stream_map_response_to_chat.go:275-288 | nothing is lost when all events of a call give its one item id and either all deltas or none give the index as well |
| ResponsesById.ClaudeSaysNamed | internal/codec/stream_write_anthropic.go:39-98 | the same on to Claude: a well-formed stream in which every call has the text that arrives at it |
| ResponsesById.MixedTextIsLost | internal/codec/stream_map_response_to_chat.go:275-288 | early text with an item id only is lost when other early text of its call came with the index |
| ResponsesBare.ChatSaysBare | internal/codec/stream_map_response_to_chat.go:107-139 | calls announced without any number, under call ids of their own: the first has the text that came while it was the only one, and afterwards what gives a number that came with such text; all other text reaches no call |
| ResponsesBare.OnlyCallGetsAll | internal/codec/stream_map_response_to_chat.go:107-139 | so a single such call has all argument text that comes after it, whatever numbers that gives, and none that comes before |
| Envelopes.ChatNamedForResponses | internal/codec/stream_map_response_to_chat.go:51-68 | every chunk carries the response id and the model known by then, told from the response.created events; the role is given once, by the first chunk that response.created, a reasoning text or the announcement of a call sends |
| Responses.AnnouncesTold | internal/codec/stream_map_response_to_chat.go:232-262 | an item announces a call exactly if it is a function_call or custom_tool_call and its name is not blank |
| Responses.CallIdTold | internal/codec/stream_map_response_to_chat.go:121-157 | a call goes by its call id, or by its item id if that is blank |
| Streams.WriteResponsesStreamAsClaude | internal/codec/stream_write_anthropic.go:32-106 | the scan loop sends exactly what the two mappers in a row give, flushed once at the end of the stream; a line that does not decode or a failed response ends it early without the flush |
| Streams.FailsIff | internal/codec/stream_map_response_to_chat.go:389-398 | the conversion fails if and only if the upstream reports a failure, and has then sent what the events before it gave and no more |
| ChatToResponses.Mapper.Map | internal/codec/stream_map_chat_to_response.go:112-254 | one chunk advances every field and sends the events that `MapStep` says, the tools closed in whatever order the map is walked in |
| ChatToResponses.Mapper.Flush | internal/codec/stream_map_chat_to_response.go:313-319 | response.completed is sent at the end if a finish is pending, and once only |
| ChatToResponses.UsageSymmetric | internal/codec/stream_map_chat_to_response.go:258-292 | mapping usage to the Responses protocol and back is the identity if and only if no figure was zero where zero is left out |
| Envelopes.ResponseNamed | internal/codec/stream_map_chat_to_response.go:52-78 | for every input, response.created and response.completed carry the one response id, and the model asked for or the first that was named up to then |
| Envelopes.CallItems | internal/codec/stream_map_chat_to_response.go:156-200 | a new call is announced as an item whose id is made from the call id, with that id and its name, and its text refers to that item |
| ChatToResponses.FlushTwice | internal/codec/stream_map_chat_to_response.go:313-319 | a second Flush sends nothing and changes nothing |
| ResponsesOutput.RunFollows | internal/codec/stream_map_chat_to_response.go:112-319 | for every input and every order of the tool map, an independent reader (response.created first, items added at 0, 1, 2, ..., done once with the content their deltas spelled out) follows the output if and only if nothing follows the finish that would have to be sent |
| ResponsesOutput.HoldsRun | internal/codec/stream_map_chat_to_response.go:126-200 | for every input the mapper holds the text and the arguments of every call as the chunks said them |
| ResponsesDelivered.ResponseSaysAll | internal/codec/stream_map_chat_to_response.go:112-319 | the response is complete if and only if a finish was seen and nothing followed it; it then holds the text, the usage reported, and exactly the calls said if and only if each was announced with an id |
| ResponsesDelivered.LateTextBreaks | internal/codec/stream_map_chat_to_response.go:112-254 | text in the chunk after the finish: there is no complete response |
| ResponsesDelivered.NamelessCallIsDropped | internal/codec/stream_map_chat_to_response.go:156-190 | a call whose first record has no id is not in the complete response |
| ClaudeToResponses.ComesThrough | internal/codec/stream_write_response.go:59-104 | every well-formed Claude stream becomes one complete response with its text and the usage totals of its start and delta, and with its calls if and only if every tool block has an id |
| Streams.WriteAnthropicStreamAsResponses | internal/codec/stream_write_response.go:54-119 | the scan loop sends exactly what the two mappers in a row give, numbered 0, 1, 2, ... without a gap |
| Streams.Sequencer.Rewrite | internal/codec/stream_write_response.go:17-25 | each event gets the next sequence number |
| Batch.ExtractOutputText | internal/codec/response_response_to_chat.go:123-156 | the text parts of the assistant messages, or of any message when those are empty |
| Batch.Convert | internal/codec/response_response_to_chat.go:16-118 | a response object becomes the Chat answer, or an error exactly if it failed or a message in it holds a part that is neither text nor a refusal |
| BatchAnswer.AnswerTold | internal/codec/response_response_to_chat.go:30-156 | for every object: the text is that of the output_text parts of the assistant's messages in order of items and parts, or all text there is if that is empty; reasoning is the items' own texts, the last item first, and then their summaries in order; calls come in order with trimmed ids and names; and what decides each finish reason |
| BatchAnswer.OneDetail | internal/codec/response_response_to_chat.go:62-86 | the own texts are in the order of their items if no more than one is not empty |
| BatchAnswer.LastDetailFirst | internal/codec/response_response_to_chat.go:83-86 | two reasoning items with text come out the other way round |
| BatchAnswer.ConvertedIff | internal/codec/response_response_to_chat.go:16-44 | an object is converted exactly if it did not fail and its messages hold nothing but output text and refusals |
| BatchAnswer.DetailsFilled | internal/codec/response_compat.go:128-200 | a collected object has all details of usage, zeros where none were given; in Chat's terms only the prompt details can differ |
| BatchAnswer.EndTold | internal/codec/stream_map_response_to_chat.go:159-179 | the finish reason is content_filter or length exactly for an incomplete response with or without that reason, else tool_calls exactly if a tool was seen, else stop |
| Batch.ReadToObject | internal/codec/response_via_chat.go:130-297 | reads the whole stream into one object; an error exactly if a response.failed event occurs |
| BatchAgrees.StreamingAgrees | internal/codec/response_via_chat.go:130-297 | streaming and collecting agree on the text, on the number of calls and on usage; on the calls, up to their order, if and only if no argument text came before its call; on the finish reason if and only if the status is not incomplete in a form that collecting does not see; collecting has no reasoning |
| BatchById.StreamingAgreesById | internal/codec/response_via_chat.go:130-297 | the same for streams that give item ids and no output index; the calls agree if and only if no argument text comes before its item |
| BatchAgrees.EarlyTextIsForgotten | internal/codec/response_via_chat.go:168-297 | argument text before its call, and an answer cut off by the content filter: collected, the calls and the finish reason are not the streamed ones |
| BatchAgrees.CallCollected | internal/codec/response_via_chat.go:168-236 | each collected call has the id and name of the streamed one, and its arguments are the streamed ones less what came early |
| Cycles.Search.Detect | internal/model/resolver.go:348-397 | an error if and only if the reference graph, redirects followed, has a cycle; the error names a reference on one; otherwise a rank falls along every reference. The path is never read while empty |
| Cycles.Search.Visit | internal/model/resolver.go:354-386 | the three-colour search from one name, terminating by the names not met yet |
| ModelConfig.RankedIsAcyclic | internal/model/resolver.go:348-397 | a falling rank rules out every cycle |
| ModelConfig.KeyIsModel | internal/model/resolver.go:500-515 | the provider and upstream name of an entry are the only two that make it up with a slash between them and none in the provider |
| Aliases.ResolveAlias | internal/model/resolver.go:311-330 | follows the first redirect for each name and terminates; succeeds exactly when the chain comes to a group |
| Aliases.LeadsOnce | internal/model/resolver.go:311-330 | a chain comes to one group at most |
| Aliases.BuildRedirects | internal/model/resolver.go:271-308 | fails exactly when a name is malformed or a group's or some target leads nowhere; otherwise the table holds the last redirect of each source with the group it leads to |
| Aliases.LookupFollows | internal/model/resolver.go:400-408 | with distinct sources, looking a name up in the table is the same as following its redirects |
| Resolver.NewResolver | internal/model/resolver.go:128-217 | succeeds if and only if no group name has a slash, every sticky setting parses, all redirects lead to groups, every reference is known, there is no cycle, and every name of smart_route is known |
| Resolver.TablesOnce | internal/model/resolver.go:128-217 | a configuration stands for one pair of tables only |
| Resolver.Resolver.BuildPlanNode | internal/model/resolver.go:490-538 | terminates by the rank, and gives the plan of the group |
| Plans.PlanLeaves | internal/model/resolver.go:490-538 | the leaves of a plan are exactly the provider models on some walk of references from its group whose provider is known |
| Resolver.Resolver.ResolveByName | internal/model/resolver.go:421-472 | not found exactly if the name is no callable group or redirect; no valid provider exactly if every provider model reachable from it has an unknown provider; otherwise the group, its plan and the plan's leaves |
| Resolver.Resolver.VisibleModelLeaves | internal/model/resolver.go:559-583 | each provider model reachable from a visible name, once, and nothing else; these are the leaves of its plan if and only if all their providers are known |
| Plans.PlanIsAllVisible | internal/model/resolver.go:490-606 | the provider models of a plan are all those reachable from its group if and only if every provider among these is known |
| Resolver.Resolver.CollectGroupLeaves | internal/model/resolver.go:586-606 | adds exactly the provider models reachable from the group |
| Plans.MergeByOrder | internal/handler/materialize.go:72-90 | leaves and children come back in the recorded order |
| Plans.MaterializePlan | internal/handler/materialize.go:35-60 | the run tree of a plan |
| Plans.PlanRunsAsConfigured | internal/handler/materialize.go:35-90 | splitting a group into leaves and children and merging them again gives its configured entries in their order, each once, at every depth |
| Resolver.Resolver.CollectLengths | internal/model/resolver.go:623-660 | the least of the collected lengths is the least below the group, though equal lengths are collected once |
| Resolver.Resolver.ResolveContextLength | internal/handler/model_metadata.go:109-137 | the group's own setting, or else the smallest positive length below it |
| ContextLengths.LeastOffered | internal/handler/model_metadata.go:109-137 | that smallest length is offered by some group reachable without passing a setting, by a provider model or by the setting of a child group, and is at most every length so offered; it is missing exactly if none is |
| JobWaiter.Job.AppendChunk | internal/cascade/job.go:57-97 | a result frame goes to the buffer or the pipe, sets the status, and finishes the job if it is final |
| JobWaiter.Job.Wait | internal/cascade/job.go:125-137 | the error if there is one, else the body |
| JobWaiter.OutcomeStays | internal/cascade/job.go:57-137 | under every later operation a finished waiter keeps its error and its piped text, and one that failed keeps its body and status too |
| JobWaiter.OutcomeKeptIff | internal/cascade/job.go:57-137 | under any later operations, what a finished waiter gives its caller stays the same if and only if it failed or no later frame adds text to the buffer, and its status if and only if it failed or no later final frame sets another |
| JobWaiter.FirstDecides | internal/cascade/job.go:57-123 | whichever comes first of finishing and failing decides: after a failure the outcome is that error and nothing changes; after finishing there is no error any more, and the body and status are those of that moment with what later frames add |
| JobWaiter.ErrorIff | internal/cascade/job.go:139-231 | a streaming job is answered with an error status if and only if its caller looks only when the last frame has been taken and that one carries such a status; otherwise with 200 |
| JobWaiter.StatusOfPlain | internal/cascade/job.go:249-254 | a job that does not stream is answered with the status of its last frame, or with 200 if that has none |
| JobWaiter.StatusOfStream | internal/cascade/job.go:139-231 | it is answered with 200 whenever its caller looks, if and only if the last frame carries no error status or some frame before it has text, which holds the reader back until the caller has looked |
| JobWaiter.BodyIsChunks | internal/cascade/job.go:57-97 | the body the hub answers with is the text of the frames in order, unless the caller of a streaming job looks before a last frame that carries both an error status and text, and only then not |
| JobWaiter.AlwaysChunksIff | internal/cascade/job.go:57-97 | so it is whenever the caller looks if and only if the job is not a streaming one with such a frame |
| JobWaiter.LateErrorRaces | internal/cascade/job.go:204-231 | two frames of a streaming job, the first empty, the second an error with text: depending on when the caller looks, 200 with an empty body or the error with its text |
| JobWriter.Writer.WriteText | internal/handler/cascade_job.go:275-283 | accepted bytes are buffered or recorded; after a lost frame nothing more is accepted |
| JobWriter.Writer.FinishWriting | internal/handler/cascade_job.go:301-315 | sends what is left and then the one final frame |
| JobWriter.FramesConserve | internal/handler/cascade_job.go:253-315 | for every run of writes and flushes and every behaviour of the connection: if finishing succeeds the frames hold the accepted bytes in order and exactly one frame, the last, is final with the status; if not, none is final and they hold a prefix |
| JobWriter.BodyArrives | internal/handler/cascade_job.go:253-315 | the body on the hub equals the bytes the handler wrote on the spoke, whenever the caller looks |
| JobWriter.StatusArrives | internal/handler/cascade_job.go:253-315 | the status answered is the one the handler set last, whenever the caller looks: for a job that does not stream always (200 if it is not positive); for one that does 200 instead of anything below 400, and of an error too if the writer streams and there is text, since the status comes after it |
| JobWriter.FinishedIff | internal/handler/cascade_job.go:253-315 | finishing succeeds if and only if every frame it needed went out: no flush with text was refused, and the connection takes the text that is left and the last frame |
| SessionTable.Session.BeginJob | internal/cascade/session.go:48-54 | enters a fresh waiter under the id and touches no other |
| SessionTable.Session.FailAllJobs | internal/cascade/session.go:94-101 | every job of the table fails and the table is empty, whatever order it is walked in |
| SessionTable.Session.DeliverResult | internal/cascade/session.go:71-79 | appends the frame to the waiter under its id and changes no other; a frame for an unknown id is dropped |
| SessionTable.Session.CloseWithReason | internal/cascade/session.go:153-172 | the first close fails all jobs and forgets the metadata; later ones do nothing |
| JobSession.NoJobLeftHanging | internal/cascade/job.go:166-202 | in every interleaving of callers with distinct job ids, the reader, cancellers and closers: once closing has swept the table, whoever waits has a finished waiter and whoever has yet to send is refused; when all callers are done the table is empty |
| JobSession.OutcomeIsFixed | internal/cascade/job.go:99-137 | between any two points of any run, a finished waiter keeps its error and its piped text, and one that failed keeps its body and status too |
| JobSession.DeliveredAsOne | internal/cascade/session.go:71-79 | although a delivery is several locked sections, a waiter that did not fail is as if every frame addressed to it had been appended in one piece |
| JobAnswers.AnswerIsWhole | internal/cascade/job.go:165-261 | in every interleaving of callers with distinct job ids: as long as the frames read under its id are the first of one well-ended answer, a caller that is answered gets the status and body that these frames make for some moment at which it may look; for one that does not stream the status is that of the last frame, or 200 without one |
| JobAnswers.ReplyIsFixed | internal/cascade/job.go:57-261 | between any two points of such a run, a finished waiter keeps its error, body, piped text and status, and an answer once given stays the same |
| JobAnswers.WrittenIsRead | internal/handler/cascade_job.go:253-315 | from the handler on the spoke through every such interleaving to the caller on the hub: if finishing succeeded, the body answered is the bytes the handler wrote, and the status the one `StatusArrives` gives |
| JobRaces.AlwaysOkIff | internal/cascade/job.go:165-261 | no run gives the caller of a streaming job another status than 200, if and only if the last frame carries no error status or some frame before it has text |
| JobRaces.LateFrameIsAdded | internal/cascade/job.go:57-81 | for any callers, any well-ended answer to one of them that does not stream, and any further frame with text: a run in which that text is added to the complete answer of a finished job |
| JobRaces.StuckIff | internal/cascade/job.go:84-92 | in every run: a reader held by the pipe of a job stays so whatever happens, and reads no frame of any other job, if and only if that job has left the table and no cancellation has it in hand |
| JobRaces.GivingUpBlocks | internal/cascade/job.go:204-209 | a run that ends so, for any callers and any frame with text: a streaming caller gives up and leaves the table after the first frame was announced and before it has looked |
| SessionView.FeedsAsObject | internal/cascade/session.go:71-79 | when the pipe does not hold the reader back, the sections of a delivery in a row do to the table of waiters what DeliverResult of the session object does |
| SessionView.SweepsAsObject | internal/cascade/session.go:94-101 | swept in any order, the waiters in the table fail and no other changes, as in FailAllJobs of the session object |
| JobSession.ReusedIdHangs | internal/cascade/session.go:48-54 | for any callers, of any two with one id either can be left waiting when the session is closed, its waiter out of reach of everything that may happen later |
| JobSession.StaysForgotten | internal/cascade/session.go:48-101 | a waiter that is in no table and that no canceller or reader holds is never finished, in any run |
| JobSession.NoneHangsIffDistinct | internal/cascade/job.go:166-202 | no run of the callers leaves one of them hanging after the session is closed, if and only if their job ids are distinct |
| HubSessions.LateClearIsHarmless | internal/cascade/hub.go:149-218 | in every run, a late clearSession of a replaced session, by its reader or by the timeout of its registration, leaves its successor in place, and the session handed out is always the newest |
| HubSessions.AbandonedIff | internal/cascade/hub.go:115-218 | for every run and every session: it is neither handed out nor closed nor about to be closed if and only if its registration timed out at a moment when the hub was handing it out |
| HubSessions.NoSessionAbandoned | internal/cascade/hub.go:180-218 | every other session is the current one, closed, or will be closed by the hub |
| HubSessions.ExpiredStaysOpen | internal/cascade/hub.go:115-160 | such a session is never closed, in whatever way the run goes on |
| HubSessions.ExpiryAbandons | internal/cascade/hub.go:149-157 | it can happen to every session: in any run that has just installed one, the timeout of its registration abandons it |
| HubSessions.ClosedIff | internal/cascade/hub.go:115-218 | in every run a session is closed if and only if a successor was installed while it was handed out, its reader ended, or Hub.Close came to it |
| HubSessions.EndRuns | internal/cascade/hub.go:204-223 | when a reader ends, its session is closed and cleared, once, and a newer session stays |
| HubSessions.HubCloses | internal/cascade/hub.go:180-194 | Hub.Close takes the session handed out and closes it, once, and none is handed out any more |
| MetadataPublisher.Publisher.Publish | internal/cascade/spoke_metadata.go:125-155 | sends unless the body is the last one sent and no resend is forced; a body that cannot be encoded schedules a retry, a failed write stops the publisher |
| MetadataPublisher.AttemptsBounded | internal/cascade/spoke_metadata.go:40-117 | in every interleaving, from any tokens left in the channels, at most 1 + 3 attempts are made between two notifications that the publisher takes from its channel, and after the last attempt nothing is armed |
| MetadataPublisher.ResentIffRejected | internal/cascade/spoke_metadata.go:40-155 | an unchanged body is sent again only if the hub rejected that very snapshot, or it was sent while an older rejection waited in the channel; and if so it is sent again once the rejection has been taken |
| MetadataPublisher.OnlyRejectedResent | internal/cascade/spoke_metadata.go:19-30 | in every run in which no snapshot is sent while a rejection waits, no snapshot is sent again that was not rejected itself |
| MetadataPublisher.ForNothingIff | internal/cascade/spoke_metadata.go:19-155 | after any run, the latest snapshot may yet be sent again without ever having been rejected if and only if it was sent while an older rejection waited, has not been rejected since, and the connection still writes |
| MetadataPublisher.RejectedIsResent | internal/cascade/spoke_metadata.go:40-155 | a rejection taken while retries are left has the snapshot sent again when the timer fires |
| MetadataPublisher.RejectionResends | internal/cascade/spoke_metadata.go:19-155 | from any point where retries are left and nothing is due: a rejection of the latest snapshot has it sent once more |
| MetadataPublisher.StaleRejectResends | internal/cascade/spoke_metadata.go:19-30 | so after any run, a snapshot that goes out while a rejection waits can be sent twice, the first one of a connection included |
| MetadataPublisher.NothingForgotten | internal/cascade/spoke_metadata.go:40-117 | in every run: a snapshot that is owed (at the start, after a notification or a rejection was taken, until it was sent or found unchanged) is tried at once or when the timer fires, unless the connection broke or the retries are used up; when none is owed nothing is tried and the hub was sent what was found last; each token is taken once |
| MetadataPublisher.ChangeIsSent | internal/cascade/spoke_metadata.go:40-155 | a changed snapshot goes out as soon as its notification is taken, whatever happened before |
| MetadataPublisher.BudgetRenewed | internal/cascade/spoke_metadata.go:40-117 | after a notification four attempts can follow, whatever was used up before; when all fail nothing is armed |
| MetadataSnapshot.ParseSnapshot | internal/cascade/metadata.go:12-49 | all or nothing: the table of names and lengths if every entry is acceptable, else none |
| MetadataSnapshot.ReadSnapshots | internal/cascade/hub.go:282-292 | over every run of frames the session holds the table of the last acceptable one and is untouched if there is none; exactly the others are rejected, in order |
| MetadataSnapshot.ListDirectCallableNames | internal/config/cascade_validate.go:162-187 | exactly the names of public and hidden groups and redirects, each once |
| MetadataSnapshot.BuildSnapshot | cmd/oh-my-api/cascade_runtime.go:203-219 | one entry for each name, with the context length if it is positive |
| MetadataSnapshot.ValidatedIsAccepted | internal/config/cascade_validate.go:201-218 | the snapshot of every configuration that passes the checks on callable names is acceptable to the hub, and its table has exactly those names with their lengths |
| MetadataSnapshot.AcceptedTable | internal/cascade/metadata.go:12-49 | an accepted table has one name for each entry, at most 1000, none empty or longer than 256 bytes in UTF-8, and no negative length |
| MetadataSnapshot.RefusedJoin | internal/cascade/hub.go:282-292 | frames are refused one by one, in order |
| CallableNames.ListedIffCallable | internal/config/cascade_validate.go:152-187 | every name the resolver lets others call is listed; a listed name is refused by the resolver if and only if it is defined twice, first open to all and last as internal |
| CallableNames.CallableTold | internal/model/resolver.go:421-472 | who may call a name, told from the configuration: the last group or redirect of that name counts, and keeps others out exactly if it is internal |
| CallableNames.ModeTold | internal/model/resolver.go:128-160 | the mode of a group is the one written, failover if there is none, and load-balance in either spelling |
| CallableNames.KnownTold | cmd/oh-my-api/cascade_runtime.go:203-219 | the length reported for a name is the positive setting of its group, or where nothing is set the least one offered on a walk below it; none if there is no such length |
| ChatRequest.FillInstructionsAndInput | internal/codec/request_chat_to_response.go:59-157 | splits the messages into instructions and input items; fails exactly on a legacy function result whose name does not have exactly one waiting call |
| ChatRequest.RemovePendingCallID | internal/codec/request_chat_to_response.go:379-386 | removes the first occurrence only |
| ChatRequestFifo.FilledFollows | internal/codec/request_chat_to_response.go:59-157 | the conversion fails exactly if some legacy result does not have exactly one open call; otherwise its counters, its waiting calls and its legacy calls are those that the messages alone determine |
| ChatRequestFifo.PendingIsUnanswered | internal/codec/request_chat_to_response.go:97-157 | with distinct call ids and no result before its call, the waiting ids are exactly the calls made and not answered, in the order they were made |
| ConversationAnswers.AnsweredOnceIff | internal/codec/request_chat_to_response.go:97-157 | with ids of their own and no result before its call, no call is answered twice if and only if no result names a call that has been answered |
| ChatRequestFifo.OldestFirst | internal/codec/request_chat_to_response.go:107-130 | a result without an id goes to the oldest unanswered call; it stays without one exactly if there is none |
| ChatRequestBack.ConvertRequest | internal/codec/request_response_to_chat.go:24-102 | instructions first, each result right after its call, and results without a call at the end |
| ChatRequestBack.MessagesSayItems | internal/codec/request_response_to_chat.go:24-102 | texts and calls come in the order of the items, and every result exactly once if and only if results have distinct non-empty call ids |
| ChatRequestBack.AnswerFollows | internal/codec/request_response_to_chat.go:64-90 | a call that has a result is immediately followed by it |
| ChatRequestRoundTrip.ItemsSayAll | internal/codec/request_chat_to_response.go:59-157 | the items hold every text and call of the conversation in order, and every result in order with the call it is for, all told from the messages alone |
| ChatRequestRoundTrip.ConversationSurvives | internal/codec/request_response_to_chat.go:24-102 | for every conversation, there and back: the way there succeeds if and only if every legacy result has its call, the way back if and only if every role is known to Chat; texts and calls come back once and in order after one joined system message; the results come back, each once, if and only if they are for different calls; and then, call ids being distinct, each immediately follows its call |
| ChatRequestRoundTrip.OrderlySurvives | internal/codec/request_response_to_chat.go:24-102 | when calls have ids of their own and no result comes before its call: every text, call and result comes back once, and every answered call is immediately followed by the result of the message that answered it, if and only if no result names a call that has been answered |
| ChatRequestCalls.ItemsHoldCalls | internal/codec/request_chat_to_response.go:59-157 | the items hold every call of the conversation in order, each under its id and name, with its very arguments if these are a JSON object and with an empty object otherwise |
| ChatRequestCalls.CallsSurvive | internal/codec/request_response_to_chat.go:24-102 | there and back the same: if the arguments of all calls are JSON objects, every call comes back with its own |
| ChatRequestCalls.ReasoningReplayed | internal/codec/request_chat_to_response.go:59-157 | with replay on, the reasoning items are the reasoning texts of the assistant's messages in order; with replay off there are none |
| ChatRequestCalls.JoinedInOrder | internal/codec/request_chat_to_response.go:59-157 | system texts are joined in order with one newline between them |
| ChatRequestCalls.BackIff | internal/codec/request_response_to_chat.go:24-102 | the way back is refused if and only if a message has a role that is not known or an item is of a kind that is neither known nor additional_tools |
| ChatRequestCalls.AllShaped | internal/codec/request_response_to_chat.go:410-480 | every message that comes back has a role of Chat; calls come one to a message of the assistant that says nothing else, and only a tool answers a call |
| ChatRequestCalls.FreshIds | internal/codec/request_chat_to_response.go:59-157 | the ids made for calls without one never meet, neither each other nor those of legacy calls |
| GroupEdits.Draft.Update | internal/runtimeconfig/model_group_crud.go:236-272 | given fields that are valid otherwise, succeeds exactly if the name is not blank, the group exists and a new name is free; replaces it and carries the new name into redirect targets and the entries of other groups; a refusal changes nothing |
| GroupEdits.Draft.PropagateRename | internal/runtimeconfig/model_group_crud.go:275-295 | every redirect target and every plain entry of the other groups that was the old name is the new one, everything else stays |
| RenameResolves.RenameKeepsResolution | internal/runtimeconfig/model_group_crud.go:236-295 | renaming a group of a valid configuration to a fresh name, models kept, leaves groups and redirects valid; every group and redirect resolves to the same group as before (old name read as new) and reaches the same provider models; the resolver accepts the result if and only if smart_route does not name the old one |
| RenameResolves.SlashIsAccepted | internal/runtimeconfig/model_group_crud.go:128-158 | a new name with a slash passes the update checks and always makes the configuration invalid |
| RenameResolves.RenameStaysValidIff | internal/runtimeconfig/model_group_crud.go:128-295 | a rename that is permitted, the group's models kept, leaves groups and redirects valid if and only if the new name has no slash |
| GroupEdits.Draft.Delete | internal/runtimeconfig/model_group_crud.go:335-349 | succeeds exactly if the group exists and nothing refers to it, and removes that group only |
| RenameResolves.DeleteIffStillValid | internal/runtimeconfig/model_group_crud.go:298-349 | in a valid configuration a group may be deleted if and only if groups and redirects without it are valid, so that none of them dangles |
| RenameResolves.DeleteIgnoresSmartRoute | internal/runtimeconfig/model_group_crud.go:298-349 | what is left after a permitted deletion is accepted by the resolver if and only if smart_route does not name the group |
| GroupEdits.Draft.Reorder | internal/runtimeconfig/model_group_crud.go:367-397 | succeeds exactly if the names are the groups' names, each once; the result is a permutation in that order, and a refusal changes nothing |
| GroupEdits.ReorderedIsPermutation | internal/runtimeconfig/model_group_crud.go:367-397 | picking each named group once is a permutation of the groups |
| GroupEdits.MayReorderIff | internal/runtimeconfig/model_group_crud.go:367-397 | an order is accepted if and only if it is a permutation of the groups' names, these are distinct, and none is empty |
| Health.Checker.MarkUnhealthyEscalating | internal/health/checker.go:104-148 | one mark changes only its own provider, as `EscalateStep` says |
| Health.Checker.IsHealthy | internal/health/checker.go:33-54 | healthy again once the cooldown has passed |
| Health.BackOff | internal/health/checker.go:57-148 | after any run of successes, failures and marks with one base and maximum: the cooldown is min(max, base * 2^k), where k counts the periods of back-off after the first since the last success or tripped breaker, a period beginning with each mark made while none runs; it counts from the mark that began the period; the base and the maximum are normalised as in the code |
| Health.MarkInside | internal/health/checker.go:104-148 | a mark inside a period, that is while the provider is not healthy, changes nothing |
| Health.FailuresTrip | internal/health/checker.go:57-81 | failures alone mark a provider exactly from the threshold on, counted since the last success, with the time of the last failure |
| Health.FirstCooldown | internal/health/checker.go:104-148 | the first mark cools down for the base given, or the checker's own if that is not positive, and never longer than a positive maximum |
| ModelIndex.NewIndex | internal/modelsdev/modelsdev.go:38-50 | the index of a map, whatever order it is walked in: lower-case ids with the largest of their positive values |
| ModelIndex.WriteText | internal/modelsdev/modelsdev.go:127-158 | one line for each id |
| ModelIndex.LoadText | internal/modelsdev/modelsdev.go:162-194 | the index of the lines that parse; others are skipped |
| ModelIndex.IndexSurvives | internal/modelsdev/modelsdev.go:127-194 | an index of non-empty lower-case ids without tab and newline and of positive values is read back unchanged, whatever order it is written and rebuilt in |
| ModelIndex.BuiltIs | internal/modelsdev/modelsdev.go:38-50 | under an id the index has the largest value of the entries that are not blank, are positive and have that id in lower case, and nothing if there is none |
| ModelIndex.OrderIsFree | internal/modelsdev/modelsdev.go:38-50 | so the order in which the map is walked does not matter |
| ModelIndex.DecimalReads | internal/modelsdev/modelsdev.go:127-194 | every whole number is read back from its decimal notation |
| IndexLookup.LookupCandidates | internal/modelsdev/modelsdev.go:92-123 | the candidate ids of a name in their order |
| IndexLookup.CandidatesAre | internal/modelsdev/modelsdev.go:92-123 | the candidates are the whole name, its parts, and these without a trailing date, each once, except that a part first added as an earlier one without its date keeps a second date |
| IndexLookup.PromiseKeptIff | internal/modelsdev/modelsdev.go:60-67 | the candidates are the documented ones if and only if every such part's undated form comes from another part |
| IndexLookup.ADateStaysOn | internal/modelsdev/modelsdev.go:92-123 | a name for which they are not |
| IndexLookup.Lookup | internal/modelsdev/modelsdev.go:69-89 | none exactly if no candidate is in the index, else the value of the longest one in it, the first of several as long |
| IndexLookup.InOrder | internal/modelsdev/modelsdev.go:92-123 | candidates come in the order of the parts of the name, each part right before what it is without its date |

## Left out

- JSON: texts are decoded records already; a line that does not decode is a case of its own in `Streams`. Normalising events and payloads before decoding is not modelled. Whether argument text is a JSON object is a predicate parameter of the request conversions.
- Clocks, random ids and time-based message ids are parameters; `created` timestamps are not modelled.
- Integers are unbounded: token counts and cooldowns do not overflow.
- Error codes and messages are reduced to failing or not failing, except where a message is part of an outcome.
- Reasoning on the way from Chat to Responses: the mapper drops it, and the results there do not mention it.
- Ids and model names inside the collected object: only text, calls, finish reason and usage are compared.
- ResponsesKept.ClaudeSaysAll: says that the text arrives only for streams without a data URI among their text deltas, since such a delta becomes a media block.
- BatchAgrees.StreamingAgrees: asks for plain function calls with trimmed ids that their deltas repeat, and for an output index on each of their events, because collecting keys calls by item id while streaming keys them by output index; `StreamingAgreesById` is about streams without one.
- ResponsesNamed.ChatSaysNamed: a stream that announces some of its calls with a number and others without any is not covered, nor is one that announces a call twice; `ChatSaysBare` is about streams whose calls all have none.
- JobSession.NoJobLeftHanging: asks for distinct job ids. Its callers make a fresh one for every job (internal/provider/cascade.go:39-43); `NoneHangsIffDistinct` shows that this is exactly what is needed.
- Resolver.NewResolver: whether a sticky setting parses is a field of the configuration, since the scheduler's parser is not modelled.
- GroupEdits.Draft.Update: takes mode, model list, weights, metadata, exposure and sticky settings of its input to be valid; their checks (internal/runtimeconfig/model_group_crud.go:160-230) and the sticky setting it keeps or drops are not modelled.
- RenameResolves.RenameKeepsResolution: asks for distinct group names, a fresh new name without a slash, and the group's models kept, as an edit that only renames does.
- JobWriter.BodyArrives: a frame holds characters; a UTF-8 sequence split by a flush is not modelled.
- The pipe of a streaming job: a write is one step, which waits until the caller has looked and then goes through at once; a caller that reads part of it, stops reading or closes its end is not modelled.
- Frame encoding, tokens and registration details of the cascade protocol, web sockets, and the health status that Hub.Close reports outside its lock.
- Requests: images, documents and other structured content, tool definitions, tool_choice and sampling parameters. Messages have string content, and the input of a Responses request is a list of items.
- Anthropic requests: their conversion merges messages on purpose and does not aim at conservation.
- content_part events, and Claude blocks that are open one at a time only: the mappers do not aim for these.
- The alphabetical order of callable names.
- Health.BackOff: holds for marks with one base and maximum; MarkUnhealthyFor, which sets a cooldown of the caller's choice, is proved against its step but is not part of these runs.
- Choosing the outbound protocol of a leaf, rules and effort clamping, skipping a cascade leaf, and the scheduler that runs a materialised plan.
- The index file: writing it atomically, sorting its ids (the round trip holds for every order), and the scanner's limit on the length of a line. Lower-casing is a function parameter.
- HTTP handlers, storage, logging, metrics, the admin pages, OAuth, the provider client and rate limiting.
