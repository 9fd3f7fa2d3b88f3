# The streaming lifecycle, verified

This project models the part of the Open Responses library that carries a
response from a model to a client and back into the next request, and proves
what that part promises.

The centre is the streaming lifecycle (doc.go:54-78), which the repository
implements three times over:

- the **producer**: an emitter and its writers turn arbitrary adapter calls,
  stale writers included, into a bracketed stream of events;
- the **checker**: a step machine that accepts or refuses a stream;
- the **consumer**: an accumulator that folds events back into a response and
  follows output indices that are used twice;
- and around them the **transport**, which numbers events, refuses what comes
  after a terminal event and repairs a stream an adapter left unfinished.

The main theorems relate two of these at a time over runs of any length.  Two
adapters' decoders (Gemini, Chat Completions) are modelled on top of the
producer, so their streams are valid because the producer's are; Gemini's
decoder is also proved against its request encoder.  The Anthropic encoder, the
framing of events as bytes and the conversation store complete the path.

## How the files fit together

Code that changes things step by step is modelled twice: as a value with a step
function, in the modules whose names end in `Spec`, where the theorems are
proved, and as classes whose methods update fields in place and end each call
with the abstract state equal to the step of the old one.  For the emitter that
includes every writer object it ever returned: `EmitterRuns` makes any sequence
of calls on them, keeps each known to the emitter whoever closed it, and ends in
the state of the run of steps.

| part | on values | in place | theorems |
|---|---|---|---|
| entities and events | `Types`, `Wrappers`, `RequestTypes`, `GeminiTypes`, `BareItems` | | |
| consumer | `AccumulatorSpec` | `Accumulator` | `AccumulatorSpec`, `Folding`, `IndexReuse` |
| checker | `ValidatorSpec` | `Validator` | `ValidatorSpec` |
| producer | `EmitterSpec` | `Emitter` | `ProducerConforms`, `ConsumerAgrees`, `FinalItems`, `ItemStatus`, `OutputSays`, `PartRuns`, `EventsTrue`, `Reaching`, `EmitterRuns` |
| transport | `SinkSpec` | `SseSink` | `SinkSpec`, `TransportCloses`, `Carried` |
| turns of two sides | `Alternation` | | `Alternation` |
| Gemini | `GeminiDecoderSpec`, `GeminiEncoderSpec` | `GeminiDecoder`, `GeminiEncoder` | `GeminiRoundTrip`, `GeminiConforms`, `GeminiSays`, `GeminiItems`, `GeminiEncoderSpec`, `GeminiLanding` |
| Anthropic | `AnthropicSpec` | `Anthropic` | `AnthropicSpec` |
| Chat Completions | `ChatDecoderSpec` | `ChatDecoder` | `ChatCompletes`, `ChatReassembly`, `ChatConforms`, `ChatSays`, `ChatItems` |
| what the two decoders share | | | `Saying`, `ItemTypes` |
| event framing | `SseFramingSpec` | `SseFraming` | `SseFramingSpec`, `SseStandard`, `SseRoundTrip`, `SseLimit` |
| store and turns | `StoreSpec`, `ContinuationSpec` | `Continuation` | `StoreSpec`, `ContinuationSpec`, `Chains`, `Carried`, `Remembering` |

What the source takes from outside becomes a parameter: ids of new items and
calls, which writes succeed, the response built from a request, whether a
request passes the checks not modelled here, the JSON form of a Gemini part,
the rewriting of a tool id.  Text of a foreign format (base64, JSON arguments,
media) is represented by what its decoder answers.

The model asks of callers what the code needs: an emitter starts with an empty
output; adapters do not edit items behind its back; `EncryptedContent` is not
called on a closed writer, which has no check for it (emitter.go:450); content,
summary and annotation indices are not negative, since the accumulator indexes
with them directly (stream.go:637-684).

One lemma only reads a definition back and is a remark, not a result:
`SinkSpec.FailureNeverBlank`.

## What the code does otherwise than its words

- internal/sse/sse.go:71-72 says a stream that mixes line endings still splits
  at every blank line.  It does not split at a CRLF blank line after a line
  ended by a bare line feed; `SplitsAtFirstBlank` has the exact condition and
  `MixedEndingsMerge` the streams on which two events become one.
- chatcompletions/response.go:228-230 counts on a tool call's name arriving
  with its first fragment.  When it never arrives, endCall drops the call state
  (407) before openCall reads it again (377-378), which dereferences nil: the
  code crashes on one nameless fragment and a finish reason
  (`NamelessCallCrashes`).  `DecodesExactly` and `Reassembled` have the exact
  condition, and every step on the way yields a crash as one of its outcomes.
- The error for a function output without a call says no call precedes it
  (providers/gemini/request.go:615-620), but the names are collected from all
  items first, so a call after its output is accepted (`LaterCallAnswered`);
  `NoSuchCallExactly` says when an output is refused.
- providers/gemini/request.go:519-520 and providers/anthropic/request.go:509-510
  say a result always directly follows the turn that called it.  Other
  contributions can stand between them (`MessagesInterrupt`), for Gemini also a
  signature that is flushed (`SignatureInterrupts`); `ResponseFollowsCall` and
  `ResultFollowsCall` have the exact conditions.
- providers/gemini/request.go:525-528 says a signature is held until the next
  part that is not a thought.  A signed thought kept as an extension item
  overtakes it (`OvertakingHappens`); `SignaturesConserved` says exactly when
  that changes the order.
- websocket/websocket.go:328-344 saves any response that did not fail, also one
  whose terminal event carries a status that is not terminal; handler.go:312
  saves only completed and incomplete ones.  The model keeps both;
  `UnfinishedStored` is such a turn and `StoresBeyondHttp` says when.
- handler.go:462-466 falls back to a response built from the request after an
  adapter error.  The error event just written already gives the accumulator a
  response, so the fallback is never taken there (remark `FailureNeverBlank` in
  `SinkSpec`).
- stream.go folds an item that re-announces its id at its own closed index in
  place, so under index reuse the output can be shorter than the list of added
  items (`ReannouncedOnce`); `ReuseIsFollowed` counts by how many.
- The scanner does not drop a byte-order mark at the start of a stream, as
  section 9.2.6 of the WHATWG HTML standard does; it loses the first line
  instead (`MarkedStreamsRead`, `MarkedEventLost`).

## Model

| member | source | states |
|---|---|---|
| `AccumulatorSpec.RunConsistent` | stream.go:253-338 | for every event sequence, conforming or not: `slots` maps indices injectively to non-nil positions, is the identity until an index is reused, and `closed` stays inside the output |
| `AccumulatorSpec.PositionIsSlot` | stream.go:484-499 | in every reachable state an output index reaches an item exactly when `slots` has it, and then at that slot: the fallback to the index itself never answers |
| `AccumulatorSpec.EventStability` | stream.go:550-598 | unless a snapshot's list is adopted, no event shrinks the output, moves another item, changes more than the one position its index now names, or puts an item with another non-empty id at a closed position |
| `AccumulatorSpec.SnapshotAfterReuse` | stream.go:340-390 | after a reuse a non-terminal snapshot keeps every position and mapping, appends each id it alone names exactly once, and applying it twice equals applying it once |
| `AccumulatorSpec.AppendUnknownShape` | stream.go:369-390 | the appended list extends the old one by exactly the unknown ids, each once, in order, and none of the known ones |
| `AccumulatorSpec.FoldAppend` | stream.go:253-338 | folding two runs one after the other is folding their concatenation |
| `Folding.DeltasJoin` | stream.go:275-279 | a run of text deltas, with or without log probabilities, joins on the part its indices lead to: its text and then theirs, its log probabilities and then theirs, and nothing else changes |
| `Folding.DoneReplaces` | stream.go:280-286 | the done event of a text replaces the joined text, and the log probabilities exactly when it brings a list of them |
| `Folding.AnnouncedGoes` | stream.go:550-598 | where an announced item goes: over the item its index reaches, unless that is finished and this is another one (its id differs, or it is added without one), which goes to the end as a reuse; with nothing reached, to the index itself, or after a reuse to the end; the index reaches it then, finished exactly when it is done |
| `Folding.ReachesOne` | stream.go:484-499 | the item a content event reaches is the only one that changes, and keeps type, id and status |
| `Folding.MessageEdited` | stream.go:271-329 | in a message parts and annotations are placed where the event says, gaps padded with nil, refusals join and are replaced when done, and an event for another kind changes nothing |
| `Folding.CallEdited` | stream.go:295-302 | in a call arguments join and are replaced when done, and nothing else changes |
| `Folding.ReasoningEdited` | stream.go:303-322 | in a reasoning item summary parts are placed, join and are replaced when done, and reasoning text too, its parts coming into being, empty ones before them included, with the first event that names them |
| `Folding.ErrorFails` | stream.go:330-337 | an error event fails the response a reader sees with that error and changes nothing else; with nothing folded it is a failed response of its own |
| `Folding.SnapshotTaken` | stream.go:340-364 | a snapshot gives every field but the output; its list replaces the output when the response has ended or no index was reused, adds only unknown ids otherwise, and an empty one of a running response leaves the items |
| `Folding.ListTaken` | stream.go:397-418 | a list taken over is addressed by position, and closed in it are exactly the items that say completed or incomplete and those whose id was closed before |
| `Accumulator.Accumulator.Visible` | stream.go:243-248 | the response a reader sees; an error before any snapshot is a failed response of its own |
| `Accumulator.Accumulator.Position` | stream.go:484-499 | the position of an output index in the current state, or none |
| `Accumulator.Accumulator.ItemAt` | stream.go:506-512 | the item an output index reaches, or none |
| `Accumulator.Accumulator.Target` | stream.go:550-566 | where an announced item goes: its slot, or a new position with the index logged as reused when the slot is closed and holds another id |
| `Accumulator.Accumulator.AddItem` | stream.go:570-577 | the whole new state after output_item.added, negative indices and nil items ignored |
| `Accumulator.Accumulator.CloseItem` | stream.go:583-590 | the whole new state after output_item.done: the item replaced in place and its position closed |
| `Accumulator.PadTo` | stream.go:592-598 | the append loop: pads a list with nil up to a position and changes nothing before it |
| `Accumulator.PlaceIn` | stream.go:637-684 | setting a part beyond the end of its list pads the gap and keeps every other part |
| `Accumulator.Accumulator.AppendUnknown` | stream.go:369-390 | the loop over a snapshot's list agrees with the recursive definition whose shape is proved above |
| `Accumulator.EditContent` | stream.go:275-329 | a text, refusal or annotation event edits the one part it names, if that is of its kind, and nothing else |
| `Accumulator.Accumulator.Relist` | stream.go:397-418 | adopting a list resets slots to the identity on it and keeps the log of reuses; closed are the items whose id was closed before and those listed as completed or incomplete |
| `Accumulator.Accumulator.SetResponse` | stream.go:340-364 | the three snapshot policies: adopt the list, keep the output, or append the unknown items after a reuse |
| `Accumulator.Accumulator.Add` | stream.go:253-338 | one event of any kind changes the object's five fields exactly as the step on values does |
| `ValidatorSpec.AcceptedExactlyConforms` | streamtest/streamtest.go:149-493 | the step machine accepts a stream if and only if its positions satisfy rules stated without any machine: numbering, creation first, one terminal event last, every event naming what is open where it stands, and the terminal list |
| `ValidatorSpec.PrefixExact` | streamtest/streamtest.go:202-413 | the machine runs through the first k events if and only if each of them satisfies its positional rule, and then its state is what the positions say |
| `ValidatorSpec.AcceptedItems` | streamtest/streamtest.go:238-284 | in an accepted stream added and done events alternate with equal index, id and type, and the terminal output lists the added items in order |
| `ValidatorSpec.AcceptedPartsNest` | streamtest/streamtest.go:285-340 | every content part closes inside the message that opened it, at consecutive content indices, with no other part or item event in between |
| `ValidatorSpec.AcceptedSummariesNest` | streamtest/streamtest.go:360-395 | every summary part closes inside its reasoning item, at consecutive summary indices, after its text was finished |
| `ValidatorSpec.AcceptedKeeps` | streamtest/streamtest.go:149-436 | every event of an accepted stream satisfies its positional rule |
| `ValidatorSpec.AcceptedFrame` | streamtest/streamtest.go:149-200 | in an accepted stream response.created is the first event and none of the others, exactly the last event is terminal, and its response has the status its kind names |
| `ValidatorSpec.StrictIsReuseWithoutReuse` | streamtest/streamtest.go:91-107 | a stream is accepted strictly exactly when it is accepted with the reuse option and uses no index twice, always the next one |
| `ValidatorSpec.RunAppend` | streamtest/streamtest.go:160-164 | running over a concatenation is running over the first part and then, if that passes, over the second |
| `Validator.Validator.Step` | streamtest/streamtest.go:202-413 | one event moves the checker object as the step on values does, and is refused exactly when that step is undefined |
| `Validator.Validator.StepItem` | streamtest/streamtest.go:238-284 | output_item.added and done against the used indices and the open item |
| `Validator.Validator.StepPart` | streamtest/streamtest.go:285-340 | content part, text, annotation and refusal events against the open part |
| `Validator.Validator.Finish` | streamtest/streamtest.go:415-436 | the terminal snapshot: status, no open item unless failed, and the listed items against the added ones, compared in a loop |
| `Validator.Validate` | streamtest/streamtest.go:149-200 | the loop over the frames returns success if and only if the stream satisfies the positional rules |
| `EmitterSpec.DoSound` | emitter.go:58-476 | every call, on live, stale or closed writers, keeps the emitter sound: only the writer to be closed next can be open, its item is the last, and its open part fits |
| `EmitterSpec.PerformFits` | emitter.go:230-476 | what any writer call leaves is the same item by type and id and a writer at the same index that is closed or fits it; a closed writer sends nothing |
| `ProducerConforms.EveryRunConforms` | emitter.go:58-476 | for every sequence of calls on an emitter and on any writer it ever returned, every recorded prefix passes the checker, and the whole run is accepted if and only if it ended with Complete or Incomplete |
| `ProducerConforms.DoChecked` | emitter.go:58-476 | one call from any reachable state sends only events that pass and leaves the checker tracking the emitter |
| `ProducerConforms.CreatedFirst` | emitter.go:58-67 | the first event of every run is response.created |
| `ProducerConforms.RunsOpen` | emitter.go:42-67 | every stream starts with response.created and response.in_progress of the response the emitter was given, an unset status made in_progress, with the fields the adapter had set by then |
| `FinalItems.TerminalListsDone` | doc.go:77-78 | after every run of calls that ended the stream the last event is the terminal snapshot and lists exactly the items the output_item.done events carried, in order, each in its final form; before the end those are all items but the open one |
| `ItemStatus.StopMarks` | emitter.go:139-161 | cutting an answer off on any emitter: the item being written goes out in its done event and in response.incomplete as incomplete, every other item is as it was, and the response carries the reason |
| `ItemStatus.CompleteFinishes` | emitter.go:125-132 | completing on any emitter: the item being written goes out in its done event and in response.completed as completed if it had no other final status, and every other item is as it was |
| `ItemStatus.CloseCompletes` | emitter.go:191-223 | closing a live writer, by itself or because another item opens, makes an unset or running status completed and leaves the other items as they were |
| `ItemStatus.EveryItemSettles` | emitter.go:58-476 | after every run of calls the item being written is in progress and no other that has a status is; once the stream has ended none is |
| `OutputSays.EverythingSaid` | emitter.go:230-476 | after every run of calls the output says, joined over its items, exactly what the calls that succeeded wrote, in order: text, refusals and reasoning, summaries, arguments, citations, log probabilities, and the items themselves |
| `PartRuns.DeltasMerge` | emitter.go:230-446 | writing two deltas of a kind leaves the output and the writers as writing them as one does, so how an answer is cut into deltas decides nothing |
| `PartRuns.SummariesSplit` | emitter.go:402-429 | ending a summary between two deltas makes two parts of them, the second of its own at the end of the list |
| `PartRuns.MessagesAlternate` | emitter.go:267-342 | in every run every message written through a writer has text and refusal parts in turn: a part ends only where the other kind begins |
| `PartRuns.PayloadKept` | emitter.go:448-450 | the encrypted payload of a reasoning item is the one set last, whatever else is written |
| `PartRuns.DetailsKept` | emitter.go:28-56 | the fields an adapter set last on the response are those it ends with, whatever other calls came after |
| `PartRuns.AnsweredExactly` | emitter.go:71-161 | what every call answers: the terminal error exactly when it opens, adds or ends after the end, the closed error exactly when it writes through a closed writer; a refused call changes nothing |
| `EventsTrue.EveryEventTrue` | emitter.go:165-476 | in every run every event sent is true of the output: it names the id of the item at its index, finished parts, arguments, summaries and items are there as it said, and snapshots are of this response and list nothing or everything |
| `Reaching.ReachedHolds` | emitter.go:58-476 | whatever some run of calls leads to, whoever makes them, has all of this: accepted when ended, true, settled, folding to its own output and listing what was done |
| `EmitterRuns.OnWriter` | emitter.go:230-476 | one call on any writer object the emitter ever returned, stale ones included, does and answers what the step does, and every returned writer stays known to the emitter |
| `EmitterRuns.OnEmitter` | emitter.go:58-161 | one call on the emitter object, which may close a writer by itself, does and answers what the step does, and every writer ever returned is known to it afterwards, the closed one too |
| `EmitterRuns.MakeAll` | emitter.go:58-476 | for every sequence of calls on the objects, stale writers included, their state and the answers are those of the run of steps |
| `EmitterRuns.Drive` | emitter.go:58-476 | what the objects send in any such sequence passes the checker at every prefix, and is accepted if and only if the emitter ended the stream |
| `ConsumerAgrees.EveryRunAgrees` | emitter.go:165-476 | after every run of calls, folding the sent events gives the emitter's own output item by item; only log probabilities of an open text part and encrypted content of an open item are not yet told |
| `ConsumerAgrees.ClosedIsSeenWhole` | emitter.go:165-223 | what is told late is told when its item closes, and until then id, type and status already agree |
| `ConsumerAgrees.DoFollowed` | emitter.go:58-476 | one call keeps the consumer in agreement with the emitter |
| `IndexReuse.ReuseIsFollowed` | stream.go:484-598 | for every stream accepted with index reuse whose snapshots list nothing before the end, the reuse log is the list of reuses in order, the output is short by exactly the re-announcements, and lists the added items in order if and only if there are none; always exactly the used indices reach an item, which is by type and id the one last added there |
| `IndexReuse.ReannouncedOnce` | stream.go:550-577 | an accepted stream adds the item of one id twice at index 0, and the folded output lists it once |
| `Emitter.Emitter.Start` | emitter.go:58-67 | sends response.created and response.in_progress on the first call and nothing on later ones |
| `Emitter.Emitter.Message` | emitter.go:71-80 | closes what is open and opens an assistant message, returning a writer the emitter knows, or the terminal error; the writer it closed stays known to the emitter |
| `Emitter.Emitter.FunctionCall` | emitter.go:87-99 | closes what is open and opens a function call, or returns the terminal error; the writer it closed stays known to the emitter |
| `Emitter.Emitter.Reasoning` | emitter.go:102-111 | closes what is open and opens a reasoning item, or returns the terminal error; the writer it closed stays known to the emitter |
| `Emitter.Emitter.Item` | emitter.go:116-122 | a complete item is added and done in one call, its status completed unless it has a final one; the writer it closed stays known to the emitter |
| `Emitter.Emitter.Complete` | emitter.go:125-132 | closes the open item and sends response.completed once; afterwards the terminal error; the writer it closed stays known to the emitter |
| `Emitter.Emitter.Incomplete` | emitter.go:139-161 | marks the open item incomplete before closing it and sends response.incomplete once; the writer it closed stays known to the emitter |
| `Emitter.Emitter.OpenItem` | emitter.go:165-178 | start, auto-close, append and announce, at the next index; nothing after the terminal event; the writer it closed stays known to the emitter |
| `Emitter.Emitter.CloseOpen` | emitter.go:180-187 | closes the one writer that may be open, whatever its kind; the writer it closed stays known to the emitter |
| `Emitter.Emitter.CloseItem` | emitter.go:191-223 | output_item.done with an unset or running status promoted to completed |
| `Emitter.MessageWriter.Text` | emitter.go:230-237 | opens a text part if none is open, closing a refusal, extends its text and sends the delta; an error and nothing else once closed |
| `Emitter.MessageWriter.Annotation` | emitter.go:241-251 | adds the annotation at the next index of the ensured text part |
| `Emitter.MessageWriter.Logprobs` | emitter.go:257-264 | keeps log probabilities on the ensured text part without a delta |
| `Emitter.MessageWriter.Refusal` | emitter.go:267-283 | opens a refusal part if none is open, closing a text part, and extends it |
| `Emitter.MessageWriter.Close` | emitter.go:287-296 | finishes the open part and the item; nothing the second time |
| `Emitter.MessageWriter.EnsurePart` | emitter.go:304-316 | the open part is of the wanted kind afterwards, another kind closed first |
| `Emitter.MessageWriter.ClosePart` | emitter.go:324-342 | the done of the part's kind, then of the part, with its whole text |
| `Emitter.MessageWriter.MarkIncomplete` | emitter.go:298-302 | only an item not yet closed is marked |
| `Emitter.FunctionCallWriter.Arguments` | emitter.go:358-364 | extends the arguments and sends the delta |
| `Emitter.FunctionCallWriter.Close` | emitter.go:367-376 | sends the whole arguments and then the done item; nothing the second time |
| `Emitter.ReasoningWriter.Summary` | emitter.go:402-415 | opens a summary part if none is open and extends its text |
| `Emitter.ReasoningWriter.EndSummary` | emitter.go:418-429 | closes the open summary part; it has no closed check and needs none |
| `Emitter.ReasoningWriter.Text` | emitter.go:432-446 | extends the one reasoning text part; refused once the text or the writer is finished |
| `Emitter.ReasoningWriter.EncryptedContent` | emitter.go:450-450 | sets the payload without an event, on a writer that is not closed |
| `Emitter.ReasoningWriter.Close` | emitter.go:453-468 | finishes summary, text and item in that order; nothing the second time |
| `SinkSpec.FinishedStream` | handler.go:403-480 | whatever an adapter sends and returns, when no event fails to be written the frames are numbered 0, 1, 2, ... without gaps, exactly the last is terminal, and only [DONE] follows, unless writing that fails; every later send is refused, as after the end or as on a broken connection, and changes nothing |
| `SinkSpec.BrokenStreamIsPrefix` | handler.go:403-457 | however writes fail, what reached the client is numbered without gaps, and a stream that failed is left as it is by finish |
| `TransportCloses.InterruptedRunsClose` | handler.go:361-480 | an adapter that drives only an emitter and stops after any call leaves frames the checker accepts if and only if it sent something and either ended the response, returned an error or left no item open |
| `TransportCloses.RunStamped` | store.go:161-188 | stamping previous_response_id on snapshots is invisible to the checker |
| `TransportCloses.FoldStamped` | store.go:161-188 | stamping changes nothing a consumer folds but previous_response_id itself |
| `Carried.HttpCarries` | handler.go:403-441 | over any run of sends, some of which fail: frame k carries send k, on a connection that continues a response every snapshot's response naming one, its own or else that one, with every other field as sent, and any other event, or any on a connection that continues none, as sent; the response is folded from exactly what was carried and handed over once, at the end |
| `Carried.HttpAnswers` | handler.go:403-416 | after any run the next send is told of a broken connection, of the end, or of how its own write went, and a refused one changes nothing |
| `Carried.HttpCloses` | handler.go:453-480 | a stream its adapter did not end is closed with the id and output folded from what was carried, completed or failed with the adapter's error, the response built from the request standing in only when nothing was shown; the response on the wire is the one handed over to be saved |
| `Carried.NothingShown` | stream.go:243-248 | a reader has no response exactly when no event carried a response, an item or an error |
| `Carried.EndedResponse` | stream.go:340-364 | after a run that ends in a terminal snapshot, what a reader has is that snapshot's response, named |
| `SseSink.SseSink.Send` | handler.go:403-416 | refuses after a failed write or a terminal event; otherwise numbers, records and writes |
| `SseSink.SseSink.WriteLocked` | handler.go:418-441 | number, stamp, fold, hand a final response to the store and write, in one step |
| `SseSink.SseSink.Finish` | handler.go:453-480 | the whole state after error and response.failed, or a synthesised response.completed built from the folded response, and then [DONE], whose failure is recorded nowhere; nothing on a failed connection; the sink has failed or ended afterwards |
| `SseSink.StreamResponse` | handler.go:361-378 | the loop of sends and the repair after it: the wire and the responses handed to the store, or a plain error when nothing was sent |
| `GeminiRoundTrip.RoundTrip` | providers/gemini/response.go:103-171 | for every sequence of thoughts, texts, calls with ids and unsigned extension parts, texts and calls signed or not, encoding the decoded items at any point of the stream or after its end is one model turn: the parts as they came, adjacent thoughts merged, each text merged with the unsigned texts right after it, every signature on the part that brought it |
| `GeminiRoundTrip.PartWritten` | providers/gemini/response.go:108-171 | one more streamed part extends what the decoded items encode to by exactly that part |
| `GeminiRoundTrip.DetachEncodes` | providers/gemini/response.go:108-118 | a signature detached into a reasoning item is held by the encoder for the part that follows |
| `GeminiConforms.DecodedStreamAccepted` | providers/gemini/response.go:26-275 | whatever chunks Gemini streams, with parts, token logprobs and grounding in any mix, the decoded stream is accepted by the checker once it is completed or left incomplete |
| `GeminiConforms.DecodedIsRun` | providers/gemini/response.go:26-275 | every decoder state and every ended answer is reached by a run of emitter calls, so everything proved of runs holds of it |
| `GeminiSays.AnswerSays` | providers/gemini/response.go:76-171 | what an answer says on every channel is what its chunks say, in order: text, summaries, arguments, citations, and token logprobs of the chunks that leave a message open |
| `GeminiSays.AnswerItems` | providers/gemini/response.go:103-243 | every item of an answer is a message with the final phase, a reasoning item, a call with its own id or the one its place gives, or a gemini.* item carrying its part, with the id its place gives |
| `GeminiItems.ItemsAreWanted` | providers/gemini/response.go:61-276 | the items of an answer, in order, are exactly those its parts and groundings want: neighbouring texts and citations share a message, neighbouring thoughts a reasoning item, which the signature of another part ends, and every call and extension is whole |
| `GeminiDecoderSpec.ChunksAreParts` | providers/gemini/response.go:61-101 | how the parts are cut into chunks does not matter when no chunk has logprobs or grounding, so the round trip holds for every cut |
| `GeminiDecoder.Decoder.Chunk` | providers/gemini/response.go:76-96 | the loop over the parts, then logprobs, then grounding, as the step on values does |
| `GeminiDecoder.Decoder.Weigh` | providers/gemini/response.go:87-91 | logprobs go to the open message and are dropped when none is open |
| `GeminiDecoder.Decoder.Ground` | providers/gemini/response.go:251-276 | citations go to the open message in order; supports without one open a message even when none of them resolves |
| `GeminiDecoder.Decoder.Part` | providers/gemini/response.go:108-171 | the decoder object routes one part to the emitter object as the step on values does |
| `GeminiDecoder.Decoder.OpenMessage` | providers/gemini/response.go:197-211 | the open message, or a new one after closing what was open |
| `GeminiDecoder.Decoder.OpenReasoning` | providers/gemini/response.go:213-229 | the open reasoning item, or a new one after closing what was open |
| `GeminiDecoder.Decoder.CloseOpen` | providers/gemini/response.go:231-243 | closes the writer that is open, if any, and forgets it |
| `GeminiDecoder.Decoder.Extension` | providers/gemini/response.go:176-195 | a part without an item type of its own is emitted whole as an extension item |
| `GeminiDecoder.DecodeStream` | providers/gemini/response.go:26-101 | a whole answer of chunks: events and output of the producer run, and the events are accepted |
| `GeminiEncoderSpec.EncodedAlternates` | providers/gemini/request.go:529-664 | the turns of every accepted input alternate between the two sides and none is empty |
| `GeminiEncoderSpec.NothingIsLost` | providers/gemini/request.go:529-664 | for names that give each call id the name of its last call: read in order, the turns say exactly what the items say, content part by part, nothing lost, reordered or invented, and the system parts are those of the leading instructions |
| `GeminiLanding.AnswerNamed` | providers/gemini/request.go:530-535 | every output of an accepted input is answered in the turn it lands in, under its call id with the name of the last call of that id anywhere in the input |
| `GeminiEncoderSpec.NamesAreLast` | providers/gemini/request.go:530-535 | the names collected give each call id the name of the last call of that id, and no other id |
| `GeminiEncoderSpec.PartsAreContent` | providers/gemini/request.go:838-891 | content is encoded part by part, each with its own text or kind and payload, or refused at its first part that is neither readable nor another provider's |
| `GeminiEncoderSpec.WordlessIsFirst` | providers/gemini/request.go:586-597 | the place an instruction is refused at is its first part that is empty text or a medium |
| `GeminiEncoderSpec.SignaturesConserved` | providers/gemini/request.go:516-664 | every signature that comes in goes out exactly once, and all in order if and only if no signed thought kept as an extension arrives while another signature waits for its part |
| `GeminiEncoderSpec.OvertakingHappens` | providers/gemini/request.go:550-565 | a signed reasoning item and then a signed thought extension are encoded with their signatures in the other order |
| `GeminiEncoderSpec.RefusedAtFirst` | providers/gemini/request.go:529-664 | an input is refused with a reason at an item if and only if that is the first item refused, taken on its own with the call names of the whole input, and for that reason; it is encoded if and only if there is none |
| `GeminiEncoderSpec.NoSuchCallExactly` | providers/gemini/request.go:530-535 | an output is refused as answering no call if and only if it is the first refused item and no call anywhere in the input has its call id |
| `GeminiEncoderSpec.LaterCallAnswered` | providers/gemini/request.go:615-620 | an output that precedes its only call is encoded |
| `GeminiLanding.ResponseFollowsCall` | providers/gemini/request.go:516-528 | a function response lands in the turn right after the one holding its call if and only if between them no model-side contribution, a kept signature included, follows a user-side one |
| `GeminiLanding.SignatureInterrupts` | providers/gemini/request.go:519-528 | a call, a user message, a signed reasoning item without text and the output are encoded with a turn between the call's and the response's |
| `GeminiLanding.BodyLands` | providers/gemini/request.go:537-565 | a call and an output stand, signed or not, in the turn that joining the sides of all contributions so far gives |
| `GeminiEncoderSpec.PlaceholdersKeep` | providers/gemini/request.go:714-737 | placing placeholders changes nothing said and no turn's shape, signs the first call of every model turn, and changes nothing when done again |
| `GeminiEncoder.Encoder.AppendParts` | providers/gemini/request.go:537-543 | joins the last turn when it is the same side's, else starts one |
| `GeminiEncoder.Encoder.Flush` | providers/gemini/request.go:544-549 | a held signature gets a thought part of its own, once |
| `GeminiEncoder.Encoder.Add` | providers/gemini/request.go:550-565 | a held signature goes on the first part that is not a thought, unless that has its own or the side changes |
| `GeminiEncoder.Encoder.Take` | providers/gemini/request.go:569-661 | one item: the next state, or the refusal the source returns |
| `GeminiEncoder.EncodeParts` | providers/gemini/request.go:838-891 | the loop over content gives the parts, or the place of the first one that is refused |
| `GeminiEncoder.FindWordless` | providers/gemini/request.go:586-597 | the place in the content of the first instruction part without text, counted past parts left out as foreign |
| `GeminiEncoder.EncodeInput` | providers/gemini/request.go:529-664 | the whole input: turns and system parts, or the first refusal |
| `GeminiEncoder.PlaceholderSignatures` | providers/gemini/request.go:723-737 | in place: each model turn's first call is signed, by the placeholder if it had no signature, and every other part of every turn is as it was |
| `AnthropicSpec.EncodedMessages` | providers/anthropic/request.go:503-613 | messages alternate and none is empty; in order they are what the items say, each user message rearranged as a stable partition with its tool results first, and the leading instructions are the system prompt |
| `AnthropicSpec.BlocksAreContent` | providers/anthropic/request.go:761-805 | content is encoded part by part, each with its own text or kind and payload, or refused at its first part that is neither readable nor another provider's |
| `AnthropicSpec.RefusedAtFirst` | providers/anthropic/request.go:512-613 | an input is refused with a reason at an item if and only if that is the first item refused and that is its reason, said of the item and of whether only instructions come before it; it is encoded if and only if there is none |
| `AnthropicSpec.ResultsFirstPartitions` | providers/anthropic/request.go:615-632 | tool results before all other blocks, each kind in its order, the same blocks exactly |
| `AnthropicSpec.ResultFollowsCall` | providers/anthropic/request.go:503-511 | a tool result lands in the message right after the one holding its call if and only if no assistant-side contribution follows a user-side one between them |
| `AnthropicSpec.MessagesInterrupt` | providers/anthropic/request.go:507-510 | a call, a user message, an assistant message and the result are encoded with messages between the call's and the result's |
| `AnthropicSpec.Lands` | providers/anthropic/request.go:513-522 | every block an item contributes is in the message the item lands in, on the item's side |
| `Alternation.LandsLater` | providers/anthropic/request.go:513-522 | when contributions join turns by side, later ones never land in an earlier turn, and on the other side strictly later |
| `Alternation.Adjacent` | providers/anthropic/request.go:503-522 | a user-side contribution lands in the turn right after a model-side one if and only if no model-side one follows a user-side one between them |
| `Anthropic.Encoder.Take` | providers/anthropic/request.go:530-606 | one item: the next state, or the refusal the source returns |
| `Anthropic.Encoder.TakeInstruction` | providers/anthropic/request.go:546-558 | leading instructions go to the system prompt; the place of a part that is not text is counted past foreign ones |
| `Anthropic.ToolResultsFirst` | providers/anthropic/request.go:615-632 | the two loops give the stable partition |
| `Anthropic.EncodeInput` | providers/anthropic/request.go:512-613 | the whole input: messages and system prompt, or the first refusal |
| `ChatReassembly.Reassembled` | chatcompletions/response.go:340-419 | a run of tool-call fragments goes through to the end of the stream if and only if no index resumes after a later one and every run of an index has a fragment with a name; there is then one call for each run, in order after what was there, named by its first non-empty name, with its fragments joined or the empty object |
| `ChatReassembly.FirstFailure` | chatcompletions/response.go:340-412 | after fragments that went through, one more is refused exactly when its index is earlier, and crashes exactly when its index is later and the run before it has no name |
| `ChatReassembly.SpreadOverDeltas` | chatcompletions/response.go:273-312 | how fragments are spread over deltas does not matter |
| `ChatReassembly.TakeStreams` | chatcompletions/response.go:354-374 | one more fragment of a call extends exactly its id, name or arguments, before and after its writer opens |
| `ChatReassembly.EndCallShown` | chatcompletions/response.go:392-419 | ending the streamed call leaves it whole when its name arrived, and crashes exactly when it did not |
| `ChatCompletes.DecodesExactly` | chatcompletions/response.go:238-470 | deltas of any mix are decoded to the end of the answer if and only if, between two texts and after the last, no index falls and every run of an index has a fragment with a name |
| `ChatCompletes.NamelessCallCrashes` | chatcompletions/response.go:402-412 | one delta with a nameless fragment is taken in, and the finish reason after it crashes |
| `ChatConforms.DecodedStreamAccepted` | chatcompletions/response.go:238-470 | however reasoning, text, refusals, citations, logprobs and tool-call fragments interleave, the answer gets to its end under exactly that condition, and what was sent is then accepted by the checker |
| `ChatConforms.DecodedIsRun` | chatcompletions/response.go:238-470 | every decoder state and every ended answer is reached by a run of emitter calls, so everything proved of runs holds of it |
| `ChatSays.AnswerSays` | chatcompletions/response.go:273-325 | what an answer says on every channel is what its deltas say, in order, stated over the output items and the deltas alone |
| `ChatSays.AnswerText` | chatcompletions/response.go:273-296 | for every run of deltas that gets to its end: the text of the output's messages joined in order is the content fields joined in order, its refusals the refusal fields, its reasoning text the reasoning fields |
| `ChatSays.AnswerItems` | chatcompletions/response.go:331-450 | every item of an answer is a message with the final phase, a reasoning item or a call, with the id its place gives, and every call has an id of the server's or the one its place gives |
| `ChatItems.ItemsAreRuns` | chatcompletions/response.go:254-450 | the items of an answer, in order, are exactly one for each run of neighbouring things streamed that belong together: reasoning, fragments of one call index, or text, refusals, citations and logprobs |
| `ChatSays.AnswerEnds` | chatcompletions/response.go:455-466 | the terminal snapshot completes the answer, or cuts it off with the reason given and the item still open incomplete |
| `ChatDecoder.Decoder.ToolCall` | chatcompletions/response.go:340-374 | the decoder object takes one fragment as the step on values does, refuses it, or crashes moving on from a nameless call |
| `ChatDecoder.Decoder.OpenCall` | chatcompletions/response.go:376-390 | opens the writer with the id and name known so far and writes what was buffered; without a call state it crashes and changes nothing |
| `ChatDecoder.Decoder.EndCall` | chatcompletions/response.go:400-419 | drops the call state, writes the empty object for a call without arguments and returns its writer still open; for a call whose writer never opened it crashes |
| `ChatDecoder.Decoder.CloseCall` | chatcompletions/response.go:392-398 | ends and closes the streamed call, or crashes when it is nameless |
| `ChatDecoder.Decoder.CloseOpen` | chatcompletions/response.go:436-450 | closes message, reasoning item or call, whichever is open; closing a nameless call crashes |
| `ChatDecoder.Decoder.OpenMessage` | chatcompletions/response.go:421-434 | the open message, or a new one after closing what was open, which crashes for a nameless call |
| `ChatDecoder.Decoder.Delta` | chatcompletions/response.go:254-325 | one delta: reasoning, text, refusal, tool calls, citations and logprobs in that order, up to a refusal or a crash |
| `ChatDecoder.Decoder.Finish` | chatcompletions/response.go:455-466 | the end of the answer, the streamed call left to the emitter to close; a nameless one crashes |
| `ChatDecoder.DecodeStream` | chatcompletions/response.go:238-470 | a whole answer: whether it is refused, crashes or ends, which it does under the condition above; then events and output are those of the producer run and the events are accepted |
| `SseFramingSpec.CutStable` | internal/sse/sse.go:67-85 | the first frame end found in what has been read so far is the first of the whole stream, although a CRLF CRLF may straddle reads |
| `SseFramingSpec.CutWithin` | internal/sse/sse.go:67-85 | a frame end that has been read whole is found |
| `SseFramingSpec.SplitsAtFirstBlank` | internal/sse/sse.go:71-80 | a frame ends at the first blank line if and only if that line is not a CRLF after a bare line feed |
| `SseStandard.RegularStreamsRead` | internal/sse/sse.go:44-111 | on streams without lone returns and without such mixed blank lines, the events are those of section 9.2.6 of the WHATWG HTML standard, a final unterminated event included, when no byte-order mark stands first; otherwise those of the stream after the mark are |
| `SseStandard.MarkedStreamsRead` | internal/sse/sse.go:89-107 | such a stream that starts with a byte-order mark is read as the standard reads it, but without its first line |
| `SseStandard.MarkedEventLost` | internal/sse/sse.go:89-107 | for every clean value: a stream of a mark and one data line yields nothing, where the standard dispatches the event |
| `SseStandard.UniformIsRegular` | internal/sse/sse.go:30-32 | streams without returns, and streams whose line ends are all CRLF, are of that kind |
| `SseStandard.MixedEndingsMerge` | internal/sse/sse.go:71-74 | a family of streams with mixed line endings on which the standard reads two events and the scanner at most one |
| `SseLimit.GivesUpExactly` | internal/sse/sse.go:12-54 | for every buffer limit the scanner yields the events of the frames before the first that does not fit, and reports an error exactly when there is one |
| `SseLimit.ReadsToEnd` | internal/sse/sse.go:12-63 | a stream is read to its end if and only if every frame in it fits the buffer with its blank line, and an unterminated last one with a byte to spare |
| `SseRoundTrip.FramingRoundTrip` | sse.go:43-56 | scanning written events returns exactly them, empty and space-leading values included, if and only if no value has a line feed in it or ends in a carriage return |
| `SseRoundTrip.FirstComesBack` | sse.go:43-56 | the first event written comes back as it was exactly when its values are clean, whatever follows it |
| `SseFraming.Writer.WriteEvent` | sse.go:43-56 | appends one event line, one data line and a blank line |
| `SseRoundTrip.SentinelComesBack` | sse.go:59-65 | scanning written events and the sentinel after them returns exactly the events and then one frame with data [DONE] if and only if the events' values are clean |
| `SseFraming.Writer.WriteEvents` | sse.go:43-56 | the events of a stream in order, one after the other |
| `SseFraming.Writer.WriteDone` | sse.go:59-65 | whatever clean events a stream held before, scanning it afterwards returns them and then one frame with data [DONE]; for events that are not clean it does not |
| `SseFraming.WriteAndScan` | sse.go:43-65 | the bytes of a list of events, and of the list and the sentinel, with both round trips |
| `SseFraming.Scanner.Scan` | internal/sse/sse.go:37-63 | reads until a token is complete, the stream ends or the buffer is full, and yields the token of the stream, not of the chunks |
| `SseFraming.Scanner.Next` | internal/sse/sse.go:46-54 | the next frame that carries data |
| `SseFraming.Decode` | internal/sse/sse.go:89-111 | the loop over a frame's lines gives its event and joined data, or nothing without data |
| `SseFraming.ScanChunks` | internal/sse/sse.go:37-63 | for every way of cutting a stream into chunks the frames, and whether one was over the limit, are those of splitting the whole stream at once |
| `StoreSpec.RunRefines` | store.go:34-99 | over any run of saves and deletes the store is a bounded map ordered by first insertion: its order lists its keys once each within capacity, it loads what that map holds, and a repeated save refreshes nothing |
| `StoreSpec.SaveRefines` | store.go:62-75 | a save keeps the store valid and is insertion at the end or replacement in place, cut to the latest entries |
| `StoreSpec.SaveEvictsOne` | store.go:68-73 | the eviction loop drops at most the one oldest entry |
| `StoreSpec.DeleteRefines` | store.go:78-92 | a delete keeps the store valid and removes exactly that entry |
| `StoreSpec.SavedIsLoadable` | store.go:62-75 | the id just saved can be loaded; other ids keep what they had or are gone |
| `Continuation.MemoryStore.Save` | store.go:62-75 | the list and the map after a save, eviction loop included |
| `Continuation.MemoryStore.Delete` | store.go:78-92 | the list and the map after a delete, the search loop included |
| `Continuation.MemoryStore.Load` | store.go:53-58 | what the map holds for the id |
| `Continuation.MemoryStore.Len` | store.go:95-99 | the number of entries is the length of the order |
| `Continuation.CheckFunctionCallOutputs` | request.go:237-260 | succeeds if and only if every output answers a call before it or follows an item whose history is hidden; otherwise gives the first that does not |
| `Continuation.ResolveContinuation` | store.go:120-148 | the loop over the stores, nil ones skipped, rewrites the request object exactly so |
| `Continuation.Handler.Resolve` | handler.go:288-302 | with no store the request passes through; with one an unknown id is an error |
| `Continuation.Handler.Save` | handler.go:304-319 | only a stored response with an id that reached completed or incomplete is recorded |
| `Continuation.Handler.Create` | handler.go:264-285 | a plain request: the store after it; a reply exactly when the request resolves and the adapter answers, naming the continued response exactly when one was resolved and the answer named none |
| `Continuation.Handler.Stream` | handler.go:361-378 | a streamed request: the frames, and in the store the response its terminal event carried |
| `Continuation.WsSink.Send` | websocket/websocket.go:374-421 | number, write and only then record; refused after a failure or a terminal event |
| `Continuation.WsSession.Outcome` | websocket/websocket.go:307-330 | how a turn ends: dead connection, adapter error, or a response, completed here when nothing ended it |
| `Continuation.WsSession.Turn` | websocket/websocket.go:272-348 | cache and shared store after one create message, on every path |
| `Carried.WsCarries` | websocket/websocket.go:374-421 | over any run of sends, some of which fail: the frames written are numbered from zero and carry the sends in order, named as over HTTP, and the response is folded from exactly those |
| `Carried.TurnEnds` | websocket/websocket.go:307-330 | how a turn ends, from what its adapter sent and returned: dead exactly when a write fails, an error exactly when one is returned before a terminal event, else in the response folded from what was carried, completed when nothing had ended it, and in the blank one only when nothing was shown |
| `Carried.WsCloses` | websocket/websocket.go:318-327 | the completion of a turn nothing ended is the next frame, with the id and output of what was folded, named |
| `Carried.TurnRemembers` | websocket/websocket.go:307-348 | a turn whose writes succeed and whose adapter returns no error is remembered under the id a reader folds, ended or not, as the request's conversation and then the folded output, on its connection and, when asked, in the shared store |
| `Carried.AnswerRemembers` | handler.go:264-319 | the same over HTTP for the response handed over at the end |
| `Remembering.EmitterRemembered` | websocket/websocket.go:307-348 | an adapter that drives an emitter through any calls and leaves no item open, ended or not: what the connection and the shared store then hold under the emitter's id is the request's conversation and then the emitter's own output, item for item |
| `Remembering.EmitterAnswerRemembered` | handler.go:361-378 | the same over HTTP, whichever of the closing writes succeed |
| `ContinuationSpec.AnsweredByPrefix` | request.go:237-260 | the outputs of a request all answer exactly when each has, somewhere before it, a call of its id or an item that stands for hidden history |
| `ContinuationSpec.ResolvedFromFirst` | store.go:120-148 | the first store that has the id, and no later one, gives the history, which then precedes the request's own input, unless an output would answer no call |
| `ContinuationSpec.ResolvedFromNone` | store.go:120-148 | a request that names no response, or one no store has, stays as it was |
| `ContinuationSpec.AnsweredOverHttp` | handler.go:288-302 | a request is answered if and only if it passes the checks and, with a store, names no response or one the store has, its outputs all answering calls |
| `ContinuationSpec.RefusedOverHttp` | handler.go:264-302 | a refused request leaves the store as it was |
| `ContinuationSpec.SavedExactly` | handler.go:304-319 | of what is handed over a store takes exactly the responses with an id that completed or were cut off, of requests that asked for it, as input and then output |
| `ContinuationSpec.UnknownRefused` | websocket/websocket.go:290-305 | a turn that fails the checks, or names a response nowhere held that the shared store or no storing rules out, leaves everything as it was |
| `ContinuationSpec.OnlyStoredResponses` | websocket/websocket.go:324-348 | over any run of HTTP and WebSocket turns every id the shared store comes to hold is that of a response that did not fail, of a turn that asked to be stored |
| `ContinuationSpec.NeverStored` | websocket/websocket.go:324-348 | the id of a store:false or failed response, given to no other turn, is never in the shared store over any run |
| `ContinuationSpec.FailedTurnForgets` | websocket/websocket.go:294-337 | a failed turn leaves the shared store, and forgets in the cache the response it continued and nothing else; with nothing continued, or on a dead connection, nothing changes |
| `ContinuationSpec.FinishedTurnRemembers` | websocket/websocket.go:318-348 | a turn whose response has an id and did not fail can be continued on its connection, and from the shared store when it asked to be stored, with the whole conversation there whatever was evicted for it |
| `ContinuationSpec.FinishedAnswerRemembers` | handler.go:304-319 | over HTTP a stored answer that completed can be continued, with the whole conversation there |
| `ContinuationSpec.StoresBeyondHttp` | websocket/websocket.go:318-346 | of the responses a WebSocket turn stores, those HTTP would not save are exactly the ones without a terminal status, and that status came with a terminal event |
| `ContinuationSpec.UnfinishedStored` | websocket/websocket.go:318-346 | a response.completed whose response says in_progress is stored over WebSocket, and would not be over HTTP |
| `ContinuationSpec.StepStores` | handler.go:304-319 | a turn that is store:false or whose responses failed leaves the shared store exactly as it was |
| `Chains.StoresHoldChains` | store.go:101-159 | over any run of HTTP and WebSocket turns, what every store holds for an id is input1, output1, ..., inputk, outputk of the chain of turns that leads to it |
| `Chains.ChainsStaySensible` | store.go:101-159 | over any run the chain held for an id ends in the response of that id, every turn in it named the response of the turn before it as previous_response_id, and in a chain that continued another the outputs answer earlier calls |

## Left out

- JSON encoding and decoding, unknown fields kept in Extra maps, the type
  registries and generated wrappers: an event on the wire is a value.
- Aliasing: items and parts that events share by pointer with the accumulator
  after a done event, and responses shared between a sink and its adapter.  The
  models hold values, so an adapter that edits an item it has handed over is
  not described.
- The status on the wire of an unknown item that carries its own raw JSON.
- Nil annotations and nil items handed to a writer, and events that fail to
  encode: they are excluded by precondition or by the types.
- Sinks that fail under an emitter: the emitter's sink records everything.
  Failing writes are modelled in the transport's sink and the WebSocket sink.
- Panics other than the nameless tool call's: negative content indices and a
  nil entry in the list of a snapshot are preconditions or refusals here.
- Goroutines, mutexes, timers, keepalive, request bodies, headers, routing,
  upgrades and the client: sinks and sessions are sequential.
- Request validation other than the check of function outputs, tool and
  configuration encoding, thinking budgets, usage, error tables and provider
  calls.
- Where in the text a Gemini citation points and what its logprobs say: both are
  opaque values that end up on the right message.  A grounding chunk index that
  is negative.
- The finish reasons of either decoder beyond complete, incomplete and the
  stream being cut off, and a prompt blocked before the first part.
- Gemini parts with several payloads at once, and a part's signature that is
  base64 of nothing.
- GeminiRoundTrip.RoundTrip: signed thoughts, signed extension parts and signed
  empty texts are excluded, because the encoder puts such signatures on another
  part; where they go is covered by `SignaturesConserved` only.  It is for parts:
  grounding adds annotations, which the encoder does not send back, and can open
  a message without text.
- ChatReassembly.Reassembled: is about a run of tool-call fragments; text
  between two fragments of one call closes it, and the rest starts another.
  Which answers get to their end is `DecodesExactly`, for any mix.
- SseFraming.Scanner.Scan: a reader that returns bytes together with its end,
  or nothing without an end, is not described; neither is scanning on after a
  frame was too long.
- IndexReuse.ReuseIsFollowed: is for snapshots that list nothing before the
  terminal event; snapshots with lists are covered by `SnapshotAfterReuse` and
  `EventStability`.
- ClientAdapter, the echo adapter, the compaction endpoint, EventStream and the
  client side of WebSocket.
- ResponseStore implementations that fail: the in-memory store never does.
