# Verification of the voice-call pipeline

A Dafny model of the core of a real-time voice-call service, with proofs about whole runs of it:
what survives an interrupt, what arrives in which order, what happens exactly once, and what the
language model is shown. Check it with `dafny verify dfyconfig.toml`.

## What is modelled

* **Processor runtime** (`Processor`, `ProcessorOrder`, `ProcessorChain`, `ChainSystem`,
  `ProcessorLiveness`). One stage is a step relation over three bounded channels, an input loop
  and any number of process loops; a select with several ready cases may take any of them, and the
  3 s wait timeout is a step of its own. A chain joins any number of forwarding stages.
* **Speech** (`Tts`, `TtsProcessor`, `TtsGuarantees`, `SpokenText`, `SpeechOutput`, `Playback`,
  `PlayedQueue`, `PlaybackSink`, `Speech`, `SpeechEnd`, `PlaybackAudio`). The synthesis
  orchestrator and the playback queue are functions on their state, objects with the source's
  fields proved against those functions, and a composed system in which interrupts overtake and
  purge what is on the way. Time is counted in 20 ms frames.
* **Conversation history** (`History`, `ContextAggregator`, `HistoryGuarantees`, `UserTurns`,
  `FinishedTurns`, `OverheardSpeech`, `ToolBatch`). The aggregator is an object over a mutable
  array; every list it hands on is an array of its own. User turns, interrupts and commits are
  also defined from the trace of frames alone, and the aggregator is shown to do exactly what that
  reading says.
* **History replay** (`ToolResultOrder`, `Replay`). Writing turns as chunks, reading them back, and
  moving tool results behind the messages that request them.
* **Endpoint router** (`Router`, `RouterPolicy`). Latency windows over `real`, an arbitrary registry
  of endpoints and groups, a store that is read, modified and written.
* **Call shutdown and events** (`CallEvents`, `CallAcceptance`, `CallDrain`, `CallEnd`). Locks,
  once-guards, closed channels and compare-and-swap as interleaved steps of any number of threads.
* **Tool-call streams** (`ToolCalls`). Merging fragments by index.

`Sequences`, `Frames`, `Text` and `JsonText` hold what the others share.

## Where the code and its comments differ

The model follows the code.

* `frame.go` and `processor.go` name the EndFrame as the only frame an interrupt does not purge; the
  two function-call frames (and interrupts and errors) are not interruptible either
  (voicepipelinecore/frame.go:207, 360, 386).
* A response start or a speak frame empties the whole playback queue, an EndFrame in it included:
  `Playback.EndSurvivesIff` says when an EndFrame survives, `Playback.EndCanBeDropped` that it is
  otherwise lost for good. That is the sink taken alone: synthesis, its only neighbour, pushes
  nothing after an EndFrame, and behind it no EndFrame is lost (`SpeechEnd.EndFrameIsNeverLost`).
* When an interrupt gives up waiting for a process loop, two loops run side by side and frames can
  be handed over out of order (`ProcessorOrder.TimeoutCanReorder`). This happens exactly when the
  old loop takes a frame while the interrupt holds kept frames back, and one of those is delivered
  after all (`ProcessorOrder.RunIsInOrderIff`, `ProcessorOrder.HandedInOrderIff`). A loop that was in
  ProcessFrame when it was cancelled leaves at the check at the top of its loop
  (voicepipelinecore/processor.go:341-345); only one that stays between that check and its select for
  the whole wait overtakes (`ProcessorOrder.OvertakerSatInSelect`). Interruptible frames keep their
  order in every run (`ProcessorOrder.InterruptibleFramesKeepOrder`), and nothing is lost or repeated
  (`Processor.EveryRunIsSafe`).
* An output rate of 1 to 49 Hz would make the framing loop run for ever:
  `TtsGuarantees.FramingMakesProgressIff`. The speech results are stated for all other rates.
* Replay is exact if and only if no two calls share a non-empty id (`Replay.ReplayRoundTrip`).
* Words heard over the bot are meant to stay out of the history, which relies on "done" reaching the
  aggregator before "stopped speaking". The playback sink sends the two in that order
  (`OverheardSpeech.PlaybackStopsAreLate`), but the pipeline does not keep them together: the
  interrupt of the talk-time monitor (voicepipelinecore/talktime_monitoring_processor.go:67) passes
  below the aggregator, and a stage it reaches can purge the "done" while the "stopped speaking" sent
  right after it is still on its way into that stage. The aggregator then commits what it overheard
  (`OverheardSpeech.PurgedDoneCommitsOverheardSpeech`). `OverheardSpeech.OverheardIsCommittedIff`
  says exactly when it does.
* The reason reported at the end of a call is the queued one because only queued end frames reach the
  sink; `CallEnd.ForeignEndFrameSplitsReasons` shows what one more source of end frames would do.

## Model

| member | source | states |
|---|---|---|
| `Frames.KeptMember` | voicepipelinecore/frame.go:205-207 | a purge keeps exactly the frames that are not interruptible |
| `Processor.Flow` | voicepipelinecore/processor.go:282-425 | every step but an acceptance removes at most one contiguous block of waiting frames, and the step alone says whether it is handed over, purged or abandoned |
| `Processor.EveryRunIsSafe` | voicepipelinecore/processor.go:282-425 | in every interleaving, timeouts included: no accepted frame is handed over twice or disappears, only interruptible frames are purged, frames are abandoned only once the context is done, re-pushing a kept frame never finds the channel full |
| `ProcessorOrder.StepKeepsOrderIff` | voicepipelinecore/processor.go:282-425 | frames handed over and waiting stay in the order of acceptance across a step if and only if the step does not take a frame past kept ones |
| `ProcessorOrder.RunIsInOrderIff` | voicepipelinecore/processor.go:282-425 | a run of pairwise different frames is in order all along if and only if no loop ever takes a frame past kept ones, timeouts or not |
| `ProcessorOrder.HandedInOrderIff` | voicepipelinecore/processor.go:282-425 | the frames handed over at the end are in the order of acceptance if and only if no overtaken frame is delivered afterwards |
| `ProcessorOrder.RunsKeepOrder` | voicepipelinecore/processor.go:339-425 | every run without overtaking hands its frames over in the order of acceptance, repeated frames included |
| `ProcessorOrder.OnlyTimeoutsOvertake` | voicepipelinecore/processor.go:385-425 | a run without a timed-out wait never overtakes |
| `ProcessorOrder.OvertakerSatInSelect` | voicepipelinecore/processor.go:341-350 | a loop that overtakes is cancelled, and has been between its check and its select ever since its context was done |
| `ProcessorOrder.InterruptibleFramesKeepOrder` | voicepipelinecore/processor.go:385-425 | in every run, timeouts included, the interruptible frames are handed over in order: only uninterruptible ones are overtaken |
| `ProcessorOrder.TimeoutCanReorder` | voicepipelinecore/processor.go:385-425 | with a timed-out wait, an uninterruptible frame can be overtaken by any other frame |
| `ProcessorOrder.SystemFramesComeFirst` | voicepipelinecore/processor.go:282-308 | a waiting system frame is taken before any further data frame, except for one that an already open select may still take |
| `ProcessorOrder.PurgeIsExact` | voicepipelinecore/processor.go:403-415 | a purge drops every frame but end, function-call, interrupt and error frames, and keeps those in order |
| `ProcessorOrder.LanesAndCapacities` | voicepipelinecore/processor.go:184-216 | interrupts and errors go ahead through a channel of 16, all other frames through one of 100 and a process channel of 100 |
| `ProcessorChain.ChainDelivers` | voicepipelinecore/processor.go:184-216 | any number of forwarding stages under any interrupts: the last one gets a subsequence of the input with every uninterruptible frame, the EndFrame last, and no stage stops before its successor has the EndFrame |
| `ProcessorChain.InvDelivers` | voicepipelinecore/processor.go:339-425 | the delivery guarantee holds in every state of the chain that keeps the invariant |
| `ProcessorChain.NothingIsLost` | voicepipelinecore/processor.go:184-216 | no data frame is ever pushed to a stage that is already shutting down |
| `ProcessorChain.EndClosesStage` | voicepipelinecore/processor.go:339-360 | once a stage has been handed the EndFrame, it was the last frame and nothing waits behind it |
| `ChainSystem.SystemFramesPassInOrder` | voicepipelinecore/processor.go:184-216 | in every run and for every stage of a chain, the system frames brought in have gone out in order or still wait: none is lost, none overtakes another |
| `ChainSystem.SystemFramesArrive` | voicepipelinecore/processor.go:184-216 | a system frame that leaves a stage enters the next one, unless that is shutting down |
| `ProcessorLiveness.StuckMeansDelivered` | voicepipelinecore/processor.go:282-425 | a chain in which no step is possible has delivered the EndFrame and every frame that must survive |
| `ProcessorLiveness.MoveLowersRank` | voicepipelinecore/processor.go:282-425 | every step the chain takes by itself lowers a measure |
| `ProcessorLiveness.QuietRunsAreBounded` | voicepipelinecore/processor.go:282-425 | so without further injections only a bounded number of steps is possible |
| `ProcessorLiveness.EndFrameGetsThrough` | voicepipelinecore/processor.go:184-425 | from any reachable state every maximal run without injections is finite and brings the EndFrame, and all that must survive, to the last stage |
| `TtsProcessor.TtsProcessor.constructor` | voicepipelinecore/tts_processor.go:150-162 | a new stage is in the initial state |
| `TtsProcessor.TtsProcessor.EmitPendingWords` | voicepipelinecore/tts_processor.go:595-601 | releases exactly the leading words whose start has been reached |
| `TtsProcessor.TtsProcessor.NextPCMFrame` | voicepipelinecore/tts_processor.go:624-641 | takes one whole frame off the buffer, or nothing |
| `TtsProcessor.TtsProcessor.HandleAudioChunkData` | voicepipelinecore/tts_processor.go:569-591 | refines the cutting of frames, words released between them |
| `TtsProcessor.TtsProcessor.PushRemainingAudioFrames` | voicepipelinecore/tts_processor.go:603-622 | pads and pushes the rest, then flushes the words |
| `TtsProcessor.TtsProcessor.ForwardPendingEnd` | voicepipelinecore/tts_processor.go:282-295 | forwards a held EndFrame, closes its channel and stops |
| `TtsProcessor.TtsProcessor.HandleTTSEvent` | voicepipelinecore/tts_processor.go:449-567 | refines the handling of one synthesizer event, keeps the deferral invariant, and exits exactly when a matching done event releases a held EndFrame, which is then the last frame pushed |
| `TtsProcessor.TtsProcessor.ClearTTSState` | voicepipelinecore/tts_processor.go:269-280 | refines the reset between contexts |
| `TtsProcessor.TtsProcessor.SendTextToTTS` | voicepipelinecore/tts_processor.go:470-497 | writes the text, as a phonetic filter pronounces it, for the current context; if the filter leaves nothing or the write fails it reports failure and writes nothing |
| `TtsProcessor.TtsProcessor.ResetTTSContext` | voicepipelinecore/tts_processor.go:499-516 | finishes the current context on the wire, never without one |
| `TtsProcessor.TtsProcessor.CancelTTSContext` | voicepipelinecore/tts_processor.go:518-531 | cancels the current context on the wire |
| `TtsProcessor.TtsProcessor.FlushForEnd` | voicepipelinecore/tts_processor.go:297-309 | refines what happens to the collected text before the end |
| `TtsProcessor.TtsProcessor.HandleEnd` | voicepipelinecore/tts_processor.go:311-335 | an EndFrame is forwarded, held back, or only acknowledged, and the loop exits exactly when it was forwarded |
| `TtsProcessor.TtsProcessor.OpenContext` | voicepipelinecore/tts_processor.go:355-367 | refines the opening of a fresh context, old events dropped |
| `TtsProcessor.TtsProcessor.AddText` | voicepipelinecore/tts_processor.go:368-391 | refines the collecting of text into sentences |
| `TtsProcessor.TtsProcessor.FlushResponse` | voicepipelinecore/tts_processor.go:392-418 | refines the end of a response, the empty turn included |
| `TtsProcessor.TtsProcessor.SpeakNow` | voicepipelinecore/tts_processor.go:419-438 | refines a prompt with a context of its own |
| `TtsProcessor.TtsProcessor.HandleCommand` | voicepipelinecore/tts_processor.go:337-447 | one command changes the fields exactly as the specification says, keeps the deferral invariant, and while an EndFrame is held changes nothing but to acknowledge a second one |
| `TtsGuarantees.EveryRunDefersProperly` | voicepipelinecore/tts_processor.go:247-466 | in every reachable state with a held EndFrame the context is not empty, it is the active one, and finishing it was the last thing written; an EndFrame pushed is the last frame pushed |
| `TtsGuarantees.CommandsAreShutOut` | voicepipelinecore/tts_processor.go:311-447 | while an EndFrame is held, a command changes nothing; a second EndFrame is only acknowledged |
| `TtsGuarantees.EndFrameIsHeldThenReleased` | voicepipelinecore/tts_processor.go:282-335 | every run from there still holds the EndFrame on the same context, or has released it as the last frame ever pushed |
| `TtsGuarantees.DoneReleasesEndFrame` | voicepipelinecore/tts_processor.go:449-567 | once the matching done event has been handled, the EndFrame is out and its channel closed |
| `TtsGuarantees.StoppedForGood` | voicepipelinecore/tts_processor.go:282-295 | after that nothing is pushed and no channel closed |
| `TtsGuarantees.ChannelsCloseOnce` | voicepipelinecore/tts_processor.go:282-335 | over a whole run, the channels closed and the one still waiting are exactly those of the executed EndFrames |
| `TtsGuarantees.CutFramesConserve` | voicepipelinecore/tts_processor.go:569-591 | framing only moves bytes from the buffer to the frames, and leaves less than a frame |
| `TtsGuarantees.AudioIsConserved` | voicepipelinecore/tts_processor.go:569-641 | between two clears, audio pushed plus audio buffered is audio received |
| `TtsGuarantees.DoneCompletesAudio` | voicepipelinecore/tts_processor.go:603-622 | completion plays the rest, adds less than a frame of zero bytes, and empties the buffer |
| `TtsGuarantees.RemainderIsPartial` | voicepipelinecore/tts_processor.go:413-414 | in every run the buffer holds less than a frame, so an end of response discards less than one |
| `TtsGuarantees.FramingMakesProgressIff` | voicepipelinecore/audio_format.go:28-37 | the framing loop makes progress exactly for unset rates and rates of at least 50 Hz |
| `SpokenText.TextIsConserved` | voicepipelinecore/tts_processor.go:368-391 | over any stretch of a run, whatever filters and writes do: what had been collected and the texts executed are, in order, the pieces given to the synthesizer, each ending a sentence, and the rest still collected; what was written is each piece as pronounced, except those a filter emptied or a write lost |
| `SpokenText.PlainTextIsConserved` | voicepipelinecore/tts_processor.go:368-391 | with no filter and all writes succeeding, the texts written joined with what is collected are exactly the texts executed |
| `SpokenText.ResponseIsSpoken` | voicepipelinecore/tts_processor.go:355-418 | a whole response, from its start to its end or an EndFrame: all its text goes out in its context up to a blank rest, the context is completed exactly if some piece was not lost, and an EndFrame is held back exactly then |
| `SpokenText.ResponseEnds` | voicepipelinecore/tts_processor.go:392-418 | the end of a response leaves nothing non-blank unwritten, and completes the context or closes the turn itself |
| `SpokenText.FirstEndFrame` | voicepipelinecore/tts_processor.go:297-335 | so does a first EndFrame, which is held back exactly if the synthesizer owes a done event |
| `SpokenText.PromptIsSpoken` | voicepipelinecore/tts_processor.go:419-438 | a prompt is written exactly as its text, in a context of its own that is completed |
| `SpokenText.InterruptGivesUp` | voicepipelinecore/tts_processor.go:337-349 | an interrupt cancels the context and leaves nothing collected, buffered, queued or owed |
| `SpokenText.SentencesEnd` | voicepipelinecore/tts_processor.go:20-26 | the common stops, marks and dandas end a piece; letters, digits and blanks do not |
| `SpeechOutput.FrameIsTwentyMilliseconds` | voicepipelinecore/audio_format.go:28-37 | a frame holds 20 ms of 16-bit samples, 960 bytes at the default rate |
| `SpeechOutput.DueWordsAreReleased` | voicepipelinecore/tts_processor.go:595-601 | exactly the leading words that are due go out, unchanged and in order |
| `SpeechOutput.FramesAreWhole` | voicepipelinecore/tts_processor.go:569-591 | framing pushes whole frames only, counts each, and leaves no due word behind |
| `SpeechOutput.WordsAreNeverLate` | voicepipelinecore/tts_processor.go:569-622 | in every reachable state the next word waits for audio that has not gone out yet |
| `SpeechOutput.DonePushesExactly` | voicepipelinecore/tts_processor.go:551-622 | a matching done event pushes the padded rest, all words, one TTSDone and a held EndFrame, in this order |
| `SpeechOutput.RelayedExactly` | voicepipelinecore/tts_processor.go:337-447 | a command passes its own frame on once, unless it is an interrupt or text; a turn that spoke nothing gets its TTSDone before the end of the response |
| `SpeechOutput.StaleEventsAreIgnored` | voicepipelinecore/tts_processor.go:533-567 | an event of another context changes nothing |
| `PlaybackSink.PlaybackSink.HandleQueueFrame` | voicepipelinecore/playback_sink_processor.go:199-238 | refines what an arriving frame does to the queue |
| `PlaybackSink.PlaybackSink.Purge` | voicepipelinecore/playback_sink_processor.go:223-236 | the loop keeps exactly the uninterruptible frames, in order |
| `PlaybackSink.PlaybackSink.Tick` | voicepipelinecore/playback_sink_processor.go:242-302 | the loop refines one tick, and says whether an EndFrame ended playback |
| `Playback.RunKeepsInv` | voicepipelinecore/playback_sink_processor.go:199-302 | in every run only uninterruptible frames are queued while interrupted |
| `Playback.InterruptedIsSilent` | voicepipelinecore/playback_sink_processor.go:199-302 | after an interrupt no audio is played and nothing reported until a turn begins |
| `Playback.EndSurvivesIff` | voicepipelinecore/playback_sink_processor.go:207-236 | an arriving frame removes a queued EndFrame exactly when it begins a turn, and otherwise puts no audio in front of it |
| `Playback.EndPlaysOut` | voicepipelinecore/playback_sink_processor.go:242-302 | a queued EndFrame leaves within one tick more than the audio frames ahead of it, unless a turn begins |
| `Playback.EndCanBeDropped` | voicepipelinecore/playback_sink_processor.go:214-222 | a turn that begins behind a queued EndFrame drops it for good |
| `PlayedQueue.QueueIsPlayedInOrder` | voicepipelinecore/playback_sink_processor.go:199-302 | while no interrupt, turn start or immediate end intervenes, the queued frames and those that come in are played in order, none skipped or repeated, and exactly their reports are sent |
| `PlayedQueue.GracefulEndPlaysQueue` | voicepipelinecore/playback_sink_processor.go:206-213 | an EndFrame for any reason but "client_disconnected" and "error" queues up last: once it is played, all audio before it has been dequeued and every word and done reported, in order |
| `PlayedQueue.EndAtOnceDropsQueue` | voicepipelinecore/playback_sink_processor.go:304-311 | for those two reasons nothing that was queued is played or reported any more |
| `PlayedQueue.InterruptSilences` | voicepipelinecore/playback_sink_processor.go:223-236 | an interrupt leaves exactly the EndFrames in the queue, and nothing is played or reported until a turn begins |
| `PlayedQueue.TurnPlaysAgain` | voicepipelinecore/playback_sink_processor.go:214-222 | the start of a turn ends an interruption, with an empty queue |
| `PlayedQueue.TickIsOneFrame` | voicepipelinecore/playback_sink_processor.go:242-302 | a tick plays at most one audio frame, and fewer only if nothing is left or an EndFrame comes first |
| `SpeechEnd.EndFrameIsNeverLost` | voicepipelinecore/playback_sink_processor.go:199-302 | across synthesis, link and playback, under any interrupts: an EndFrame once pushed has been played, or is on its way with no turn beginning behind it |
| `Speech.WordsLeaveInOrderAndOnTime` | voicepipelinecore/tts_processor.go:569-622 | across synthesis, link and playback, under any interrupts: words are reported in arrival order, each at most once, and before the final flush never earlier than the audio played in their turn |
| `PlaybackAudio.ResampleMonoPCM` | voicepipelinecore/playback_sink_processor.go:106-128 | unchanged input is returned as it is; otherwise a fresh array of the given length, each sample interpolated between its two source neighbours and lying between them, the last source sample repeated beyond the end |
| `PlaybackAudio.InterpolatedIsBetween` | voicepipelinecore/playback_sink_processor.go:122-125 | a resampled value lies between its two neighbours, negative samples included, so it never wraps |
| `PlaybackAudio.InterpolatedIsOnLine` | voicepipelinecore/playback_sink_processor.go:119-125 | a resampled value is the weighted mean of its neighbours cut off towards zero, and the sample itself where the position falls on one |
| `PlaybackAudio.DurationIsKept` | voicepipelinecore/playback_sink_processor.go:110-110 | output length and source length agree to within half a source sample |
| `PlaybackAudio.BackgroundTrack.GetBgFrame` | voicepipelinecore/playback_sink_processor.go:313-327 | a frame is the next stretch of the endlessly repeated track |
| `PlaybackAudio.LoopContinues` | voicepipelinecore/playback_sink_processor.go:313-327 | consecutive frames skip and repeat nothing, across the wrap |
| `PlaybackAudio.LoopPlaysTrack` | voicepipelinecore/playback_sink_processor.go:313-327 | up to its end the track is played as it is, then it starts again |
| `PlaybackAudio.BotPCMFrame` | voicepipelinecore/playback_sink_processor.go:357-385 | little-endian samples, missing ones silent, surplus ones dropped |
| `PlaybackAudio.SampleRoundTrip` | voicepipelinecore/playback_sink_processor.go:350-381 | a sample written low byte first is read back as it was |
| `ContextAggregator.ContextAggregator.constructor` | voicepipelinecore/context_aggregator.go:29-43 | a new aggregator holds the initial messages that carry anything |
| `ContextAggregator.ContextAggregator.MessagesFromInitial` | voicepipelinecore/context_aggregator.go:45-57 | the loop drops messages without role and empty ones |
| `ContextAggregator.ContextAggregator.CloneMessages` | voicepipelinecore/context_aggregator.go:59-68 | a fresh array with the same messages |
| `ContextAggregator.ContextAggregator.AppendWords` | voicepipelinecore/context_aggregator.go:70-78 | words are joined with blanks except before punctuation |
| `ContextAggregator.ContextAggregator.SpokenSoFar` | voicepipelinecore/context_aggregator.go:80-87 | everything spoken, in order, and the list is emptied |
| `ContextAggregator.ContextAggregator.CommitSpokenText` | voicepipelinecore/context_aggregator.go:140-159 | spoken text becomes one assistant message and one commit, or nothing |
| `ContextAggregator.ContextAggregator.UpdateInterimTranscript` | voicepipelinecore/context_aggregator.go:104-124 | the interim text is that of the latest response |
| `ContextAggregator.ContextAggregator.AddUserMessage` | voicepipelinecore/context_aggregator.go:168-181 | a second user message in a row is joined to the first in place |
| `ContextAggregator.ContextAggregator.SubmitUserMessage` | voicepipelinecore/context_aggregator.go:256-273 | a user turn is added, its state reset, and a copy of the history handed on |
| `ContextAggregator.ContextAggregator.CheckBargeIn` | voicepipelinecore/context_aggregator.go:311-325 | enough interim speech over the bot interrupts it and commits what was spoken |
| `ContextAggregator.ContextAggregator.UpdateFinalTranscript` | voicepipelinecore/context_aggregator.go:126-138 | final tokens are collected; the end token closes or discards the turn |
| `ContextAggregator.ContextAggregator.OnTranscript` | voicepipelinecore/context_aggregator.go:311-338 | one transcript frame: interim text, barge-in check, then the final half |
| `ContextAggregator.ContextAggregator.OnTTSDone` | voicepipelinecore/context_aggregator.go:342-363 | the bot's turn is committed, and back-channel speech dropped unless an interrupt is outstanding |
| `ContextAggregator.ContextAggregator.OnInProgress` | voicepipelinecore/context_aggregator.go:211-219 | a started call adds its request and its pending tool message |
| `ContextAggregator.ContextAggregator.OnAppend` | voicepipelinecore/context_aggregator.go:280-296 | appended messages, and a run only on a non-empty history |
| `ContextAggregator.ContextAggregator.PutResult` | voicepipelinecore/context_aggregator.go:245-253 | the backward search edits the latest message for the id in place, or a result is appended |
| `ContextAggregator.ContextAggregator.OnResult` | voicepipelinecore/context_aggregator.go:221-254 | one result frame: history, commit, upstream copy and rerun |
| `ContextAggregator.ContextAggregator.ProcessFrame` | voicepipelinecore/context_aggregator.go:275-373 | one frame changes state and outputs as specified, and no list handed out before is changed by later edits |
| `ContextAggregator.ContextAggregator.ProcessAll` | voicepipelinecore/context_aggregator.go:59-68 | over any trace, every list handed to the model stage still holds at the end what the history was at its own step |
| `HistoryGuarantees.HistoryOnlyGrows` | voicepipelinecore/context_aggregator.go:140-273 | existing roles, ids and tool calls never change, system and assistant text neither, user text is only extended |
| `HistoryGuarantees.HistoryStaysWellFormed` | voicepipelinecore/context_aggregator.go:140-273 | from a well-formed history every disciplined run keeps: tool messages follow the message requesting their id with only tool messages between, user messages are never adjacent |
| `HistoryGuarantees.StartedCallHasMessage` | voicepipelinecore/context_aggregator.go:211-219 | once a call has started its tool message is found for its result, at any later time |
| `HistoryGuarantees.ModelSeesWellFormed` | voicepipelinecore/context_aggregator.go:297-310 | every history handed to the model is well-formed |
| `HistoryGuarantees.StrayResultKeepsFormIff` | voicepipelinecore/context_aggregator.go:245-253 | exactly when a result whose call never started leaves the history well-formed |
| `HistoryGuarantees.StartedCallIsRecorded` | voicepipelinecore/context_aggregator.go:211-219 | a started call adds its request, with raw, parsed or empty arguments, and a pending answer, and is passed upstream |
| `HistoryGuarantees.ResultIsRecorded` | voicepipelinecore/context_aggregator.go:221-254 | a result, trimmed, replaces the content of the latest message for its id and nothing else, or is appended; an empty one is recorded and reported as an error |
| `HistoryGuarantees.TakenInOrder` | voicepipelinecore/context_aggregator.go:45-57 | of given messages exactly those with a role and any content are taken, in order |
| `FinishedTurns.ClosedTurnRunsModel` | voicepipelinecore/context_aggregator.go:256-273 | an end token that closes a turn hands the model the history with exactly what was heard as its last user message; any other end token runs nothing and changes no message |
| `FinishedTurns.ModelRunsIff` | voicepipelinecore/context_aggregator.go:275-338 | the model runs exactly when a turn closes, or a result or appended messages ask for it, and always on the history as it then is |
| `FinishedTurns.AssistantTurnIsWhatWasReported` | voicepipelinecore/context_aggregator.go:70-159 | a bot turn that is done or interrupted is recorded as the words reported in it, in order, with blanks except before punctuation |
| `FinishedTurns.OtherFramesPass` | voicepipelinecore/context_aggregator.go:364-373 | every frame it does not handle is passed on once, in its direction |
| `FinishedTurns.TranscriptsPutOut` | voicepipelinecore/context_aggregator.go:311-338 | a transcript frame puts out an interrupt or the commits it causes, and nothing else |
| `UserTurns.TraceTracks` | voicepipelinecore/context_aggregator.go:104-138 | both flags, the collected and the interim transcript are what the trace of frames says |
| `UserTurns.CommitsExactlyWhatWasHeard` | voicepipelinecore/context_aggregator.go:126-138 | a text is committed if and only if an end token closes a turn in which exactly it was heard, unless the bot speaks with no interrupt outstanding |
| `UserTurns.InterruptsExactlyOnBargeIn` | voicepipelinecore/context_aggregator.go:311-325 | the bot is interrupted if and only if an interim transcript brings its response to three words while the bot speaks and no interrupt is outstanding, all read off the trace |
| `UserTurns.OneInterruptPerTurn` | voicepipelinecore/context_aggregator.go:311-325 | between two interrupts there is a committed user turn |
| `OverheardSpeech.OverheardIsCommittedIff` | voicepipelinecore/context_aggregator.go:126-138 | a token heard while the bot speaks is committed if and only if no bot turn finishes behind it without an outstanding interrupt, and at its end token an interrupt is outstanding or the bot has been reported silent; with no interrupt outstanding: no done behind it, and the last start or stop is a stop |
| `OverheardSpeech.OverheardSpeechIsDropped` | voicepipelinecore/context_aggregator.go:326-362 | so where stops are late it is never committed, unless an interrupt is outstanding at its end token |
| `OverheardSpeech.StopsAreLateIff` | voicepipelinecore/context_aggregator.go:342-369 | stops are late if and only if none arrives with a start as the last mark before it and no barge-in since |
| `OverheardSpeech.PlaybackStopsAreLate` | voicepipelinecore/playback_sink_processor.go:269-277 | the stops of any playback run are late, whatever marks are purged on the way, as long as no stop arrives without its done |
| `OverheardSpeech.EarlyStopCommitsOverheardSpeech` | voicepipelinecore/context_aggregator.go:367-369 | a stop without its done lets overheard speech be committed |
| `OverheardSpeech.PurgedDoneCommitsOverheardSpeech` | voicepipelinecore/processor.go:370-425 | a run of one stage, without timeout, in which an interrupt purges the done and the stop behind it gets through: the aggregator then commits overheard speech |
| `ToolBatch.ExecuteOneToolCall` | voicepipelinecore/llm_processor.go:275-309 | the text and the rerun wish of one handler, and the complaint about a failure or an empty result |
| `ToolBatch.ErrorIsReadable` | voicepipelinecore/llm_processor.go:347-353 | whatever the message of an error, the model can read it back from the error result |
| `ToolBatch.AnswersThatCount` | voicepipelinecore/llm_processor.go:326-345 | an answer is passed on as it is unless it is nothing, blank, or encodes to nothing or null; only an answer that counts can ask for a rerun |
| `ToolBatch.FailuresSayWhy` | voicepipelinecore/llm_processor.go:231-299 | a failed handler asks for no rerun, a call of an unknown tool does; the model can read why in both |
| `JsonText.EscapeRoundTrip` | voicepipelinecore/llm_processor.go:347-353 | escaping a string as JSON text loses nothing: it is read back as it was |
| `JsonText.EscapedIsPlain` | voicepipelinecore/llm_processor.go:347-353 | escaped text holds no control character and no markup character |
| `ToolBatch.AnnounceToolCalls` | voicepipelinecore/llm_processor.go:231-258 | one in-progress frame per call, in order, and a complaint for unreadable arguments and for an unknown name |
| `ToolBatch.ExecuteToolCalls` | voicepipelinecore/llm_processor.go:231-273 | for any arrival order: all calls are announced before any result, results follow in arrival order, exactly the last one asks for a rerun if some job did, and exactly the errors there were are pushed |
| `ToolBatch.LastResultIsHeld` | voicepipelinecore/context_aggregator.go:221-254 | after any run the history holds, for an id, the last result that came in for it |
| `ToolBatch.ArrivedResultIsHeld` | voicepipelinecore/llm_processor.go:263-272 | the result of an arrival is held at the end unless a later arrival has the same id |
| `ToolBatch.RerunHoldsEveryResult` | voicepipelinecore/llm_processor.go:231-309 | with distinct ids, the model runs again exactly when some job asked, and is shown each call's own result, whatever came in between |
| `ToolResultOrder.ReorderToolResultMessages` | disha/call_startup.go:180-220 | the loops over the map of groups compute the declared order |
| `ToolResultOrder.ReorderKeepsOrder` | disha/call_startup.go:180-220 | other messages, and results sharing an id, keep their order |
| `ToolResultOrder.ReorderIsPermutation` | disha/call_startup.go:180-220 | nothing is lost, added or changed |
| `ToolResultOrder.ResultsArePlaced` | disha/call_startup.go:200-219 | a result sits behind the first message requesting it, only earlier-listed results between; unrequested ones come last |
| `ToolResultOrder.ReorderBySelections` | disha/call_startup.go:180-220 | the outcome depends only on the other messages, the groups and the order of the orphans |
| `ToolResultOrder.OrphanOrderKept` | disha/call_startup.go:214-219 | orphans stay in order of first appearance |
| `ToolResultOrder.ReorderIsIdempotent` | disha/call_startup.go:180-220 | reordering twice is reordering once |
| `Replay.CallsRoundTrip` | disha/call_startup.go:109-118 | encoded tool calls are decoded as they were |
| `Replay.ChunkRoundTrip` | disha/call_startup.go:82-124 | a chunk is read back as the message it was written for |
| `Replay.BuildInitialMessages` | disha/call_startup.go:158-175 | replayed chunks, reordered, then the resume note or the greeting |
| `Replay.ReplayRoundTrip` | disha/call_startup.go:158-220 | reading back a conversation gives prompt, exactly its messages and the resume note if and only if no two calls share a non-empty id |
| `Replay.FreshCallGreets` | disha/call_startup.go:171-173 | without chunks the bot is made to speak first |
| `Replay.ResultChunksMayMove` | disha/call_startup.go:177-220 | result chunks may have been stored anywhere as long as the other chunks keep their order |
| `Replay.DebugChunksAreSkipped` | disha/call_startup.go:82-93 | a chunk that is too short or marked as debug is passed over wherever it stands |
| `Replay.PlainChunksAreMessages` | disha/call_startup.go:94-104 | any other chunk with nothing beside its text is a message with its role and text |
| `Replay.OtherChunksAreToolMessages` | disha/call_startup.go:97-124 | a chunk with anything beside its text becomes a tool message or nothing |
| `Router.ComputeSelectionLatency` | voicepipelinecore/llmrouter/health.go:75-93 | the loops compute the mean of the last five known latencies |
| `Router.OldPollsDoNotCount` | voicepipelinecore/llmrouter/health.go:85-87 | older polls do not change the score |
| `Router.LatencyIsMean` | voicepipelinecore/llmrouter/health.go:88-92 | the score lies between the extremes of its window |
| `Router.ScoreOfFive` | voicepipelinecore/llmrouter/health.go:85-92 | with five known latencies at the end, whatever came before, the score is a fifth of their sum |
| `Router.RaisedLatencyScores` | voicepipelinecore/llmrouter/health.go:88-92 | raising one latency that counts raises the score by its share |
| `Router.EqualLatenciesScore` | voicepipelinecore/llmrouter/health.go:88-92 | equal latencies score that latency |
| `Router.OrderDoesNotScore` | voicepipelinecore/llmrouter/health.go:88-92 | the order of the latencies that count does not matter |
| `Router.OnlyKnownLatencies` | voicepipelinecore/llmrouter/health.go:75-84 | polls without a latency are passed over |
| `Router.HeadIsStableMin` | voicepipelinecore/llmrouter/selection.go:86-89 | the head of the stable sort is the first of the fastest |
| `Router.FastestAvailable` | voicepipelinecore/llmrouter/selection.go:57-90 | the first of the fastest candidates that are not blacklisted and have a latency; none when the read fails or there is none |
| `Router.GroupConfigsForRegion` | voicepipelinecore/llmrouter/groups.go:269-286 | the registered configs of a group that fit the region, in order |
| `Router.GetFastestForGroup` | voicepipelinecore/llmrouter/selection.go:25-52 | for each combination of failed reads: the fastest of the group if it can be read and has a candidate, else the fastest of its fallback group likewise, else the hardcoded fallback |
| `RouterPolicy.GroupIsItsKeys` | voicepipelinecore/llmrouter/groups.go:269-286 | the configs of a group are exactly its registered keys in the region, in the order listed |
| `RouterPolicy.LastResort` | voicepipelinecore/llmrouter/selection.go:40-52 | nobody for an unknown or unstaffed group; else the fallback endpoint of a staffed fallback group, else the group's own |
| `Router.BlacklistOnlyMarks` | voicepipelinecore/llmrouter/health.go:113-139 | blacklisting keeps the polls, takes out exactly that endpoint and touches no other |
| `Router.RedisStore.BlacklistForLiveError` | voicepipelinecore/llmrouter/health.go:113-139 | the read-modify-write on the store, failures included |
| `Router.RedisStore.Stream` | voicepipelinecore/llmrouter/client.go:110-270 | one turn, under any failures of the store: whom it asks, when it blacklists, why it polls |
| `RouterPolicy.BlacklistsIff` | voicepipelinecore/llmrouter/client.go:164-198 | a turn blacklists exactly if the request was not built, failed without being cancelled, or was not answered with a 2xx |
| `RouterPolicy.RecordedError` | voicepipelinecore/llmrouter/health.go:113-139 | the error is recorded with its status only if there is one and at most 1000 characters of its text |
| `RouterPolicy.BlacklistedRecord` | voicepipelinecore/llmrouter/health.go:113-139 | the record is marked with the error, its time and reason, and keeps its polls |
| `Router.MeasuredChoice` | voicepipelinecore/llmrouter/selection.go:25-52 | an endpoint chosen by health is the stable minimum of the group, or else of its fallback group |
| `Router.FailingTurnsTryNewEndpoints` | voicepipelinecore/llmrouter/client.go:110-198 | a run of failing turns never chooses by health an endpoint it chose before |
| `Router.LeftAfterFailures` | voicepipelinecore/llmrouter/health.go:113-139 | each such turn uses up a candidate |
| `Router.FailingTurnsReachFallback` | voicepipelinecore/llmrouter/selection.go:25-52 | after at most as many failing turns as both groups have endpoints the hardcoded fallback is used, for good |
| `CallEvents.AcceptedEventsRunOnce` | voicepipelinecore/call_events.go:59-167 | in every interleaving nothing is sent on the closed queue, accepted events start exactly once in order of acceptance, one-shot events at most once |
| `CallEvents.EndIsReportedLast` | voicepipelinecore/pipeline.go:297-335 | when the end is reported every accepted event has finished, and nothing starts or is accepted after |
| `CallEvents.NobodyIsStuck` | voicepipelinecore/call_events.go:132-167 | as long as a thread is inside the dispatcher some step is possible: no deadlock |
| `CallAcceptance.CheckDecides` | voicepipelinecore/call_events.go:132-138 | under the lock, a firing thread goes on to send exactly while the dispatcher is not closing |
| `CallAcceptance.SendDecides` | voicepipelinecore/call_events.go:138-145 | and then its event is accepted exactly if fewer than 512 wait |
| `CallAcceptance.GuardedKinds` | voicepipelinecore/call_events.go:67-130 | exactly the five first-time events pass a guard; committed turns and results do not |
| `CallAcceptance.EveryEventIsAccountedFor` | voicepipelinecore/call_events.go:67-145 | in every run the events fired are, as a bag, those accepted, those still undecided, and those dropped at a used guard, a closing dispatcher or a full queue |
| `CallAcceptance.UsedGuardsWereTried` | voicepipelinecore/call_events.go:67-110 | an event is turned away at its guard only after another of its kind has come as far as the queue |
| `CallDrain.EverythingGetsThrough` | voicepipelinecore/call_events.go:59-167 | from every reachable state, without new calls: only a bounded number of steps is possible, and when none is left every call has returned, every accepted event has run, and a begun cleanup has reported the end |
| `CallDrain.StepLowersRank` | voicepipelinecore/call_events.go:59-167 | every step that is not a new call lowers a measure |
| `CallEnd.TheEndIsQueuedAndReportedOnce` | voicepipelinecore/pipeline.go:224-342 | any number of requests and completions: at most one end frame, one cleanup, one report, and the reason reported is the queued one |
| `CallEnd.AskedEndIsQueued` | voicepipelinecore/pipeline.go:224-249 | once everybody who asked for the end is back, a frame with one of their reasons is queued, unless cleanup or cancellation came first |
| `CallEnd.SunkEndIsReported` | voicepipelinecore/pipeline.go:276-342 | when an end frame has reached the sink and its cleanup is over, exactly its reason has been reported |
| `CallEnd.ClaimIsExclusive` | voicepipelinecore/pipeline.go:230-240 | two threads never hold the claim at once |
| `CallEnd.ForeignEndFrameSplitsReasons` | voicepipelinecore/pipeline.go:243-276 | an end frame that was not queued could make the reasons differ |
| `ToolCalls.ToolCallAccumulator.Add` | voicepipelinecore/tool_calls.go:15-33 | adding a fragment keeps the map and the order equal to what the stream says |
| `ToolCalls.ToolCallAccumulator.List` | voicepipelinecore/tool_calls.go:35-51 | the list is the merge of each index's fragments, by first appearance, without empty calls |
| `ToolCalls.ListIsInOrder` | voicepipelinecore/tool_calls.go:35-51 | the list holds exactly the calls of which some fragment has a name or arguments, in the order in which their indices first appear |
| `ToolCalls.MergeIsConfluent` | voicepipelinecore/tool_calls.go:15-51 | streams with the same fragments per index and the same order of first appearance give the same list |
| `ToolCalls.NeighboursMayBeSwapped` | voicepipelinecore/tool_calls.go:15-51 | neighbouring fragments of different calls may be swapped once one of them has begun |

## Left out

- Room transports, websocket readers and writers, HTTP, Redis and S3 clients, prompts and templates: foreign services and plumbing. What they answer is an arbitrary input of the model.
- Timers of the idle and talk-time stages, metrics, audio timing, UI events, logging and debug uploads: diagnostics, and claims about the wall clock.
- Processor and CallEvents, CallEnd: the goroutines, channels, locks and once-guards are values under a step relation, not objects; a compare-and-swap, a check of both shutdown flags, and a once-guarded spawn are single steps.
- ProcessorChain.ChainDelivers: excludes the 3 s wait timeout and any stop but that by an EndFrame, under which it does not hold (`ProcessorOrder.TimeoutCanReorder`); `Processor.EveryRunIsSafe` covers both for one stage.
- ProcessorLiveness.EndFrameGetsThrough: likewise, and for stages whose ProcessFrame returns once it has pushed its frame.
- HistoryGuarantees.HistoryStaysWellFormed: for runs in which no messages are appended from outside and each result follows the start of its call; `HistoryGuarantees.StrayResultKeepsFormIff` says what one stray result does.
- OverheardSpeech.OverheardSpeechIsDropped: assumes late stops, which a purge of a "done" can break; the exact condition is `OverheardSpeech.OverheardIsCommittedIff`.
- ProcessFrame of the synthesis stage, which also returns when its per-interrupt context is cancelled: the EndFrame results are about the orchestrator's own steps.
- The floating-point volume mix, the silence written before an EndFrame leaves, and writing to the room. Audio time is counted in 20 ms frames instead of floating-point milliseconds.
- TtsProcessor.TtsProcessor.SendTextToTTS: what the phonetic filter makes of a text is an arbitrary answer, and the fixed voice and format fields of the payload are left out. Context ids are any number drawn, not shown to be distinct; no result needs that.
- Punctuation that ends a sentence is the ASCII part of the Unicode classes and the two dandas.
- JSON text: argument maps are kept as encoded strings, surrogate pairs are not read, object keys are matched exactly, and a chunk is stored and returned as the value it was written as. The Python job that turns stored chunks into tuples is not part of this model.
- TtsGuarantees.AudioIsConserved: stated between two clears of the buffer and for audio that reaches the stage through the synthesizer, not for audio frames relayed from elsewhere.
- ToolBatch.ExecuteOneToolCall: the context and timeout a handler runs under only show in its answer, which is arbitrary; a tool's name in an error is quoted without escapes.
- ToolBatch.ExecuteToolCalls: a handler's error frame is pushed when its result arrives; handlers that never return are not modelled.
- Router.RedisStore.Stream: building requests, reading the stream and classifying errors; the turn's outcome and the kind of its error are inputs, and expiry of the stored health is left out. A turn counts as abandoned when the cancellation is seen between two chunks (client.go:205-210); one that makes the reader stop instead goes on to the poll decision (client.go:236-268), as in the source.
- Router.FailingTurnsTryNewEndpoints: for turns whose reads and writes of the store succeed, with no poll in between.
- CallEvents: callbacks that are not set, and panics inside a callback, which the worker recovers from.
- CallEnd: the capacity of the source's channel, the drain and waits inside the cleanup, and what OnCallEnded is told besides the reason.
