# Pramya: verified model

Pramya holds spoken job interviews. A server engine streams a question from a language model,
cuts it into sentences, synthesises them and sends the audio over one ordered channel; a
browser client plays it, acknowledges playback and sends microphone chunks back. Around that
protocol sit the text pipeline that decides what is spoken, the document chunker and the rank
fusion behind retrieval, the interview session service and its event stream, the rate limiter,
and the arithmetic from evidence to a preparation queue. This project models those parts in
Dafny and proves what they keep.

`dafny verify dfyconfig.toml` checks everything.

## How it is organised

- **Voice protocol.** `EngineSteps` and `ClientSteps` give one step of each peer - the code
  between two awaits, every send being an await - as a function on a value; `VoiceEngine` and
  `VoiceClient` are the classes with the fields updated in place, each method proved equal to
  its step. `VoiceProtocol` joins the peers by two FIFO channels; a run is any sequence of
  labelled steps. `VoiceSession` runs the two objects step by step and ends where the run ends.
  `VoiceMonitor` reads the wire; `VoiceSafety`, `VoiceRuns`, `VoiceSpeech`, `VoiceIntegrity`,
  `VoicePlaying`, `VoiceSilent`, `VoiceMic` and `ReceiveLoop` prove the theorems; `VoiceEndings`,
  `VoiceControls`, `VoiceGate` and `VoiceAcks` say where each control and task leads, which end a
  session comes to, and what each peer owes the other, over every run. `VoiceScenes`
  has stretches of concrete runs; `VoiceCounterexamples` and `VoiceOverlaps` put them together
  into one run for each hypothesis. `SpeechWorker` is the producer, bounded queue and sender;
  `WavFrames` the cutting of a WAV segment.
- **Text.** `Text` (Python's strip, split, join, find), `Segmenter`, `QuestionText`, `Extractor`,
  `QuestionParser`, `QuestionFormat`, which prints an output and parses it back, and
  `StreamedQuestion`, which compares what is spoken with what is stored.
- **Chunker.** `Paragraphs`, `HardSplit`, `Chunker`, then `ChunkerLaws`, `ChunkerBounds`,
  `ChunkerGreed`, `ChunkerOffsets`.
- **Session.** `SessionState`, `InterviewSession` (calls on values), `InterviewService` (the same
  on rows), `InterviewLaws`, `InterviewFeedback`, `InterviewHistory`, `Coverage`, `Sse`.
- **Small cores.** `StableSort`, `RankFusion`, `RankFusionLaws`, `SearchTail`, `RateLimit`,
  `RateAnswers`, `Rounding`, `Readiness`, `ReadinessLaws`, `ReadinessBlend`, `Preparation`.

## Hypotheses of the voice theorems

`VoiceProtocol.Disciplined` lists those of safety. For each one `VoiceCounterexamples` has a run
from the start that breaks it in one step, keeps every hypothesis before and after, and ends with
a frame sent into a state in which nobody may speak.

- The peer is `VoiceClient`, which never sends `start_turn` (backend/app/voice/engine.py:347 opens
  the window unguarded): `StartTurnMustNotCome`.
- The question pipeline does not raise: the degrade path (backend/app/voice/engine.py:496-507)
  leaves the worker alive: `PipelineMustNotRaise`.
- No pause while an answer is processed, and no interrupt while the session start task runs: both
  leave a task that later asks a question in LISTENING: `ProcessingMustNotPause`,
  `SessionStartMustNotBeInterrupted`.
- While the silence watchdog is between `turn_ended` and creating its answer task there is no
  interrupt, no second end of turn and no second watchdog that ends the turn:
  `EndingTurnMustNotBeInterrupted`, `EndingTurnMustNotEndAgain`, `SecondWatchdogMustWait`. Every
  other message may be handled then.

Speaker integrity and the claim about what sounds also assume `VoiceIntegrity.Steady` - the client's
queue does not run dry before `tts_stop`, and acknowledgements come from the playback - and the
latter `VoicePlaying.Patient` - the playback timeout does not open the window over unheard audio.
`VoiceOverlaps` has a run for each. `VoiceMic`, `ReceiveLoop`, `VoiceEndings`, `VoiceGate` and `VoiceAcks` need no hypothesis
at all, but for the button in `BothEndsAgree`.

## Where the code and its documentation differ

- backend/app/knowledge/chunking.py:54 promises chunks of at most `chunk_size`; the carry can exceed
  it. `DocumentedBound` gives the settings under which the promise holds.
- backend/app/voice/engine.py:555-558 speaks of uniform frames; the last frame is longer than the
  others unless the PCM divides evenly: `SplitFrames`.
- backend/app/voice/segmenter.py:7 promises never to split inside a word:
  `HardCutSplitsWordExactlyWhen` says when a cut does, and `LongWordIsSplit` which words suffer it.
- backend/app/voice/segmenter.py:173 slices the unstripped line, so an indented header speaks part
  of its own keyword: `HeaderSlice`, and `SpokenIsPersisted` for what follows from it.
- backend/app/core/middleware.py:107 says old buckets are pruned: `BucketsAreNeverPruned`, with
  `AnHourLaterStillThere` as the input.
- backend/app/voice/engine.py:233-234 says the receive loop stays hot; a due partial transcript is
  awaited inside the audio handler: `LoopWaitsExactlyWhen` says when, `InterruptWaits` is the run.
- backend/app/voice/engine.py:19-21 has stale chunks dropped on both sides; after a playback timeout
  or an underrun they sound on under the next generation: `PlaysInPlaceExactlyWhen`, and the runs
  of `VoiceOverlaps`.

## Model

| member | source | states |
|---|---|---|
| VoiceEngine.VoiceEngine.SetState | backend/app/voice/engine.py:208-212 | a state is broadcast only when it changes |
| VoiceEngine.VoiceEngine.CancelTts | backend/app/voice/engine.py:1043-1065 | the generation moves on, the worker and the question pipeline are dead, nothing else changes |
| VoiceEngine.VoiceEngine.CancelAnswer | backend/app/voice/engine.py:1067-1076 | the answer task behind the handle is dead, nothing else changes |
| VoiceEngine.VoiceEngine.StartListening | backend/app/voice/engine.py:649-680 | a fresh window: empty buffer, zero chunk and byte counters, no pending playback, LISTENING broadcast if new, a silence watchdog alive |
| VoiceEngine.VoiceEngine.OnPlaybackComplete | backend/app/voice/engine.py:634-647 | only the pending generation, only while SPEAKING, opens the window; any other acknowledgement changes nothing |
| VoiceEngine.VoiceEngine.PlaybackTimeoutGuard | backend/app/voice/engine.py:609-632 | the timeout opens the window only for the current pending generation while SPEAKING |
| VoiceEngine.VoiceEngine.RequestEndTurn | backend/app/voice/engine.py:799-807 | a turn ends only in LISTENING and with no answer task alive; the watchdog is stopped before turn_ended |
| VoiceEngine.VoiceEngine.CreateAnswerTask | backend/app/voice/engine.py:799-807 | the answer task is created after turn_ended was sent |
| VoiceEngine.VoiceEngine.SilenceWatchdog | backend/app/voice/engine.py:773-784 | the watchdog ends the turn under the same guards, or its loop; either way it is gone from its handle |
| VoiceEngine.VoiceEngine.FinishSilence | backend/app/voice/engine.py:799-807 | the answer task of a turn the watchdog has ended is created, whatever happened in between |
| VoiceEngine.VoiceEngine.Interrupt | backend/app/voice/engine.py:1013-1041 | everything cancelled, the watchdog stopped, audio dropped, INTERRUPTED broadcast before LISTENING |
| VoiceEngine.VoiceEngine.ResumeHandler | backend/app/voice/engine.py:1013-1041 | the second half of a handler: LISTENING after an interrupt, the buffer cleared after a resume, the watchdog started, the partial transcript sent |
| VoiceEngine.VoiceEngine.Pause | backend/app/voice/engine.py:1089-1105 | speech is cancelled only from THINKING or SPEAKING, the watchdog always; an answer task is left alone |
| VoiceEngine.VoiceEngine.Resume | backend/app/voice/engine.py:1107-1117 | LISTENING from PAUSED only |
| VoiceEngine.VoiceEngine.OnAudio | backend/app/voice/engine.py:721-761 | a chunk is buffered and counted in LISTENING, counted as discarded otherwise; barge-in interrupts |
| VoiceEngine.VoiceEngine.Record | backend/app/voice/engine.py:722-731 | a partial transcript is due exactly when the buffer has grown by two seconds since the last one |
| VoiceEngine.VoiceEngine.Handle | backend/app/voice/engine.py:338-380 | each control message goes to its handler, a stop or cancel to the closing of the interview row; VoiceEndings says over runs which one ends how |
| VoiceEngine.VoiceEngine.Finish | backend/app/voice/engine.py:1119-1150 | stop and cancel kill every task before the terminal state is broadcast |
| VoiceEngine.VoiceEngine.Leave | backend/app/voice/engine.py:261-272 | whatever is left when the loop ends is cancelled, and nothing is handled after it |
| VoiceEngine.VoiceEngine.StartSession | backend/app/voice/engine.py:292-334 | warm-up before the first question; a rejoin announces itself and opens the window; an error is announced and leaves the state alone |
| VoiceEngine.VoiceEngine.OpenQuestion | backend/app/voice/engine.py:395-400 | generation, THINKING and tts_start in that order, one per step |
| VoiceEngine.VoiceEngine.SpawnWorker | backend/app/voice/engine.py:400-402 | the worker of the question starts empty and is the one the handle cancels |
| VoiceEngine.VoiceEngine.PutSegments | backend/app/voice/engine.py:416-425 | segments reach the worker of the question's own generation |
| VoiceEngine.VoiceEngine.FinishQuestion | backend/app/voice/engine.py:425-455 | the question is stored and announced with its last segments |
| VoiceEngine.VoiceEngine.CloseQuestion | backend/app/voice/engine.py:457-463 | the end marker follows the last segment |
| VoiceEngine.VoiceEngine.StopSpeaking | backend/app/voice/engine.py:482-486 | tts_stop only when the worker is done, the generation current and the state THINKING or SPEAKING |
| VoiceEngine.VoiceEngine.AwaitPlayback | backend/app/voice/engine.py:491-493 | the pending generation is that of the question and the timeout is armed |
| VoiceEngine.VoiceEngine.DegradeToText | backend/app/voice/engine.py:496-507 | the degrade path announces an error and opens LISTENING without touching the worker |
| VoiceEngine.VoiceEngine.ProducerTurn | backend/app/voice/engine.py:526-565 | one turn of the producer, under the generation check |
| VoiceEngine.VoiceEngine.SenderTurn | backend/app/voice/engine.py:567-581 | one turn of the sender: generation check, SPEAKING once, then the frame |
| VoiceEngine.VoiceEngine.StartAnswer | backend/app/voice/engine.py:809-819 | PROCESSING is broadcast before the audio is taken |
| VoiceEngine.VoiceEngine.ClaimAudio | backend/app/voice/engine.py:818-828 | the buffer becomes the answer and is emptied; an empty one reopens the window |
| VoiceEngine.VoiceEngine.FinishRecognition | backend/app/voice/engine.py:828-865 | transcript announced, blank transcript announced, or the task gone |
| VoiceEngine.VoiceEngine.CompleteAnswer | backend/app/voice/engine.py:866-902 | the next question is asked only after the answer is stored and while the engine runs |
| VoiceClient.VoiceClient.NotifyPlaybackComplete | frontend/src/lib/voice.ts:342-352 | acknowledges only the current generation, once, on an open socket |
| VoiceClient.VoiceClient.ScheduleQueuedPlayback | frontend/src/lib/voice.ts:496-525 | everything queued is scheduled while speaking with a current generation, and dropped otherwise |
| VoiceClient.VoiceClient.EnqueuePlayback | frontend/src/lib/voice.ts:484-494 | audio outside a current generation is dropped |
| VoiceClient.VoiceClient.FlushPlayback | frontend/src/lib/voice.ts:528-539 | no source stays active and none stays queued |
| VoiceClient.VoiceClient.Receive | frontend/src/lib/voice.ts:378-469 | what each server message does to the client and what it answers |
| VoiceClient.VoiceClient.OnEnded | frontend/src/lib/voice.ts:512-518 | the last source to end acknowledges |
| VoiceClient.VoiceClient.InterruptNow | frontend/src/lib/voice.ts:355-361 | local silence first, then the control |
| VoiceClient.VoiceClient.LeaveNow | frontend/src/lib/voice.ts:279-293 | the control is sent before everything is torn down |
| VoiceClient.VoiceClient.Forward | frontend/src/lib/voice.ts:184-193 | a mic frame is forwarded only while listening or speaking on an open socket |
| VoiceSession.Play | backend/app/voice/engine.py:233-260 | whatever steps the scheduler takes, the two objects are where the protocol's run is; under the hypotheses they send no stale audio and let none sound |
| SpeechWorker.ProduceKeepsOrder | backend/app/voice/engine.py:526-565 | every producer step keeps the frames sent, held, queued and in hand equal to the outcomes in order |
| SpeechWorker.TakeKeepsOrder | backend/app/voice/engine.py:567-574 | so does every take of the sender, with the end marker last |
| SpeechWorker.EndedMeansAllSent | backend/app/voice/engine.py:509-583 | a sender that saw the end marker has relayed every frame of every segment |
| VoiceMonitor.FramesBelong | frontend/src/lib/voice.ts:448-453 | a stream the monitor accepts announces every frame's own generation before the frame, unrevoked |
| VoiceSafety.ServerKeepsSound | backend/app/voice/engine.py:382-1150 | every disciplined server step keeps the engine invariant: one live pipeline, answer and worker, all behind their handles |
| VoiceRuns.NoStaleFrameSent | backend/app/voice/engine.py:382-583 | in every disciplined run a frame follows the tts_start of its own generation with nothing in between that ends it, in SPEAKING |
| VoiceRuns.SilenceHolds | backend/app/voice/engine.py:1013-1065 | after interrupted, paused, completed or cancelled no frame until a tts_start with a generation above all earlier ones |
| VoiceGate.OverSendsAtMostOne | backend/app/voice/engine.py:567-581 | in every run whatsoever, once the generation has moved past g, no frame of g is sent any more but the one its sender then had in hand |
| VoiceRuns.NoStaleFrameScheduled | frontend/src/lib/voice.ts:484-525 | the client schedules a frame only while its current generation is the one that synthesised it |
| VoicePlaying.NoStaleFramePlayed | frontend/src/lib/voice.ts:392-494 | without underrun and without a timeout over unheard audio, everything scheduled or sounding belongs to the client's current generation |
| VoicePlaying.PlaysInPlaceExactlyWhen | frontend/src/lib/voice.ts:445-453 | in every disciplined run what sounds is at all times the current generation's exactly when no tts_start is received while a source is active |
| VoiceRuns.PendingIsCurrent | backend/app/voice/engine.py:482-493 | a pending playback is the current generation's, with no other task alive, and SPEAKING then has its timeout armed |
| VoiceSpeech.AudioIsInOrder | backend/app/voice/engine.py:509-583 | the audio on the wire for a generation is a prefix of its segments' frames in order, a failed segment counting up to its failure |
| VoiceSpeech.StopMeansAllSent | backend/app/voice/engine.py:457-487 | a tts_stop on the wire means every frame of every segment of that question was sent |
| VoiceIntegrity.AckOpensMicOnlyAfterPlayback | backend/app/voice/engine.py:634-647 | in a run without underrun, when an acknowledgement opens the window every frame of that question has been received and has ended |
| VoiceIntegrity.StaleAckIgnored | backend/app/voice/engine.py:634-647 | an acknowledgement for another generation, or outside SPEAKING, changes nothing |
| VoiceSilent.SilentQuestionStays | backend/app/voice/engine.py:617-647 | in every disciplined run a question whose tts_stop is out and that gave no frame is in THINKING, and the next step leaves it there unless it is an interrupt, a pause, a barge-in or the end of a stop or cancel |
| VoiceEndings.TerminalExactlyAfter | backend/app/voice/engine.py:1119-1150 | in every run COMPLETED is on the wire exactly when a stop was taken out of the channel and the loop went on, CANCELLED exactly when a cancel was |
| VoiceEndings.PartingEndsSession | backend/app/voice/engine.py:369-372 | after a stop, or a cancel, was taken the next step of the loop leaves the engine in COMPLETED, or CANCELLED, and has just broadcast it, whatever happened in between |
| VoiceEndings.BothEndsAgree | frontend/src/lib/voice.ts:279-293 | when the candidate leaves with the button, the terminal state the server broadcasts is the one the client was left in |
| VoiceControls.InterruptLands | backend/app/voice/engine.py:1013-1041 | from every state an interrupt ends in LISTENING through INTERRUPTED, with an empty buffer, no task behind a handle, no pending playback and the next generation |
| VoiceControls.SessionLands | backend/app/voice/engine.py:292-334 | the start task leads to STARTING and a first question, to LISTENING on a rejoin, or to an error and nothing else |
| VoiceControls.SilenceLands | backend/app/voice/engine.py:773-807 | a silence makes one answer task, in LISTENING and with none alive, and otherwise only ends the watchdog |
| VoiceControls.AnswerClaims | backend/app/voice/engine.py:809-828 | an answer takes the window in PROCESSING, and an empty window is opened again |
| VoiceControls.SilentAnswerLands | backend/app/voice/engine.py:828-865 | a blank transcript ends in LISTENING and asks no question |
| VoiceControls.AnswerLands | backend/app/voice/engine.py:835-902 | a transcribed and stored answer starts exactly one next question while the engine runs; without a stored question, or when storing fails, none |
| VoiceAcks.AcksExactlyOnce | frontend/src/lib/voice.ts:342-352 | over everything that can happen to the client, an announced question that was not silenced is acknowledged at most once and by its own generation, and it has been once the client fell silent |
| VoiceAcks.PlaysExactlyWhen | frontend/src/lib/voice.ts:484-539 | over the same histories, audio begins to sound exactly in speaking under an announced question, and everything stops exactly at a silencing state, an interrupt or a parting |
| VoiceAcks.MicGoesOutExactlyWhen | frontend/src/lib/voice.ts:184-193 | a microphone chunk goes out exactly while the server last said listening or speaking and the candidate has not left |
| VoiceMic.WindowTellsHistory | backend/app/voice/engine.py:721-744 | in every run whatsoever the buffer and the counters are exactly what the microphone history says |
| VoiceMic.AnswerIsWhatWasSaid | backend/app/voice/engine.py:809-832 | the audio transcribed as an answer is the chunks received in LISTENING since the buffer was last cleared, in order |
| VoiceMic.EveryByteCounted | backend/app/voice/engine.py:649-664 | every chunk since the window opened, and every byte of it, is in exactly one counter |
| ReceiveLoop.LoopWaitsExactlyWhen | backend/app/voice/engine.py:721-731 | in every run the receive loop is waiting for recognition or the database exactly when a chunk made a partial transcript due in LISTENING, or a stop or cancel was handled, and nothing has ended that wait |
| ReceiveLoop.WaitingKeepsMessages | backend/app/voice/engine.py:242-253 | while it waits no message leaves the channel |
| ReceiveLoop.InterruptWaits | backend/app/voice/engine.py:786-795 | a run in which an interrupt waits for a partial transcript |
| VoiceOverlaps.UnderrunOpensMicEarly | frontend/src/lib/voice.ts:512-518 | a run regular but for one underrun opens the microphone over a frame in flight |
| VoiceOverlaps.UnderrunOverlaps | frontend/src/lib/voice.ts:445-453 | and that frame sounds on under the next question |
| VoiceOverlaps.ForgedAckOverlaps | backend/app/voice/engine.py:634-647 | so does audio under an acknowledgement that the playback did not send |
| VoiceOverlaps.TimeoutOverlaps | backend/app/voice/engine.py:617-632 | a run regular but for one playback timeout: the frame still sounding goes on under the next generation |
| VoiceCounterexamples.PipelineMustNotRaise | backend/app/voice/engine.py:496-507 | a run from the start, disciplined but for the degrade path, sends a frame into LISTENING |
| VoiceCounterexamples.DegradeSpeaksIntoListening | backend/app/voice/engine.py:496-507 | from every state with a frame in hand the degrade path lets it out into LISTENING |
| VoiceCounterexamples.StartTurnMustNotCome | backend/app/voice/engine.py:347-348 | the same for one start_turn |
| VoiceCounterexamples.StartTurnSpeaksIntoListening | backend/app/voice/engine.py:347-348 | from every state with a frame in hand start_turn lets it out into LISTENING |
| VoiceCounterexamples.SessionStartMustNotBeInterrupted | backend/app/voice/engine.py:292-308 | one interrupt during the session start: a frame is sent in PROCESSING |
| VoiceCounterexamples.ProcessingMustNotPause | backend/app/voice/engine.py:1089-1117 | one pause during PROCESSING: a frame is sent in PROCESSING |
| VoiceCounterexamples.EndingTurnMustNotBeInterrupted | backend/app/voice/engine.py:799-807 | one interrupt between the watchdog's turn_ended and its answer task: the same |
| VoiceCounterexamples.EndingTurnMustNotEndAgain | backend/app/voice/engine.py:799-807 | one end_turn at that moment: the same |
| VoiceCounterexamples.SecondWatchdogMustWait | backend/app/voice/engine.py:702-717 | a second watchdog at that moment: the same |
| WavFrames.SplitFrames | backend/app/voice/engine.py:549-558 | a segment's frames join to its PCM followed only by zero bytes; all frames have the target size exactly when the PCM divides evenly |
| Segmenter.TextSegmenter.Feed | backend/app/voice/segmenter.py:39-79 | the segments and the residue are those of the cutting rule, with the cached gap index always right |
| Segmenter.TextSegmenter.Flush | backend/app/voice/segmenter.py:81-86 | the stripped residue, and an empty buffer |
| Segmenter.TextSegmenter.TrackSpaces | backend/app/voice/segmenter.py:46-49 | the scan that never resets still finds the last gap |
| Segmenter.CutsShrink | backend/app/voice/segmenter.py:51-78 | the loop shrinks its buffer, for every buffer, exactly when min_chars or max_chars is positive |
| Segmenter.SentenceCutExactlyWhen | backend/app/voice/segmenter.py:60-69 | a sentence cut is made exactly after the last sentence end that leaves the minimum |
| Segmenter.HardCutSplitsWordExactlyWhen | backend/app/voice/segmenter.py:70-77 | a hard cut falls inside a word of the text exactly when no gap lies beyond half the minimum and neither the last character nor the next one is white space |
| Segmenter.LongWordIsSplit | backend/app/voice/segmenter.py:70-77 | every word of at least the maximum that arrives in two chunks is spoken in two segments |
| Segmenter.SpokenIsTheText | backend/app/voice/segmenter.py:39-86 | for every chunking the text is the segments and the flush in order with only white space around them |
| Segmenter.RunSettles | backend/app/voice/segmenter.py:51-79 | after every run the residue is shorter than max(min, max) and has no sentence end at or beyond min - 1 |
| Segmenter.SegmentsAreShort | backend/app/voice/segmenter.py:39-79 | no segment is longer than max(min, max) - 1 plus the chunk that released it |
| Extractor.QuestionStreamExtractor.Feed | backend/app/voice/segmenter.py:143-154 | after every token, what has been let through is what the complete lines before the first metadata line say |
| Extractor.QuestionStreamExtractor.Flush | backend/app/voice/segmenter.py:156-162 | with the flush, all of the text has been seen |
| Extractor.MetadataEndsSpeech | backend/app/voice/segmenter.py:164-170 | once a metadata line is complete no later text changes what is let through |
| QuestionParser.ParseQuestionOutput | backend/app/interview/generation.py:56-107 | question lines, key values and hints are those of three sections; no question text is an error; QuestionFormat says which line ends up in which field |
| QuestionParser.SameLines | backend/app/interview/generation.py:63-63 | with lines ended by a newline, alone or after a carriage return, the parser sees the extractor's lines, stripped alike |
| QuestionFormat.OutputRoundTrip | backend/app/interview/generation.py:56-107 | round trip: whatever question lines, metadata lines and hint lines are printed, each field of the stored question is the last value of its own key or the documented default, RATIONALE before RATIONAL, and the hints are the dashed lines |
| StreamedQuestion.SpeakQuestion | backend/app/voice/engine.py:416-435 | for every way of cutting a text into tokens the segments are one function of the text; nothing is flushed when the parser rejects |
| StreamedQuestion.SpokenIsPersisted | backend/app/voice/engine.py:416-435 | spoken and stored text agree up to white space exactly when no header before the metadata is indented |
| StreamedQuestion.SilentIsRejected | backend/app/interview/generation.py:94-96 | nothing is spoken exactly when the parser rejects, unless a header is indented |
| StreamedQuestion.MetadataIsSilent | backend/app/voice/segmenter.py:164-170 | text after the first metadata line never changes what is spoken |
| StreamedQuestion.HeaderSlice | backend/app/voice/segmenter.py:171-174 | an indented header keeps as many characters of its keyword as it has of white space; exactly the unindented ones are sliced right |
| StreamedQuestion.CarriageReturnSpeaksMetadata | backend/app/voice/segmenter.py:149-151 | a metadata line behind a bare carriage return is spoken in full and not stored as question text |
| Paragraphs.SplitParagraphs | backend/app/knowledge/chunking.py:34-43 | the offsets found by searching are the places of the stripped parts |
| Paragraphs.OffsetsAreExact | backend/app/knowledge/chunking.py:34-43 | for every document each paragraph stands at its offset and ends before the next begins |
| Paragraphs.ParagraphsCover | backend/app/knowledge/chunking.py:34-43 | the document is its paragraphs with white space between them |
| HardSplit.SplitWords | backend/app/knowledge/chunking.py:125-141 | the loop gives the pieces that PiecesRejoin, PiecesAreShort and PiecesAreGreedy determine |
| HardSplit.PiecesRejoin | backend/app/knowledge/chunking.py:125-141 | pieces joined by single spaces are exactly the paragraph |
| HardSplit.PiecesAreShort | backend/app/knowledge/chunking.py:131-140 | no piece exceeds the chunk size or, where longer, the longest word |
| HardSplit.PiecesAreGreedy | backend/app/knowledge/chunking.py:131-140 | a piece of several words fits, and with a space and the first word of the next piece it would not; the length of the first piece counts one more |
| Chunker.ChunkText | backend/app/knowledge/chunking.py:46-122 | the packer's chunks, the blank document before the argument check, and the argument error |
| Chunker.Packer.Flush | backend/app/knowledge/chunking.py:70-99 | emits the buffer and restarts from the carried tail, with the packer's own length and offset |
| Chunker.Packer.Pack | backend/app/knowledge/chunking.py:101-120 | one paragraph: cut, flushed for, or appended |
| Chunker.Packer.CarryTail | backend/app/knowledge/chunking.py:83-90 | the carried paragraphs are the longest tail within the overlap |
| ChunkerLaws.ChunksConserve | backend/app/knowledge/chunking.py:70-122 | carries dropped and pieces rejoined, the chunks are exactly the document's paragraphs in order |
| ChunkerLaws.CarriesAreTails | backend/app/knowledge/chunking.py:83-99 | every carry is what the previous packed chunk kept; a chunk with nothing new only follows a cut paragraph |
| ChunkerLaws.KeptFacts | backend/app/knowledge/chunking.py:83-99 | what is kept is a proper tail within the overlap, the longest one, and nothing when the whole buffer would fit |
| ChunkerLaws.ChunksNumbered | backend/app/knowledge/chunking.py:75-82 | chunk i has index i and a range as long as its content |
| ChunkerGreed.PackingIsGreedy | backend/app/knowledge/chunking.py:101-120 | only paragraphs over the chunk size are cut, a chunk with several new paragraphs fits, and no packed chunk could have taken the paragraph after it |
| ChunkerBounds.PackedWithinSum | backend/app/knowledge/chunking.py:83-121 | no packed chunk exceeds chunk_size + chunk_overlap |
| ChunkerBounds.DocumentedBound | backend/app/knowledge/chunking.py:54-57 | packed chunks stay within chunk_size for every document exactly when the overlap is below 3, the size below 6, or the overlap at least the size |
| ChunkerOffsets.OffsetsLocateChunks | backend/app/knowledge/chunking.py:70-121 | on a normalised document every chunk reads back at its offsets, starts strictly increase, every paragraph is inside a chunk |
| SessionState.TerminalIsFinal | backend/app/interview/state.py:18-49 | exactly COMPLETED and CANCELLED cannot be left |
| SessionState.EnteredFrom | backend/app/interview/state.py:18-49 | the table by columns: from where each status may be entered |
| SessionState.CompletionComesFromQuestioning | backend/app/interview/state.py:18-71 | every legal path to COMPLETED comes out of QUESTIONING and never returns to CREATED |
| InterviewService.SessionRows.Begin | backend/app/interview/service.py:302-319 | snapshot on first use, QUESTIONING through PLANNING, or an error that changes nothing |
| InterviewService.SessionRows.NextQuestion | backend/app/interview/service.py:321-336 | a question row, its turn and its coverage, or an error that changes nothing |
| InterviewService.SessionRows.PersistQuestion | backend/app/interview/service.py:594-640 | the turn number is one above the largest so far, and the coverage is marked |
| InterviewService.SessionRows.MarkCoverage | backend/app/interview/service.py:642-666 | the question's own marks, then one mark for every matched skill, on coverage that starts anew when missing |
| InterviewService.SessionRows.SubmitAnswer | backend/app/interview/service.py:668-728 | replay before the key check, the key recorded, answer and turn kept even when the inline evaluation fails |
| InterviewService.SessionRows.EvaluateAnswer | backend/app/interview/service.py:730-814 | an evaluation row for the question's answer, or an error |
| InterviewService.SessionRows.RequestHint | backend/app/interview/service.py:853-883 | one hint more on the question's turn |
| InterviewService.SessionRows.Move | backend/app/interview/service.py:885-899 | pause, resume and cancel follow the transition table |
| InterviewService.SessionRows.Stop | backend/app/interview/service.py:901-944 | COMPLETED with the feedback row of its evaluations, or an error that changes nothing |
| InterviewService.SessionRows.EvaluationsForSession | backend/app/interview/service.py:1170-1179 | the first evaluation of each answered question in question order |
| InterviewService.Serve | backend/app/interview/service.py:302-953 | the rows after any calls are those of the run on values, so the laws hold of them |
| InterviewLaws.RunsAreSound | backend/app/interview/service.py:302-953 | over every sequence of calls: turns numbered 1..n with n = questions + answers, one turn each, at most one answer per question with a later turn, at most one feedback row |
| InterviewLaws.RunExtends | backend/app/interview/service.py:541-560 | later calls never lose or rewrite what was recorded, and the snapshot is write-once |
| InterviewLaws.TerminalIsFrozen | backend/app/interview/service.py:901-953 | after COMPLETED or CANCELLED every call raises and nothing changes |
| InterviewLaws.ResubmissionReturnsTheAnswer | backend/app/interview/service.py:688-698 | submitting again returns the first answer and changes nothing, whatever the text or key |
| InterviewFeedback.FeedbackExactly | backend/app/interview/service.py:901-944 | over every sequence of calls there is no feedback before completion, one row at completion exactly when some answer has an evaluation, and it lists the first evaluation of each such question in question order |
| InterviewHistory.RowsAreCalls | backend/app/interview/service.py:594-814 | over every sequence of calls the question, answer and evaluation rows are, in order, the questions asked, the first answers given and the grades |
| InterviewHistory.HintsCounted | backend/app/interview/service.py:853-883 | over every sequence of calls the counter on a question's turn is the number of hints given on it |
| InterviewHistory.GroundedOnce | backend/app/interview/service.py:541-560 | over every sequence of calls the snapshot is that of the first call that built one |
| InterviewHistory.KeysRecordOnce | backend/app/interview/service.py:698-703 | in a whole run an idempotency key records at most one answer |
| InterviewHistory.SubmitExactly | backend/app/interview/service.py:668-728 | when submitting is refused, replayed or recorded, in terms of the rows, and what is recorded |
| InterviewHistory.MovesExactly | backend/app/interview/service.py:885-953 | which call moves a session, from which status and to which; a move that cannot be made raises and changes nothing |
| Sse.ParseEvent | frontend/src/hooks/useSSE.ts:60-75 | the last event line, the joined data lines, comments skipped |
| Sse.Reader.Read | frontend/src/hooks/useSSE.ts:41-51 | the events handed on are those of the blocks closed so far, whatever the chunking |
| Sse.WireReads | backend/app/interview/service.py:94-95 | the written stream splits back into exactly its events and leaves nothing open |
| Sse.Transmit | backend/app/interview/service.py:1181-1194 | round trip: for every chunking the reader yields the written events in order and drops the keepalives |
| RankFusion.RrfFuse | backend/app/knowledge/retrieval.py:250-261 | the dictionary loop computes each id's summed reciprocal ranks, sorted stably |
| RankFusionLaws.FusedIsRanking | backend/app/knowledge/retrieval.py:250-261 | every id of either leg exactly once, in descending score |
| RankFusionLaws.DominancePrecedes | backend/app/knowledge/retrieval.py:253-260 | a chunk ranked above another in every leg that finds the other strictly precedes it |
| RankFusionLaws.BothFirstExactlyTo61 | backend/app/knowledge/retrieval.py:27-29 | chunks found by both legs come first, for all legs of up to n distinct hits, exactly when n <= 61 |
| RankFusionLaws.CutDropsNothing | backend/app/knowledge/retrieval.py:150-151 | the cut to three times the leg size never drops a hit |
| SearchTail.FinishSearch | backend/app/knowledge/retrieval.py:132-175 | fused hits, reranked when there is more than one and the reranker answers, cut to k; what degraded is reported |
| SearchTail.RerankedExactly | backend/app/knowledge/retrieval.py:157-160 | of two hits the one with the higher reranker score comes first, ties in fused order, a hit left out counting as zero |
| SearchTail.SearchKeepsTheBest | backend/app/knowledge/retrieval.py:150-167 | of two fused hits the one returned first is the better by the reranker, or by the fusion when it was not asked, and nothing is returned without everything better |
| SearchTail.SearchFindsTheTop | backend/app/knowledge/retrieval.py:150-167 | at most k chunks, each once and found by a leg, fewer only when the legs found fewer; the reranker changes only the order |
| StableSort.SortIsStable | backend/app/knowledge/retrieval.py:260-260 | an element that comes first and does not score lower stays first |
| RateLimit.Limiter.Dispatch | backend/app/core/middleware.py:128-153 | one request: the answer and the bucket after it, as DispatchAll uses them |
| RateAnswers.DispatchAll | backend/app/core/middleware.py:125-153 | the answers to a sequence of requests: at most twice the limit true for an address in any sixty seconds, a limited request false only when its address had the whole limit in the sixty seconds before, an exempt request and every request without a limit true |
| RateLimit.OthersDoNotMatter | backend/app/core/middleware.py:125-152 | an address's bucket depends on its own requests alone |
| RateLimit.IntervalBound | backend/app/core/middleware.py:137-152 | every half-open interval of sixty seconds admits at most twice the limit, every window at most the limit |
| RateLimit.TwiceTheLimitIsReached | backend/app/core/middleware.py:137-152 | the factor of two is reached |
| RateLimit.RefusedOnlyWhenFull | backend/app/core/middleware.py:139-151 | a refusal means the limit was used up in a window that began in the last sixty seconds |
| RateLimit.AnHourLaterStillThere | backend/app/core/middleware.py:104-109 | an address heard of once is still in the table an hour later |
| RateLimit.BucketsAreNeverPruned | backend/app/core/middleware.py:104-109 | after any requests the table holds a bucket for exactly the addresses that ever asked, and never loses one |
| Coverage.CoverageState.AppendUnique | backend/app/services/coverage.py:200-205 | a new non-empty value goes to the end of its list, anything else changes nothing |
| Coverage.CoverageState.MarkAsked | backend/app/services/coverage.py:177-197 | the five lists after one question |
| Coverage.MarkKeeps | backend/app/services/coverage.py:177-205 | lists only grow and stay duplicate-free |
| Coverage.CoverageState.MarkQuestion | backend/app/interview/service.py:642-666 | the marks of one question and of its matched skills |
| Coverage.MarkQuestionKeeps | backend/app/interview/service.py:642-666 | a persisted question only adds, without duplicates, and every matched skill is listed |
| Coverage.MarkedCompetencies | backend/app/services/coverage.py:177-197 | a question adds its own competency to those asked and no other, whatever else it records |
| Coverage.MarkedValues | backend/app/services/coverage.py:177-205 | each value of a question joins the list of its own name, and the matched skills join the skills |
| Coverage.FocusExactly | backend/app/services/coverage.py:215-234 | the competencies that can be chosen over all random numbers are exactly the follow-up topic if it is one of them, else those not asked about, else all |
| Coverage.RotationCovers | backend/app/services/coverage.py:215-234 | for every random generator and whatever else the questions record, k questions cover k more competencies until none is missing |
| Coverage.AllAskedExactlyWhen | backend/app/interview/service.py:491-511 | all competencies are asked exactly from the n-th question on, n being the number of distinct ones |
| Readiness.EvidenceCoverage | backend/app/services/readiness.py:100-113 | coverage and strength of a list of evidence |
| Readiness.EvaluationScore | backend/app/services/readiness.py:116-128 | recency-weighted score and confidence |
| Readiness.ComputeReadiness | backend/app/services/readiness.py:131-226 | per-competency assessment, weighted averages, gaps sorted |
| ReadinessLaws.AssessmentRanges | backend/app/services/readiness.py:143-184 | every score, confidence and coverage is in range, and thin evidence caps the score at 4 and the level at 2 |
| ReadinessLaws.GapsAreExact | backend/app/services/readiness.py:186-218 | the gaps are exactly the required competencies below target, each with its levels and score, largest first, of one to four levels |
| ReadinessLaws.ThinEvidenceIsCritical | backend/app/services/readiness.py:158-197 | required, target at least 3 and coverage below 0.3 is always a critical gap |
| ReadinessLaws.OverallBetween | backend/app/services/readiness.py:199-203 | the overall score lies between the smallest and the largest score when the weights sum to at least 1e-9 |
| ReadinessBlend.CoverageIsShare | backend/app/services/readiness.py:100-113 | one record is covered by the weight of its status; several reach full coverage at three quarters of their number, and less in proportion |
| ReadinessBlend.AssessmentIsBlend | backend/app/services/readiness.py:142-164 | up to rounding the score is six parts recency-weighted evaluations and four parts status-weighted evidence, the evidence alone without a score, at most 4 on thin evidence; confidence is the middle of the two sources and the level half the score |
| ReadinessBlend.OverallsAreMeans | backend/app/services/readiness.py:199-214 | overall score, confidence and coverage are weighted means over the competencies, up to rounding |
| ReadinessBlend.OwnRecords | backend/app/services/readiness.py:139-140 | a competency is assessed on all its own records, as often as they occur, and no others |
| Rounding.RoundBetween | backend/app/services/readiness.py:201-201 | rounding to a grid stays between grid values |
| Preparation.PlanPreparation | backend/app/services/preparation.py:33-69 | the queue is a permutation of the gaps in which a larger gap never follows a smaller one, in descending clamped priority: 100 from two levels on, and among gaps of one level the weak competencies first, then those not practised lately |

## Left out

- Model, ASR and TTS calls, prompts and the LangGraph wiring: their results are arbitrary parameters.
- Reconnecting, the WebSocket itself, the `AudioContext` clock and the capture worklet: FIFO channels and abstract scheduled/ended events stand for them; the audio context is taken to be running.
- The background evaluation lane, metrics, transcript persistence and logging of the engine: they change no field the theorems speak of; evaluation overlapping a later answer is not excluded.
- Control messages that are malformed or unknown: they end the session with an error event.
- The state lock of `_set_state`: a broadcast and the state change are one step here.
- Cancel-and-await is one atomic step that kills the task; clean-up code of a cancelled task is not modelled.
- Leaving THINKING when a question produced no audio: the code has no way out; `SilentQuestionStays` says so.
- SQLAlchemy, migrations and transactions: rows are sequences, a row's id is its position, a call is atomic and one that raises leaves the rows as they were (except that an answer stays when its inline evaluation fails). Two requests for the same question interleaved between lookup and insert are not modelled.
- VoiceEngine.VoiceEngine.OnAudio: the energy test of voice barge-in is a parameter, as is the time at which the silence watchdog finds the candidate silent.
- VoiceEngine.VoiceEngine.Record: the interval between partial transcripts is the default of two seconds.
- VoiceEngine.VoiceEngine.StartListening: broadcasting LISTENING and starting the silence watchdog are one step.
- VoiceEngine.VoiceEngine.Interrupt: the evaluation task that is cancelled with the rest is not modelled.
- VoiceEngine.VoiceEngine.ResumeHandler: a partial transcript is announced even when it is empty; the announcement changes nothing the theorems speak of.
- StreamedQuestion.SpokenIsPersisted: covers texts whose lines end with a newline, alone or after a carriage return; behind any other line break the extractor sees one line where the parser sees two.
- QuestionParser.ParseQuestionOutput: letter case is folded on ASCII only, so characters whose upper case is ASCII, such as U+0131, are outside the model.
- ChunkerOffsets.OffsetsLocateChunks: covers normalised documents; the code gives all pieces of a cut paragraph one start offset and restarts the offset at 0 after it.
- ChunkerBounds.DocumentedBound: speaks of packed chunks; a piece of a cut paragraph is bounded by its longest word as `PiecesAreShort` says.
- Sse.Transmit: JSON text is opaque and one line; UTF-8 decoding is done before the reader, and the event queue that drops its oldest entry when full is not modelled.
- QuestionFormat.OutputRoundTrip: prints one blank after a colon or a dash and ends lines with a newline; other spacing is left to the laws of the parser.
- ReadinessBlend.AssessmentIsBlend: the recency factors of a competency's evaluations add up to at least 1e-9, below which the code divides by 1e-9.
- RankFusion.RrfFuse: scores are reals.
- SearchTail.FinishSearch: the scores of the reranker are a parameter.
- InterviewService.SessionRows.EvaluateAnswer: evidence rows, follow-up directives and gap rows are not modelled.
- InterviewService.SessionRows.MarkCoverage: which skills of the resume the job description names is a parameter.
- RateLimit.Limiter.Dispatch: paths outside the API prefix and public paths are a flag of the request; times are reals.
- Readiness.ComputeReadiness: reals stand for floats, and the recency factor, a power of one half, is an input in (0, 1]; the reason texts are left out.
- Coverage of invented entities, gap texts and JD matching in backend/app/services/coverage.py: substring tests that would add only easy members.
- React pages, theme, profile, document parsing, embedding search, authentication and configuration.
