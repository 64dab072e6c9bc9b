# Push-to-talk voice loop — a Dafny model

This project models the control logic of the static voice example. It has three parts:

- **Capture** (`AudioCapture`, from `_record_audio` and `record_audio`). One recording attempt is a state machine over key presses and device frames. The state is the `recording` flag and the list of batches collected so far. Space toggles recording. Stopping with nothing recorded keeps waiting. Stopping with something recorded ends the attempt with the batches joined in order. Return ends the conversation in any state. The captured result is then validated: an empty or all-zero buffer is replaced by a 24000-row buffer (one second at 24 kHz).
- **Playback** (`Playback`, from `AudioPlayer`). The player is a class whose output stream is opened once, written chunk by chunk, and closed once. The device output is the written chunks played back to back, in call order.
- **Conversation** (`Conversation`, from `main`). The loop asks for a capture and stops at the first terminate signal. Each buffer is submitted to the pipeline once. The events streamed back are then consumed in order: audio payloads go to the player, lifecycle notices go to the log, and other events are skipped.

The key poll loop and the device callback run concurrently in the program. In the model they are one sequential trace of `Key(code)` and `Frame(batch)` events. A trace is finite, so an attempt that has not ended when its trace runs out is reported as `Waiting` with the state it reached. The program would go on polling. In the same way, the conversation loop is given a finite list of capture results and one finite event stream per cycle. If the list runs out before a terminate signal, the model stops with the player still open.

Every operation has a reference definition, and a lemma or method contract connects the two:

- The capture loop (`CaptureUtterance`) is proved equal to the step function `Step` folded over the trace (`Run`).
- `Run` is characterised against an independent view that ignores stops. In that view, the recording flag is the parity of the space presses, and `RecordedFrom` lists the frames delivered while that flag is on.
- The conversation loop (`Converse`) is proved to produce exactly the effect list `Session`. Each projection of that list is then characterised: submissions, plays and log lines.

Where the code's own comments and its behaviour differ, the model follows the behaviour:

- The replacement buffer comes from `np.empty`, so its contents are not guaranteed to be silence. The model states only its length.
- The loop's `while not terminate` guard never ends the loop. `terminate` is set only just before `return None`. The model keeps the flag and proves that it stays false at the guard.
- The code tests for an empty result and separately for an all-zero result. An empty buffer already counts as all-zero, so the first test adds nothing. Both tests are modelled.
- Closing the player is not guarded in the code. `Exit` may be called whenever the stream was opened.

## Model

| member | source | states |
|---|---|---|
| AudioCapture.Step | examples/voice/static/util.py:21-56 | A frame is appended exactly when recording and is otherwise dropped. A space press that starts recording changes only the flag. A stop with an empty buffer keeps waiting, not recording, with an empty buffer. A stop ends the attempt if and only if the machine was recording and the buffer is non-empty, and it keeps the buffer. Return quits if and only if the key is 10 or 13. Any other key, -1 included, changes nothing. |
| AudioCapture.Run | examples/voice/static/util.py:17-58 | One attempt runs from the initial state: not recording, nothing collected. An ended attempt consumed at least one event and no more than the trace. A waiting attempt is recording exactly when the number of space presses is odd, and holds exactly the batches delivered while recording. |
| AudioCapture.Finalize | examples/voice/static/util.py:60-68 | Leaving the loop yields the batches concatenated in order. An empty list, or batches that join to nothing, give an empty buffer. The length is the sum of the batch lengths. |
| AudioCapture.RunFrom | examples/voice/static/util.py:30-58 | An attempt that ends has consumed at least the event it ended on, and no more than the trace. |
| AudioCapture.WaitingCharacterized | examples/voice/static/util.py:17-58 | While an attempt is still waiting, no return key has been seen. The flag is the start flag flipped by the parity of the space presses. The buffer is the old buffer followed by exactly the batches delivered while recording, in delivery order. |
| AudioCapture.EndedCharacterized | examples/voice/static/util.py:30-56 | An ended attempt was waiting just before its last event. That event is return, giving the terminate signal, or a space press that stopped a non-empty recording, giving its batches joined in order. |
| AudioCapture.RunPrefix | examples/voice/static/util.py:30-58 | Running a prefix and then the rest equals running the whole trace. Once a prefix has ended, the rest is never read. |
| AudioCapture.EventsAfterEndIgnored | examples/voice/static/util.py:43-56 | Events after the end of an attempt do not change its result: no frame is appended after a stop or a terminate. |
| AudioCapture.EnterTerminates | examples/voice/static/util.py:50-56 | A return key in any reachable state ends the attempt at once with the terminate signal, and the buffer is discarded. |
| AudioCapture.StopEndsWithAudio | examples/voice/static/util.py:33-45 | A space press that stops a recording with something in it ends the attempt at that press. The result is the batches delivered while recording, joined in delivery order. |
| AudioCapture.TerminatedAtFirstEnter | examples/voice/static/util.py:50-56 | A terminate result comes from the first return key of the trace. |
| AudioCapture.CapturedAudioIsRecordedFrames | examples/voice/static/util.py:21-65 | An audio result ends at a space press with no return key before it, while recording, with something recorded. Its samples are exactly the batches delivered while recording, joined in delivery order, with no loss or duplication. Its length is the sum of the batch lengths. |
| AudioCapture.NothingRecordedKeepsWaiting | examples/voice/static/util.py:39-49 | If no batch arrives while recording and no return key is pressed, the attempt never ends, however often recording is toggled. |
| AudioCapture.ThreeBatchesScenario | examples/voice/static/util.py:21-65 | Start, three 100 ms batches, stop: the result is one 300 ms buffer holding the three batches in order. |
| AudioCapture.StopWithoutFramesScenario | examples/voice/static/util.py:33-49 | Start then stop with no frame: nothing is returned, and the attempt is back in its initial state, waiting. |
| AudioCapture.CaptureUtterance | examples/voice/static/util.py:9-68 | The imperative polling loop, with its `recording`, `audio_buffer` and `terminate` locals, computes exactly the result of the capture machine over the trace. |
| AudioCapture.Validate | examples/voice/static/util.py:86-90 | The terminate signal passes through unchanged, in both directions. An empty or all-zero buffer becomes a buffer of exactly 24000 samples. Any other buffer is returned unchanged. An audio result is never empty. |
| AudioCapture.RecordAudio | examples/voice/static/util.py:71-90 | A capture followed by validation. A waiting attempt is reported as it is. An ended one has its result validated, so a returned buffer is never empty. |
| Samples.Flatten | examples/voice/static/util.py:62 | Concatenating batches along the sample axis gives a buffer whose length is the sum of the batch lengths, so nothing is lost or duplicated. |
| Samples.AllZero | examples/voice/static/util.py:86 | The all-zero test holds of the empty buffer, so an empty capture also counts as silent. |
| Playback.AudioPlayer.Enter | examples/voice/static/util.py:94-97 | Entering creates and starts the output stream, with nothing written yet. It counts one more opening. |
| Playback.AudioPlayer.AddAudio | examples/voice/static/util.py:102-103 | A write appends the chunk to the device output, after everything written before it. The stream stays running, and the output stays the concatenation of all chunks written. |
| Playback.AudioPlayer.Exit | examples/voice/static/util.py:99-100 | Exiting closes the stream and counts one more closing. What was written stays as it was. |
| Playback.WritesInOrder | examples/voice/static/util.py:94-103 | Writes A, B, C between enter and exit give device output A then B then C, for any chunk sizes, empty ones included. The stream is opened once and closed once. |
| Conversation.RouteEvent | examples/voice/static/main.py:88-93 | An audio event gives one play of its data. A lifecycle event gives one log line of its notice. Any other event gives nothing. |
| Conversation.Route | examples/voice/static/main.py:88-93 | A stream is consumed event by event, with at most one effect per event. |
| Conversation.Cycle | examples/voice/static/main.py:82-93 | A cycle starts with the submission of its buffer, followed by at most one effect per event of its response. |
| Conversation.Session | examples/voice/static/main.py:75-93 | A run has no effects if and only if the first capture result is the terminate signal or there is none. Otherwise its first effect is the submission of the first captured buffer. |
| Conversation.CycleCount | examples/voice/static/main.py:75-80 | The number of cycles is the position of the first terminate signal, or every result if there is none. Every earlier result is audio. |
| Conversation.SessionStopsAtTerminate | examples/voice/static/main.py:75-80 | The loop stops at the first terminate signal. The effects of a run are those of the cycles before it, and later capture results are never used. |
| Conversation.SessionSubmissions | examples/voice/static/main.py:75-85 | Over a run, the buffers submitted to the pipeline are exactly the captured buffers before the first terminate signal, in order, one per cycle. |
| Conversation.CycleProjections | examples/voice/static/main.py:82-93 | In one cycle, the buffer is submitted exactly once, as the first effect. No submission follows it among that cycle's effects. The cycle plays the stream's audio payloads and logs its lifecycle notices. |
| Conversation.RouteProjections | examples/voice/static/main.py:88-93 | Consuming a stream plays exactly its audio payloads and logs exactly its lifecycle notices, each in stream order. It submits nothing, and other events have no effect. |
| Conversation.RouteAppend | examples/voice/static/main.py:88-93 | Routing is order-preserving and needs no look-ahead: routing two streams in sequence gives the first's effects, then the second's. |
| Conversation.SessionPlayback | examples/voice/static/main.py:75-93 | Across a run, the chunks given to the player are the audio payloads of each cycle's response, cycle after cycle, each in stream order. |
| Conversation.SessionLog | examples/voice/static/main.py:75-93 | Across a run, the log receives each cycle's lifecycle notices, cycle after cycle, each in stream order. |
| Conversation.MixedStreamScenario | examples/voice/static/main.py:88-93 | The stream audio x, notice, audio y, notice plays x then y, and logs the two notices in order. |
| Conversation.HandleEvent | examples/voice/static/main.py:89-93 | One event is handled by its branch. An audio payload is written to the player and recorded as played. A lifecycle notice is recorded as logged. Any other event changes nothing. The effect is that event's routing. |
| Conversation.ConsumeStream | examples/voice/static/main.py:88-93 | The event loop writes each audio payload to the player in stream order and produces exactly the routed effects of the stream. |
| Conversation.Converse | examples/voice/static/main.py:65-95 | The whole loop produces exactly the run's effect list. One player is entered before the first cycle and reused by every cycle. Its output is the concatenation of all played chunks. It is opened exactly once. It is closed exactly once at the terminate signal, counted, and never closed if no terminate signal was supplied. Each buffer is recorded as submitted before its response stream is consumed. |

## Left out

- Terminal handling (non-blocking mode, clearing, prompts, refresh) and the status printout in the device callback: user interface only.
- The 10 ms sleep between polls: timing, not behaviour.
- The real input and output devices, and the threading between the device callback and the key loop. Frames are events interleaved with key presses in one sequential trace.
- Floating-point and 16-bit sample arithmetic: a sample is an integer whose only property used is whether it is zero.
- The contents of the 24000-row replacement buffer: `np.empty` leaves them uninitialised. The model takes them as an arbitrary caller-supplied sequence of that length.
- The voice pipeline, the agents, their handoff prompts, transcription and speech synthesis: external services. Each cycle's response is a supplied finite event list.
- The weather tool, which uses random choice and printing.
- `async`/`await` and the event loop: the loop is sequential and is modelled as a plain loop.
- The printed messages of the conversation loop, other than lifecycle notices: console output only.
- The warning that `record_audio` prints before it replaces an empty or silent buffer: console output only.
- Exceptions: device-open failure, errors raised by the pipeline, and the stream close that a `with` block performs on an exceptional exit. These come from libraries that are not part of this model.
- Conversation.Converse: a finite list of capture results stands in for the unbounded loop. When the list runs out without a terminate signal, the model stops with the player open instead of polling for ever.
- AudioCapture.CaptureUtterance, AudioCapture.RecordAudio: a finite trace stands in for the unbounded key polling. A trace that runs out before a stop with audio or a return key yields `Waiting` with the state reached, where the program would go on polling.
