# Live translator: transcript and playback model

This project models the core of the `App` component of a browser-based live
interpreter. A microphone stream goes to a live speech session. The session
sends back server messages. Each message may carry transcription fragments of
the user's speech (input) and the model's speech (output), a turn-complete
flag, an audio segment of the model's voice, and an interruption flag.

The model covers:

- **Transcript updater** (`Transcript.UpdateTranscript`). It either
  overwrites the last entry, leaves the list alone, or appends a new entry.
- **Fragment accumulation and turn completion** (`Transcript.Accumulate`,
  `Transcript.CompleteTurn`, `Transcript.MessageEffects`). Fragments grow
  two buffers, one per speaker. A turn-complete flushes both buffers as
  complete entries.
- **Gapless playback queue** (`Playback`). Each segment starts at the later
  of the queue end and the output clock, then pushes the queue end forward
  by its duration. Sources leave the set when they end. An interruption
  stops them all and resets the queue.
- **Session set-up rules** (`Config`). The two languages must differ. The
  base voice is "Puck" only when both participants chose Boy. Each
  translation direction uses the tone of the voice chosen for its target
  language.
- **The component's state** (`AppComponent.App`). This class holds the
  React state and refs as fields. Every handler is a method that states its
  new state as a pure function of the old one (`Snapshot`). Every handler
  also keeps `Valid`:
  - every scheduled source has a non-negative duration;
  - every scheduled source ends no later than the queue end;
  - entry ids are below the id counter and pairwise distinct.

Behaviour of the code worth knowing:

- **Open entries.** The updater only inspects the last entry
  (App.tsx:308-311). An input fragment followed by an output fragment and
  then a turn-complete therefore leaves both open entries in place and
  appends two complete copies after them.
  `TranscriptExamples.InterleavedTurnLeavesOpenEntries` derives that list.
- **Muted audio.** When a message carries audio, the output context and
  node exist, and audio return is off, the handler returns early
  (`AppComponent.Branch`). That message's interruption flag is then
  ignored. `AppComponent.QueueAfter` states this.
- **Rejected decode.** When decoding rejects, the handler aborts after the
  queue end has already caught up with the clock. It schedules nothing and
  also skips the interruption branch. The decoder is a parameter here:
  `decoded` is `None` for a rejection, else the buffer's duration.
- **Partial teardown.** `disconnect` releases both audio contexts, the
  stream, the session and the playback queue. It leaves the output gain
  node, media source node and script processor refs set.
  `AppComponent.Disconnected` states what is kept.

## Model

| member | source | states |
|---|---|---|
| Transcript.UpdateTranscript | App.tsx:306-330 | If the last entry has the same source and is open, it alone gets the new text and flag and the length is kept. Otherwise an open, empty update returns the list unchanged. In every other case one entry with the fresh id, source, text, flag and timestamp is appended. The result always extends the input: ids, sources and timestamps are kept, and only the last entry may change. |
| Transcript.UpdateEndsWith | App.tsx:306-330 | After an update with non-empty text or the complete flag, the last entry has that source, text and flag. |
| Transcript.UpdateKeepsIdsFresh | App.tsx:312-322 | An overwrite keeps the entry's id and an append uses a fresh one, so distinct ids below the counter stay distinct below the next counter value. |
| Transcript.Push | App.tsx:306-330 | One `updateTranscript` call: the transcript becomes the updater's result with the next id, the counter moves on, the buffers are kept, and ids stay fresh. |
| Types.FragmentOf | App.tsx:237-239 | A missing transcription or a missing text reads as the empty fragment. Otherwise the fragment is the transcription's text. |
| Types.AudioOf | App.tsx:266 | The message's inline audio, or "" when the server content or the audio is missing. |
| Transcript.Accumulate | App.tsx:237-251 | An empty or missing fragment changes nothing. Otherwise the speaker's buffer becomes the old buffer plus the fragment and the other buffer is unchanged. The transcript is updated with the whole buffer as an open entry, so the list ends with that speaker's open entry. Ids stay fresh. |
| Transcript.CompleteBuffer | App.tsx:255-262 | An empty buffer changes nothing. A non-empty buffer is pushed as a complete entry and the buffer becomes empty. The other buffer is kept. The list only grows, and ids stay fresh. |
| Transcript.CompleteTurn | App.tsx:253-263 | Flushes input, then output. Afterwards both buffers are empty. With both buffers already empty the state is unchanged. The list only grows, and ids stay fresh. |
| Transcript.CompleteTurnEnds | App.tsx:253-263 | After turn completion, a non-empty output buffer is the last entry, as a complete Model entry. A non-empty input buffer is the complete User entry just before it, or the last entry when there was no output. |
| Transcript.MessageEffects | App.tsx:233-263 | A message without server content changes nothing. Any message only extends the transcript and keeps ids fresh. A turn-complete message leaves both buffers empty. |
| Transcript.RunExtends | App.tsx:306-330 | Over any sequence of messages, each handled at its own time, entries are never removed and never change id, speaker or timestamp. Only the last open entry may change text or flag, and ids stay fresh. |
| Transcript.CompleteItemsAreFinal | App.tsx:311-313 | A complete entry is never changed by any later sequence of messages, whatever times they are handled at. |
| TranscriptExamples.FragmentStep | App.tsx:237-251 | A message carrying one non-empty fragment appends it to that speaker's buffer and pushes the buffer as an open entry. |
| TranscriptExamples.TurnCompleteStep | App.tsx:253-263 | A bare turn-complete message has exactly the effect of turn completion. |
| TranscriptExamples.HelloExample | App.tsx:237-263 | The input fragments "Hel" (at time 10) and "lo" (at 20) give one open User entry "Hello" stamped 10. A following turn-complete (at 30) closes that entry, empties both buffers and appends nothing. |
| TranscriptExamples.InterleavedTurnLeavesOpenEntries | App.tsx:237-263 | Input "Hel" at 10, then output "Bon" at 20, then turn-complete at 30 gives four entries: the two open ones, then complete User "Hel" and complete Model "Bon", both stamped 30. |
| Playback.StartTime | App.tsx:276 | The start is the larger of the queue end and the clock: at least both, and equal to one of them. |
| Playback.StartTimes | App.tsx:276-294 | The start times of consecutive enqueues, one per segment. Its step is the one `AppComponent.App.PlayAudio` takes: start at `StartTime` of the queue end and the clock, then move the queue end by the duration. |
| Playback.StartTimesCons | App.tsx:276-294 | Enqueuing one segment and then the rest gives the start `StartTime(next, clock)` followed by the start times of the rest from the moved queue end, and the same final queue end. Consecutive `PlayAudio` calls therefore start their sources at `StartTimes`. |
| Playback.QueueEnd | App.tsx:276-294 | The queue end after consecutive enqueues is the end of the last segment, or the old queue end when nothing was enqueued. |
| Playback.StartTimesStep | App.tsx:276-294 | The first segment starts at the later of the old queue end and its clock. Every later segment starts at the later of the previous segment's end and its own clock. |
| Playback.StartTimesGapless | App.tsx:276-294 | A segment that arrives before the previous one has finished starts exactly at its end, so there is no gap. One that arrives later starts at its own clock. |
| Playback.StartTimesNoOverlap | App.tsx:276-294 | For consecutive enqueues, the first segment starts no earlier than the old queue end. Each segment starts no earlier than the clock at its enqueue, and no earlier than the end of the segment before it. |
| Playback.StartTimesOrdered | App.tsx:276-294 | Start times are non-decreasing in enqueue order. Every segment ends by the final queue end, which is no earlier than the initial one. |
| Playback.FlushedStartsNow | App.tsx:298-303 | After the queue is reset, a segment enqueued at a non-negative clock starts at the clock. |
| Playback.BufferSource.constructor | App.tsx:284-285 | A new source has the decoded buffer's duration and is not stopped. |
| Playback.BufferSource.Start | App.tsx:292 | The source's start time is the time passed in. |
| Playback.BufferSource.Stop | App.tsx:300 | The source is stopped. |
| Config.BaseVoiceName | App.tsx:163-168 | The name is "Puck" exactly when both voices are Boy, and "Kore" exactly otherwise. |
| Config.Tone | App.tsx:112-113 | The tone is "feminine/female" exactly for Girl and "masculine/male" exactly for Boy. |
| Config.SystemInstruction | App.tsx:111-130 | Two rules: from l1 into l2 with the tone of v2, then from l2 into l1 with the tone of v1. |
| Config.SessionConfig | App.tsx:171-181 | The session's voice is "Puck" exactly when both voices are Boy, else "Kore". Its instruction is from langA into langB with voiceB's tone, then from langB into langA with voiceA's tone. |
| Config.MediaError | App.tsx:226-229 | The error shown is the failure's message when that is non-empty, else "Failed to start audio session". |
| AppComponent.Disconnected | App.tsx:83-109 | Afterwards the app is inactive and the queue is idle. Both contexts, the stream and the session are released. Transcript, error and audio flag are kept. The output node, source node and script processor refs are not cleared. |
| AppComponent.DisconnectTornDown | App.tsx:83-109 | Disconnecting a torn-down state changes nothing. |
| AppComponent.DisconnectIdempotent | App.tsx:83-109 | Disconnecting twice is the same as once. |
| AppComponent.Connected | App.tsx:132-231 | Equal languages only set "Please select two different languages.", and nothing else changes. A microphone failure leaves the media error and a torn-down state, with the output node still set. On success the error is cleared and all contexts, the output node and the stream are set. The session then holds the configuration whose voice is the base voice, and the queue, transcript and activity are unchanged. |
| AppComponent.Branch | App.tsx:266-271 | Audio is handled exactly when the message has audio and both the output context and node exist. It is dropped exactly when, in addition, audio return is off. |
| AppComponent.QueueAfter | App.tsx:265-303 | Muted audio leaves the queue unchanged, and so does a message with neither audio nor interruption. A rejected decode only advances the queue end to the start time. Otherwise played audio joins the set and the queue end becomes start plus duration. Whenever the interruption branch is reached and the flag is set, the queue is idle. |
| AppComponent.Handled | App.tsx:233-304 | The state after one message: the transcript becomes `MessageEffects`, whatever the audio branch. The queue becomes `QueueAfter`, and refs, error, activity and audio flag are kept. The transcript only extends and ids stay fresh. Muted audio keeps the queue, and a reached interruption leaves it idle. |
| AppComponent.App.constructor | App.tsx:36-67 | Initial state: inactive, no error, audio on, empty buffers and transcript, no refs, idle queue. |
| AppComponent.App.ToggleAudio | App.tsx:77-81 | The audio-return flag is negated and nothing else changes. |
| AppComponent.App.ClearTranscripts | App.tsx:332-334 | The transcript becomes empty and nothing else changes. |
| AppComponent.App.FlushPlayback | App.tsx:86-91 | Every previously scheduled source is stopped. The set is empty, the queue end is 0, and nothing else changes. |
| AppComponent.App.Disconnect | App.tsx:83-109 | The new state is `Disconnected` of the old one, every scheduled source is stopped, and the invariant holds. |
| AppComponent.App.ReleaseDevices | App.tsx:93-107 | Both contexts, the stream and the session refs are cleared and nothing else changes. |
| AppComponent.App.OpenDevices | App.tsx:141-152 | Both contexts and the output node are set and nothing else changes. |
| AppComponent.App.OpenSession | App.tsx:154-224 | The stream is set and the session holds the given configuration. Nothing else changes. |
| AppComponent.App.Connect | App.tsx:132-231 | The new state is `Connected` of the old one, and the invariant holds. On a microphone failure every scheduled source is stopped. On the language error and on success no source's stopped flag changes. |
| AppComponent.App.OnOpen | App.tsx:183-208 | The app becomes active. The source node and script processor refs are set exactly when the input context exists. |
| AppComponent.App.OnClose | App.tsx:212-215 | The app becomes inactive and nothing else changes. |
| AppComponent.App.OnError | App.tsx:216-220 | The error is "Connection error. Please try again." and the state is then disconnected. Every scheduled source is stopped. |
| AppComponent.App.OnEnded | App.tsx:288-290 | The ended source leaves the set. The queue end and everything else are kept, and the invariant holds. |
| AppComponent.App.PushTranscript | App.tsx:306-330 | The buffers, transcript and id counter become `Push` of the old ones. |
| AppComponent.App.HandleTranscription | App.tsx:233-263 | The buffers and transcript become `MessageEffects` of the old ones. |
| AppComponent.App.PlayAudio | App.tsx:273-294 | The queue end first catches up with the clock. On a rejected decode nothing is scheduled. Otherwise a fresh source starts at that time, no earlier than the end of every source already scheduled. It joins the set and the queue end moves past it. |
| AppComponent.App.HandleAudio | App.tsx:265-303 | The queue becomes `QueueAfter` for the message's branch. A source is played exactly when the branch plays and decoding succeeds. The played source starts at the start time without overlapping earlier sources, and it is stopped exactly when the message interrupts. When the interruption branch is reached, all old sources are stopped. Otherwise (muted, rejected decode, or no interruption) no old source's stopped flag changes, so earlier playback goes on. |
| AppComponent.App.HandleServerMessage | App.tsx:233-304 | The new state is `Handled` of the old one: transcript effects first, whatever the audio branch, then the audio and interruption effects. The played source is as `HandleAudio` states. Old sources are all stopped when the interruption branch is reached, and keep their stopped flag otherwise. The invariant holds: scheduled sources end by the queue end, and ids are fresh. |

## Left out

- Audio encoding and decoding (`utils/audioUtils`) are not part of this model. The duration a decode yields, or its rejection, is the parameter `decoded`.
- Web Audio and media-device objects are not modelled. Each ref is a boolean "is set". Closing contexts, stopping tracks, connecting nodes and the capture callback that sends microphone blocks are side effects outside the model.
- The live session client is not modelled. Opening it, delivering callbacks, sending realtime input and closing it are left out. The session ref holds the configuration it was opened with.
- Asynchrony is not modelled. `connect` and each message handler run as one atomic step, so handlers that interleave across the `await` of decoding are not covered.
- Only the microphone request can fail in `AppComponent.Connected`. Exceptions from constructing an audio context or from the session client are not modelled.
- The exception a second `stop()` may raise is not modelled. In the model `stop` never fails, and the `try`/`catch` around it in `disconnect` changes nothing.
- Entry ids and timestamps come from the clock and a random generator in the code. Here ids come from a counter (`nextId`). The timestamp is the time a message is handled: the parameter `now` for one message, and one entry of `nows` per message for a stream.
- Times are exact reals, not floating-point numbers.
- `isAudioOn` and `isAudioOnRef` are written together by `toggleAudio`, so they are one field.
- The fixed prose of the instruction text, the model name and the language list are not modelled.
- Rendering, auto-scroll and the presentational components are not modelled. Neither is the language and voice selection state: it enters `Connect` as parameters.
