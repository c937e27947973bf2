# Medicinal AI — a verified model of its voice session and screen logic

Medicinal AI is a browser application that helps people understand their
medicines: it scans packaging, keeps a history of scans, checks drug
interactions, logs vitals, chats about medication, and offers a full-duplex
voice assistant. This project models, in Dafny, the parts of it that hold state
or compute something:

- the **live voice session hook** (`useLiveSession`): the PCM/base64 audio codec,
  the `decodeAudioData` de-interleaving, the gapless playback scheduler with its
  set of playing sources, interruption ("barge-in") and the `ended` event, and the
  connection flags and references that `connect`, the session callbacks and
  `disconnect` update;
- the **dictation hook** (`useSpeechToText`), which shares the codec and forwards
  only the user's transcription;
- the **scan history store** in local storage, capped at 20 entries, newest first;
- the **interaction checker** form, the **chat** screen's send handler with its
  streamed reply, the **history** screen's search and title extraction, the
  **vitals logger**'s cleaning and timestamping of the model's JSON reply, and the
  **voice assistant** screen's transcript record and connect toggle.

Modules follow the program: `PcmCodec` and `LiveSession` for
`hooks/useLiveSession.ts`, `SpeechToText` for `hooks/useSpeechToText.ts`,
`Storage` for `services/storageService.ts`, and one module per component.
`Base64` models the browser's `btoa` (section 4 of RFC 4648, with padding) and
`atob` (the HTML standard's forgiving-base64 decode). `JsText` holds the
JavaScript string built-ins the components use (`trim`, ASCII `toLowerCase`,
`includes`, the `\s` class and the line terminators), and `Seqs` holds
`Array.prototype.filter`. `Prelude` holds `Option`, `Outcome`, `Byte` and
`Int16`, and `LiveApi` holds the server-message shape both hooks read.

Modelling choices:

- The hooks and components that update state in place are classes whose
  methods change their fields: `LiveSessionHook`, `SpeechToTextHook`,
  `ScanHistoryStore`, `InteractionCheckerForm` and `ChatScreen`. The pure screens
  (`HistoryView`, `VitalsLogger`, `LiveAssistant`) are functions over values.
- Microphone samples are the exact real values of the Float32 input. Multiplying a
  finite float by 32768 is exact, so `Quantize` is precisely ECMAScript's
  ToInt16: truncate toward zero, then wrap modulo 2^16. Bytes are little-endian.
- Playback time is counted in ticks of the 24 kHz output clock, one tick per
  sample frame. A decoded chunk's duration is therefore its frame count, and
  200/300/150 ms chunks are 4800/7200/3600 ticks.
- Every playing `AudioBufferSourceNode` is an id in a map to the start time it
  was given and its duration. Ids come from a counter.
- A `Valid()` invariant states that no two playing chunks overlap and that every
  playing chunk ends by `nextStartTime`. Every method keeps it.
- Each callback is an atomic step. Whatever the browser or the network decides
  is a parameter:
  - whether the microphone is granted;
  - the clock reading `now`;
  - the chat service's reply, a stream of chunks that may throw part-way;
  - the interaction checker's and the vitals parser's reply, which may throw;
  - whether a local-storage write succeeds;
  - whether the user confirms.
- The chat and vitals guards `!input.trim()` are stated as "every character is
  whitespace". `JsText.TrimEmptyIff` proves the two the same for every string,
  and `ChatInterface.CanSendIff` and `VitalsLogger.WillSendIff` restate each guard
  in the code's terms.
- `LiveSession.Schedule` and `ScheduleEnd` give the start times of a run of
  decoded chunks directly from their arrival times and lengths.
  `LiveSession.EnqueuedAllFollowsSchedule` proves that the scheduler, fed the same
  chunks one message at a time, starts them at exactly those times.
- A browser object that a ref holds is a flag (`hasStream`, `hasProcessor`,
  `hasSession`) or a `ContextState` (`NoContext`, `Running`, `Closed`).
  `session.close()` is the flag `sessionCloseRequested`.

Behaviour of the code worth noting:

- Samples are truncated toward zero and wrap modulo 2^16, so 1.0 is sent as
  -32768 (`PcmCodec.FullScaleWraps`).
- An interruption resets `nextStartTime` to 0. Since the next start is
  `max(next, now)`, the next chunk starts at `now`
  (`LiveSession.InterruptThenEnqueueStartsNow`).
- `nextStartTime` starts at 0.
- `disconnect` leaves the playback map and `nextStartTime` as they were. Only
  `isSpeaking` is cleared. A reconnect creates a new output context whose clock
  starts again at 0, so the first chunk after it waits until the old
  `nextStartTime` (`LiveSession.ReconnectWaitsForOldSchedule`).
- The vitals logger calls `Date.now()` once per parsed entry. Entries share one
  timestamp only when the clock does not advance during the mapping
  (`VitalsLogger.SharedTimestamp`).
- The fence regular expression is one left-to-right scan, so "````json" cleans
  to "`json". It does not remove every "```json" that the input contains
  (`VitalsLogger.OneScanExample`). It never leaves three backticks in a row
  (`VitalsLogger.NoFenceLeft`).

## Model

| member | source | states |
|---|---|---|
| JsText.Trim | components/InteractionChecker.tsx:21 | the trimmed string has no whitespace at either end |
| JsText.TrimIsInfix | components/InteractionChecker.tsx:21 | the trimmed string is the input with a run of whitespace cut from each end and nothing else |
| JsText.TrimKeepsOneLine | components/HistoryView.tsx:30 | trimming a one-line capture leaves it on one line |
| JsText.TrimEmptyIff | components/ChatInterface.tsx:29 | `!s.trim()` holds exactly when every character of `s` is whitespace |
| JsText.Lower | components/HistoryView.tsx:24 | lowering keeps the length, lowers each ASCII capital and leaves no capital behind |
| JsText.IncludesIff | components/HistoryView.tsx:24 | `includes` holds exactly when the needle occurs at some index |
| Seqs.Filter | components/HistoryView.tsx:23-25 | `filter` keeps exactly the elements that pass, as a subsequence in the original order |
| Seqs.FilterCount | components/HistoryView.tsx:23-25 | every element that passes is kept as many times as it occurs; every other one is dropped |
| Seqs.FilterHasTwo | components/InteractionChecker.tsx:21-22 | the filtered list has at least two elements exactly when two different positions pass |
| Base64.Btoa | hooks/useLiveSession.ts:28 | `btoa` succeeds exactly on strings whose character codes are below 256, and yields 4·⌈n/3⌉ characters |
| Base64.Atob | hooks/useLiveSession.ts:46 | a successful `atob` yields a binary string no longer than its input |
| Base64.Encode | hooks/useLiveSession.ts:28 | the encoding of n bytes has 4·⌈n/3⌉ characters, each from the base64 alphabet or `=` |
| Base64.Decode | hooks/useLiveSession.ts:46 | a successful decode yields no more bytes than the text has characters |
| Base64.AtobBtoa | hooks/useLiveSession.ts:22-29 | `atob(btoa(s)) == s` for every binary string `s` |
| Base64.DecodeEncode | hooks/useLiveSession.ts:45-53 | decoding the base64 encoding of any byte sequence gives the bytes back |
| Base64.DecodeRejectsForeign | hooks/useLiveSession.ts:46 | a character outside the alphabet that is not `=` or ASCII whitespace makes `atob` throw |
| PcmCodec.Encode | hooks/useLiveSession.ts:22-29 | the loop maps each byte to one character with the same code; the result is the RFC 4648 encoding of the bytes, 4·⌈n/3⌉ long, and `atob` gives the binary string back; the dictation hook's `encode` (hooks/useSpeechToText.ts:15-22) is the same code |
| PcmCodec.Quantize | hooks/useLiveSession.ts:36 | the stored sample is congruent modulo 65536 to the product truncated toward zero, and equals it when it is in range |
| PcmCodec.QuantizeInRange | hooks/useLiveSession.ts:36 | for a sample in [-1, 1) the stored value lies in [-32768, 32767] and within 1 of the exact product |
| PcmCodec.FullScaleWraps | hooks/useLiveSession.ts:36 | inputs 1.0 and -1.0 are both stored as -32768 |
| PcmCodec.Int16OfBytes | hooks/useLiveSession.ts:39 | a 16-bit value is recovered from its low and high bytes |
| PcmCodec.ViewPack | hooks/useLiveSession.ts:61 | viewing packed little-endian bytes as an `Int16Array` gives the values back |
| PcmCodec.PcmBytesRoundTrip | hooks/useLiveSession.ts:32-42 | n samples become 2n bytes whose `Int16Array` view is the quantized samples, in order |
| PcmCodec.StoreInt16 | hooks/useLiveSession.ts:36 | writing `int16[i]` sets bytes 2i and 2i+1, low byte first, and no other byte |
| PcmCodec.FillInt16Buffer | hooks/useLiveSession.ts:33-37 | the `Int16Array` loop fills a fresh buffer whose bytes are the quantized samples, two per sample, low byte first |
| PcmCodec.CreateBlob | hooks/useLiveSession.ts:32-42 | the blob is tagged `audio/pcm;rate=16000` and its data decodes to the quantized samples, two bytes each, low byte first; the dictation hook's `createBlob` (hooks/useSpeechToText.ts:24-34) is the same code |
| PcmCodec.AudioProcessed | hooks/useLiveSession.ts:113-119 | the `onaudioprocess` handler of both hooks: a captured block is sent as a PCM blob whose data decodes to the quantized samples exactly when a session was requested; the dictation hook installs the same handler (hooks/useSpeechToText.ts:58-64) |
| PcmCodec.Decode | hooks/useLiveSession.ts:45-53 | fails exactly when `atob` throws; otherwise a fresh array holds the decoded bytes |
| PcmCodec.DecodeAudioData | hooks/useLiveSession.ts:55-72 | an odd byte count throws RangeError; no channel or no frame throws NotSupported; for channel counts within the context's limit, success holds exactly when neither applies; channel c, frame i is `int16[i*numChannels + c] / 32768` |
| PcmCodec.FillChannel | hooks/useLiveSession.ts:65-69 | the inner loop sets every frame of one channel to its de-interleaved sample and leaves the other channels alone |
| PcmCodec.ChannelSample | hooks/useLiveSession.ts:68 | every decoded sample lies in [-1, 1) |
| PcmCodec.InterleavedIndexInRange | hooks/useLiveSession.ts:67-68 | every index the de-interleaving loop reads is within the `Int16Array` |
| PcmCodec.MonoKeepsOrder | hooks/useLiveSession.ts:61-70 | with one channel the frame count is the sample count and sample i is `int16[i] / 32768` |
| LiveSession.StartTime | hooks/useLiveSession.ts:137 | the start time is at least `nextStartTime` and at least the clock, and equals one of them |
| LiveSession.Transcripts | hooks/useLiveSession.ts:126-131 | the user callback fires first and exactly when the input transcription is non-empty; the model callback fires last and exactly when the output transcription is non-empty; each carries its own field's text |
| LiveSession.ChunkFrames | hooks/useLiveSession.ts:139-140 | a chunk plays exactly when `atob` succeeds on an even number of at least two bytes, and lasts half as many ticks as it has bytes |
| LiveSession.DecodeChunk | hooks/useLiveSession.ts:139-140 | `decode` then `decodeAudioData` with one channel yields the chunk's frame count exactly when `ChunkFrames` does, and fails otherwise |
| LiveSession.Enqueued | hooks/useLiveSession.ts:135-152 | an audio chunk sets speaking and moves `nextStartTime` to at least the clock and never back; the handler completes exactly when the chunk decodes; a failed decode adds no source; a decoded one takes the next id and ends at the new `nextStartTime` |
| LiveSession.Interrupted | hooks/useLiveSession.ts:156-161 | after an interruption the scheduling invariant holds whatever came before, and ids already given out are not reused |
| LiveSession.SourceEnded | hooks/useLiveSession.ts:145-148 | the ended source leaves the set; speaking continues only if it was on and a source is left; the start time and the id counter are unchanged |
| LiveSession.AfterMessage | hooks/useLiveSession.ts:124-162 | a message with neither audio to play nor an interruption changes nothing; an interruption reached after the audio silences everything and resets the start time; audio that fails to decode throws before the interruption, adding no source and leaving speaking on |
| LiveSession.EnqueuedSchedulesAfterAll | hooks/useLiveSession.ts:136-152 | an audio chunk sets speaking and moves `nextStartTime` to at least `now`; a decoded chunk becomes the only new source, starts at `max(next, now)` after the end of every playing chunk, and `nextStartTime` becomes its end; a failed decode adds no source |
| LiveSession.EnqueuedKeepsWellScheduled | hooks/useLiveSession.ts:137-152 | enqueuing keeps playing chunks disjoint and ending by `nextStartTime` |
| LiveSession.InterruptedStopsEverything | hooks/useLiveSession.ts:156-161 | an interruption empties the set, clears speaking and resets `nextStartTime` to 0, whatever was playing |
| LiveSession.SourceEndedRemovesOnlyIt | hooks/useLiveSession.ts:145-148 | `ended` removes only that source; speaking is afterwards false exactly when the set is empty or it already was |
| LiveSession.InterruptCancelsSameMessageAudio | hooks/useLiveSession.ts:134-161 | audio and an interruption in one message: the interruption is handled second and cancels that audio too |
| LiveSession.ReconnectWaitsForOldSchedule | hooks/useLiveSession.ts:137-151 | with the schedule `disconnect` leaves, a decoded chunk arriving before the old `nextStartTime` (a new context's clock starts at 0) starts exactly at that old `nextStartTime` |
| LiveSession.InterruptThenEnqueueStartsNow | hooks/useLiveSession.ts:159 | after an interruption the next decoded chunk is the only source and starts at `now` |
| LiveSession.AfterMessageWellScheduled | hooks/useLiveSession.ts:124-162 | every server message keeps the scheduling invariant |
| LiveSession.ScheduleNoOverlap | hooks/useLiveSession.ts:137-151 | chunks never start before they arrive, each starts no earlier than the previous one ends, and the last ends at the final `nextStartTime` |
| LiveSession.ScheduleBackToBack | hooks/useLiveSession.ts:137-151 | chunks that each arrive before the chunks ahead of them finish play back to back with no gap |
| LiveSession.ScheduleExample | hooks/useLiveSession.ts:137-151 | 200, 300 and 150 ms chunks arriving at 0 start at 0, 200 and 500 ms and end at 650 ms |
| LiveSession.EnqueuedAllPlaces | hooks/useLiveSession.ts:135-152 | enqueueing a run of chunks that all decode places their arrival times and decoded lengths one after another |
| LiveSession.PlacedAllEnd | hooks/useLiveSession.ts:137-151 | after a run of chunks `nextStartTime` is where `ScheduleEnd` says, and the id counter has moved on by one per chunk |
| LiveSession.PlacedAllKeepsOthers | hooks/useLiveSession.ts:150-152 | sources already playing are untouched, and the only new sources take the next ids |
| LiveSession.PlacedAllStarts | hooks/useLiveSession.ts:137-152 | the k-th chunk of a run plays as the k-th new source, from the k-th start time of `Schedule`, for its own length |
| LiveSession.EnqueuedAllFollowsSchedule | hooks/useLiveSession.ts:135-152 | the scheduler itself follows `Schedule` and `ScheduleEnd`: start times, final `nextStartTime`, new ids, untouched old sources and nothing else added |
| LiveSession.EnqueuedAllBackToBack | hooks/useLiveSession.ts:137-151 | chunks that each arrive before the ones ahead of them finish are started by the scheduler each exactly when the previous one ends |
| LiveSession.Connected | hooks/useLiveSession.ts:74-178 | after `connect` both contexts run; a refused microphone leaves the hook disconnected with no new stream or session; a granted one holds the stream and requests a new session with no close request pending; a refusal leaves the close request as it was; the processor is untouched |
| LiveSession.ReconnectRequestsFreshSession | hooks/useLiveSession.ts:99 | after `disconnect` the old session has a close request, and a granted reconnect requests a new session with none pending, not yet connected |
| LiveSession.Disconnected | hooks/useLiveSession.ts:180-196 | after `disconnect` not connected, no processor, no stream, every created context closed, and a close requested of a requested session |
| LiveSession.LiveSessionHook.constructor | hooks/useLiveSession.ts:9-19 | not connected, not speaking, nothing scheduled, every ref empty |
| LiveSession.LiveSessionHook.Connect | hooks/useLiveSession.ts:74-178 | the connection state becomes `Connected` of the old one; the schedule is untouched |
| LiveSession.LiveSessionHook.OnOpen | hooks/useLiveSession.ts:103-123 | connected; the capture processor exists when an input context and a stream are held |
| LiveSession.LiveSessionHook.OnAudioProcess | hooks/useLiveSession.ts:113-119 | a captured block is sent as a PCM blob exactly when a session was requested |
| LiveSession.LiveSessionHook.StartSource | hooks/useLiveSession.ts:149-151 | the new source starts at `nextStartTime`, which then moves past its duration, and it joins the set under a fresh id |
| LiveSession.LiveSessionHook.PlayAudio | hooks/useLiveSession.ts:134-153 | the handler completes exactly when the chunk decodes; the playback state becomes `Enqueued` of the old one, keeping the scheduling invariant; the connection state is unchanged |
| LiveSession.LiveSessionHook.Interrupt | hooks/useLiveSession.ts:156-161 | every playing source is stopped and the playback state becomes `Interrupted` of the old one |
| LiveSession.LiveSessionHook.OnMessage | hooks/useLiveSession.ts:124-162 | fires `Transcripts(msg)`, then the playback state becomes `AfterMessage` of the old one; the connection state is untouched |
| LiveSession.LiveSessionHook.OnEnded | hooks/useLiveSession.ts:145-148 | the playback state becomes `SourceEnded` of the old one |
| LiveSession.LiveSessionHook.OnCloseOrError | hooks/useLiveSession.ts:163-170 | no longer connected; nothing else changes |
| LiveSession.LiveSessionHook.Disconnect | hooks/useLiveSession.ts:180-196 | the connection state becomes `Disconnected` of the old one and speaking stops; the rest of the schedule is untouched |
| SpeechToText.Forwarded | hooks/useSpeechToText.ts:69-73 | the input transcription is forwarded exactly when it is non-empty |
| SpeechToText.ForwardsUserTranscript | hooks/useSpeechToText.ts:69-73 | dictation forwards a text exactly when the voice assistant reports it as the user's; model output is never forwarded |
| SpeechToText.Stopped | hooks/useSpeechToText.ts:87-103 | after `stop`: not listening, processor, stream and input context refs null, a close requested of a started session |
| SpeechToText.Started | hooks/useSpeechToText.ts:36-85 | after `start` the input context exists; a refused microphone leaves the hook not listening with no new stream or session; a granted one holds the stream and requests a new session with no close request pending; a refusal leaves the close request as it was; the processor is untouched |
| SpeechToText.RestartRequestsFreshSession | hooks/useSpeechToText.ts:43 | after `stop` the old session has a close request, and a granted restart requests a new session with none pending, not yet listening |
| SpeechToText.StopIdempotent | hooks/useSpeechToText.ts:87-103 | stopping twice gives the same state as stopping once |
| SpeechToText.SpeechToTextHook.constructor | hooks/useSpeechToText.ts:9-13 | not listening and every ref empty |
| SpeechToText.SpeechToTextHook.Start | hooks/useSpeechToText.ts:36-85 | the hook's state becomes `Started` of the old one |
| SpeechToText.SpeechToTextHook.OnOpen | hooks/useSpeechToText.ts:51-68 | listening; the processor exists when an input context and a stream are held |
| SpeechToText.SpeechToTextHook.OnAudioProcess | hooks/useSpeechToText.ts:58-64 | a captured block is sent as a PCM blob exactly when a session was requested |
| SpeechToText.SpeechToTextHook.OnCloseOrError | hooks/useSpeechToText.ts:74-78 | not listening; the refs are unchanged |
| SpeechToText.SpeechToTextHook.Stop | hooks/useSpeechToText.ts:87-103 | the hook's state becomes `Stopped` of the old one |
| Storage.Saved | services/storageService.ts:9-14 | the item comes first; the list grows by at most one and shrinks by none; a history within 20 stays within 20 |
| Storage.HistoryIn | services/storageService.ts:22-30 | the stored list, or empty when nothing is stored or the stored value does not parse |
| Storage.SavedShape | services/storageService.ts:9-14 | the item is at index 0 and the old items follow in order; below 20 nothing is lost, at 20 the oldest goes and the length stays 20, within 20 the result stays within 20, and beyond 20 only one item is removed |
| Storage.SavedIsNewest | services/storageService.ts:9-14 | within the cap, a save keeps the newest 20 of the item followed by the old history |
| Storage.SaveAllKeepsNewest | services/storageService.ts:5-20 | any run of saves from a history within the cap leaves the 20 most recent items, newest first |
| Storage.ScanHistoryStore.GetScanHistory | services/storageService.ts:22-30 | the history reads back as the stored list, or empty when the key is missing or its value does not parse |
| Storage.ScanHistoryStore.SaveScanResult | services/storageService.ts:5-20 | a successful write stores `Saved(item, history)`, so the item reads back first; a failed write changes nothing |
| Storage.ScanHistoryStore.ClearHistory | services/storageService.ts:32-34 | the key is removed and the history reads back empty |
| InteractionChecker.ValidDrugs | components/InteractionChecker.tsx:21 | keeps exactly the fields whose trim is non-empty, untrimmed, in field order, each as often as it was entered |
| InteractionChecker.FilledIffNotBlank | components/InteractionChecker.tsx:21 | a field counts exactly when it has a non-whitespace character |
| InteractionChecker.CanCheck | components/InteractionChecker.tsx:20-22 | the check runs exactly when two different fields are filled |
| InteractionChecker.RemoveAt | components/InteractionChecker.tsx:18 | removes exactly the field at the index and keeps the others in order |
| InteractionChecker.ResultText | components/InteractionChecker.tsx:24-29 | a non-empty reply is shown as is; an empty or missing one becomes "No interactions found."; a throw becomes "Error checking interactions." |
| InteractionChecker.RemoveAtKeepsTwo | components/InteractionChecker.tsx:54-58 | removing from more than two fields leaves at least two |
| InteractionChecker.AddFieldKeepsValidDrugs | components/InteractionChecker.tsx:17 | an added empty field changes nothing that is sent |
| InteractionChecker.InteractionCheckerForm.constructor | components/InteractionChecker.tsx:7-9 | two empty fields, no result, not loading |
| InteractionChecker.InteractionCheckerForm.UpdateDrug | components/InteractionChecker.tsx:11-15 | the field at the index becomes the value; the length and every other field are unchanged |
| InteractionChecker.InteractionCheckerForm.AddField | components/InteractionChecker.tsx:17 | one empty field is appended |
| InteractionChecker.InteractionCheckerForm.RemoveField | components/InteractionChecker.tsx:18 | the list becomes `RemoveAt` of the old one, still at least two fields |
| InteractionChecker.InteractionCheckerForm.HandleCheck | components/InteractionChecker.tsx:20-32 | with fewer than two filled fields nothing changes; otherwise the filled names are sent, the result becomes `ResultText` of the reply, and loading ends false |
| ChatInterface.ToHistory | components/ChatInterface.tsx:41-44 | one entry per message, with the same role and a single part holding its text |
| ChatInterface.HistoryRoundTrip | components/ChatInterface.tsx:41-44 | the history loses nothing: the messages can be read back from it |
| ChatInterface.Joined | components/ChatInterface.tsx:51-62 | the accumulated response opens with the first chunk's text and is at least as long as any chunk's text |
| ChatInterface.JoinedConcat | components/ChatInterface.tsx:51-62 | the accumulated response over a stream is the response over its first part followed by the response over the rest |
| ChatInterface.JoinedSkipsEmpty | components/ChatInterface.tsx:53-54 | chunks without text add nothing to the response |
| ChatInterface.ReplyMessages | components/ChatInterface.tsx:46-65 | a rejected call appends the error message alone; a stream appends the model message with the joined text, then the error message exactly when the stream throws |
| ChatInterface.CanSendIff | components/ChatInterface.tsx:29 | the send guard `CanSend` holds exactly when `input.trim()` is non-empty and nothing is loading |
| ChatInterface.ChatScreen.constructor | components/ChatInterface.tsx:13-22 | the greeting alone, empty input, not loading, dictation off |
| ChatInterface.ChatScreen.OnVoiceTranscript | components/ChatInterface.tsx:20-22 | dictated text is appended to the input |
| ChatInterface.ChatScreen.ToggleVoice | components/ChatInterface.tsx:71-77 | the dictation state becomes `Stopped` of the old one when listening, `Started` of it otherwise |
| ChatInterface.ChatScreen.AppendStreamed | components/ChatInterface.tsx:48-62 | appends one model message whose text is every non-empty chunk text joined in order; earlier messages are unchanged |
| ChatInterface.ChatScreen.ReceiveReply | components/ChatInterface.tsx:46-65 | appends `ReplyMessages(reply)` after the existing messages |
| ChatInterface.ChatScreen.HandleSend | components/ChatInterface.tsx:28-69 | nothing happens on blank input or while loading; otherwise dictation stops, the untrimmed input is appended as the user's message, the input clears, the service gets the pre-send history and the text, the reply messages follow, and loading ends false |
| HistoryView.FilteredHistory | components/HistoryView.tsx:23-25 | the shown items are exactly the matching items, every copy of each, in history order |
| HistoryView.FilteredIff | components/HistoryView.tsx:23-25 | an item is shown exactly when its lowercased analysis contains the lowercased term somewhere |
| HistoryView.EmptyTermKeepsAll | components/HistoryView.tsx:23-25 | an empty search shows the whole history |
| HistoryView.FindFrom | components/HistoryView.tsx:29 | finds the leftmost case-insensitive occurrence of a marker, or reports there is none |
| HistoryView.RestOfLine | components/HistoryView.tsx:29 | `(.*)` takes the longest prefix without a line terminator and stops at one |
| HistoryView.Capture | components/HistoryView.tsx:29 | a capture exists exactly when the marker occurs in some letter case |
| HistoryView.GetTitle | components/HistoryView.tsx:28-31 | a title never holds a line break and never starts or ends with whitespace |
| HistoryView.BoldContainsPlain | components/HistoryView.tsx:29 | wherever the bold marker occurs, the plain marker occurs two characters later |
| HistoryView.UnknownUnlessMarker | components/HistoryView.tsx:29-30 | the fallback title is used whenever the plain marker is absent in every letter case |
| HistoryView.TrimStartSkips | components/HistoryView.tsx:29 | `\s*` skips a whole run of whitespace, line breaks included |
| HistoryView.RestOfLineStops | components/HistoryView.tsx:29 | the capture ends at the line terminator that ends the line |
| HistoryView.FindsFirst | components/HistoryView.tsx:29 | the search stops at an occurrence when no earlier index matches |
| HistoryView.CaptureFirst | components/HistoryView.tsx:29 | the capture reads the text after the leftmost occurrence of the marker |
| HistoryView.Placed | components/HistoryView.tsx:29 | a marker written in any letter case is found where it was placed, followed by what came after it |
| HistoryView.CaptureAfterPrefix | components/HistoryView.tsx:29 | when a marker first occurs after any text `pre`, the capture reads what follows that marker |
| HistoryView.LineAfterSpace | components/HistoryView.tsx:29 | `\s*(.*)` over whitespace, a line and its terminator yields that line |
| HistoryView.CaptureAfter | components/HistoryView.tsx:29 | when a marker first occurs after any text `pre`, in any letter case, the capture is the line after it, past any whitespace and line breaks |
| HistoryView.BoldTitle | components/HistoryView.tsx:28-31 | when the bold marker first occurs after any text `pre`, in any letter case, the title is the trimmed line after it, past any whitespace and line breaks |
| HistoryView.PlainTitle | components/HistoryView.tsx:28-31 | with no bold marker anywhere, when the plain marker first occurs after any text `pre`, the title is the trimmed line after it |
| HistoryView.BoldOpensWithStars | components/HistoryView.tsx:29 | an occurrence of the bold marker starts with two asterisks |
| HistoryView.ListedTitle | components/HistoryView.tsx:28-31 | an analysis that opens with a heading holding no `*`, then a bulleted `**Brand Name:**` line as the scan prompt lays out (services/geminiService.ts:17-18), is titled by the trimmed name on that line |
| HistoryView.MarkersIgnoreCase | components/HistoryView.tsx:29 | "**Brand Name:**" and "BRAND NAME:" match the markers |
| HistoryView.ToggleExpanded | components/HistoryView.tsx:86 | clicking the open card closes it; clicking another opens that one |
| HistoryView.ToggleTwice | components/HistoryView.tsx:86 | clicking one card twice leaves it open only if it was open before |
| HistoryView.Mounted | components/HistoryView.tsx:12-14 | on mount the shown history is what the store reads back |
| HistoryView.HandleClear | components/HistoryView.tsx:16-21 | a confirmed clear empties both the store and the shown history; otherwise nothing changes |
| VitalsLogger.StripFences | components/VitalsLogger.tsx:24 | removing the fences never lengthens the text |
| VitalsLogger.CleanJson | components/VitalsLogger.tsx:24 | the cleaned reply is no longer than the reply and has no whitespace at either end |
| VitalsLogger.KeepsNonBacktick | components/VitalsLogger.tsx:24 | a character that is not a backtick is always kept |
| VitalsLogger.NoBacktickUnchanged | components/VitalsLogger.tsx:24 | a text without backticks passes through unchanged |
| VitalsLogger.ClosingFenceDropped | components/VitalsLogger.tsx:24 | a closing fence after a backtick-free body is removed |
| VitalsLogger.FencedReplyCleans | components/VitalsLogger.tsx:24 | a backtick-free body inside a json code block cleans to the trimmed body |
| VitalsLogger.OneScanExample | components/VitalsLogger.tsx:24 | "````json" cleans to "`json" |
| VitalsLogger.NoFenceLeft | components/VitalsLogger.tsx:24 | the cleaned text never holds three backticks in a row |
| VitalsLogger.Stamp | components/VitalsLogger.tsx:26 | each entry keeps its parsed fields and gets the clock reading taken while it is mapped |
| VitalsLogger.SharedTimestamp | components/VitalsLogger.tsx:26 | when the clock does not advance, every new entry has the same timestamp |
| VitalsLogger.WillSendIff | components/VitalsLogger.tsx:18 | the logging guard `WillSend` holds exactly when `input.trim()` is non-empty |
| VitalsLogger.HandleLog | components/VitalsLogger.tsx:17-35 | blank input changes nothing; otherwise loading ends false; the old log is always the tail of the new one; the input is cleared whenever the log changes |
| VitalsLogger.HandleLogOutcome | components/VitalsLogger.tsx:22-31 | a reply that parses puts its entries before every earlier log, fields intact and in parsed order, and clears the input; anything else leaves the log and the input as they were |
| LiveAssistant.OnTranscript | components/LiveAssistant.tsx:9-14 | the speaker's line becomes the new text; the other line is unchanged |
| LiveAssistant.LatestWins | components/LiveAssistant.tsx:9-14 | after any sequence of callbacks each line holds the latest text for its speaker, not an accumulation |
| LiveAssistant.MessageUpdatesRecord | components/LiveAssistant.tsx:9-14 | after one server message each line holds that message's non-empty transcription, if it had one |
| LiveAssistant.ToggleConnection | components/LiveAssistant.tsx:17-23 | a connected session's state becomes `Disconnected` of the old one and speaking stops; otherwise connecting starts and the state becomes `Connected` of the old one; the rest of the schedule is untouched |

## Left out

- Rendering, styling, icons, navigation and date formatting are not modelled. They are UI only.
- The Gemini service module is not part of this model. Its replies are parameters.
- The other screens are not modelled: scanner, hospital finder, education studio, symptom checker, first aid and wellness check. They only guard inputs, call the service and store the reply.
- Browser audio objects are not modelled: `AudioContext`, `getUserMedia`, `ScriptProcessorNode`, `AudioBufferSourceNode`, `ai.live.connect`, `sendRealtimeInput` and `session.close`. Refs to them are flags, and their events are method calls.
- Concurrency is not modelled. Each callback is one atomic step. The `await` between choosing a start time and starting the source is ignored, so a chunk whose decoding spans an interruption is not considered. Promise-chained sends and React state batching are ignored too.
- LiveSession.LiveSessionHook.Connect: the session promise is never awaited, so a rejected `ai.live.connect` escapes the `catch`. It is not modelled.
- The failure of `new AudioContext` is not modelled. Only a refused microphone takes the `catch` branch of `connect` and `start`.
- PcmCodec.Quantize: NaN and infinite samples are not modelled (ToInt16 maps them to 0). Only finite samples are.
- PcmCodec.DecodeAudioData: the `/ 32768.0` conversion to Float32 is exact, so no rounding is modelled. A big-endian host's byte order is not modelled.
- Clock times in seconds are not modelled. Time is whole ticks of the 24 kHz output clock.
- `toLowerCase` is modelled for ASCII letters only. Full Unicode case mapping is not modelled. For the title markers this is exact.
- Storage.HistoryIn: a stored value that parses to something other than a list is not modelled. When saving over it, the spread `[item, ...currentHistory]` throws for a value that is not iterable, and the error is caught, so nothing is written. A string is spread one character per entry. The quota is the `writeSucceeds` parameter. JSON text is not modelled.
- PcmCodec.DecodeAudioData: channel counts above the audio context's limit (at least 32), for which `createBuffer` throws NotSupportedError, are not modelled. The hook always passes 1.
- VitalsLogger.HandleLog: `JSON.parse` and the `map` over its result are one parameter, which fails when either throws. Parsed entries carry only the three declared fields.
- InteractionChecker.InteractionCheckerForm.RemoveField requires more than two fields and an index in range. The form shows the remove control only then, and calls it only with an index of a shown field.
- InteractionChecker.InteractionCheckerForm.UpdateDrug requires an index in range. The form calls it only from a shown field.
- The `useEffect` scroll-into-view of the chat screen is not modelled.
