# CSD Online assistant: a verified model of its logic

The CSD Online web app is a React front end for an assistant called CASA. It has three
screens. The chat screen extracts customer contacts into an in-memory list. The live
voice screen streams microphone audio to a real-time API and plays back the answers. The
video screen asks a generation service for a promotional video. This project models the
logic these screens contain, in Dafny, and proves properties of that logic:

- `Types` (types.ts): the `ConnectionState` enumeration with its string values, the
  chat message record, and the contact card attached to a confirmation message.
- `Base64`: the browser's `btoa` and `atob`. They are specified as the Base64 encoding of
  section 4 of RFC 4648 and as the forgiving-base64 decode of the WHATWG Infra standard
  (its section "Forgiving base64"). The decode removes ASCII whitespace, drops one or two final `=` when
  the length is a multiple of four, and rejects a leftover single character or any
  character outside the alphabet.
- `AudioUtils` (utils/audioUtils.ts):
  - the `base64Encode` and `base64Decode` loops;
  - `pcmToWav`, which makes two bytes per sample;
  - `createAudioBlob`;
  - `decodeAudioData`, which de-interleaves the samples into an `array2` of channel
    buffers.
- `Chat` (components/ChatSession.tsx):
  - the Indonesian phone-number normaliser;
  - the greeting chosen by the hour;
  - `String.prototype.trim` and the submit guard;
  - the customer record built from a `saveCustomerData` call, with `-` for absent
    fields and the mapping back to the confirmation card;
  - delete-by-id;
  - the loop over the model's function calls;
  - a `ChatSession` class whose handlers update the messages, the input, the image
    flag, the loading flag and the customer list in place.
- `Live` (components/LiveSession.tsx): the reconnection state machine, written as a pure
  `Step` over events. It covers a fresh start versus a retry, `onopen`, connection loss
  with the retry counter capped at 3, and `disconnect` with its intentional-disconnect
  flag. It also covers the reconnect timers: each loss with retries left schedules a new
  one and stores it in `reconnectTimeoutRef`, and `disconnect` cancels only the one held
  there. Finally it covers `onmessage`: the turn flags, and a chunk that decodes (through
  `AudioUtils.Base64Decode` and `AudioUtils.DecodeAudioData`) or throws. A `LiveSession`
  class holds the same state in mutable fields, and each of its handlers is proved to do
  what `Step` does.
- `Video` (components/VideoSession.tsx):
  - the precedence-ordered error classification of `handleGenerate`;
  - the poll-until-done loop;
  - a `VideoSession` class whose `HandleGenerate` resets the request state, runs the
    request against an `Env` of outside answers, and always clears `isGenerating` and
    the status text when it finishes.

Outside services are inputs. These are the Gemini SDK, the microphone, the audio
contexts, the file reader, the key selector, the download and the clock. A model reply
is a `Reply`. An event of the live session is an `Event`. The answers a video request
gets are an `Env`. Record ids and times are the functions `idAt` and `timeAt`.

The chat's confirmation text begins with the three characters U+00E2 U+0153 U+2026
("âœ…"). That is how components/ChatSession.tsx spells it: the UTF-8 bytes of a check-mark
emoji were read back as Windows-1252 and saved again. The model keeps the text as
written.

`onopen` does not look at the intentional-disconnect flag. So when a session opens after
the user has ended it, the screen shows "connected" again. `Live.OpenAfterDisconnect`
states this.

`LiveSession` and `Step` follow the source: `disconnect` cancels only the timer
`reconnectTimeoutRef` holds. An earlier timer can still fire, and that reopens the
session (see "## Findings"). `Live.CorrectedStep` is the same machine with a `disconnect`
that cancels every timer. The lemmas about what happens after a disconnect are proved
for both: `AfterDisconnect` from a session with no timer left, and
`CorrectedQuietAfterDisconnect` for any session.

## Model

| member | source | states |
|---|---|---|
| Types.StateValueInjective | types.ts:23-29 | distinct connection states carry distinct string values |
| Base64.EncodeSextet | utils/audioUtils.ts:37 | each 6-bit value is encoded by a character of the RFC 4648 alphabet |
| Base64.DecodeSextet | utils/audioUtils.ts:44 | a character decodes to a 6-bit value exactly when it belongs to the alphabet |
| Base64.EncodeDigits | utils/audioUtils.ts:37 | the unpadded encoding has one alphabet character per 6 input bits, rounded up |
| Base64.Encode | utils/audioUtils.ts:37 | the padded encoding of n bytes has length 4·⌈n/3⌉ |
| Base64.EncodeAlphabet | utils/audioUtils.ts:37 | every encoded character is in the alphabet, except `=` padding in the last two places |
| Base64.BinaryString | utils/audioUtils.ts:34-36 | the binary string of n bytes has n characters, all with codes below 256 |
| Base64.StripWhitespace | utils/audioUtils.ts:44 | whitespace removal leaves no ASCII whitespace and never lengthens the input |
| Base64.StripWhitespaceNone | utils/audioUtils.ts:44 | a string without whitespace is unchanged by whitespace removal |
| Base64.UnpadEncode | utils/audioUtils.ts:44 | removing the padding of an encoding leaves exactly its unpadded digits |
| Base64.DecodeEncodeDigits | utils/audioUtils.ts:44 | decoding the unpadded digits of any byte sequence gives back that sequence |
| Base64.Atob | utils/audioUtils.ts:44 | a successful `atob` returns a binary string |
| Base64.AtobInvertsBtoa | utils/audioUtils.ts:31-51 | `btoa` accepts the binary string of any bytes and yields their RFC 4648 encoding, and `atob` of that encoding gives the same binary string back |
| AudioUtils.Base64Encode | utils/audioUtils.ts:31-38 | the loop builds the binary string with character i of code `bytes[i]`; the result is `btoa` of it, the RFC 4648 encoding of the bytes, of length 4·⌈n/3⌉ |
| AudioUtils.Base64Decode | utils/audioUtils.ts:43-51 | fails exactly where `atob` throws; otherwise returns a fresh array holding the character codes of the `atob` string, one byte per character |
| AudioUtils.DecodeOfEncode | utils/audioUtils.ts:31-51 | `base64Decode(base64Encode(b))` succeeds and gives back b, byte for byte |
| AudioUtils.Quantized | utils/audioUtils.ts:7-13 | one Int16 sample is stored per input sample |
| AudioUtils.SampleBytes | utils/audioUtils.ts:14 | the byte view of n Int16 samples has exactly 2n bytes |
| AudioUtils.SampleBytesAt | utils/audioUtils.ts:14 | bytes 2i and 2i+1 of the view are the two memory bytes of sample i |
| AudioUtils.Int16View | utils/audioUtils.ts:62 | an Int16 view over an even number of bytes has half as many samples |
| AudioUtils.Int16ViewOfSampleBytes | utils/audioUtils.ts:62 | viewing the bytes of samples as Int16 again, with the matching byte order, gives back the samples |
| AudioUtils.PcmToWav | utils/audioUtils.ts:6-15 | returns a fresh array of exactly two bytes per input sample, the memory bytes of the quantized samples in order |
| AudioUtils.CreateAudioBlob | utils/audioUtils.ts:20-26 | the mime type is always `audio/pcm;rate=16000` and the data is `base64Encode(pcmToWav(data))` |
| AudioUtils.ReadIndexInRange | utils/audioUtils.ts:62-71 | for every frame below the frame count and every channel, the read index `i*numChannels + channel` lies inside the sample buffer |
| AudioUtils.LoopBound | utils/audioUtils.ts:63-68 | the inner loop visits exactly the frames with `i*numChannels < sampleCount`, which are all the buffer's frames when the count divides evenly |
| AudioUtils.FramesWithinIterations | utils/audioUtils.ts:63-68 | the buffer's truncated frame count never exceeds the loop's iteration count |
| AudioUtils.ChannelData | utils/audioUtils.ts:66-71 | a channel has `sampleCount / numChannels` frames |
| AudioUtils.ChannelDataAt | utils/audioUtils.ts:69 | frame i of channel c is sample `i*numChannels + c`, and that index is in range |
| AudioUtils.MonoChannel | utils/audioUtils.ts:56-73 | with the default single channel, the channel is the whole sample sequence |
| AudioUtils.MonoRoundTrip | utils/audioUtils.ts:56-73 | mono PCM bytes read back with the matching byte order give back the samples |
| AudioUtils.FillChannel | utils/audioUtils.ts:67-70 | the inner loop writes channel c's frames from the interleaved samples and leaves the other channels unchanged |
| AudioUtils.DecodeAudioData | utils/audioUtils.ts:56-73 | fails for an odd byte count, zero channels or zero frames, and otherwise returns a fresh numChannels × frameCount buffer whose channel c, frame i is sample `i*numChannels + c` |
| Chat.Digits | components/ChatSession.tsx:136 | the digit string is no longer than the input and holds only digits |
| Chat.DigitsOfDigitString | components/ChatSession.tsx:136 | removing non-digits from a digit string changes nothing |
| Chat.DigitsAppend | components/ChatSession.tsx:136 | removing non-digits works piecewise over a concatenation |
| Chat.FormatIndonesianPhoneNumber | components/ChatSession.tsx:135-145 | the normalised number starts with `+62` and every character after the `+` is a decimal digit |
| Chat.FormatIgnoresNonDigits | components/ChatSession.tsx:136 | normalising a string gives the same result as normalising its digits alone |
| Chat.FormatLeadingZero | components/ChatSession.tsx:137-138 | `0` followed by digits d becomes `+62` followed by d |
| Chat.FormatExample | components/ChatSession.tsx:79 | `08123` becomes `+628123` |
| Chat.FormatKeepsCountryCode | components/ChatSession.tsx:139-140 | digits already starting with `62` only get the `+` |
| Chat.FormatPrependsCountryCode | components/ChatSession.tsx:141-142 | any other digit string gets `+62` in front |
| Chat.FormatIdempotent | components/ChatSession.tsx:135-145 | normalising a normalised number changes nothing |
| Chat.Greeting | components/ChatSession.tsx:57-62 | 4–9 gives Selamat Pagi, 10–14 Selamat Siang, 15–17 Selamat Sore, every other hour Selamat Malam, each if and only if |
| Chat.TrimStart | components/ChatSession.tsx:153 | the result is the suffix of the input left after dropping only whitespace characters, and is empty or begins with a non-whitespace character |
| Chat.TrimEnd | components/ChatSession.tsx:153 | the result is the prefix of the input left after dropping only whitespace characters, and is empty or ends with a non-whitespace character |
| Chat.TrimEmptyIffBlank | components/ChatSession.tsx:153 | a string trims to empty exactly when all its characters are JavaScript whitespace |
| Chat.SubmitGuard | components/ChatSession.tsx:153 | a submission goes ahead exactly when nothing is loading and there is an image or a non-whitespace character |
| Chat.NewCustomerFields | components/ChatSession.tsx:196-223 | absent or empty optional fields are stored as `-`; the confirmation card shows the name, the normalised phone and exactly the optional fields given (other than a literal `-`) |
| Chat.RemoveId | components/ChatSession.tsx:147-149 | a delete keeps only records of the list with a different id |
| Chat.RemoveIdKeepsOthers | components/ChatSession.tsx:147-149 | every record with another id survives a delete |
| Chat.RemoveIdAppend | components/ChatSession.tsx:147-149 | a delete works piecewise, so surviving records keep their order |
| Chat.RemoveIdAbsent | components/ChatSession.tsx:147-149 | deleting an id no record has changes nothing |
| Chat.RemoveIdIdempotent | components/ChatSession.tsx:147-149 | deleting twice is deleting once |
| Chat.DeleteNewest | components/ChatSession.tsx:147-149 | ids are clock readings, so deleting the newest record's id also deletes every older record with that id |
| Chat.Saved | components/ChatSession.tsx:190-208 | every record the function calls save has a phone number starting with `+62` |
| Chat.Reversed | components/ChatSession.tsx:208 | reversing keeps the length |
| Chat.Confirmations | components/ChatSession.tsx:213-225 | one confirmation message per saved record |
| Chat.RunCallsDb | components/ChatSession.tsx:190-208 | after the calls, the saved records come first, newest first, followed by the old list unchanged |
| Chat.RunCallsMessages | components/ChatSession.tsx:213-225 | after the calls, the old messages are followed by one confirmation per saved record, in save order |
| Chat.RunCallsShow | components/ChatSession.tsx:209 | the database is shown after the calls exactly when it was shown already or a record was saved |
| Chat.RunCallsThrew | components/ChatSession.tsx:196-236 | the calls end in a throw exactly when a save call lacks a phone number or its acknowledgement fails |
| Chat.RunCallsShape | components/ChatSession.tsx:190-238 | the four facts above together: the loop's whole result in terms of the saved records |
| Chat.SaveOnePrepends | components/ChatSession.tsx:208 | one save prepends exactly its record: the list becomes `[newCustomer] + old`, one longer |
| Chat.ChatSession.constructor | components/ChatSession.tsx:53-94 | the chat starts with only the welcome message for the current hour, when the chat could be created |
| Chat.ChatSession.SetInput | components/ChatSession.tsx:389 | the input holds the typed text |
| Chat.ChatSession.SelectImage | components/ChatSession.tsx:105-111 | an image is selected |
| Chat.ChatSession.ClearImage | components/ChatSession.tsx:113-117 | no image is selected |
| Chat.ChatSession.ToggleDatabase | components/ChatSession.tsx:287 | the database panel flips |
| Chat.ChatSession.DeleteDbItem | components/ChatSession.tsx:147-149 | a record stays exactly when it was there and has another id, in the order of the filter |
| Chat.ChatSession.BeginSubmit | components/ChatSession.tsx:151-165 | the guard decides; a submitted input is appended as the user's message and cleared, and the request goes to vision mode with an image, to the chat otherwise, and ends at once without a chat |
| Chat.ChatSession.CompleteSubmit | components/ChatSession.tsx:166-262 | vision mode clears the image and appends the reply text or "Gambar diproses."; chat mode appends the text reply or runs the function calls; a throw appends the error message; loading always ends |
| Chat.ChatSession.SaveCalls | components/ChatSession.tsx:190-238 | the `for` loop over the function calls leaves exactly the state `RunCalls` describes |
| Live.StepKeepsRetryBound | components/LiveSession.tsx:109-111 | every event keeps the retry counter within 0..3 |
| Live.RunKeepsRetryBound | components/LiveSession.tsx:109-111 | any sequence of events keeps the retry counter within 0..3 |
| Live.RetryBoundFromMount | components/LiveSession.tsx:109-111 | from the mount state the counter stays within 0..3 whatever happens |
| Live.StepKeepsTimersIssued | components/LiveSession.tsx:116-118 | every event keeps each scheduled timer, and the ref's timer, below the next `setTimeout` id, which never decreases |
| Live.LossWithRetriesLeft | components/LiveSession.tsx:104-118 | an unintended loss with retries left increments the counter, moves to Reconnecting, schedules a new timer that the ref now holds, and keeps every earlier timer scheduled; only the audio resources change besides |
| Live.LossAtLimit | components/LiveSession.tsx:119-122 | an unintended loss at the limit moves to Error with the unstable-network message and leaves the counter, the timers and the ref unchanged |
| Live.TwoLossesTwoTimers | components/LiveSession.tsx:223-229 | `onerror` then `onclose` leave two new timers scheduled, with only the second in the ref |
| Live.StartRules | components/LiveSession.tsx:126-131 | a fresh start clears the error, moves to Connecting and resets the counter; a retry start keeps state and counter; both clear the intentional-disconnect flag |
| Live.TimerFiresOnce | components/LiveSession.tsx:116-118 | a scheduled timer restarts the session as a retry even after a disconnect, and is then no longer scheduled; an unscheduled one does nothing; no timer restarts the session twice |
| Live.OpenConnects | components/LiveSession.tsx:168-170 | `onopen` moves to Connected and resets the counter |
| Live.StartFailure | components/LiveSession.tsx:235-244 | a NotAllowedError or NotFoundError goes to Error with the microphone message without using a retry; any other start failure is a connection loss |
| Live.FreshStartFailureRetries | components/LiveSession.tsx:235-244 | any other failure of a fresh start counts as the first retry |
| Live.OtherStartFailureIsLoss | components/LiveSession.tsx:235-243 | a start failure that is not the microphone's reaches the same state as a start that succeeds followed by a connection loss |
| Live.DisconnectRules | components/LiveSession.tsx:285-293 | after `disconnect` the state is Disconnected, the response inactive, playback stopped and the flag set; exactly the scheduled timers other than the ref's stay scheduled |
| Live.DisconnectQuietIff | components/LiveSession.tsx:285-289 | `disconnect` leaves nothing able to restart the session exactly when no timer other than the ref's was scheduled |
| Live.DisconnectLeavesStaleTimers | components/LiveSession.tsx:287-289 | every timer `disconnect` leaves scheduled was not the ref's, and clears the flag when it fires |
| Live.QuietIgnoresLoss | components/LiveSession.tsx:104-105 | with the flag set and no timer scheduled, a connection loss and any timer are no-ops |
| Live.QuietUntilStart | components/LiveSession.tsx:125-131 | only `startSession` ends that quiet state |
| Live.AfterDisconnect | components/LiveSession.tsx:104-123 | from a quiet session, until `startSession` runs, every loss is a no-op and the state never becomes Reconnecting or Error |
| Live.StaleTimerReconnects | components/LiveSession.tsx:287-289 | after two losses and a `disconnect`, the first timer fires, clears the flag, and the session opens Connected again |
| Live.StaleTimerAfterDisconnect | components/LiveSession.tsx:287-289 | any scheduled timer other than the ref's survives `disconnect`, fires, and the session opens Connected with the flag cleared |
| Live.DisconnectAll | components/LiveSession.tsx:285-293 | the corrected `disconnect` is the source's with every timer cancelled |
| Live.CorrectedQuietAfterDisconnect | components/LiveSession.tsx:285-293 | with the corrected `disconnect`, whatever was scheduled, the session stays quiet and never reaches Reconnecting or Error until `startSession` |
| Live.CorrectedStaleTimer | components/LiveSession.tsx:285-293 | the input that reopens the source's session leaves the corrected one ended, with no timer scheduled |
| Live.OpenAfterDisconnect | components/LiveSession.tsx:168-172 | a session that opens after `disconnect` shows Connected although the flag is still set |
| Live.InterruptionRules | components/LiveSession.tsx:175-180 | an interruption empties the playback set, resets the clock to 0, marks the response inactive and changes nothing else |
| Live.TurnCompleteRules | components/LiveSession.tsx:215-221 | a completed turn while active marks the response inactive exactly when the message has no chunk, a chunk with empty data (falsy in JavaScript), no output context, or a chunk that decodes |
| Live.AudioChunkRules | components/LiveSession.tsx:184-213 | a decoded chunk marks the response active, adds its source, is scheduled no earlier than the clock (after a start tone when the response was inactive), and moves the clock on by frames / 24000 seconds |
| Live.UndecodableChunkRules | components/LiveSession.tsx:184-200 | a non-empty chunk that fails to decode still marks the response active and passes the start tone, adds no source, and the message's turnComplete is lost |
| Live.EmptyChunkSkipped | components/LiveSession.tsx:182-184 | a chunk whose data is the empty string skips the audio branch: the message acts as one without a chunk, adds no source, and changes nothing while no response is active |
| Live.DecodedFramesOfEncoding | utils/audioUtils.ts:43-64 | the RFC 4648 encoding of 2n PCM bytes decodes to n frames; data `atob` rejects does not decode |
| Live.StatusTextInjective | components/LiveSession.tsx:326-332 | each connection state has its own status text |
| Live.LiveSession.constructor | components/LiveSession.tsx:18-42 | the component mounts disconnected, with no error, no retries, no timer and no playback |
| Live.LiveSession.StopAllAudioPlayback | components/LiveSession.tsx:278-283 | the playback-source set is emptied in place |
| Live.LiveSession.CleanupAudioResources | components/LiveSession.tsx:71-102 | playback stops and the audio contexts are gone |
| Live.LiveSession.SetRetryTimeout | components/LiveSession.tsx:116-118 | a new timer with a fresh id is scheduled beside the others |
| Live.LiveSession.HandleConnectionLoss | components/LiveSession.tsx:104-123 | the fields change as a connection loss says: a new timer is added and written to the ref, the earlier ones stay; the retry bound and the timer ids are kept |
| Live.LiveSession.StartSession | components/LiveSession.tsx:125-245 | the fields change as a start says and the retry bound is kept |
| Live.LiveSession.RetryTimerFires | components/LiveSession.tsx:116-118 | the fields change as the firing of that timer says |
| Live.LiveSession.OnOpen | components/LiveSession.tsx:168-172 | the fields change as `onopen` says |
| Live.LiveSession.OnMessage | components/LiveSession.tsx:173-222 | the fields change as `onmessage` says: a chunk with empty data skips the audio branch, and a chunk that fails to decode stops the handler early |
| Live.LiveSession.ReceiveChunk | components/LiveSession.tsx:184-212 | the audio branch: it reports whether the chunk decoded and changes the fields accordingly |
| Live.LiveSession.ArriveChunk | components/LiveSession.tsx:188-194 | the chunk's start moves to the clock, after the start tone when no response was active |
| Live.LiveSession.EndTurn | components/LiveSession.tsx:215-221 | the fields change as the `turnComplete` branch says |
| Live.LiveSession.DecodeChunk | components/LiveSession.tsx:196-200 | `decodeAudioData(base64Decode(data))` with one channel yields `DecodedFrames(data)` frames, or fails where it does |
| Live.LiveSession.OnClosed | components/LiveSession.tsx:223-229 | `onclose` and `onerror` are a connection loss |
| Live.LiveSession.Disconnect | components/LiveSession.tsx:285-293 | the fields change as `disconnect` says: only the ref's timer is cancelled |
| Live.LiveSession.SourceEnded | components/LiveSession.tsx:206-208 | an ended source leaves the playback set |
| Video.IncludesIffOccurs | components/VideoSession.tsx:148-153 | the front-to-back search finds a text exactly when it occurs at some position |
| Video.OccursFirstChar | components/VideoSession.tsx:148-153 | a non-empty text occurs only where its first character does |
| Video.ClassifyError | components/VideoSession.tsx:145-157 | the error text shown is never empty |
| Video.FallbackUnclassified | components/VideoSession.tsx:145-155 | the fallback text mentions neither the not-found text, nor `429`, nor `quota` |
| Video.NotFoundIsKeyError | components/VideoSession.tsx:148-151 | the key-error flag is set exactly for a not-found error (by text, status or code), which is shown with the access-denied text |
| Video.NotFoundBeforeQuota | components/VideoSession.tsx:148-155 | an error that is both a not-found and a quota error is a key error |
| Video.QuotaClassified | components/VideoSession.tsx:153-155 | a quota error that is not a not-found error shows the quota text and is no key error |
| Video.OtherErrorsKeepMessage | components/VideoSession.tsx:145-157 | any other error shows its own message, or the fallback when the message is empty |
| Video.PollEndsDone | components/VideoSession.tsx:118-126 | the poll loop ends with an operation only once it has seen it done |
| Video.PollIgnoresLaterReplies | components/VideoSession.tsx:118-126 | once the loop has ended, replies never asked for change nothing |
| Video.SuccessNeedsUri | components/VideoSession.tsx:129-141 | a video comes only from a done operation with a URI and an ok download; a done operation without a URI always ends in the no-URI error |
| Video.ImageReadOnlyWithImage | components/VideoSession.tsx:93-110 | without a reference image, reading one cannot fail the request |
| Video.VideoSession.constructor | components/VideoSession.tsx:17-23 | the screen starts with no error, no video, no image and nothing generating |
| Video.VideoSession.HandleImageSelect | components/VideoSession.tsx:27-34 | selecting a reference image clears any previous video |
| Video.VideoSession.HandleChangeKey | components/VideoSession.tsx:52-62 | a key selection that opens clears the error and the key-error flag; otherwise nothing changes |
| Video.VideoSession.HandleGenerate | components/VideoSession.tsx:64-162 | the request state is reset at the start; every finished path ends with `isGenerating` false and an empty status; success shows the video with no error; failure shows the classified error with no video; a request still polling is generating with the rendering status |
| Video.VideoSession.Attempted | components/VideoSession.tsx:71-141 | the calls and the poll loop produce exactly the outcome `Generate` describes |

## Left out

- Rendering: JSX, CSS, animations, `App.tsx` and `components/AudioVisualizer.tsx` are not
  part of this model.
- Gemini SDK calls (`chats.create`, `sendMessage`, `generateContent`, `live.connect`,
  `generateVideos`, `getVideosOperation`): their results are inputs. These are `Reply`,
  the `Event` values and `Env`.
- Browser APIs (`getUserMedia`, `AudioContext`, `ScriptProcessorNode`, `FileReader`,
  `URL.createObjectURL`, `fetch`, `window.aistudio`): foreign I/O. Their outcomes are
  inputs.
- Timing: the reconnect delay, the 5-second poll interval and the interleaving of
  asynchronous callbacks. A timer firing is the discrete event `RetryTimerFires`, and
  timers may fire in any order. Each handler
  runs to completion. The await points inside `onmessage` and `handleSubmit` are not
  modelled.
- Clock and locale: `Date.now()` ids, `toLocaleTimeString` and the hour. They are
  parameters (`idAt`, `timeAt`, `hour`). Chat message ids and timestamps are display keys
  and are dropped from `ChatMessage`.
- Floating point:
  - the clamp-and-scale of Float32 samples in `pcmToWav` is the parameter `quantize`;
  - the division by 32768 in `decodeAudioData` is not modelled, so the channel buffers
    hold the Int16 values;
  - the feedback tones' frequencies and gains are not modelled;
  - the output clock `nextStartTime` is a `real`, so float rounding is not modelled.
- Byte order: the platform's Int16 byte order is a parameter (`layout`, `join`).
- Microphone input: `setupAudioInputProcessing` and the mute flag are not modelled.
- Sending each microphone frame to the session is not modelled. The blob built for it is
  `AudioUtils.CreateAudioBlob`.
- Chat.NewCustomer: a save call whose arguments lack `fullName` would store `undefined`.
  The model takes the name as a string, because the tool schema requires it.
- Chat.RunCalls: a save call without a phone number throws before anything is saved. In
  the source this is the TypeError of calling `replace` on `undefined`. The model does not
  name the error. It only takes the `catch` path.
- Live.StartSession: a failure is the name of an error thrown inside the `try` of
  `startSession`. Getting the microphone raises `NotAllowedError` or `NotFoundError`.
  Any other name, such as a failure to create the audio contexts, takes the `catch`
  path as a loss. It has the same effect as `Start(isRetry, None)` followed by `Closed`.
  Connection failures that the live API reports later arrive as `Closed` events.
- AudioUtils.DecodeAudioData: `data` stands for the whole `ArrayBuffer` behind the
  `Uint8Array`, because `new Int16Array(data.buffer)` reads the buffer and not the
  array's window. The two differ only for a window onto a larger buffer, and
  `base64Decode` always makes a fresh one. The `sampleRate` argument is dropped. So are
  `createBuffer`'s rejections of more channels than the implementation supports and of
  an out-of-range sample rate. The only caller passes one channel and 24000.
- Live.OnMessage: a failure to decode the chunk stops the handler, as in the source. The
  rejected promise itself, and the errors `ctx.resume()` and the feedback tone may raise,
  are not modelled.
- Video.Poll: the loop never ends while the operation is not done. A finite sequence of
  poll replies stands for it, and running out of replies means the request is still
  waiting (`Pending`).
- Video.HandleGenerate: the intermediate status texts are set by `Attempted`. Only the
  final status, and the status while polling, are stated.

## Findings

| source | as written | input that shows it | evidently intended | confidence | as-written member | corrected member |
|---|---|---|---|---|---|---|
| components/LiveSession.tsx:287-289 | `disconnect` clears only the timer in `reconnectTimeoutRef`. Every loss with retries left overwrites that ref with a new timer (lines 116-118), and one failed socket reports both `onerror` and `onclose` (lines 223-229). | From a connected session with the counter at 0: `onerror`, `onclose`, `disconnect`, then the first timer fires. It runs `startSession(true)`, clears the intentional-disconnect flag and opens the session again. | After `disconnect`, no pending reconnect may restart the session. | high (not executed) | Live.StaleTimerReconnects | Live.CorrectedQuietAfterDisconnect |
