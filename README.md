# Voice chatbot pipeline: a Dafny model of its coordination logic

The repository is a voice chatbot: the browser streams microphone audio to a
speech recogniser. Transcripts go to a language-model stage. Its replies go to
a speech-synthesis stage, and the synthesised audio goes back to the browser,
which plays it. This project models the parts of that pipeline that decide
what happens when:

- **Turn detection and the language-model stage** (`api_model.py`, module
  `ApiModel`). This covers the conversation history, the request body and the
  status mapping of `query`, and the `run` loop. That loop drains the
  transcription queue to its newest record. It fires one generation when the
  stripped prompt repeats the previous one with the end-of-speech flag set.
  It then puts one record on the audio queue and one on the monitoring queue.
- **The streaming generation service** (`api_run.py`, module `ApiRun`). This
  covers the prompt template and the streamer callbacks, which put decoded
  text and a `None` end marker on a shared FIFO. It also covers the response
  generator, which drains that FIFO until the marker or until the stop
  endpoint sets the stop flag.
- **The speech stage** (`tts_service.py`, module `TtsService`). This is the
  per-connection loop. It drains the audio queue to its newest record and puts
  the record back when the client is gone. It synthesises only text that
  differs, once stripped, from the last text synthesised, and sends the
  latest audio on end-of-response.
- **The browser page** (`examples/chatbot/html/js/main.js`, module
  `ChatPage`). Playback is driven by a message id: stale clips are dropped,
  fresh clips play at once or queue in FIFO order, and a clip's `ended`
  listener starts the next one. A new transcription or the mic button
  interrupts playback. Microphone chunks are sent only while a set of flags
  allows it. The module also covers the output sample rate, `zeroPad` and the
  recording timer.
- **The voice-activity detector's bookkeeping** (`whisper_live/vad.py`,
  module `Vad`). This covers input validation (dimensions, decimation of
  multiples of 16000, the rate whitelist, the minimum length) and the state
  carried between calls (recurrent state, context window, last rate and
  batch size). It also covers the zero-pad-and-window loop of
  `audio_forward`.

Shared modules:

- `Text` holds Python's `str.strip()` and `str.join`.
- `Queues` holds FIFO queues, seen one operation at a time.
- `Records` holds the Python values carried in queue records.

Each stage follows the same pattern. A pure function describes one step
(`RunStep`, `TtsStep`, `OnAudio`, `Process`, ...), and lemmas state its
properties. A class whose fields mirror the source's object or global
variables has methods that update those fields in place. Each method is
proved equal to the step function.

Three places where the code's behaviour is worth knowing are stated as
lemmas:

- When `CustomLLMAPI.run` feeds the speech stage, the records it puts on
  the audio queue carry a one-element list as `llm_output`. (api_main.py:106-113
  runs a producer of its own, which puts plain responses on that queue; it
  is not part of this model.) The speech stage calls `.strip()` on it, which raises
  `AttributeError`, so it never synthesises speech for them
  (`TtsService.ModelRecordIsNeverSynthesized`,
  `TtsService.ModelRecordsNeverSound`).
- Stopping a streamed response early leaves its unread text on the shared
  FIFO, and the next request yields that text
  (`ApiRun.StaleTextsReachNextResponse`).
- Interrupting by the mic button filters out only queued clips that carry the
  *new* id. Stopping the current clip fires its `ended` listener, which
  starts a still-queued clip of the interrupted reply
  (`ChatPage.InterruptedReplyResumes`).

Other behaviours of the language-model stage, each stated in the model:

- The history is never capped: `add_to_history` appends and nothing removes
  entries except `clear_history` (api_model.py:13-20).
- `last_prompt` is one field of the object, shared by every uid
  (api_model.py:31, 79-97).
- A final transcript that strips to the empty string fires a generation
  whenever `last_prompt` is "": at start-up and right after a generation
  (api_model.py:31, 79, 94; `ApiModel.BlankFinalFiresAfterReset`).
- A final transcript whose stripped text is not empty, given twice in a row,
  fires once (api_model.py:79-97; `ApiModel.FinalTwiceFiresOnce`); a blank
  one fires both times.
- `run` sends the whole unstripped transcript in one request and never
  cancels it (api_model.py:79-95).

## Model

Source paths are relative to the repository root.

| member | source | states |
|---|---|---|
| Text.Strip | api_model.py:76 | the stripped text is a contiguous slice of the input; it neither starts nor ends with whitespace, and everything outside it is whitespace |
| Text.StripIdempotent | tts_service.py:65-73 | stripping a stripped text changes nothing, so the stored `last_llm_response` compares like the text it came from |
| Text.StripEmptyIff | api_model.py:76 | a prompt strips to "" exactly when it is all whitespace |
| Text.StripTrimmed | api_model.py:76 | a text without surrounding whitespace is its own strip |
| Text.Join | api_model.py:17 | joining no parts gives "", and joining one part gives that part |
| Text.JoinSnoc | api_model.py:17 | joining one more part extends the earlier join by the separator and the part |
| Text.JoinLength | api_model.py:17 | the joined text is as long as the parts together plus one separator between each pair of neighbours |
| Queues.Queue.constructor | api_run.py:36 | a new queue is empty |
| Queues.Queue.Put | api_model.py:87 | `put` appends at the back |
| Queues.Queue.Get | api_model.py:69 | `get` removes and returns the oldest item |
| ApiModel.Render | api_model.py:16-17 | an empty history renders as "", and a single entry as its `speaker:message` line |
| ApiModel.RenderAppend | api_model.py:13-17 | appending an entry adds exactly its line after a newline; the earlier rendering stays a prefix |
| ApiModel.RenderLength | api_model.py:16-17 | no entry is dropped from the rendering: its length is the lines' total plus n-1 newlines, for any size |
| ApiModel.ConversationHistory.constructor | api_model.py:10-11 | a new history is empty |
| ApiModel.ConversationHistory.AddToHistory | api_model.py:13-14 | the entry is appended at the end and nothing is evicted |
| ApiModel.ConversationHistory.ClearHistory | api_model.py:19-20 | the history is empty and renders as "" |
| ApiModel.PostDataFor | api_model.py:35-44 | the body carries mode "test", top_p 0.9, top_k 10, temperature 0.2, repetition penalty 1.0, 500 new tokens, and the prompt is the message plus the length instruction |
| ApiModel.MessageOfPostData | api_model.py:35-38 | the message can be recovered from the body |
| ApiModel.PostDataInjective | api_model.py:35-44 | different messages give different bodies |
| ApiModel.Query | api_model.py:34-56 | raises exactly when the request raises or a 200 reply has no generated text; status 200 returns the generated text; any other status returns "Error: " plus the reply text |
| ApiModel.ProcessTranscription | api_model.py:58-64 | `None` exactly when `query` raises, otherwise `query`'s result |
| ApiModel.RunStep | api_model.py:69-97 | a record with more queued behind it is skipped; otherwise the uid gets an (empty) history; a generation fires exactly when the stripped prompt equals `last_prompt` and eos is set; firing puts one `[response]` record on each queue and resets `last_prompt` to "", otherwise `last_prompt` becomes the stripped prompt |
| ApiModel.NonFinalNeverFires | api_model.py:76-97 | a run of records without the end-of-speech flag never fires, and leaves the last stripped prompt behind |
| ApiModel.RepeatThenFinalFiresOnce | api_model.py:79-97 | a prompt without and then with the flag fires exactly once, with the response to the unstripped prompt |
| ApiModel.FinalTwiceFiresOnce | api_model.py:79-97 | a final transcript with non-blank stripped text, given twice in a row, fires exactly once from any state |
| ApiModel.FinalRepeatDoesNotRefire | api_model.py:79-94 | right after firing, the same non-blank final record does not fire again |
| ApiModel.BlankFinalFiresAfterReset | api_model.py:76-94 | a final record that strips to "" fires at start-up and right after any generation |
| ApiModel.CustomLLMAPI.constructor | api_model.py:23-32 | the headers carry "Bearer " plus the key and the JSON content type; `last_prompt` is "" and `infer_time` is 0 |
| ApiModel.CustomLLMAPI.Step | api_model.py:69-97 | one iteration: takes the oldest record and updates fields and both queues exactly as `RunStep` says |
| ApiModel.CustomLLMAPI.Run | api_model.py:66-97 | drains the queue; only the newest record reaches the decision, whose result is what remains |
| ApiRun.FormatInput | api_run.py:39-45 | the prompt is the template head, the query, then the template tail |
| ApiRun.QueryOfFormatInput | api_run.py:39-45 | the query can be recovered from the formatted prompt whatever it contains |
| ApiRun.FormatInputInjective | api_run.py:39-45 | different queries give different prompts |
| ApiRun.FirstNone | api_run.py:67-70 | the position of the first end marker: every item before it is text |
| ApiRun.StreamReadBack | api_run.py:64-74 | a generation's texts followed by the end marker read back as exactly those texts, leaving what follows untouched |
| ApiRun.StaleTextsReachNextResponse | api_run.py:64-74 | after a stop at k texts, the next reader gets the rest of the earlier generation |
| ApiRun.CustomStreamer.constructor | api_run.py:17-21 | the streamer holds the shared queue and the decoder, with the stop flag clear |
| ApiRun.CustomStreamer.OnFinalizedText | api_run.py:23-26 | puts the text, then the `None` end marker when the stream has ended |
| ApiRun.CustomStreamer.OnNewToken | api_run.py:28-30 | puts exactly the decoded token |
| ApiRun.StopStream | api_run.py:81-85 | sets the stop flag |
| ApiRun.ResponseGenerator | api_run.py:64-74 | yields the texts up to the end marker and consumes the marker; if the stop comes first, it yields only the texts before the stop and leaves the rest queued; the flag is clear afterwards |
| TtsService.Connect | tts_service.py:40-42 | a connection starts with `eos` false and no audio, and keeps `last_llm_response` |
| TtsService.TtsStep | tts_service.py:46-82 | skip when more records are queued; requeue when the ping fails; otherwise set eos and synthesise exactly when the output is a string whose strip differs from the last one (on the unstripped text); send the held audio exactly when eos holds, audio exists and the send succeeds |
| TtsService.RepeatReusesAudio | tts_service.py:65-80 | a text repeated up to whitespace is not synthesised again, and the end record sends the audio already held |
| TtsService.EarlierAudioIsSent | tts_service.py:72-80 | an end record whose output is `None` sends the audio of the earlier text |
| TtsService.ReconnectRepeatIsSilent | tts_service.py:41-73 | after a reconnect, the last text synthesised is neither synthesised again nor sent |
| TtsService.ModelRecordIsNeverSynthesized | tts_service.py:58-77 | a record as the language-model stage builds it (a list as `llm_output`) changes neither the last text nor the audio |
| TtsService.ServeAdvance | tts_service.py:43-56 | one loop iteration moves the connection's result forward by one record |
| TtsService.ModelRecordsNeverSound | tts_service.py:43-82 | a connection whose records arrive one at a time, all list-valued as api_model.py builds them, never sends audio nor synthesises: the audio stays unset and the last text is kept |
| TtsService.QueuedModelRecordsNeverSound | tts_service.py:43-82 | a queue already holding only list-valued records sends no audio: only its last record is processed, and it is not synthesised |
| TtsService.WebSocket.Send | tts_service.py:80 | the bytes are appended to what the client received |
| TtsService.WhisperSpeechTTS.constructor | tts_service.py:16-23 | no last text, no audio |
| TtsService.WhisperSpeechTTS.Step | tts_service.py:46-82 | one iteration, updating fields, queue and client exactly as `TtsStep` says |
| TtsService.WhisperSpeechTTS.StartWhisperspeechTts | tts_service.py:40-82 | the connection's loop: fields, audio sent and records left are those of `Serve` from the reset state |
| ChatPage.RateFor | examples/chatbot/html/js/main.js:79-86 | 24000 exactly for "en", 40000 for any other language |
| ChatPage.NatString | examples/chatbot/html/js/main.js:113 | `String(n)` is one or more decimal digits: one below 10, two below 100 |
| ChatPage.NatStringValue | examples/chatbot/html/js/main.js:113 | the digits read back as n |
| ChatPage.PadStart | examples/chatbot/html/js/main.js:113 | the text ends with the original, is at least `width` long, and is padded only with the fill character |
| ChatPage.ZeroPad | examples/chatbot/html/js/main.js:113 | `String(num)` left-padded with '0' to at least `places` characters |
| ChatPage.LeadingZerosValue | examples/chatbot/html/js/main.js:113 | leading zeros do not change the value of a digit string |
| ChatPage.ZerosValue | examples/chatbot/html/js/main.js:113 | a run of zeros reads as 0 |
| ChatPage.TwoPlaces | examples/chatbot/html/js/main.js:113 | a number below 100 padded to two places is two digits that read back as the number |
| ChatPage.TimerTextFields | examples/chatbot/html/js/main.js:124-127 | below 100 minutes the timer text is `mm:ss` then `s`, and its fields are floor(t/60) and t mod 60 |
| ChatPage.TimerTextInjective | examples/chatbot/html/js/main.js:124-127 | different times below 100 minutes show different texts |
| ChatPage.WithoutId | examples/chatbot/html/js/main.js:61 | a clip is kept exactly when it was queued and its id differs; never longer than the queue |
| ChatPage.WithoutIdConcat | examples/chatbot/html/js/main.js:61 | filtering a concatenation is the concatenation of the filtered parts, so kept clips stay in queue order with their multiplicity |
| ChatPage.Interrupt | examples/chatbot/html/js/main.js:60-65 | the id goes up by one, queued clips with the new id go, and playback stops; every other field is unchanged |
| ChatPage.ToggleMic | examples/chatbot/html/js/main.js:54-69 | the first press turns the mic on; later presses with `audio_state` 0 set it to 1 and interrupt; presses with `audio_state` 1 reset it to 0; `micOn` is never cleared |
| ChatPage.OnSegments | examples/chatbot/html/js/main.js:223-255 | the first segment of a new transcription moves the id on by one, drops queued clips of the new id, stops playback and counts an element; an empty list stops there; a non-empty list sets the new-element flag to `eos`, and a final one sets `audioQueueState` to 1; nothing else changes |
| ChatPage.OnLlmOutput | examples/chatbot/html/js/main.js:256-268 | the first text of a reply counts an element, the new-element flag becomes `eos`, and nothing else changes |
| ChatPage.OnMessage | examples/chatbot/html/js/main.js:216-269 | a `message` key sets `server_state` to 1 only for SERVER_READY; otherwise `segments`, then `llm_output`, decides the branch; a message with none of them changes nothing |
| ChatPage.FinalSegmentClosesGate | examples/chatbot/html/js/main.js:252-255 | a non-empty final segment list closes the mic gate from any state, which is where `GateClosedUntilAudio` starts |
| ChatPage.OnAudio | examples/chatbot/html/js/main.js:285-330 | every arriving message sets `audioQueueState` to 0 and counts an audio element; the message id never changes here; only the queue, the playing flag and the current clip may change besides |
| ChatPage.OnEnded | examples/chatbot/html/js/main.js:310-320 | the head of the queue is removed and plays; with an empty queue, playback stops and the id goes up by one |
| ChatPage.ApplyConsistent | examples/chatbot/html/js/main.js:310-330 | every handler keeps `audio_playing` backed by a clip, so `currently_playing.stop()` never hits null |
| ChatPage.ApplyIdMonotone | examples/chatbot/html/js/main.js:54-330 | no single handler lowers `current_message_id` |
| ChatPage.ApplyKeepsGateClosed | examples/chatbot/html/js/main.js:147-155 | once `audioQueueState` is 1, only an audio message sets it back to 0 |
| ChatPage.ApplyKeepsServerState | examples/chatbot/html/js/main.js:216-222 | only a SERVER_READY message changes `server_state` |
| ChatPage.MessageIdNeverDecreases | examples/chatbot/html/js/main.js:54-330 | no sequence of events lowers `current_message_id` |
| ChatPage.GateClosedUntilAudio | examples/chatbot/html/js/main.js:147-155 | after a final segment sets `audioQueueState` to 1, no mic chunk is sent until an audio message arrives |
| ChatPage.SilentUntilServerReady | examples/chatbot/html/js/main.js:147-150 | without SERVER_READY no mic chunk is sent and `server_state` stays as it was |
| ChatPage.EndedPlaysQueueInOrder | examples/chatbot/html/js/main.js:310-320 | n clip endings play the first n queued clips in FIFO order, without changing the id |
| ChatPage.ArrivalPlaysOrQueues | examples/chatbot/html/js/main.js:292-330 | a stale clip is neither played nor queued; a fresh one plays at once when nothing plays, otherwise it is appended with its id |
| ChatPage.AllClipsStaleFrom256 | examples/chatbot/html/js/main.js:291-299 | ids are one byte, so from id 256 on every clip is dropped |
| ChatPage.InterruptedClipStaysQueued | examples/chatbot/html/js/main.js:224-230 | a new transcription keeps a queued clip of the interrupted reply, which the next `ended` starts |
| ChatPage.InterruptWithEmptyQueueSkipsAnId | examples/chatbot/html/js/main.js:58-65 | an interrupt with nothing queued, followed by the stopped clip's `ended`, moves the id on by two |
| ChatPage.InterruptedReplyResumes | examples/chatbot/html/js/main.js:58-65 | when a clip of the interrupted reply is queued, the stopped clip's `ended` starts it |
| ChatPage.Globals.constructor | examples/chatbot/html/js/main.js:12-39 | the globals' initial values |
| ChatPage.Globals.InterruptPlayback | examples/chatbot/html/js/main.js:60-65 | performs `Interrupt` on the globals |
| ChatPage.Globals.ToggleMicButton | examples/chatbot/html/js/main.js:54-69 | performs `ToggleMic` on the globals |
| ChatPage.Globals.OnTranscriptionMessage | examples/chatbot/html/js/main.js:216-269 | SERVER_READY sets `server_state`; the first segment interrupts and counts a transcription element; an empty segment list ends the handler; an eos segment sets the flag and `audioQueueState`; `llm_output` manages its element flag |
| ChatPage.Globals.ShowSegments | examples/chatbot/html/js/main.js:223-255 | the segments branch on the globals, with the interrupt, the empty-list exit and the gate closing that `OnSegments` states |
| ChatPage.Globals.ShowLlmOutput | examples/chatbot/html/js/main.js:256-268 | the `llm_output` branch on the globals: the element count and flag that `OnLlmOutput` states |
| ChatPage.Globals.OnAudioMessage | examples/chatbot/html/js/main.js:285-330 | performs `OnAudio` on the globals |
| ChatPage.Globals.OnClipEnded | examples/chatbot/html/js/main.js:310-320 | performs `OnEnded` on the globals |
| ChatPage.Globals.OnMicData | examples/chatbot/html/js/main.js:146-156 | a chunk is sent only when `server_state` is 1, the socket is open, `audio_state` is 0 and `audioQueueState` is 0 |
| ChatPage.Globals.OnAudioOutputChange | examples/chatbot/html/js/main.js:79-86 | only `tts_sampling_rate` changes, to the rate of the output language |
| ChatPage.Globals.RecordingTimer | examples/chatbot/html/js/main.js:124-127 | the time goes up by one and the text shows it |
| Vad.Decimate | whisper_live/vad.py:43-46 | `row[::step]` has ceil(n/step) samples |
| Vad.DecimatePicks | whisper_live/vad.py:43-46 | sample i of the decimated row is sample i*step of the row |
| Vad.DecimateBatch | whisper_live/vad.py:43-46 | the batch keeps its rows, each replaced by its decimation, at width ceil(n/step) |
| Vad.DecimateBatchPicks | whisper_live/vad.py:43-46 | sample i of row j after decimation is sample i*step of row j |
| Vad.ValidateInput | whisper_live/vad.py:37-54 | more than two dimensions raises; an accepted chunk is a rectangular batch (one row for a 1-D chunk) at 8000 or 16000, non-empty and long enough |
| Vad.AcceptedIffLongEnough | whisper_live/vad.py:48-54 | at a supported rate a chunk is accepted exactly when it has at least 512 samples (16000) or 256 (8000); an empty one divides by zero, a short one is too short |
| Vad.HighRateIsDecimated | whisper_live/vad.py:37-52 | a rate of k*16000 (k >= 2) decimates every row of a 1-D or 2-D chunk by k, giving ceil(n/k) samples per row at 16000, accepted exactly when at least 512 remain |
| Vad.OtherRatesRefused | whisper_live/vad.py:43-49 | zero and negative multiples of 16000 fail on the slice step; every other rate except 8000, 16000 and the multiples of 16000 is refused |
| Vad.ZeroRows | whisper_live/vad.py:76 | `torch.zeros(rows, width)` |
| Vad.Reset | whisper_live/vad.py:56-60 | no context, no remembered rate or batch size, and an all-zero state of 2*128 per batch row |
| Vad.ContextSize | whisper_live/vad.py:66 | 64 samples of context at 16000 and 32 at any other rate |
| Vad.Concat | whisper_live/vad.py:78 | each input row is its context row followed by its chunk row |
| Vad.LastColumns | whisper_live/vad.py:89 | each row keeps its last k samples |
| Vad.Process | whisper_live/vad.py:62-94 | a rejected chunk changes nothing and raises the validation error; every call keeps the state valid; the recurrent state an accepted call keeps is the one the network returned (`ProcessAfterReset`, `ProcessCarries`) |
| Vad.ProcessAfterReset | whisper_live/vad.py:68-85 | on the first call, a rate change or a batch-size change, the network starts from a zero state with a zero context before the chunk, and the state it returns is kept |
| Vad.ProcessCarries | whisper_live/vad.py:68-85 | otherwise the network continues from the carried state and context, which belong to the same rate and batch size, and the state it returns is kept |
| Vad.ProcessRecords | whisper_live/vad.py:89-91 | after a call the context is each row's last context-size samples of the chunk, and the rate and batch size are recorded |
| Vad.ContextCarriesBetweenCalls | whisper_live/vad.py:75-91 | a second call at the same rate and batch size does not reset, and sees the first chunk's tail before its own samples, with the state the first call kept; the state the network returns is kept again |
| Vad.PadBatch | whisper_live/vad.py:101-103 | rows are zero-padded up to the next multiple of the window size, which is ceil(n/w) windows |
| Vad.Window | whisper_live/vad.py:106 | `x[:, i:i+w]`: every row's samples i to i+w, cut short at the end of the batch |
| Vad.WindowsAfterCall | whisper_live/vad.py:105-108 | after the call on window i, an exception ends the loop with the state that call left; an output is appended and the loop goes on from column i+w |
| Vad.FullWindowAccepted | whisper_live/vad.py:105-107 | a full window at 8000 or 16000 that meets the rate's minimum passes validation |
| Vad.WindowsStep | whisper_live/vad.py:105-108 | such a window always yields an output, and the loop goes on from the next window with the state its call left |
| Vad.Forward | whisper_live/vad.py:96-111 | a rejected chunk leaves the state and raises; a window size of 0 divides by zero after the reset; a negative one has nothing to join |
| Vad.WindowsCount | whisper_live/vad.py:105-108 | with k full windows left and each window long enough, the loop yields k more outputs |
| Vad.ForwardCount | whisper_live/vad.py:96-111 | with windows long enough for the rate, an accepted chunk of n samples gives ceil(n/w) outputs |
| Vad.DefaultWindowLongEnough | whisper_live/vad.py:96 | the default 512-sample window is long enough at both rates |
| Vad.VoiceActivityDetection.constructor | whisper_live/vad.py:33-34 | the detector starts from `reset_states()` with batch size 1 |
| Vad.VoiceActivityDetection.ResetStates | whisper_live/vad.py:56-60 | performs `Reset` on the fields |
| Vad.VoiceActivityDetection.Call | whisper_live/vad.py:62-94 | `__call__`: fields and result exactly as `Process` |
| Vad.VoiceActivityDetection.AudioForward | whisper_live/vad.py:96-111 | the window loop: fields and outputs exactly as `Forward` |
| Vad.VoiceActivityDetection.WindowCall | whisper_live/vad.py:106-108 | one turn of the `for` loop: the state stays valid and the rest of the loop is decided as `WindowsAfterCall` says |
| Vad.VoiceActivityDetection.ForwardWindows | whisper_live/vad.py:105-111 | the `for` loop and the join: fields and outputs exactly as `Windows` from column 0 |

## Left out

- Network and process plumbing are not part of this model:
  - HTTP and WebSocket I/O, FastAPI routing, `serve_forever`
  - process start-up in `api_main.py`, and the HTTP client in `api_client.py`
- `start_generation`'s thread is not modelled. The generation thread's output is taken to be already on the queue when the response generator reads it.
- The language and speech models are parameters:
  - the completion endpoint is a function from request body to reply
  - the tokenizer's `decode` is a function
  - Bark synthesis is a function from text to bytes
  - the ONNX network is a function from input, state and rate to output and state
  - model loading and warm-up are left out
- Concurrency is left out:
  - `qsize()` races between producers and consumers
  - `asyncio.to_thread`
  - the timing of `ended` events. Each event is a separate call, in the order given.
  - "more records pending" is a boolean input. A blocking `get` on an empty queue is modelled from the moment an item is there.
- Wall-clock latency (`time.time()`) is an input, and logging is left out.
- `ApiModel.Query`: `response.json()` on a body that is not JSON is treated as having no generated text, and non-string JSON values are not modelled.
- `Text.Strip`: whitespace is the set `str.isspace` accepts. No other Unicode processing is modelled.
- The commented-out older `CustomLLMAPI` class is left out.
- Browser code outside the state machine is left out:
  - DOM building and `innerHTML`
  - `AudioContext` set-up and `getUserMedia`
  - `generateUUID` (random and time-based)
  - the `languageMap` lookups of `onInputChange`/`onOutputChange`
  - scrolling
- `StartWhisperspeechTts` and `CustomLLMAPI.Run` stop once the queue is empty. The source's loops block in `get` and keep serving; records that arrive later are covered by `TtsService.Arrivals` and `ApiModel.Feed`, not by the loop methods.
- `ChatPage.OnMessage`: `eos` is a boolean. JavaScript's loose `== true` would also accept `1`. A `segments` value that is not a list is not modelled.
- `ChatPage.Globals.RecordingTimer`: the model reads `parseInt(t / 60)` as floor(t/60). That holds while t/60 prints without an exponent (t below 6·10²²).
- `ChatPage.Globals.RecordingTimer`: the call that schedules the timer is commented out in the source, so nothing in the page ever runs it.
- `ChatPage.OnAudio`: the decoded float samples are not modelled. A clip is identified by its payload bytes, and two identical payloads give equal clips.
- `Vad`: sample values are reals and only their positions matter. Torch and numpy arithmetic, the output `torch.cat` (its shape depends on the network) and `.cpu()` are left out. The ONNX session and the model download are left out too.
- `Vad.ValidateInput`: for a 0-d tensor with a rate that needs decimation, the error is taken to be the indexing error.
- `Vad.Forward`: with a negative window size, the padding step may crop or fail before the empty join. Both end in an error, and the model reports the empty join.
- `Vad.VoiceActivityDetection.Call`: the source's `else: raise ValueError()` after validation cannot be reached, because validation already restricts the rate to 8000 or 16000. The model leaves it out.
