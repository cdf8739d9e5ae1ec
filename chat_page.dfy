/** The browser side of the chatbot demo (examples/chatbot/html/js/main.js):
    the global state its event handlers share. Audio clips arriving on the
    audio socket are dropped when stale, played at once when nothing plays
    and queued otherwise; a clip's end starts the next queued one; a new
    transcription or the mic button interrupts playback; microphone data
    goes to the server only while a set of flags allows it. */
module ChatPage {
  import opened Records

  // ---------------------------------------------------------------------
  // Pure helpers: sample rate, zeroPad, recording_timer
  // ---------------------------------------------------------------------

  /** `onAudioOutputChange`: the speech sample rate for an output language. */
  function RateFor(outputLanguage: string): (rate: int)
    ensures rate == 24000 <==> outputLanguage == "en"
    ensures rate == 24000 || rate == 40000
  {
    if outputLanguage != "en" then 40000 else 24000
  }

  predicate IsDigit(c: char)
  {
    '0' <= c <= '9'
  }

  predicate AllDigits(s: string)
  {
    forall i :: 0 <= i < |s| ==> IsDigit(s[i])
  }

  /** `String(n)` for a whole number n >= 0: its decimal digits. */
  function NatString(n: nat): (r: string)
    ensures |r| >= 1 && AllDigits(r)
    ensures n < 10 ==> |r| == 1
    ensures 10 <= n < 100 ==> |r| == 2
  {
    if n < 10 then ["0123456789"[n]] else NatString(n / 10) + ["0123456789"[n % 10]]
  }

  /** `String(n)` for any whole number. */
  function IntString(n: int): string
  {
    if n < 0 then "-" + NatString(-n) else NatString(n)
  }

  /** The number a string of decimal digits denotes. */
  function DigitsValue(s: string): nat
    requires AllDigits(s)
  {
    if s == [] then 0 else 10 * DigitsValue(s[..|s| - 1]) + (s[|s| - 1] as int - '0' as int)
  }

  /** Reading the digits back gives the number. */
  lemma {:induction false} NatStringValue(n: nat)
    ensures DigitsValue(NatString(n)) == n
  {
    if n >= 10 {
      NatStringValue(n / 10);
      var s := NatString(n);
      assert s[..|s| - 1] == NatString(n / 10);
    }
  }

  function Repeat(c: char, k: nat): (r: string)
    ensures |r| == k && forall i :: 0 <= i < k ==> r[i] == c
  {
    if k == 0 then "" else [c] + Repeat(c, k - 1)
  }

  /** `s.padStart(width, c)`. */
  function PadStart(s: string, width: int, c: char): (r: string)
    ensures |s| >= width ==> r == s
    ensures |s| < width ==> |r| == width
    ensures |r| >= |s| && r[|r| - |s|..] == s
    ensures forall i :: 0 <= i < |r| - |s| ==> r[i] == c
  {
    if |s| >= width then s else Repeat(c, width - |s|) + s
  }

  /** `zeroPad(num, places)`. */
  function ZeroPad(num: int, places: int): (r: string)
    ensures |r| == if |IntString(num)| >= places then |IntString(num)| else places
    ensures r[|r| - |IntString(num)|..] == IntString(num)
    ensures forall i :: 0 <= i < |r| - |IntString(num)| ==> r[i] == '0'
  {
    PadStart(IntString(num), places, '0')
  }

  /** Leading zeros do not change the value of a digit string. */
  lemma {:induction false} LeadingZerosValue(k: nat, s: string)
    requires AllDigits(s)
    ensures AllDigits(Repeat('0', k) + s) && DigitsValue(Repeat('0', k) + s) == DigitsValue(s)
    decreases |s|
  {
    var z := Repeat('0', k);
    if s == [] {
      assert z + s == z;
      ZerosValue(k);
    } else {
      assert (z + s)[..|z + s| - 1] == z + s[..|s| - 1];
      LeadingZerosValue(k, s[..|s| - 1]);
    }
  }

  lemma {:induction false} ZerosValue(k: nat)
    ensures AllDigits(Repeat('0', k)) && DigitsValue(Repeat('0', k)) == 0
  {
    if k > 0 {
      var z := Repeat('0', k);
      assert z[..k - 1] == Repeat('0', k - 1);
      ZerosValue(k - 1);
    }
  }

  /** The text `recording_timer` shows after `t` seconds: whole minutes and
      remaining seconds, each zero-padded to two places. */
  function TimerText(t: nat): string
  {
    ZeroPad(t / 60, 2) + ":" + ZeroPad(t % 60, 2) + "s"
  }

  /** Below 100 minutes the timer text is exactly `mm:sss`-shaped
      (`mm:ss` then `s`) and the minutes and seconds fields read back as
      t / 60 and t mod 60. */
  lemma TimerTextFields(t: nat)
    requires t < 6000
    ensures var s := TimerText(t);
      && |s| == 6 && s[2] == ':' && s[5] == 's'
      && AllDigits(s[..2]) && AllDigits(s[3..5])
      && DigitsValue(s[..2]) == t / 60 && DigitsValue(s[3..5]) == t % 60
  {
    TwoPlaces(t / 60);
    TwoPlaces(t % 60);
    var s := TimerText(t);
    assert s[..2] == ZeroPad(t / 60, 2);
    assert s[3..5] == ZeroPad(t % 60, 2);
  }

  /** A number below 100, zero-padded to two places, is two digits that
      read back as the number. */
  lemma TwoPlaces(n: nat)
    requires n < 100
    ensures var s := ZeroPad(n, 2);
      |s| == 2 && AllDigits(s) && DigitsValue(s) == n
  {
    var d := NatString(n);
    NatStringValue(n);
    if |d| < 2 {
      LeadingZerosValue(2 - |d|, d);
    }
  }

  /** The timer text determines the elapsed time below 100 minutes. */
  lemma TimerTextInjective(t1: nat, t2: nat)
    requires t1 < 6000 && t2 < 6000 && TimerText(t1) == TimerText(t2)
    ensures t1 == t2
  {
    TimerTextFields(t1);
    TimerTextFields(t2);
  }

  // ---------------------------------------------------------------------
  // The page's shared state and its event handlers
  // ---------------------------------------------------------------------

  /** An `AudioBufferSourceNode` made from one binary audio message. */
  datatype Source = Source(payload: seq<bv8>)

  /** An `[message_id, audio_source]` entry of `audio_streams`. */
  datatype Queued = Queued(messageId: int, source: Source)

  /** A JSON message from the transcription socket: which of the keys
      `message`, `segments` (their texts), `eos` and `llm_output` it has. */
  datatype ServerMessage = ServerMessage(
    message: Option<string>,
    segments: Option<seq<string>>,
    eos: bool,
    llmOutput: Option<string>)

  /** The script's global variables that the handlers read and write. */
  datatype PageState = PageState(
    serverState: int,
    audioState: int,
    audioQueueState: int,
    micOn: bool,
    currentMessageId: int,
    audioPlaying: bool,
    audioStreams: seq<Queued>,
    currentlyPlaying: Option<Source>,
    newTranscriptionElementState: bool,
    newLlmElementState: bool,
    transcriptionElements: int,
    llmElements: int,
    audioElements: int,
    outputLanguage: string,
    ttsSamplingRate: int,
    recordingTime: int,
    timerText: string)

  /** The globals as the script declares them. */
  const Loaded := PageState(0, 0, 0, false, -1, false, [], None, true, true, 0, 0, 0, "en", 24000, 0, "")

  /** Whatever is playing is a real node: `currently_playing.stop()` is never
      called on null. */
  predicate Consistent(p: PageState)
  {
    p.audioPlaying ==> p.currentlyPlaying.Some?
  }

  /** `audio_streams.filter(a => a[0] !== id)`. */
  function WithoutId(qs: seq<Queued>, id: int): (r: seq<Queued>)
    ensures |r| <= |qs|
    ensures forall q :: q in r <==> q in qs && q.messageId != id
  {
    if qs == [] then []
    else if qs[0].messageId != id then [qs[0]] + WithoutId(qs[1..], id)
    else WithoutId(qs[1..], id)
  }

  /** Interrupting the reply: the next message id, the queue without clips
      of that id, playback stopped. Shared by `toggleMic` and the first
      segment of a transcription. */
  function Interrupt(p: PageState): (r: PageState)
    ensures r.currentMessageId == p.currentMessageId + 1 && !r.audioPlaying
    ensures r.audioStreams == WithoutId(p.audioStreams, r.currentMessageId)
    ensures r == p.(currentMessageId := r.currentMessageId, audioStreams := r.audioStreams, audioPlaying := r.audioPlaying)
  {
    var id := p.currentMessageId + 1;
    p.(currentMessageId := id, audioStreams := WithoutId(p.audioStreams, id), audioPlaying := false)
  }

  /** `toggleMic`; starting the recorder itself is not modelled. */
  function ToggleMic(p: PageState): (r: PageState)
    ensures r.micOn
    ensures !p.micOn ==> r == p.(micOn := true)
    ensures p.micOn && p.audioState == 0 ==> r == Interrupt(p).(audioState := 1)
    ensures p.micOn && p.audioState != 0 ==> r == p.(audioState := 0)
  {
    if !p.micOn then p.(micOn := true)
    else if p.audioState == 0 then Interrupt(p.(audioState := 1))
    else p.(audioState := 0)
  }

  /** The `segments` branch of `websocket.onmessage`. An empty list makes
      `data["segments"][0].text` throw, which ends the handler there. */
  function OnSegments(p: PageState, segments: seq<string>, eos: bool): (r: PageState)
    // The first segment of a new transcription interrupts the reply and
    // counts an element; otherwise neither happens.
    ensures p.newTranscriptionElementState ==>
      && r.currentMessageId == p.currentMessageId + 1 && !r.audioPlaying
      && r.audioStreams == WithoutId(p.audioStreams, p.currentMessageId + 1)
      && r.transcriptionElements == p.transcriptionElements + 1
    ensures !p.newTranscriptionElementState ==>
      && r.currentMessageId == p.currentMessageId && r.audioPlaying == p.audioPlaying
      && r.audioStreams == p.audioStreams && r.transcriptionElements == p.transcriptionElements
    // An empty list stops the handler after that.
    ensures segments == [] ==>
      r.newTranscriptionElementState == p.newTranscriptionElementState && r.audioQueueState == p.audioQueueState
    // A final segment readies a new element and closes the mic gate.
    ensures segments != [] ==> r.newTranscriptionElementState == eos
    ensures segments != [] && eos ==> r.audioQueueState == 1
    ensures !eos ==> r.audioQueueState == p.audioQueueState
    // Nothing else changes.
    ensures r == p.(currentMessageId := r.currentMessageId, audioPlaying := r.audioPlaying,
                    audioStreams := r.audioStreams, transcriptionElements := r.transcriptionElements,
                    newTranscriptionElementState := r.newTranscriptionElementState,
                    audioQueueState := r.audioQueueState)
  {
    var p1 :=
      if p.newTranscriptionElementState then
        Interrupt(p).(transcriptionElements := p.transcriptionElements + 1)
      else p;
    if segments == [] then p1
    else
      var p2 := p1.(newTranscriptionElementState := false);
      if eos then p2.(newTranscriptionElementState := true, audioQueueState := 1) else p2
  }

  /** The `llm_output` branch of `websocket.onmessage`. */
  function OnLlmOutput(p: PageState, eos: bool): (r: PageState)
    // The first text of a reply counts an element; `eos` readies the next.
    ensures r.llmElements == if p.newLlmElementState then p.llmElements + 1 else p.llmElements
    ensures r.newLlmElementState == eos
    ensures r == p.(llmElements := r.llmElements, newLlmElementState := r.newLlmElementState)
  {
    var p1 := if p.newLlmElementState then p.(llmElements := p.llmElements + 1, newLlmElementState := false) else p;
    if eos then p1.(newLlmElementState := true) else p1
  }

  /** `websocket.onmessage`. */
  function OnMessage(p: PageState, m: ServerMessage): (r: PageState)
    ensures m.message.Some? ==> r == p.(serverState := if m.message.value == "SERVER_READY" then 1 else p.serverState)
    ensures m.message.None? && m.segments.Some? ==> r == OnSegments(p, m.segments.value, m.eos)
    ensures m.message.None? && m.segments.None? && m.llmOutput.Some? ==> r == OnLlmOutput(p, m.eos)
    ensures m.message.None? && m.segments.None? && m.llmOutput.None? ==> r == p
  {
    if m.message.Some? then
      if m.message.value == "SERVER_READY" then p.(serverState := 1) else p
    else if m.segments.Some? then OnSegments(p, m.segments.value, m.eos)
    else if m.llmOutput.Some? then OnLlmOutput(p, m.eos)
    else p
  }

  /** `message_id`: byte 3 of the payload. */
  function MessageId(payload: seq<bv8>): int
    requires |payload| >= 4
  {
    payload[3] as int
  }

  /** `websocket_audio.onmessage`. A payload whose length is not a multiple
      of 4 makes `new Float32Array` throw; an empty one has no byte 3 (the id
      is NaN, so it is not stale) and makes `createBuffer` throw; before the
      microphone was first switched on the speech `AudioContext` does not
      exist and `createBuffer` throws on null. In each case only the first
      two statements took effect. */
  function OnAudio(p: PageState, payload: seq<bv8>): (r: PageState)
    ensures r.audioQueueState == 0 && r.audioElements == p.audioElements + 1
    ensures r.currentMessageId == p.currentMessageId
    ensures r == p.(audioQueueState := 0, audioElements := p.audioElements + 1, audioStreams := r.audioStreams,
                    audioPlaying := r.audioPlaying, currentlyPlaying := r.currentlyPlaying)
  {
    var p1 := p.(audioQueueState := 0, audioElements := p.audioElements + 1);
    if |payload| % 4 != 0 || |payload| == 0 then p1
    else if MessageId(payload) < p.currentMessageId then p1
    else if !p.micOn then p1
    else if !p.audioPlaying then p1.(currentlyPlaying := Some(Source(payload)), audioPlaying := true)
    else p1.(audioStreams := p.audioStreams + [Queued(MessageId(payload), Source(payload))])
  }

  /** The `ended` listener of a clip. */
  function OnEnded(p: PageState): (r: PageState)
    ensures p.audioStreams != [] ==>
      r == p.(currentlyPlaying := Some(p.audioStreams[0].source), audioStreams := p.audioStreams[1..], audioPlaying := true)
    ensures p.audioStreams == [] ==>
      r == p.(currentlyPlaying := None, audioPlaying := false, currentMessageId := p.currentMessageId + 1)
  {
    if |p.audioStreams| > 0 then
      p.(currentlyPlaying := Some(p.audioStreams[0].source), audioStreams := p.audioStreams[1..], audioPlaying := true)
    else
      p.(currentlyPlaying := None, audioPlaying := false, currentMessageId := p.currentMessageId + 1)
  }

  /** The audio worklet's `onmessage`: is the chunk sent to the server?
      `socketOpen` is `websocket.readyState === WebSocket.OPEN`. */
  function MicGate(p: PageState, socketOpen: bool): bool
  {
    if p.serverState != 1 then false
    else socketOpen && p.audioState == 0 && p.audioQueueState == 0
  }

  /** The recording timer's tick. */
  function Tick(p: PageState): PageState
    requires p.recordingTime >= 0
  {
    var t := p.recordingTime + 1;
    p.(recordingTime := t, timerText := TimerText(t))
  }

  /** Everything that can happen on the page. */
  datatype Event =
    | MicButton
    | Message(m: ServerMessage)
    | Audio(payload: seq<bv8>)
    | ClipEnded
    | MicData(socketOpen: bool)
    | OutputChange

  function Apply(p: PageState, e: Event): PageState
  {
    match e
    case MicButton => ToggleMic(p)
    case Message(m) => OnMessage(p, m)
    case Audio(payload) => OnAudio(p, payload)
    case ClipEnded => OnEnded(p)
    case MicData(_) => p
    case OutputChange => p.(ttsSamplingRate := RateFor(p.outputLanguage))
  }

  /** The page after a sequence of events, and how many microphone chunks
      were sent to the server on the way. */
  datatype Trace = Trace(last: PageState, chunksSent: nat)

  function Run(p: PageState, es: seq<Event>): Trace
    decreases |es|
  {
    if es == [] then Trace(p, 0)
    else
      var sent := if es[0].MicData? && MicGate(p, es[0].socketOpen) then 1 else 0;
      var t := Run(Apply(p, es[0]), es[1..]);
      Trace(t.last, sent + t.chunksSent)
  }

  /** Filtering distributes over concatenation, so the clips kept stay in
      their order, each as often as it was queued. */
  lemma {:induction false} WithoutIdConcat(a: seq<Queued>, b: seq<Queued>, id: int)
    ensures WithoutId(a + b, id) == WithoutId(a, id) + WithoutId(b, id)
    decreases |a|
  {
    if a != [] {
      var ab := a + b;
      assert ab != [] && ab[0] == a[0] && ab[1..] == a[1..] + b;
      WithoutIdConcat(a[1..], b, id);
      if a[0].messageId != id {
        assert WithoutId(ab, id) == [a[0]] + WithoutId(a[1..] + b, id);
        assert WithoutId(a, id) == [a[0]] + WithoutId(a[1..], id);
      } else {
        assert WithoutId(ab, id) == WithoutId(a[1..] + b, id);
        assert WithoutId(a, id) == WithoutId(a[1..], id);
      }
    } else {
      assert a + b == b;
    }
  }

  /** A final segment closes the mic gate, whatever the state. */
  lemma FinalSegmentClosesGate(p: PageState, m: ServerMessage)
    requires m.message.None? && m.segments.Some? && m.segments.value != [] && m.eos
    ensures OnMessage(p, m).audioQueueState == 1
    ensures Run(p, [Message(m)]).last.audioQueueState == 1
  {
    assert Run(p, [Message(m)]).last == Run(OnMessage(p, m), []).last;
  }

  /** Every handler keeps `audio_playing` backed by a node. */
  lemma ApplyConsistent(p: PageState, e: Event)
    requires Consistent(p)
    ensures Consistent(Apply(p, e))
  {
  }

  /** No handler lowers the message id. */
  lemma ApplyIdMonotone(p: PageState, e: Event)
    ensures Apply(p, e).currentMessageId >= p.currentMessageId
  {
  }

  /** Only an audio message reopens a gate a final segment closed. */
  lemma ApplyKeepsGateClosed(p: PageState, e: Event)
    requires p.audioQueueState == 1 && !e.Audio?
    ensures Apply(p, e).audioQueueState == 1
  {
  }

  /** Only SERVER_READY changes `server_state`. */
  lemma ApplyKeepsServerState(p: PageState, e: Event)
    requires !(e.Message? && e.m.message == Some("SERVER_READY"))
    ensures Apply(p, e).serverState == p.serverState
  {
  }

  /** The message id never goes down. */
  lemma {:induction false} MessageIdNeverDecreases(p: PageState, es: seq<Event>)
    ensures Run(p, es).last.currentMessageId >= p.currentMessageId
    decreases |es|
  {
    if es != [] {
      var p1 := Apply(p, es[0]);
      ApplyIdMonotone(p, es[0]);
      MessageIdNeverDecreases(p1, es[1..]);
      assert Run(p, es).last == Run(p1, es[1..]).last;
    }
  }

  /** After a final segment, no microphone chunk reaches the server until an
      audio message arrives: only that handler reopens the gate. */
  lemma {:induction false} GateClosedUntilAudio(p: PageState, es: seq<Event>)
    requires p.audioQueueState == 1
    requires forall i :: 0 <= i < |es| ==> !es[i].Audio?
    ensures Run(p, es).chunksSent == 0 && Run(p, es).last.audioQueueState == 1
    decreases |es|
  {
    if es != [] {
      var p1 := Apply(p, es[0]);
      ApplyKeepsGateClosed(p, es[0]);
      assert !MicGate(p, false) && !MicGate(p, true);
      GateClosedUntilAudio(p1, es[1..]);
      assert Run(p, es) == Run(p1, es[1..]);
    }
  }

  /** Before the server says SERVER_READY nothing from the microphone is
      sent. */
  lemma {:induction false} SilentUntilServerReady(p: PageState, es: seq<Event>)
    requires p.serverState != 1
    requires forall i :: 0 <= i < |es| ==> !(es[i].Message? && es[i].m.message == Some("SERVER_READY"))
    ensures Run(p, es).chunksSent == 0 && Run(p, es).last.serverState == p.serverState
    decreases |es|
  {
    if es != [] {
      var p1 := Apply(p, es[0]);
      ApplyKeepsServerState(p, es[0]);
      assert !MicGate(p, false) && !MicGate(p, true);
      SilentUntilServerReady(p1, es[1..]);
      assert Run(p, es) == Run(p1, es[1..]);
    }
  }

  /** `n` clip endings play the first `n` queued clips in order. */
  lemma {:induction false} EndedPlaysQueueInOrder(p: PageState, n: nat)
    requires 0 < n <= |p.audioStreams|
    ensures var q := Run(p, seq(n, _ => ClipEnded)).last;
      && q.currentlyPlaying == Some(p.audioStreams[n - 1].source)
      && q.audioStreams == p.audioStreams[n..]
      && q.audioPlaying
      && q.currentMessageId == p.currentMessageId
    decreases n
  {
    var es := seq(n, _ => ClipEnded);
    var p1 := OnEnded(p);
    assert es[1..] == seq(n - 1, _ => ClipEnded);
    if n > 1 {
      EndedPlaysQueueInOrder(p1, n - 1);
      assert p1.audioStreams[n - 2] == p.audioStreams[n - 1];
      assert p1.audioStreams[n - 1..] == p.audioStreams[n..];
    } else {
      assert Run(p1, []).last == p1;
    }
  }

  /** A clip arriving while another plays goes to the back of the queue;
      one arriving while nothing plays starts at once; a stale one (its id
      below the current id) is neither played nor queued. */
  lemma ArrivalPlaysOrQueues(p: PageState, payload: seq<bv8>)
    requires |payload| >= 4 && |payload| % 4 == 0 && p.micOn
    ensures var r := OnAudio(p, payload);
      && (MessageId(payload) < p.currentMessageId ==>
            r.audioStreams == p.audioStreams && r.audioPlaying == p.audioPlaying && r.currentlyPlaying == p.currentlyPlaying)
      && (MessageId(payload) >= p.currentMessageId && !p.audioPlaying ==>
            r.audioPlaying && r.currentlyPlaying == Some(Source(payload)) && r.audioStreams == p.audioStreams)
      && (MessageId(payload) >= p.currentMessageId && p.audioPlaying ==>
            r.audioStreams == p.audioStreams + [Queued(MessageId(payload), Source(payload))])
  {
  }

  /** Ids are one byte, so once the current id reaches 256 every clip is
      stale and nothing is ever played or queued again. */
  lemma AllClipsStaleFrom256(p: PageState, payload: seq<bv8>)
    requires p.currentMessageId >= 256
    ensures var r := OnAudio(p, payload);
      r.audioStreams == p.audioStreams && r.audioPlaying == p.audioPlaying && r.currentlyPlaying == p.currentlyPlaying
  {
  }

  /** A new transcription removes only queued clips carrying the new id:
      a clip of the reply being interrupted stays queued, with an id below
      the current one, and the next clip ending starts it. */
  lemma InterruptedClipStaysQueued(p: PageState, src: Source, m: ServerMessage)
    requires p.newTranscriptionElementState && p.audioStreams == [Queued(p.currentMessageId, src)]
    requires m.message.None? && m.segments.Some? && m.segments.value != []
    ensures var r := OnMessage(p, m);
      && r.audioStreams == [Queued(p.currentMessageId, src)]
      && r.currentMessageId == p.currentMessageId + 1
      && OnEnded(r).currentlyPlaying == Some(src)
  {
    assert WithoutId(p.audioStreams, p.currentMessageId + 1) == [Queued(p.currentMessageId, src)];
  }

  /** `currently_playing.stop()` fires the stopped clip's `ended` listener.
      With nothing queued, interrupting by the mic button therefore moves
      the message id on twice. */
  lemma InterruptWithEmptyQueueSkipsAnId(p: PageState)
    requires p.micOn && p.audioState == 0 && p.audioPlaying && p.audioStreams == []
    ensures var q := Run(p, [MicButton, ClipEnded]).last;
      q.currentMessageId == p.currentMessageId + 2 && !q.audioPlaying && q.currentlyPlaying == None
  {
    var p1 := Apply(p, MicButton);
    assert Run(p, [MicButton, ClipEnded]).last == Run(p1, [ClipEnded]).last;
    assert Run(p1, [ClipEnded]).last == Run(OnEnded(p1), []).last;
  }

  /** With a clip of the interrupted reply still queued (the filter
      only removes clips numbered with the new id), the stopped clip's
      `ended` listener starts that clip: the old reply keeps playing. */
  lemma InterruptedReplyResumes(p: PageState, src: Source)
    requires p.micOn && p.audioState == 0 && p.audioPlaying
    requires p.audioStreams == [Queued(p.currentMessageId, src)]
    ensures var q := Run(p, [MicButton, ClipEnded]).last;
      q.audioPlaying && q.currentlyPlaying == Some(src) && q.audioStreams == []
      && q.currentMessageId == p.currentMessageId + 1 && q.audioState == 1
  {
    var p1 := Apply(p, MicButton);
    assert WithoutId(p.audioStreams, p.currentMessageId + 1) == p.audioStreams;
    assert Run(p, [MicButton, ClipEnded]).last == Run(p1, [ClipEnded]).last;
    assert Run(p1, [ClipEnded]).last == Run(OnEnded(p1), []).last;
  }

  // ---------------------------------------------------------------------
  // The globals, updated in place by the handlers
  // ---------------------------------------------------------------------

  class Globals {
    var serverState: int
    var audioState: int
    var audioQueueState: int
    var micOn: bool
    var currentMessageId: int
    var audioPlaying: bool
    var audioStreams: seq<Queued>
    var currentlyPlaying: Option<Source>
    var newTranscriptionElementState: bool
    var newLlmElementState: bool
    var availableTranscriptionElements: int
    var availableLlmElements: int
    var availableAudioElements: int
    var outputLanguage: string
    var ttsSamplingRate: int
    var recordingTime: int
    /** The text of the `recording-time` element. */
    var timerText: string

    function State(): PageState
      reads this
    {
      PageState(serverState, audioState, audioQueueState, micOn, currentMessageId, audioPlaying,
                audioStreams, currentlyPlaying, newTranscriptionElementState, newLlmElementState,
                availableTranscriptionElements, availableLlmElements, availableAudioElements,
                outputLanguage, ttsSamplingRate, recordingTime, timerText)
    }

    constructor ()
      ensures State() == Loaded && Consistent(State())
    {
      serverState, audioState, audioQueueState, micOn := 0, 0, 0, false;
      currentMessageId, audioPlaying, audioStreams, currentlyPlaying := -1, false, [], None;
      newTranscriptionElementState, newLlmElementState := true, true;
      availableTranscriptionElements, availableLlmElements, availableAudioElements := 0, 0, 0;
      outputLanguage, ttsSamplingRate, recordingTime, timerText := "en", 24000, 0, "";
    }

    /** Next id, drop queued clips with that id, stop what plays. */
    method InterruptPlayback()
      modifies this
      ensures State() == Interrupt(old(State()))
    {
      currentMessageId := currentMessageId + 1;
      audioStreams := WithoutId(audioStreams, currentMessageId);
      if audioPlaying {
        // currently_playing.stop()
        audioPlaying := false;
      }
    }

    method ToggleMicButton()
      modifies this
      ensures State() == ToggleMic(old(State()))
    {
      if !micOn {
        micOn := true;
      } else if audioState == 0 {
        audioState := 1;
        InterruptPlayback();
      } else {
        audioState := 0;
      }
    }

    method OnTranscriptionMessage(m: ServerMessage)
      modifies this
      ensures State() == OnMessage(old(State()), m)
    {
      if m.message.Some? {
        if m.message.value == "SERVER_READY" {
          serverState := 1;
        }
      } else if m.segments.Some? {
        ShowSegments(m.segments.value, m.eos);
      } else if m.llmOutput.Some? {
        ShowLlmOutput(m.eos);
      }
    }

    /** The `segments` branch of the message handler. */
    method ShowSegments(segments: seq<string>, eos: bool)
      modifies this
      ensures State() == OnSegments(old(State()), segments, eos)
    {
      if newTranscriptionElementState {
        InterruptPlayback();
        availableTranscriptionElements := availableTranscriptionElements + 1;
        if segments == [] {
          return;
        }
        newTranscriptionElementState := false;
      }
      if segments == [] {
        return;
      }
      if eos {
        newTranscriptionElementState := true;
        audioQueueState := 1;
      }
    }

    /** The `llm_output` branch of the message handler. */
    method ShowLlmOutput(eos: bool)
      modifies this
      ensures State() == OnLlmOutput(old(State()), eos)
    {
      if newLlmElementState {
        availableLlmElements := availableLlmElements + 1;
        newLlmElementState := false;
      }
      if eos {
        newLlmElementState := true;
      }
    }

    method OnAudioMessage(payload: seq<bv8>)
      modifies this
      ensures State() == OnAudio(old(State()), payload)
    {
      audioQueueState := 0;
      availableAudioElements := availableAudioElements + 1;
      if |payload| % 4 != 0 || |payload| == 0 {
        return;
      }
      var messageId := MessageId(payload);
      if messageId < currentMessageId {
        return;
      }
      if !micOn {
        return;
      }
      var audioSource := Source(payload);
      if !audioPlaying {
        currentlyPlaying := Some(audioSource);
        audioPlaying := true;
      } else {
        audioStreams := audioStreams + [Queued(messageId, audioSource)];
      }
    }

    method OnClipEnded()
      modifies this
      ensures State() == OnEnded(old(State()))
    {
      if |audioStreams| > 0 {
        currentlyPlaying := Some(audioStreams[0].source);
        audioStreams := audioStreams[1..];
        audioPlaying := true;
      } else {
        currentlyPlaying := None;
        audioPlaying := false;
        currentMessageId := currentMessageId + 1;
      }
    }

    /** Whether the worklet's chunk is sent. */
    method OnMicData(socketOpen: bool) returns (sent: bool)
      ensures sent == MicGate(State(), socketOpen)
      ensures sent ==> serverState == 1 && audioState == 0 && audioQueueState == 0
    {
      if serverState != 1 {
        return false;
      }
      sent := socketOpen && audioState == 0 && audioQueueState == 0;
    }

    method OnAudioOutputChange()
      modifies this
      ensures State() == old(State()).(ttsSamplingRate := RateFor(outputLanguage))
    {
      if outputLanguage != "en" {
        ttsSamplingRate := 40000;
      } else {
        ttsSamplingRate := 24000;
      }
    }

    method RecordingTimer()
      requires recordingTime >= 0
      modifies this
      ensures State() == Tick(old(State()))
    {
      recordingTime := recordingTime + 1;
      timerText := TimerText(recordingTime);
    }
  }
}
