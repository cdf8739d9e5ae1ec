/** The language-model stage of the pipeline (api_model.py): an uncapped
    conversation history, the request sent to the completion endpoint with
    its status mapping, and the `run` loop that decides when a transcript is
    final and fires one generation for it. */
module ApiModel {
  import opened Text
  import opened Queues
  import opened Records

  // ---------------------------------------------------------------------
  // ConversationHistory
  // ---------------------------------------------------------------------

  /** One `{"speaker": ..., "message": ...}` entry. */
  datatype Entry = Entry(speaker: string, message: string)

  /** `f"{speaker}:{message}"`. */
  function Line(e: Entry): string
  {
    e.speaker + ":" + e.message
  }

  function Lines(h: seq<Entry>): seq<string>
  {
    seq(|h|, i requires 0 <= i < |h| => Line(h[i]))
  }

  /** `get_history`: the entries in insertion order, one `speaker:message`
      line each, joined by newlines. */
  function Render(h: seq<Entry>): (r: string)
    ensures h == [] ==> r == ""
    ensures |h| == 1 ==> r == Line(h[0])
  {
    Join(Lines(h), "\n")
  }

  /** Rendering a history one entry longer adds exactly one line at the end
      and keeps the earlier rendering as a prefix. */
  lemma RenderAppend(h: seq<Entry>, e: Entry)
    ensures Render(h + [e]) == if h == [] then Line(e) else Render(h) + "\n" + Line(e)
  {
    assert Lines(h + [e]) == Lines(h) + [Line(e)];
    JoinSnoc(Lines(h), Line(e), "\n");
  }

  /** The rendering of n entries is as long as their lines plus n - 1
      newlines: no entry is dropped, whatever the history's size. */
  lemma RenderLength(h: seq<Entry>)
    requires h != []
    ensures |Render(h)| == TotalLength(Lines(h)) + |h| - 1
  {
    JoinLength(Lines(h), "\n");
  }

  class ConversationHistory {
    var history: seq<Entry>

    constructor ()
      ensures history == []
    {
      history := [];
    }

    /** `add_to_history`: one entry at the end, nothing else touched, no cap. */
    method AddToHistory(speaker: string, message: string)
      modifies this
      ensures history == old(history) + [Entry(speaker, message)]
      ensures |history| == |old(history)| + 1
    {
      history := history + [Entry(speaker, message)];
    }

    function GetHistory(): string
      reads this
    {
      Render(history)
    }

    /** `clear_history`. */
    method ClearHistory()
      modifies this
      ensures history == [] && GetHistory() == ""
    {
      history := [];
    }
  }

  // ---------------------------------------------------------------------
  // query / process_transcription
  // ---------------------------------------------------------------------

  const LengthString := " Please limit the response to 50 words."

  /** The JSON body `query` posts. */
  datatype PostData = PostData(
    mode: string,
    prompt: string,
    topP: real,
    topK: int,
    temperature: real,
    repetitionPenalty: real,
    maxNewTokens: int)

  /** The body for `message`: the message with the length instruction
      appended, and fixed sampling settings. */
  function PostDataFor(message: string): (d: PostData)
    ensures d.mode == "test" && d.topP == 0.9 && d.topK == 10
    ensures d.temperature == 0.2 && d.repetitionPenalty == 1.0 && d.maxNewTokens == 500
    ensures |d.prompt| == |message| + |LengthString|
  {
    PostData("test", message + LengthString, 0.9, 10, 0.2, 1.0, 500)
  }

  /** The message a body was built from, when its prompt carries the
      length instruction. */
  function MessageOf(d: PostData): Option<string>
  {
    var n := |d.prompt| - |LengthString|;
    if n >= 0 && d.prompt[n..] == LengthString then Some(d.prompt[..n]) else None
  }

  /** The message is recoverable from the request: the endpoint is asked
      about exactly what was transcribed, unstripped. */
  lemma MessageOfPostData(message: string)
    ensures MessageOf(PostDataFor(message)) == Some(message)
  {
    var p := PostDataFor(message).prompt;
    assert p[|message|..] == LengthString;
    assert p[..|message|] == message;
  }

  /** Two different messages never produce the same request. */
  lemma PostDataInjective(m1: string, m2: string)
    requires PostDataFor(m1) == PostDataFor(m2)
    ensures m1 == m2
  {
    MessageOfPostData(m1);
    MessageOfPostData(m2);
  }

  /** What `requests.post` gave back: it raised, or it answered with a status,
      a body text and, when the body is JSON with a `generated_text` key, that
      value. */
  datatype HttpReply =
    | Raised
    | Answered(status: int, text: string, generatedText: Option<string>)

  /** The completion endpoint behind `api_url`. */
  type Server = PostData -> HttpReply

  datatype QueryOutcome = Threw | Returned(value: string)

  /** `query`: post the body for `message`; status 200 gives the generated
      text (reading it raises when the body has none), any other status
      gives "Error: " followed by the body. */
  function Query(message: string, server: Server): (r: QueryOutcome)
    ensures var reply := server(PostDataFor(message));
      && (r.Threw? <==> reply.Raised? || (reply.status == 200 && reply.generatedText.None?))
      && (reply.Answered? && reply.status != 200 ==> r == Returned("Error: " + reply.text))
      && ((reply.Answered? && reply.status == 200 && reply.generatedText.Some?)
          ==> r == Returned(reply.generatedText.value))
  {
    match server(PostDataFor(message))
    case Raised => Threw
    case Answered(status, text, generated) =>
      if status == 200 then
        (match generated
         case Some(g) => Returned(g)
         case None => Threw)
      else Returned("Error: " + text)
  }

  /** `process_transcription`: `query`, with any exception turned into `None`. */
  function ProcessTranscription(text: string, server: Server): (r: Option<string>)
    ensures r.None? <==> Query(text, server).Threw?
    ensures r.Some? ==> Query(text, server) == Returned(r.value)
  {
    match Query(text, server)
    case Threw => None
    case Returned(v) => Some(v)
  }

  // ---------------------------------------------------------------------
  // run: turn detection
  // ---------------------------------------------------------------------

  /** A transcription record `{uid, prompt, eos}`. */
  datatype Transcription = Transcription(uid: string, prompt: string, eos: bool)

  /** A `{uid, llm_output, eos, latency}` record on the monitoring queue. */
  datatype LlmRecord = LlmRecord(uid: string, llmOutput: PyValue, eos: bool, latency: real)

  /** What `run` carries from one record to the next: the fields
      `last_prompt`, `eos` and `infer_time`, and the per-uid dictionary that
      lives as long as the loop. */
  datatype RunState = RunState(
    lastPrompt: string,
    eos: bool,
    inferTime: real,
    histories: map<string, seq<Entry>>)

  /** The state right after `__init__` (`eos` is not set there; the model
      starts it at false, and it is only read after being set). */
  const Initial := RunState("", false, 0.0, map[])

  /** The new state and what was put on the audio and monitoring queues. */
  datatype StepResult = StepResult(next: RunState, audio: seq<AudioRecord>, llm: seq<LlmRecord>)

  /** The turn is final: the stripped prompt repeats the previous one and the
      transcriber marked the end of speech. */
  predicate Fires(lastPrompt: string, t: Transcription)
  {
    lastPrompt == Strip(t.prompt) && t.eos
  }

  /** Every per-uid list is still empty. */
  predicate AllEmpty(histories: map<string, seq<Entry>>)
  {
    forall u :: u in histories ==> histories[u] == []
  }

  /** One iteration of `run` on record `t`; `more` says whether the
      transcription queue still held records after `t` was taken. */
  function RunStep(st: RunState, t: Transcription, more: bool, server: Server, latency: real): (r: StepResult)
    ensures more ==> r == StepResult(st, [], [])
    ensures |r.audio| <= 1 && |r.llm| == |r.audio|
    ensures |r.audio| == 1 <==> !more && Fires(st.lastPrompt, t)
    ensures |r.audio| == 1 ==>
      var out := PyList([ToPy(ProcessTranscription(t.prompt, server))]);
      && r.next.lastPrompt == "" && r.next.eos && r.next.inferTime == latency
      && r.audio[0] == AudioRecord(out, true)
      && r.llm[0] == LlmRecord(t.uid, out, true, latency)
    ensures !more && !Fires(st.lastPrompt, t) ==>
      r.next == st.(lastPrompt := Strip(t.prompt), histories := r.next.histories)
    ensures !more ==> t.uid in r.next.histories && r.next.histories.Keys == st.histories.Keys + {t.uid}
    ensures AllEmpty(st.histories) ==> AllEmpty(r.next.histories)
  {
    if more then StepResult(st, [], [])
    else
      var h := if t.uid in st.histories then st.histories else st.histories[t.uid := []];
      if Fires(st.lastPrompt, t) then
        var out := PyList([ToPy(ProcessTranscription(t.prompt, server))]);
        StepResult(RunState("", t.eos, latency, h),
                   [AudioRecord(out, t.eos)],
                   [LlmRecord(t.uid, out, t.eos, latency)])
      else
        StepResult(st.(lastPrompt := Strip(t.prompt), histories := h), [], [])
  }

  /** Records that each reach the decision (each taken from a queue that was
      empty afterwards), fed in order. */
  function Feed(st: RunState, ts: seq<Transcription>, server: Server, latency: real): StepResult
    decreases |ts|
  {
    if ts == [] then StepResult(st, [], [])
    else
      var a := RunStep(st, ts[0], false, server, latency);
      var b := Feed(a.next, ts[1..], server, latency);
      StepResult(b.next, a.audio + b.audio, a.llm + b.llm)
  }

  /** A transcript that never carries the end-of-speech flag never fires,
      however often it repeats; the last stripped prompt is remembered. */
  lemma {:induction false} NonFinalNeverFires(st: RunState, ts: seq<Transcription>, server: Server, latency: real)
    requires forall i :: 0 <= i < |ts| ==> !ts[i].eos
    ensures Feed(st, ts, server, latency).audio == []
    ensures Feed(st, ts, server, latency).llm == []
    ensures ts != [] ==> Feed(st, ts, server, latency).next.lastPrompt == Strip(ts[|ts| - 1].prompt)
    decreases |ts|
  {
    if ts != [] {
      var a := RunStep(st, ts[0], false, server, latency);
      NonFinalStep(st, ts[0], server, latency);
      var rest := ts[1..];
      assert forall i :: 0 <= i < |rest| ==> !rest[i].eos;
      NonFinalNeverFires(a.next, rest, server, latency);
      var b := Feed(a.next, rest, server, latency);
      assert Feed(st, ts, server, latency) == StepResult(b.next, a.audio + b.audio, a.llm + b.llm);
      if rest == [] {
        assert b.next == a.next;
      } else {
        assert rest[|rest| - 1] == ts[|ts| - 1];
      }
    }
  }

  /** One record without the end-of-speech flag: nothing is sent and the
      stripped prompt is remembered. */
  lemma NonFinalStep(st: RunState, t: Transcription, server: Server, latency: real)
    requires !t.eos
    ensures RunStep(st, t, false, server, latency).audio == []
    ensures RunStep(st, t, false, server, latency).llm == []
    ensures RunStep(st, t, false, server, latency).next.lastPrompt == Strip(t.prompt)
  {
  }

  /** `p` without and then with the end-of-speech flag fires exactly once,
      from any state, and leaves `last_prompt` reset. */
  lemma RepeatThenFinalFiresOnce(st: RunState, uid: string, p: string, server: Server, latency: real)
    ensures var r := Feed(st, [Transcription(uid, p, false), Transcription(uid, p, true)], server, latency);
      var out := PyList([ToPy(ProcessTranscription(p, server))]);
      && |r.audio| == 1 && |r.llm| == 1 && r.next.lastPrompt == ""
      && r.audio[0] == AudioRecord(out, true)
      && r.llm[0] == LlmRecord(uid, out, true, latency)
  {
    var ts := [Transcription(uid, p, false), Transcription(uid, p, true)];
    var a := RunStep(st, ts[0], false, server, latency);
    assert a.audio == [] && a.next.lastPrompt == Strip(p);
    var b := RunStep(a.next, ts[1], false, server, latency);
    assert |b.audio| == 1 && b.next.lastPrompt == "";
    assert ts[1..] == [ts[1]] && ts[1..][1..] == [];
    assert Feed(a.next, ts[1..], server, latency) == StepResult(b.next, b.audio + [], b.llm + []);
  }

  /** Once a generation has fired, the same non-blank final transcript does
      not fire again: it only becomes the new `last_prompt`. */
  lemma FinalRepeatDoesNotRefire(st: RunState, t: Transcription, server: Server, latency: real)
    requires Fires(st.lastPrompt, t) && Strip(t.prompt) != ""
    ensures var a := RunStep(st, t, false, server, latency);
      RunStep(a.next, t, false, server, latency).audio == []
  {
  }

  /** The same final transcript twice in a row fires exactly once, from any
      state, when its stripped text is not empty. */
  lemma FinalTwiceFiresOnce(st: RunState, uid: string, p: string, server: Server, latency: real)
    requires Strip(p) != ""
    ensures |Feed(st, [Transcription(uid, p, true), Transcription(uid, p, true)], server, latency).audio| == 1
  {
    var ts := [Transcription(uid, p, true), Transcription(uid, p, true)];
    var a := RunStep(st, ts[0], false, server, latency);
    var b := RunStep(a.next, ts[1], false, server, latency);
    assert |a.audio| + |b.audio| == 1;
    assert ts[1..] == [ts[1]] && ts[1..][1..] == [];
    assert Feed(a.next, ts[1..], server, latency) == StepResult(b.next, b.audio + [], b.llm + []);
  }

  /** A final transcript that strips to "" fires at start-up and right after
      any generation, because `last_prompt` starts as and is reset to "". */
  lemma BlankFinalFiresAfterReset(st: RunState, t: Transcription, u: Transcription, server: Server, latency: real)
    requires Fires(st.lastPrompt, t)
    requires Strip(u.prompt) == "" && u.eos
    ensures |RunStep(Initial, u, false, server, latency).audio| == 1
    ensures var a := RunStep(st, t, false, server, latency);
      |RunStep(a.next, u, false, server, latency).audio| == 1
  {
  }

  /** The loop of `run`, over the fields it updates. */
  class CustomLLMAPI {
    const apiUrl: string
    const apiKey: string
    const headers: map<string, string>
    /** The endpoint `requests.post` reaches at `apiUrl`. */
    const server: Server
    var lastPrompt: string
    var eos: bool
    var inferTime: real
    /** `run`'s local `conversation_history`, which lives as long as the loop. */
    var conversationHistory: map<string, seq<Entry>>

    function State(): RunState
      reads this
    {
      RunState(lastPrompt, eos, inferTime, conversationHistory)
    }

    constructor (apiUrl: string, apiKey: string, server: Server)
      ensures this.apiUrl == apiUrl && this.apiKey == apiKey && this.server == server
      ensures headers == map["Authorization" := "Bearer " + apiKey, "Content-Type" := "application/json"]
      ensures State() == Initial
    {
      this.apiUrl := apiUrl;
      this.apiKey := apiKey;
      this.server := server;
      headers := map["Authorization" := "Bearer " + apiKey, "Content-Type" := "application/json"];
      lastPrompt := "";
      eos := false;
      inferTime := 0.0;
      conversationHistory := map[];
    }

    /** One iteration of the `while True` loop; `latency` is the measured
        inference time. */
    method Step(tq: Queue<Transcription>, aq: Queue<AudioRecord>, lq: Queue<LlmRecord>, latency: real)
      requires tq.items != []
      modifies this, tq, aq, lq
      ensures tq.items == old(tq.items)[1..]
      ensures var r := RunStep(old(State()), old(tq.items)[0], |old(tq.items)| > 1, server, latency);
        && State() == r.next
        && aq.items == old(aq.items) + r.audio
        && lq.items == old(lq.items) + r.llm
    {
      var t := tq.Get();
      if |tq.items| != 0 {
        return;
      }
      if t.uid !in conversationHistory {
        conversationHistory := conversationHistory[t.uid := []];
      }
      var prompt := Strip(t.prompt);
      if lastPrompt == prompt && t.eos {
        eos := t.eos;
        var response := ProcessTranscription(t.prompt, server);
        inferTime := latency;
        var test := PyList([ToPy(response)]);
        aq.Put(AudioRecord(test, eos));
        lq.Put(LlmRecord(t.uid, test, eos, inferTime));
        lastPrompt := "";
        return;
      }
      lastPrompt := prompt;
    }

    /** The loop run until the transcription queue is empty: every record but
        the newest is skipped, so the outcome is that of the newest alone. */
    method Run(tq: Queue<Transcription>, aq: Queue<AudioRecord>, lq: Queue<LlmRecord>, latency: real)
      requires tq.items != []
      modifies this, tq, aq, lq
      ensures tq.items == []
      ensures var r := RunStep(old(State()), old(tq.items)[|old(tq.items)| - 1], false, server, latency);
        && State() == r.next
        && aq.items == old(aq.items) + r.audio
        && lq.items == old(lq.items) + r.llm
    {
      ghost var newest := tq.items[|tq.items| - 1];
      while tq.items != []
        invariant tq.items != [] ==>
          && tq.items[|tq.items| - 1] == newest
          && State() == old(State()) && aq.items == old(aq.items) && lq.items == old(lq.items)
        invariant tq.items == [] ==>
          var r := RunStep(old(State()), newest, false, server, latency);
          State() == r.next && aq.items == old(aq.items) + r.audio && lq.items == old(lq.items) + r.llm
        decreases |tq.items|
      {
        Step(tq, aq, lq, latency);
      }
    }
  }
}
