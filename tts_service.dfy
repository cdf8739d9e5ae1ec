/** The speech stage (tts_service.py): per websocket connection, a loop that
    drains the audio queue to its newest record, puts the record back and
    ends when the connection is gone, synthesises speech only for text that
    differs from the last text synthesised, and sends the latest audio when
    the record marks the end of the response. */
module TtsService {
  import opened Text
  import opened Queues
  import opened Records
  import ApiModel

  /** The bytes of a synthesised waveform (`output_audio.tobytes()`). */
  type Audio = seq<bv8>

  /** The fields the loop updates: `last_llm_response` (set once by
      `initialize_model`, kept across connections), `eos` and `output_audio`
      (reset for every connection). */
  datatype TtsState = TtsState(lastLlmResponse: Option<string>, eos: bool, outputAudio: Option<Audio>)

  /** The network's answers during one iteration: did `websocket.ping()`
      succeed, and did `websocket.send(...)` succeed. */
  datatype Link = Link(pingOk: bool, sendOk: bool)

  /** What happened to the record taken from the queue. */
  datatype Disposition =
    | Skipped     // more records were queued behind it
    | Requeued    // the connection was gone: put back, handler ended
    | Processed

  datatype TtsOutcome = TtsOutcome(
    next: TtsState,
    disposition: Disposition,
    synthesized: bool,
    sent: seq<Audio>)

  /** The start of `start_whisperspeech_tts`. */
  function Connect(st: TtsState): (r: TtsState)
    ensures r.lastLlmResponse == st.lastLlmResponse && !r.eos && r.outputAudio == None
  {
    st.(eos := false, outputAudio := None)
  }

  /** One iteration of the loop on record `rec`; `more` says whether the queue
      still held records after `rec` was taken; `synthesize` is the speech
      model applied to the unstripped text. */
  function TtsStep(st: TtsState, rec: AudioRecord, more: bool, link: Link, synthesize: string -> Audio): (r: TtsOutcome)
    ensures more ==> r == TtsOutcome(st, Skipped, false, [])
    ensures !more && !link.pingOk ==> r == TtsOutcome(st, Requeued, false, [])
    ensures r.disposition == Processed <==> !more && link.pingOk
    ensures r.disposition == Processed ==> r.next.eos == rec.eos
    ensures r.synthesized <==>
      r.disposition == Processed && rec.llmOutput.PyStr? && st.lastLlmResponse != Some(Strip(rec.llmOutput.s))
    ensures r.synthesized ==>
      r.next.lastLlmResponse == Some(Strip(rec.llmOutput.s)) && r.next.outputAudio == Some(synthesize(rec.llmOutput.s))
    ensures !r.synthesized ==>
      r.next.lastLlmResponse == st.lastLlmResponse && r.next.outputAudio == st.outputAudio
    ensures |r.sent| <= 1
    ensures |r.sent| == 1 <==> r.disposition == Processed && rec.eos && r.next.outputAudio.Some? && link.sendOk
    ensures |r.sent| == 1 ==> r.sent[0] == r.next.outputAudio.value
  {
    if more then TtsOutcome(st, Skipped, false, [])
    else if !link.pingOk then TtsOutcome(st, Requeued, false, [])
    else
      var st1 := st.(eos := rec.eos);
      var synth := rec.llmOutput.PyStr? && st.lastLlmResponse != Some(Strip(rec.llmOutput.s));
      // Anything but a string has no `strip`: AttributeError, logged.
      var st2 := if synth
        then st1.(outputAudio := Some(synthesize(rec.llmOutput.s)), lastLlmResponse := Some(Strip(rec.llmOutput.s)))
        else st1;
      var send := st2.eos && st2.outputAudio.Some?;
      // A failed send is logged and the loop goes on.
      TtsOutcome(st2, Processed, synth, if send && link.sendOk then [st2.outputAudio.value] else [])
  }

  /** A text equal, once stripped, to the last one synthesised is not
      synthesised again, and an end-of-response record then sends the audio
      already held. */
  lemma RepeatReusesAudio(st: TtsState, s: string, t: string, link1: Link, link2: Link, synthesize: string -> Audio)
    requires link1.pingOk && link2.pingOk && link2.sendOk
    requires st.lastLlmResponse != Some(Strip(s))
    requires Strip(s) == Strip(t)
    ensures var a := TtsStep(st, AudioRecord(PyStr(s), false), false, link1, synthesize);
      var b := TtsStep(a.next, AudioRecord(PyStr(t), true), false, link2, synthesize);
      a.synthesized && !b.synthesized && b.sent == [synthesize(s)]
  {
  }

  /** The audio sent can belong to an earlier record: a text without the
      end flag, then an end record whose output is `None`, sends the audio
      of the first text. */
  lemma EarlierAudioIsSent(st: TtsState, s: string, link1: Link, link2: Link, synthesize: string -> Audio)
    requires link1.pingOk && link2.pingOk && link2.sendOk
    requires st.lastLlmResponse != Some(Strip(s))
    ensures var a := TtsStep(st, AudioRecord(PyStr(s), false), false, link1, synthesize);
      var b := TtsStep(a.next, AudioRecord(PyNone, true), false, link2, synthesize);
      a.sent == [] && b.sent == [synthesize(s)]
  {
  }

  /** After a reconnect, the last text synthesised on the previous
      connection is neither synthesised again nor sent: `output_audio` was
      reset while `last_llm_response` was kept. */
  lemma ReconnectRepeatIsSilent(st: TtsState, s: string, link: Link, synthesize: string -> Audio)
    requires st.lastLlmResponse == Some(Strip(s))
    ensures var r := TtsStep(Connect(st), AudioRecord(PyStr(s), true), false, link, synthesize);
      !r.synthesized && r.sent == []
  {
  }

  /** The records api_model.py puts on the audio queue carry a one-element
      list as `llm_output`. Such a record never reaches synthesis (the list
      has no `strip`), so it changes neither the last text nor the audio. */
  lemma ModelRecordIsNeverSynthesized(rs: ApiModel.RunState, t: ApiModel.Transcription, more: bool,
                                      server: ApiModel.Server, latency: real,
                                      st: TtsState, link: Link, synthesize: string -> Audio)
    requires |ApiModel.RunStep(rs, t, more, server, latency).audio| == 1
    ensures var rec := ApiModel.RunStep(rs, t, more, server, latency).audio[0];
      var r := TtsStep(st, rec, false, link, synthesize);
      !r.synthesized && r.next.outputAudio == st.outputAudio && r.next.lastLlmResponse == st.lastLlmResponse
  {
  }

  /** What a connection's loop leaves behind: the state, the audio that
      reached the client, and what is left on the queue when it ends. */
  datatype ServeResult = ServeResult(next: TtsState, sent: seq<Audio>, left: seq<AudioRecord>)

  /** The loop over the records queued for a connection, `links[i]` being the
      network's answers in iteration `i`. */
  function Serve(st: TtsState, pending: seq<AudioRecord>, links: seq<Link>, synthesize: string -> Audio): ServeResult
    requires |links| >= |pending|
    decreases |pending|
  {
    if pending == [] then ServeResult(st, [], [])
    else
      var o := TtsStep(st, pending[0], |pending| > 1, links[0], synthesize);
      if o.disposition == Requeued then ServeResult(o.next, [], [pending[0]])
      else
        var r := Serve(o.next, pending[1..], links[1..], synthesize);
        ServeResult(r.next, o.sent + r.sent, r.left)
  }

  /** One more pass of the connection loop, seen against the whole `Serve`:
      `sent` is what earlier passes delivered. */
  lemma ServeAdvance(total: ServeResult, sent: seq<Audio>, st: TtsState, pending: seq<AudioRecord>,
                     links: seq<Link>, synthesize: string -> Audio)
    requires pending != [] && |links| >= |pending|
    requires var r := Serve(st, pending, links, synthesize);
      total == ServeResult(r.next, sent + r.sent, r.left)
    ensures var o := TtsStep(st, pending[0], |pending| > 1, links[0], synthesize);
      && (o.disposition == Requeued ==> total == ServeResult(o.next, sent + o.sent, pending))
      && (o.disposition != Requeued ==>
            var r := Serve(o.next, pending[1..], links[1..], synthesize);
            total == ServeResult(r.next, (sent + o.sent) + r.sent, r.left))
  {
    var o := TtsStep(st, pending[0], |pending| > 1, links[0], synthesize);
    if o.disposition != Requeued {
      var r := Serve(o.next, pending[1..], links[1..], synthesize);
      assert sent + (o.sent + r.sent) == (sent + o.sent) + r.sent;
    }
  }

  /** A queue already holding only api_model.py records sends no audio:
      only the last is processed, and it is never synthesised. */
  lemma {:induction false} QueuedModelRecordsNeverSound(st: TtsState, pending: seq<AudioRecord>, links: seq<Link>,
                                                 synthesize: string -> Audio)
    requires |links| >= |pending|
    requires st.outputAudio == None
    requires forall i :: 0 <= i < |pending| ==> pending[i].llmOutput.PyList?
    ensures Serve(st, pending, links, synthesize).sent == []
    decreases |pending|
  {
    if pending != [] {
      var o := TtsStep(st, pending[0], |pending| > 1, links[0], synthesize);
      assert o.next.outputAudio == None && o.sent == [];
      if o.disposition != Requeued {
        QueuedModelRecordsNeverSound(o.next, pending[1..], links[1..], synthesize);
      }
    }
  }

  /** The connection's loop when its records arrive one at a time, each
      taken from a queue that is empty afterwards (so none is skipped);
      `links[i]` is the network's answers for record `i`. A record found
      with the connection gone is put back and ends the handler. */
  function Arrivals(st: TtsState, recs: seq<AudioRecord>, links: seq<Link>, synthesize: string -> Audio): ServeResult
    requires |links| >= |recs|
    decreases |recs|
  {
    if recs == [] then ServeResult(st, [], [])
    else
      var o := TtsStep(st, recs[0], false, links[0], synthesize);
      if o.disposition == Requeued then ServeResult(o.next, [], [recs[0]])
      else
        var r := Arrivals(o.next, recs[1..], links[1..], synthesize);
        ServeResult(r.next, o.sent + r.sent, r.left)
  }

  /** A connection fed only api_model.py records, one at a time over its
      life, never sends any audio and never synthesises: the audio stays
      unset and the last text synthesised stays as it was. */
  lemma {:induction false} ModelRecordsNeverSound(st: TtsState, recs: seq<AudioRecord>, links: seq<Link>,
                                                 synthesize: string -> Audio)
    requires |links| >= |recs|
    requires st.outputAudio == None
    requires forall i :: 0 <= i < |recs| ==> recs[i].llmOutput.PyList?
    ensures var r := Arrivals(st, recs, links, synthesize);
      && r.sent == [] && r.next.outputAudio == None && r.next.lastLlmResponse == st.lastLlmResponse
    decreases |recs|
  {
    if recs != [] {
      var o := TtsStep(st, recs[0], false, links[0], synthesize);
      assert o.next.outputAudio == None && o.sent == [] && o.next.lastLlmResponse == st.lastLlmResponse;
      if o.disposition != Requeued {
        ModelRecordsNeverSound(o.next, recs[1..], links[1..], synthesize);
      }
    }
  }

  /** The client end of the websocket. */
  class WebSocket {
    /** The binary messages delivered to the client. */
    var received: seq<Audio>

    constructor ()
      ensures received == []
    {
      received := [];
    }

    method Send(audio: Audio)
      modifies this
      ensures received == old(received) + [audio]
    {
      received := received + [audio];
    }
  }

  class WhisperSpeechTTS {
    /** Bark: processor and `generate` on a text. */
    const synthesize: string -> Audio
    var lastLlmResponse: Option<string>
    var eos: bool
    var outputAudio: Option<Audio>

    function State(): TtsState
      reads this
    {
      TtsState(lastLlmResponse, eos, outputAudio)
    }

    /** `initialize_model` (model loading itself is not modelled). */
    constructor (synthesize: string -> Audio)
      ensures this.synthesize == synthesize
      ensures State() == TtsState(None, false, None)
    {
      this.synthesize := synthesize;
      lastLlmResponse := None;
      eos := false;
      outputAudio := None;
    }

    /** One pass of the loop of `start_whisperspeech_tts`. */
    method Step(ws: WebSocket, audioQueue: Queue<AudioRecord>, link: Link) returns (disposition: Disposition)
      requires audioQueue.items != []
      modifies this, ws, audioQueue
      ensures var o := TtsStep(old(State()), old(audioQueue.items)[0], |old(audioQueue.items)| > 1, link, synthesize);
        && State() == o.next
        && ws.received == old(ws.received) + o.sent
        && disposition == o.disposition
        && audioQueue.items == if o.disposition == Requeued then [old(audioQueue.items)[0]] else old(audioQueue.items)[1..]
    {
      var llmResponse := audioQueue.Get();
      if |audioQueue.items| != 0 {
        return Skipped;
      }
      if !link.pingOk {
        audioQueue.Put(llmResponse);
        return Requeued;
      }
      var llmOutput := llmResponse.llmOutput;
      eos := llmResponse.eos;
      // `strip` exists only on a string; otherwise AttributeError is logged.
      if llmOutput.PyStr? && lastLlmResponse != Some(Strip(llmOutput.s)) {
        outputAudio := Some(synthesize(llmOutput.s));
        lastLlmResponse := Some(Strip(llmOutput.s));
      }
      if eos && outputAudio.Some? && link.sendOk {
        ws.Send(outputAudio.value);
      }
      disposition := Processed;
    }

    /** `start_whisperspeech_tts` for one connection, run until the queue is
        empty or the connection is found gone (the record is then back on
        the queue). */
    method StartWhisperspeechTts(ws: WebSocket, audioQueue: Queue<AudioRecord>, links: seq<Link>)
      requires |links| >= |audioQueue.items|
      modifies this, ws, audioQueue
      ensures var r := Serve(Connect(old(State())), old(audioQueue.items), links, synthesize);
        && State() == r.next
        && ws.received == old(ws.received) + r.sent
        && audioQueue.items == r.left
    {
      eos := false;
      outputAudio := None;
      ghost var total := Serve(State(), audioQueue.items, links, synthesize);
      ghost var start, sent := ws.received, [];
      ghost var cur, q := State(), audioQueue.items;
      var i := 0;
      while audioQueue.items != []
        invariant cur == State() && q == audioQueue.items
        invariant 0 <= i <= |links| && |links| - i >= |q|
        invariant ws.received == start + sent
        invariant var r := Serve(cur, q, links[i..], synthesize);
          total == ServeResult(r.next, sent + r.sent, r.left)
        decreases |audioQueue.items|
      {
        ghost var q0 := q;
        ghost var o := TtsStep(cur, q[0], |q| > 1, links[i], synthesize);
        ServeAdvance(total, sent, cur, q, links[i..], synthesize);
        assert links[i..][0] == links[i] && links[i..][1..] == links[i + 1..];
        var disposition := Step(ws, audioQueue, links[i]);
        sent := sent + o.sent;
        cur, q := State(), audioQueue.items;
        i := i + 1;
        if disposition == Requeued {
          assert |q0| == 1 && q == q0;
          assert total == ServeResult(cur, sent, q);
          break;
        }
      }
      assert total == ServeResult(cur, sent, q) by {
        if q == [] {
          assert sent + [] == sent;
        }
      }
    }
  }
}
