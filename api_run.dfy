/** The streaming generation service (api_run.py): the prompt template, the
    streamer callbacks that push decoded text onto a shared FIFO with a
    `None` end marker, and the response generator that drains that FIFO
    until the marker or until the stop endpoint raises the stop flag. */
module ApiRun {
  import opened Queues
  import opened Records

  // ---------------------------------------------------------------------
  // format_input
  // ---------------------------------------------------------------------

  const TemplateHead := "[gMASK]<sop>\n    <|user|>\n    "
  const TemplateTail := "\n    "

  /** `format_input`: the chat template with `query` as its content. */
  function FormatInput(query: string): (r: string)
    ensures |r| == |TemplateHead| + |query| + |TemplateTail|
    ensures r[..|TemplateHead|] == TemplateHead
    ensures r[|TemplateHead| + |query|..] == TemplateTail
  {
    TemplateHead + query + TemplateTail
  }

  /** The content of a formatted prompt, when it has the template's shape. */
  function QueryOf(formatted: string): Option<string>
  {
    var h, t := |TemplateHead|, |TemplateTail|;
    if |formatted| >= h + t && formatted[..h] == TemplateHead && formatted[|formatted| - t..] == TemplateTail
    then Some(formatted[h..|formatted| - t])
    else None
  }

  /** The query is recovered from the formatted prompt, whatever it holds
      (braces in it are not re-read as template fields). */
  lemma QueryOfFormatInput(query: string)
    ensures QueryOf(FormatInput(query)) == Some(query)
  {
    var r := FormatInput(query);
    assert r[|TemplateHead|..|r| - |TemplateTail|] == query;
  }

  /** Different queries give different prompts. */
  lemma FormatInputInjective(q1: string, q2: string)
    requires FormatInput(q1) == FormatInput(q2)
    ensures q1 == q2
  {
    QueryOfFormatInput(q1);
    QueryOfFormatInput(q2);
  }

  // ---------------------------------------------------------------------
  // The stream on the queue
  // ---------------------------------------------------------------------

  /** Index of the first `None` on the queue, or its length when there is none. */
  function FirstNone(items: seq<Option<string>>): (n: nat)
    ensures n <= |items|
    ensures forall i :: 0 <= i < n ==> items[i].Some?
    ensures n < |items| ==> items[n].None?
  {
    if items == [] || items[0].None? then 0 else 1 + FirstNone(items[1..])
  }

  /** The texts of a run of `Some` items. */
  function Unwrap(items: seq<Option<string>>): (r: seq<string>)
    requires forall i :: 0 <= i < |items| ==> items[i].Some?
    ensures |r| == |items|
    ensures forall i :: 0 <= i < |items| ==> items[i] == Some(r[i])
  {
    seq(|items|, i requires 0 <= i < |items| && items[i].Some? => items[i].value)
  }

  /** Texts as queue items. */
  function Wrap(texts: seq<string>): (r: seq<Option<string>>)
    ensures |r| == |texts|
    ensures forall i :: 0 <= i < |texts| ==> r[i] == Some(texts[i])
  {
    seq(|texts|, i requires 0 <= i < |texts| => Some(texts[i]))
  }

  /** The stream a generation leaves on the queue: its texts, then the end
      marker. The generator reads back exactly those texts and stops at the
      marker, leaving whatever came after it untouched. */
  lemma {:induction false} StreamReadBack(texts: seq<string>, rest: seq<Option<string>>)
    ensures var items := Wrap(texts) + [None] + rest;
      && FirstNone(items) == |texts|
      && Unwrap(items[..|texts|]) == texts
      && items[|texts| + 1..] == rest
  {
    var items := Wrap(texts) + [None] + rest;
    if texts != [] {
      StreamReadBack(texts[1..], rest);
      assert items[1..] == Wrap(texts[1..]) + [None] + rest;
    }
  }

  /** Stopping a response early leaves the unread part of its stream on the
      shared queue, so the next request yields those stale texts instead of
      its own: with two finished generations `a` and `b` queued and a stop
      after `k < |a|` texts, the next reader gets `a[k..]`. */
  lemma StaleTextsReachNextResponse(a: seq<string>, b: seq<string>, k: nat)
    requires k < |a|
    ensures var items := Wrap(a) + [None] + Wrap(b) + [None];
      var left := items[k..];
      Unwrap(left[..FirstNone(left)]) == a[k..]
  {
    var items := Wrap(a) + [None] + Wrap(b) + [None];
    assert items[k..] == Wrap(a[k..]) + [None] + (Wrap(b) + [None]);
    StreamReadBack(a[k..], Wrap(b) + [None]);
  }

  // ---------------------------------------------------------------------
  // CustomStreamer
  // ---------------------------------------------------------------------

  class CustomStreamer {
    /** The shared `streamer_queue`. */
    const queue: Queue<Option<string>>
    /** `tokenizer.decode(ids, clean_up_tokenization_spaces=True)`. */
    const decode: seq<int> -> string
    /** `stop_text`, the end marker pushed after the final text. */
    const stopText: Option<string> := None
    /** `stop_signal`, an `asyncio.Event`: set or not. */
    var stopSignal: bool

    constructor (queue: Queue<Option<string>>, decode: seq<int> -> string)
      ensures this.queue == queue && this.decode == decode
      ensures !stopSignal
    {
      this.queue := queue;
      this.decode := decode;
      stopSignal := false;
    }

    /** `on_finalized_text`: the text, then the end marker when the stream
        has ended. */
    method OnFinalizedText(text: string, streamEnd: bool)
      modifies queue
      ensures queue.items == old(queue.items) + [Some(text)] + (if streamEnd then [None] else [])
    {
      queue.Put(Some(text));
      if streamEnd {
        queue.Put(stopText);
      }
    }

    /** `on_new_token`: exactly one item, the decoded token. */
    method OnNewToken(tokenId: int)
      modifies queue
      ensures queue.items == old(queue.items) + [Some(decode([tokenId]))]
    {
      var token := decode([tokenId]);
      queue.Put(Some(token));
    }
  }

  /** The POST route `stop_stream`: its only effect is to set the flag. */
  method StopStream(streamer: CustomStreamer, message: string)
    modifies streamer
    ensures streamer.stopSignal
  {
    streamer.stopSignal := true;
  }

  /** The stop request arrives (after `stopAfter` texts were yielded) before
      the generator reaches the end marker. */
  predicate StopsFirst(items: seq<Option<string>>, stopAfter: Option<nat>)
  {
    stopAfter.Some? && stopAfter.value <= FirstNone(items)
  }

  /** `response_generator`, with the generation thread's output already on
      the queue. `stopAfter` places the stop request: it is handled once the
      generator has yielded that many texts. The generator would wait
      forever on a queue with neither an end marker nor a stop, so one of the
      two is required. */
  method ResponseGenerator(streamer: CustomStreamer, stopAfter: Option<nat>) returns (yielded: seq<string>)
    requires FirstNone(streamer.queue.items) < |streamer.queue.items| || StopsFirst(streamer.queue.items, stopAfter)
    modifies streamer, streamer.queue
    ensures !streamer.stopSignal
    ensures var items, n := old(streamer.queue.items), FirstNone(old(streamer.queue.items));
      if StopsFirst(items, stopAfter) then
        yielded == Unwrap(items[..stopAfter.value]) && streamer.queue.items == items[stopAfter.value..]
      else
        yielded == Unwrap(items[..n]) && streamer.queue.items == items[n + 1..]
  {
    ghost var items := streamer.queue.items;
    ghost var n := FirstNone(items);
    yielded := [];
    streamer.stopSignal := false;
    if stopAfter == Some(0) {
      StopStream(streamer, "");
    }
    while !streamer.stopSignal
      invariant |yielded| <= n
      invariant stopAfter.Some? ==> |yielded| <= stopAfter.value
      invariant streamer.stopSignal <==> stopAfter == Some(|yielded|)
      invariant yielded == Unwrap(items[..|yielded|])
      invariant streamer.queue.items == items[|yielded|..]
      decreases |streamer.queue.items|
    {
      var value := streamer.queue.Get();
      if value.None? {
        assert items[|yielded|].None? && |yielded| == n;
        assert !StopsFirst(items, stopAfter);
        assert streamer.queue.items == items[n + 1..];
        break;
      }
      yielded := yielded + [value.value];
      if stopAfter == Some(|yielded|) {
        StopStream(streamer, "");
      }
    }
    streamer.stopSignal := false;
  }
}
