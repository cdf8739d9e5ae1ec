/** Values that cross process boundaries between the language-model stage
    and the speech stage. */
module Records {

  datatype Option<T> = None | Some(value: T)

  /** The Python values that can sit in a record's `llm_output` field: a
      string, `None`, or a list of such values. */
  datatype PyValue = PyStr(s: string) | PyNone | PyList(items: seq<PyValue>)

  /** A Python `str | None`. */
  function ToPy(o: Option<string>): PyValue
  {
    match o
    case Some(s) => PyStr(s)
    case None => PyNone
  }

  /** A `{"llm_output": ..., "eos": ...}` record on the audio queue. */
  datatype AudioRecord = AudioRecord(llmOutput: PyValue, eos: bool)
}
