/** The voice-activity detector's chunk bookkeeping (whisper_live/vad.py):
    input validation, the state carried between calls (the network's
    recurrent state, a context window of past samples, the last rate and
    batch size) and the pad-and-chunk loop of `audio_forward`. The ONNX
    network is a function parameter; samples are reals and only their
    positions matter. */
module Vad {

  // ---------------------------------------------------------------------
  // Tensors and validation
  // ---------------------------------------------------------------------

  /** Why a call raises. */
  datatype VadError =
    | TooManyDimensions(dims: nat)  // ValueError, more than two dimensions
    | BadIndex                      // IndexError, a 0-d tensor indexed as 2-D
    | BadSliceStep                  // ValueError, slice step zero or negative
    | UnsupportedRate               // ValueError, rate not 8000 or 16000
    | ZeroDivision                  // ZeroDivisionError
    | TooShort                      // ValueError, chunk too short
    | EmptyConcat                   // RuntimeError, `torch.cat` of no outputs

  datatype Outcome<T> = Ok(value: T) | Err(error: VadError)

  /** An input tensor by its number of dimensions. */
  datatype Tensor =
    | Scalar(sample: real)
    | Vector(samples: seq<real>)
    | Matrix(width: nat, rows: seq<seq<real>>)
    | Higher(dims: nat)

  predicate Rectangular(width: nat, rows: seq<seq<real>>)
  {
    forall i :: 0 <= i < |rows| ==> |rows[i]| == width
  }

  /** What a torch tensor always is: rows of one width, "higher" means at
      least three dimensions. */
  predicate WellFormed(x: Tensor)
  {
    match x
    case Matrix(width, rows) => Rectangular(width, rows)
    case Higher(dims) => dims > 2
    case _ => true
  }

  /** A batch of rows of `width` samples each. */
  datatype Batch = Batch(width: nat, rows: seq<seq<real>>)

  /** A validated chunk and the rate it is processed at. */
  datatype Validated = Validated(batch: Batch, sr: int)

  lemma {:induction false} MulAtLeast(d: int, s: int)
    requires d >= 1 && s > 0
    ensures d * s >= s
    decreases d
  {
    if d > 1 {
      MulAtLeast(d - 1, s);
      assert d * s == (d - 1) * s + s;
    }
  }

  /** The only multiple of `s` strictly between `-s` and `s` is 0. */
  lemma SmallMultipleIsZero(d: int, s: int)
    requires s > 0 && -s < d * s < s
    ensures d == 0
  {
    if d >= 1 {
      MulAtLeast(d, s);
    } else if d <= -1 {
      MulAtLeast(-d, s);
    }
  }

  /** Quotient and remainder are determined by `a == q * s + r`, `0 <= r < s`. */
  lemma DivModUnique(a: int, s: int, q: int, r: int)
    requires s > 0 && 0 <= r < s && a == q * s + r
    ensures a / s == q && a % s == r
  {
    var q', r' := a / s, a % s;
    assert a == q' * s + r';
    assert (q - q') * s == r' - r;
    SmallMultipleIsZero(q - q', s);
  }

  /** Adding the divisor adds one to the quotient. */
  lemma DivShift(a: int, s: int)
    requires a >= 0 && s > 0
    ensures (a + s) / s == a / s + 1
  {
    DivModUnique(a + s, s, a / s + 1, a % s);
  }

  /** `x[::step]` on one row: every `step`-th sample, starting with the
      first. */
  function Decimate(row: seq<real>, step: nat): (r: seq<real>)
    requires step > 0
    ensures |r| == (|row| + step - 1) / step
    decreases |row|
  {
    if row == [] then
      DivModUnique(step - 1, step, 0, step - 1);
      []
    else if |row| <= step then
      DivModUnique(|row| + step - 1, step, 1, |row| - 1);
      [row[0]]
    else
      DivShift(|row| - 1, step);
      [row[0]] + Decimate(row[step..], step)
  }

  /** Sample i of the decimated row is sample i * step of the row. */
  lemma {:induction false} DecimatePicks(row: seq<real>, step: nat, i: nat)
    requires step > 0 && i < |Decimate(row, step)|
    ensures i * step < |row| && Decimate(row, step)[i] == row[i * step]
    decreases i
  {
    if i > 0 {
      var rest := Decimate(row[step..], step);
      assert |row| > step;
      assert Decimate(row, step) == [row[0]] + rest;
      DecimatePicks(row[step..], step, i - 1);
      assert i * step == (i - 1) * step + step;
    }
  }

  function DecimateBatch(b: Batch, step: nat): (r: Batch)
    requires step > 0 && Rectangular(b.width, b.rows)
    ensures r.width == (b.width + step - 1) / step
    ensures |r.rows| == |b.rows| && Rectangular(r.width, r.rows)
    ensures forall i :: 0 <= i < |b.rows| ==> r.rows[i] == Decimate(b.rows[i], step)
  {
    Batch((b.width + step - 1) / step, seq(|b.rows|, i requires 0 <= i < |b.rows| => Decimate(b.rows[i], step)))
  }

  /** Sample i of row j of the decimated batch is sample i * step of row j. */
  lemma DecimateBatchPicks(b: Batch, step: nat, j: nat, i: nat)
    requires step > 0 && Rectangular(b.width, b.rows) && j < |b.rows| && i < DecimateBatch(b, step).width
    ensures i * step < b.width && DecimateBatch(b, step).rows[j][i] == b.rows[j][i * step]
  {
    var row := b.rows[j];
    assert |row| == b.width && DecimateBatch(b, step).rows[j] == Decimate(row, step);
    DecimatePicks(row, step, i);
  }

  /** The 2-D view: a 1-D chunk is a batch of one row. */
  function AsBatch(x: Tensor): (b: Batch)
    requires x.Vector? || x.Matrix?
  {
    if x.Vector? then Batch(|x.samples|, [x.samples]) else Batch(x.width, x.rows)
  }

  /** Smallest accepted width at a supported rate: sr / width may not
      exceed 31.25. */
  predicate LongEnough(sr: int, width: nat)
  {
    4 * sr <= 125 * width
  }

  /** The checks after decimation: the rate, then the width. */
  function CheckRateAndLength(x: Tensor, b: Batch, sr: int): Outcome<Validated>
  {
    if sr != 8000 && sr != 16000 then Err(UnsupportedRate)
    else if x.Scalar? then Err(BadIndex)
    else if b.width == 0 then Err(ZeroDivision)
    else if !LongEnough(sr, b.width) then Err(TooShort)
    else Ok(Validated(b, sr))
  }

  /** `_validate_input`. */
  function ValidateInput(x: Tensor, sr: int): (r: Outcome<Validated>)
    requires WellFormed(x)
    ensures x.Higher? ==> r == Err(TooManyDimensions(x.dims))
    ensures r.Ok? ==> var v := r.value;
      && (v.sr == 8000 || v.sr == 16000)
      && v.batch.width > 0 && LongEnough(v.sr, v.batch.width)
      && Rectangular(v.batch.width, v.batch.rows)
      && (x.Vector? ==> |v.batch.rows| == 1)
      && (x.Matrix? ==> |v.batch.rows| == |x.rows|)
  {
    if x.Higher? then Err(TooManyDimensions(x.dims))
    else if sr != 16000 && sr % 16000 == 0 then
      if x.Scalar? then Err(BadIndex)
      else if sr <= 0 then Err(BadSliceStep)
      else CheckRateAndLength(x, DecimateBatch(AsBatch(x), sr / 16000), 16000)
    else
      CheckRateAndLength(x, if x.Scalar? then Batch(0, []) else AsBatch(x), sr)
  }

  /** A chunk at a supported rate is accepted exactly when it is long
      enough: at least 512 samples at 16000, at least 256 at 8000. */
  lemma AcceptedIffLongEnough(x: Tensor, sr: int)
    requires WellFormed(x) && (x.Vector? || x.Matrix?) && (sr == 8000 || sr == 16000)
    ensures var w := AsBatch(x).width;
      && (ValidateInput(x, sr).Ok? <==> (if sr == 16000 then w >= 512 else w >= 256))
      && (ValidateInput(x, sr).Ok? ==> ValidateInput(x, sr).value == Validated(AsBatch(x), sr))
      && (w == 0 ==> ValidateInput(x, sr) == Err(ZeroDivision))
      && (w > 0 && ValidateInput(x, sr).Err? ==> ValidateInput(x, sr) == Err(TooShort))
  {
  }

  /** A rate that is a multiple of 16000 above it is brought down to 16000 by
      decimating every row by sr/16000 (a 1-D chunk being one row), so a
      chunk of n samples per row becomes ceil(n/step) samples per row;
      `DecimatePicks` says which samples remain. */
  lemma {:induction false} HighRateIsDecimated(x: Tensor, k: nat)
    requires WellFormed(x) && (x.Vector? || x.Matrix?) && k >= 2
    ensures var r := ValidateInput(x, 16000 * k);
      var b := AsBatch(x);
      var n := (b.width + k - 1) / k;
      && (r.Ok? <==> n >= 512)
      && (r.Ok? ==>
            && r.value.sr == 16000 && r.value.batch.width == n
            && |r.value.batch.rows| == |b.rows|
            && forall j :: 0 <= j < |b.rows| ==> r.value.batch.rows[j] == Decimate(b.rows[j], k))
  {
    var sr := 16000 * k;
    DivModUnique(sr, 16000, k, 0);
    var d := DecimateBatch(AsBatch(x), k);
    assert ValidateInput(x, sr) == CheckRateAndLength(x, d, 16000);
  }

  /** Rates other than 8000, 16000 and the positive multiples of 16000 are
      refused; zero and negative multiples of 16000 fail on the slice step. */
  lemma OtherRatesRefused(x: Tensor, sr: int)
    requires WellFormed(x) && (x.Vector? || x.Matrix?)
    ensures sr <= 0 && sr % 16000 == 0 ==> ValidateInput(x, sr) == Err(BadSliceStep)
    ensures sr != 8000 && sr % 16000 != 0 ==> ValidateInput(x, sr) == Err(UnsupportedRate)
  {
  }

  // ---------------------------------------------------------------------
  // The carried state and one call
  // ---------------------------------------------------------------------

  /** The network's recurrent state, flattened. */
  type RnnState = seq<real>

  /** What the network returns for one batch: its output and its new state. */
  datatype NetOut = NetOut(out: seq<real>, state: RnnState)

  /** `session.run` on (input rows, state, rate). */
  type Net = (seq<seq<real>>, RnnState, int) -> NetOut

  /** The fields `_state`, `_context`, `_last_sr`, `_last_batch_size`. The
      context is a tensor of rows; `[]` is the empty tensor. */
  datatype VadState = VadState(state: RnnState, context: seq<seq<real>>, lastSr: int, lastBatchSize: int)

  function Zeros(n: nat): (z: seq<real>)
    ensures |z| == n && forall i :: 0 <= i < n ==> z[i] == 0.0
  {
    seq(n, _ => 0.0)
  }

  /** `torch.zeros(rows, width)`. */
  function ZeroRows(rows: nat, width: nat): (z: seq<seq<real>>)
    ensures |z| == rows && forall i :: 0 <= i < rows ==> z[i] == Zeros(width)
  {
    seq(rows, _ => Zeros(width))
  }

  /** `reset_states(batch_size)`: a zero recurrent state of shape
      (2, batch_size, 128), no context, no remembered rate or batch size. */
  function Reset(batchSize: nat): (s: VadState)
    ensures s.context == [] && s.lastSr == 0 && s.lastBatchSize == 0
    ensures s.state == Zeros(256 * batchSize)
  {
    VadState(Zeros(2 * batchSize * 128), [], 0, 0)
  }

  /** Samples of context kept per row at a rate. */
  function ContextSize(sr: int): (n: nat)
    ensures n == 64 || n == 32
    ensures n == 64 <==> sr == 16000
  {
    if sr == 16000 then 64 else 32
  }

  /** What every reachable state satisfies: a non-empty context has one row
      per sample of the last batch, each as long as the last rate's
      context. */
  predicate Valid(s: VadState)
  {
    s.context == [] ||
    (|s.context| == s.lastBatchSize
     && (s.lastSr == 8000 || s.lastSr == 16000)
     && Rectangular(ContextSize(s.lastSr), s.context))
  }

  /** The three reset conditions of `__call__`: nothing processed yet, a rate
      change, a batch-size change. */
  predicate NeedsReset(s: VadState, sr: int, batchSize: nat)
  {
    s.lastBatchSize == 0
    || (s.lastSr != 0 && s.lastSr != sr)
    || (s.lastBatchSize != 0 && s.lastBatchSize != batchSize)
  }

  /** `torch.cat([context, x], dim=1)`. */
  function Concat(context: seq<seq<real>>, rows: seq<seq<real>>): (r: seq<seq<real>>)
    requires |context| == |rows|
    ensures |r| == |rows| && forall i :: 0 <= i < |rows| ==> r[i] == context[i] + rows[i]
  {
    seq(|rows|, i requires 0 <= i < |rows| => context[i] + rows[i])
  }

  /** `row[-k:]`. */
  function Last(row: seq<real>, k: nat): (r: seq<real>)
    ensures |row| >= k ==> r == row[|row| - k..]
    ensures |row| < k ==> r == row
  {
    if |row| <= k then row else row[|row| - k..]
  }

  /** `x[..., -k:]` over all rows. */
  function LastColumns(rows: seq<seq<real>>, k: nat): (r: seq<seq<real>>)
    ensures |r| == |rows| && forall i :: 0 <= i < |rows| ==> r[i] == Last(rows[i], k)
  {
    seq(|rows|, i requires 0 <= i < |rows| => Last(rows[i], k))
  }

  /** The state after one call and what the call returns. */
  datatype CallResult = CallResult(next: VadState, out: Outcome<seq<real>>)

  /** The context rows the network sees in front of the chunk. */
  function ContextFor(s: VadState, sr: int, batchSize: nat): seq<seq<real>>
  {
    if s.context == [] then ZeroRows(batchSize, ContextSize(sr)) else s.context
  }

  /** `__call__`. */
  function Process(s: VadState, net: Net, x: Tensor, sr: int): (r: CallResult)
    requires WellFormed(x) && Valid(s)
    ensures r.out.Err? ==> r.next == s && ValidateInput(x, sr).Err? && r.out == Err(ValidateInput(x, sr).error)
    ensures Valid(r.next)
  {
    match ValidateInput(x, sr)
    case Err(e) => CallResult(s, Err(e))
    case Ok(v) =>
      var b := |v.batch.rows|;
      var cs := ContextSize(v.sr);
      var s1 := if NeedsReset(s, v.sr, b) then Reset(b) else s;
      var input := Concat(ContextFor(s1, v.sr, b), v.batch.rows);
      var o := net(input, s1.state, v.sr);
      var next := VadState(o.state, LastColumns(input, cs), v.sr, b);
      assert Rectangular(cs, next.context) by {
        forall i | 0 <= i < b
          ensures |next.context[i]| == cs
        {
          assert |input[i]| >= cs;
        }
      }
      CallResult(next, Ok(o.out))
  }

  /** After a reset the network starts from a zero state and sees a zero
      context of 64 samples (16000) or 32 (8000) in front of each row; the
      state it returns is the one kept for the next call. */
  lemma ProcessAfterReset(s: VadState, net: Net, x: Tensor, sr: int)
    requires WellFormed(x) && Valid(s) && ValidateInput(x, sr).Ok?
    requires var v := ValidateInput(x, sr).value; NeedsReset(s, v.sr, |v.batch.rows|)
    ensures var v := ValidateInput(x, sr).value;
      var b := |v.batch.rows|;
      var o := net(Concat(ZeroRows(b, ContextSize(v.sr)), v.batch.rows), Zeros(256 * b), v.sr);
      && Process(s, net, x, sr).out == Ok(o.out)
      && Process(s, net, x, sr).next.state == o.state
  {
  }

  /** Without a reset and with a context, the network continues from the
      carried state and sees the carried context in front of the chunk; the
      state it returns is the one kept for the next call. */
  lemma ProcessCarries(s: VadState, net: Net, x: Tensor, sr: int)
    requires WellFormed(x) && Valid(s) && ValidateInput(x, sr).Ok? && s.context != []
    requires var v := ValidateInput(x, sr).value; !NeedsReset(s, v.sr, |v.batch.rows|)
    ensures var v := ValidateInput(x, sr).value;
      var o := net(Concat(s.context, v.batch.rows), s.state, v.sr);
      && s.lastSr == v.sr && s.lastBatchSize == |v.batch.rows|
      && Process(s, net, x, sr).out == Ok(o.out)
      && Process(s, net, x, sr).next.state == o.state
  {
  }

  /** After a successful call the state records the call's rate and batch
      size, and the context is the last context-size samples of each row
      of what the network saw, which for a chunk at least that wide are the
      chunk's own last samples. */
  lemma ProcessRecords(s: VadState, net: Net, x: Tensor, sr: int)
    requires WellFormed(x) && Valid(s) && ValidateInput(x, sr).Ok?
    ensures var v := ValidateInput(x, sr).value;
      var n := Process(s, net, x, sr).next;
      var cs := ContextSize(v.sr);
      && n.lastSr == v.sr && n.lastBatchSize == |v.batch.rows|
      && |n.context| == |v.batch.rows|
      && forall i :: 0 <= i < |n.context| ==>
           n.context[i] == v.batch.rows[i][v.batch.width - cs..]
  {
    var v := ValidateInput(x, sr).value;
    var b := |v.batch.rows|;
    var s1 := if NeedsReset(s, v.sr, b) then Reset(b) else s;
    var ctx := ContextFor(s1, v.sr, b);
    var input := Concat(ctx, v.batch.rows);
    var cs := ContextSize(v.sr);
    forall i | 0 <= i < b
      ensures Last(input[i], cs) == v.batch.rows[i][v.batch.width - cs..]
    {
      assert |v.batch.rows[i]| == v.batch.width >= cs;
      assert input[i] == ctx[i] + v.batch.rows[i];
      assert input[i][|input[i]| - cs..] == v.batch.rows[i][v.batch.width - cs..];
    }
  }

  /** Two calls in a row at one rate and batch size (at least one row): the
      second does not reset, and its network input is the first chunk's last
      context-size samples followed by the second chunk. */
  lemma ContextCarriesBetweenCalls(s: VadState, net: Net, x1: Tensor, x2: Tensor, sr: int)
    requires WellFormed(x1) && WellFormed(x2) && Valid(s)
    requires ValidateInput(x1, sr).Ok? && ValidateInput(x2, sr).Ok?
    requires var v1, v2 := ValidateInput(x1, sr).value, ValidateInput(x2, sr).value;
      |v1.batch.rows| == |v2.batch.rows| > 0
    ensures var v1, v2 := ValidateInput(x1, sr).value, ValidateInput(x2, sr).value;
      var n1 := Process(s, net, x1, sr).next;
      var cs := ContextSize(v1.sr);
      var o := net(Concat(LastColumns(v1.batch.rows, cs), v2.batch.rows), n1.state, v2.sr);
      && !NeedsReset(n1, v2.sr, |v2.batch.rows|)
      && Process(n1, net, x2, sr).out == Ok(o.out)
      && Process(n1, net, x2, sr).next.state == o.state
  {
    ContextIsLastColumns(s, net, x1, sr);
    ProcessCarries(Process(s, net, x1, sr).next, net, x2, sr);
  }

  /** After a successful call the context is the last context-size samples
      of each row of the chunk, with one row per row of the chunk. */
  lemma ContextIsLastColumns(s: VadState, net: Net, x: Tensor, sr: int)
    requires WellFormed(x) && Valid(s) && ValidateInput(x, sr).Ok?
    ensures var v := ValidateInput(x, sr).value;
      var n := Process(s, net, x, sr).next;
      && n.lastSr == v.sr && n.lastBatchSize == |v.batch.rows|
      && n.context == LastColumns(v.batch.rows, ContextSize(v.sr))
  {
    var v := ValidateInput(x, sr).value;
    var n := Process(s, net, x, sr).next;
    var cs := ContextSize(v.sr);
    ProcessRecords(s, net, x, sr);
    forall i | 0 <= i < |n.context|
      ensures n.context[i] == LastColumns(v.batch.rows, cs)[i]
    {
      assert |v.batch.rows[i]| == v.batch.width;
    }
  }

  // ---------------------------------------------------------------------
  // audio_forward
  // ---------------------------------------------------------------------

  /** The number of windows of `numSamples` that cover `n` samples:
      ceil(n / numSamples). */
  function WindowCount(n: nat, numSamples: nat): nat
    requires numSamples > 0
  {
    (n + numSamples - 1) / numSamples
  }

  /** Zero-padding every row up to the next multiple of `numSamples`. */
  function PadBatch(b: Batch, numSamples: nat): (r: Batch)
    requires numSamples > 0 && Rectangular(b.width, b.rows)
    ensures r.width == WindowCount(b.width, numSamples) * numSamples
    ensures b.width <= r.width < b.width + numSamples
    ensures Rectangular(r.width, r.rows) && |r.rows| == |b.rows|
    ensures forall i :: 0 <= i < |b.rows| ==> r.rows[i] == b.rows[i] + Zeros(r.width - b.width)
  {
    var q, rem := b.width / numSamples, b.width % numSamples;
    assert b.width == q * numSamples + rem;
    if rem != 0 then
      var padNum := numSamples - rem;
      DivModUnique(b.width + numSamples - 1, numSamples, q + 1, rem - 1);
      assert b.width + padNum == (q + 1) * numSamples;
      assert forall i :: 0 <= i < |b.rows| ==> |b.rows[i] + Zeros(padNum)| == b.width + padNum;
      Batch(b.width + padNum, seq(|b.rows|, i requires 0 <= i < |b.rows| => b.rows[i] + Zeros(padNum)))
    else
      DivModUnique(b.width + numSamples - 1, numSamples, q, numSamples - 1);
      assert forall i :: 0 <= i < |b.rows| ==> b.rows[i] + Zeros(0) == b.rows[i];
      b
  }

  /** `x[:, i:i+numSamples]`. */
  function Window(b: Batch, i: nat, numSamples: nat): (w: Tensor)
    requires Rectangular(b.width, b.rows) && i <= b.width
    ensures WellFormed(w) && w.Matrix? && |w.rows| == |b.rows|
    ensures w.width == if i + numSamples <= b.width then numSamples else b.width - i
    ensures forall r :: 0 <= r < |b.rows| ==> w.rows[r] == b.rows[r][i..i + w.width]
  {
    var j := if i + numSamples <= b.width then i + numSamples else b.width;
    Matrix(j - i, seq(|b.rows|, r requires 0 <= r < |b.rows| => b.rows[r][i..j]))
  }

  /** The state after `audio_forward` and its outputs, one per window. */
  datatype ForwardResult = ForwardResult(next: VadState, outs: Outcome<seq<seq<real>>>)

  /** The loop over the windows from column `i`, with the outputs so far. */
  function Windows(s: VadState, net: Net, p: Batch, sr: int, numSamples: nat, i: nat, outs: seq<seq<real>>): ForwardResult
    requires Rectangular(p.width, p.rows) && numSamples > 0 && Valid(s)
    decreases p.width - i, 1
  {
    if i >= p.width then
      if outs == [] then ForwardResult(s, Err(EmptyConcat)) else ForwardResult(s, Ok(outs))
    else
      Turn(s, net, p, sr, numSamples, i, outs)
  }

  /** One turn of the loop: the call on window `i`, then the rest. An
      exception ends the loop with the state the last successful call left. */
  function Turn(s: VadState, net: Net, p: Batch, sr: int, numSamples: nat, i: nat, outs: seq<seq<real>>): ForwardResult
    requires Rectangular(p.width, p.rows) && numSamples > 0 && Valid(s) && i < p.width
    decreases p.width - i, 0
  {
    var c := Process(s, net, Window(p, i, numSamples), sr);
    if c.out.Err? then ForwardResult(c.next, Err(c.out.error))
    else Windows(c.next, net, p, sr, numSamples, i + numSamples, outs + [c.out.value])
  }

  /** `audio_forward`. A zero `numSamples` fails on the remainder; a negative
      one makes the window range empty, so `torch.cat` has nothing to join. */
  function Forward(s: VadState, net: Net, x: Tensor, sr: int, numSamples: int): (r: ForwardResult)
    requires WellFormed(x) && Valid(s)
    ensures ValidateInput(x, sr).Err? ==> r == ForwardResult(s, Err(ValidateInput(x, sr).error))
    ensures ValidateInput(x, sr).Ok? && numSamples == 0 ==> r == ForwardResult(Reset(1), Err(ZeroDivision))
    ensures ValidateInput(x, sr).Ok? && numSamples < 0 ==> r == ForwardResult(Reset(1), Err(EmptyConcat))
  {
    match ValidateInput(x, sr)
    case Err(e) => ForwardResult(s, Err(e))
    case Ok(v) =>
      if numSamples == 0 then ForwardResult(Reset(1), Err(ZeroDivision))
      else if numSamples < 0 then ForwardResult(Reset(1), Err(EmptyConcat))
      else Windows(Reset(1), net, PadBatch(v.batch, numSamples), v.sr, numSamples, 0, [])
  }

  /** One turn of the window loop, or its end. */
  lemma WindowsUnfold(s: VadState, net: Net, p: Batch, sr: int, numSamples: nat, i: nat, outs: seq<seq<real>>)
    requires Rectangular(p.width, p.rows) && numSamples > 0 && Valid(s)
    ensures i >= p.width ==>
      Windows(s, net, p, sr, numSamples, i, outs) == ForwardResult(s, if outs == [] then Err(EmptyConcat) else Ok(outs))
    ensures i < p.width ==>
      var c := Process(s, net, Window(p, i, numSamples), sr);
      Windows(s, net, p, sr, numSamples, i, outs)
        == if c.out.Err? then ForwardResult(c.next, Err(c.out.error))
           else Windows(c.next, net, p, sr, numSamples, i + numSamples, outs + [c.out.value])
  {
  }

  /** The loop's view of one call: the window's result and the state it
      leaves decide how the rest of the loop goes. */
  lemma WindowsAfterCall(s: VadState, net: Net, p: Batch, sr: int, numSamples: nat, i: nat, outs: seq<seq<real>>,
                         out: Outcome<seq<real>>, next: VadState)
    requires Rectangular(p.width, p.rows) && numSamples > 0 && Valid(s) && i < p.width
    requires out == Process(s, net, Window(p, i, numSamples), sr).out
    requires next == Process(s, net, Window(p, i, numSamples), sr).next
    ensures Valid(next)
    ensures out.Err? ==> Windows(s, net, p, sr, numSamples, i, outs) == ForwardResult(next, Err(out.error))
    ensures out.Ok? ==>
      Windows(s, net, p, sr, numSamples, i, outs) == Windows(next, net, p, sr, numSamples, i + numSamples, outs + [out.value])
  {
    WindowsUnfold(s, net, p, sr, numSamples, i, outs);
  }

  /** A full window at a supported rate whose minimum it meets passes
      validation. */
  lemma FullWindowAccepted(p: Batch, i: nat, numSamples: nat, sr: int)
    requires Rectangular(p.width, p.rows) && numSamples > 0 && i + numSamples <= p.width
    requires (sr == 8000 || sr == 16000) && LongEnough(sr, numSamples)
    ensures ValidateInput(Window(p, i, numSamples), sr).Ok?
  {
    assert Window(p, i, numSamples).width == numSamples;
  }

  /** A window that passes validation produces an output and the loop goes
      on from the next window with the state that call left. */
  lemma WindowsStep(s: VadState, net: Net, p: Batch, sr: int, numSamples: nat, i: nat, outs: seq<seq<real>>)
    requires Rectangular(p.width, p.rows) && numSamples > 0 && Valid(s) && i < p.width
    requires ValidateInput(Window(p, i, numSamples), sr).Ok?
    ensures var c := Process(s, net, Window(p, i, numSamples), sr);
      && c.out.Ok?
      && Windows(s, net, p, sr, numSamples, i, outs)
         == Windows(c.next, net, p, sr, numSamples, i + numSamples, outs + [c.out.value])
  {
  }

  /** Taking one window off `k` full windows leaves `k - 1`. */
  lemma PeelWindow(width: nat, i: nat, numSamples: nat, k: nat)
    requires width == i + k * numSamples && k > 0
    ensures i + numSamples <= width && width == (i + numSamples) + (k - 1) * numSamples
  {
    assert k * numSamples == (k - 1) * numSamples + numSamples;
  }

  /** Windows of full width never fail validation once the chunk passed it
      at a rate whose minimum they meet, so the loop yields one output per
      window: `k` more when `k` windows remain. */
  lemma {:induction false} WindowsCount(s: VadState, net: Net, p: Batch, sr: int, numSamples: nat, i: nat, outs: seq<seq<real>>, k: nat)
    requires Rectangular(p.width, p.rows) && numSamples > 0 && Valid(s)
    requires sr == 8000 || sr == 16000
    requires LongEnough(sr, numSamples)
    requires p.width == i + k * numSamples && (outs != [] || k > 0)
    ensures Windows(s, net, p, sr, numSamples, i, outs).outs.Ok?
    ensures |Windows(s, net, p, sr, numSamples, i, outs).outs.value| == |outs| + k
    decreases k
  {
    if k == 0 {
      WindowsUnfold(s, net, p, sr, numSamples, i, outs);
    } else {
      PeelWindow(p.width, i, numSamples, k);
      FullWindowAccepted(p, i, numSamples, sr);
      WindowsStep(s, net, p, sr, numSamples, i, outs);
      var c := Process(s, net, Window(p, i, numSamples), sr);
      WindowsCount(c.next, net, p, sr, numSamples, i + numSamples, outs + [c.out.value], k - 1);
    }
  }

  /** With windows long enough for the rate (the default 512 always is),
      `audio_forward` on an accepted chunk of n samples per row succeeds
      with ceil(n / numSamples) outputs. */
  lemma ForwardCount(s: VadState, net: Net, x: Tensor, sr: int, numSamples: nat)
    requires WellFormed(x) && Valid(s) && ValidateInput(x, sr).Ok?
    requires numSamples > 0 && LongEnough(ValidateInput(x, sr).value.sr, numSamples)
    ensures var n := ValidateInput(x, sr).value.batch.width;
      var r := Forward(s, net, x, sr, numSamples);
      r.outs.Ok? && |r.outs.value| == WindowCount(n, numSamples)
  {
    var v := ValidateInput(x, sr).value;
    var p := PadBatch(v.batch, numSamples);
    var k := WindowCount(v.batch.width, numSamples);
    WindowsCount(Reset(1), net, p, v.sr, numSamples, 0, [], k);
  }

  /** The default window of 512 samples is long enough at both rates. */
  lemma DefaultWindowLongEnough(sr: int)
    requires sr == 8000 || sr == 16000
    ensures LongEnough(sr, 512)
  {
  }

  // ---------------------------------------------------------------------
  // The detector object
  // ---------------------------------------------------------------------

  class VoiceActivityDetection {
    /** The ONNX session. */
    const net: Net
    var state: RnnState
    var context: seq<seq<real>>
    var lastSr: int
    var lastBatchSize: int

    function Current(): VadState
      reads this
    {
      VadState(state, context, lastSr, lastBatchSize)
    }

    constructor (net: Net)
      ensures this.net == net && Current() == Reset(1) && Valid(Current())
    {
      this.net := net;
      state := Zeros(2 * 1 * 128);
      context := [];
      lastSr := 0;
      lastBatchSize := 0;
    }

    method ResetStates(batchSize: nat)
      modifies this
      ensures Current() == Reset(batchSize)
    {
      state := Zeros(2 * batchSize * 128);
      context := [];
      lastSr := 0;
      lastBatchSize := 0;
    }

    /** `__call__`. */
    method Call(x: Tensor, sr: int) returns (out: Outcome<seq<real>>)
      requires WellFormed(x) && Valid(Current())
      modifies this
      ensures Current() == Process(old(Current()), net, x, sr).next
      ensures out == Process(old(Current()), net, x, sr).out
    {
      var validated := ValidateInput(x, sr);
      if validated.Err? {
        return Err(validated.error);
      }
      var v := validated.value;
      var batchSize := |v.batch.rows|;
      var contextSize := ContextSize(v.sr);
      if lastBatchSize == 0 {
        ResetStates(batchSize);
      }
      if lastSr != 0 && lastSr != v.sr {
        ResetStates(batchSize);
      }
      if lastBatchSize != 0 && lastBatchSize != batchSize {
        ResetStates(batchSize);
      }
      if context == [] {
        context := ZeroRows(batchSize, contextSize);
      }
      var input := Concat(context, v.batch.rows);
      var o := net(input, state, v.sr);
      state := o.state;
      context := LastColumns(input, contextSize);
      lastSr := v.sr;
      lastBatchSize := batchSize;
      out := Ok(o.out);
    }

    /** `audio_forward`. */
    method AudioForward(x: Tensor, sr: int, numSamples: int) returns (outs: Outcome<seq<seq<real>>>)
      requires WellFormed(x) && Valid(Current())
      modifies this
      ensures Current() == Forward(old(Current()), net, x, sr, numSamples).next
      ensures outs == Forward(old(Current()), net, x, sr, numSamples).outs
    {
      var validated := ValidateInput(x, sr);
      if validated.Err? {
        return Err(validated.error);
      }
      var v := validated.value;
      ResetStates(1);
      if numSamples == 0 {
        return Err(ZeroDivision);
      }
      if numSamples < 0 {
        return Err(EmptyConcat);
      }
      outs := ForwardWindows(PadBatch(v.batch, numSamples), v.sr, numSamples);
    }

    /** One turn of the `for` loop: the call on window `i`. */
    method WindowCall(p: Batch, sr: int, numSamples: nat, i: nat, acc: seq<seq<real>>) returns (out: Outcome<seq<real>>)
      requires Rectangular(p.width, p.rows) && numSamples > 0 && Valid(Current()) && i < p.width
      requires sr == 8000 || sr == 16000
      modifies this
      ensures Valid(Current())
      ensures out.Err? ==>
        Windows(old(Current()), net, p, sr, numSamples, i, acc) == ForwardResult(Current(), Err(out.error))
      ensures out.Ok? ==>
        Windows(old(Current()), net, p, sr, numSamples, i, acc)
          == Windows(Current(), net, p, sr, numSamples, i + numSamples, acc + [out.value])
    {
      ghost var before := Current();
      var w := Window(p, i, numSamples);
      out := Call(w, sr);
      WindowsAfterCall(before, net, p, sr, numSamples, i, acc, out, Current());
    }

    /** The `for` loop of `audio_forward` over the padded chunk. */
    method ForwardWindows(p: Batch, sr: int, numSamples: nat) returns (outs: Outcome<seq<seq<real>>>)
      requires Rectangular(p.width, p.rows) && numSamples > 0 && Valid(Current())
      requires sr == 8000 || sr == 16000
      modifies this
      ensures Current() == Windows(old(Current()), net, p, sr, numSamples, 0, []).next
      ensures outs == Windows(old(Current()), net, p, sr, numSamples, 0, []).outs
    {
      ghost var total := Windows(Current(), net, p, sr, numSamples, 0, []);
      ghost var cur := Current();
      var acc: seq<seq<real>> := [];
      var i: nat := 0;
      while i < p.width
        invariant cur == Current() && Valid(cur)
        invariant Windows(cur, net, p, sr, numSamples, i, acc) == total
        decreases p.width - i
      {
        var out := WindowCall(p, sr, numSamples, i, acc);
        if out.Err? {
          return Err(out.error);
        }
        cur := Current();
        acc := acc + [out.value];
        i := i + numSamples;
      }
      WindowsUnfold(Current(), net, p, sr, numSamples, i, acc);
      if acc == [] {
        return Err(EmptyConcat);
      }
      outs := Ok(acc);
    }
  }
}
