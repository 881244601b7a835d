/** Batching of a provider's deltas: whatever the timing, nothing is lost or reordered. */
module Stream {
  const DELTA_BATCH_COUNT := 32
  const DELTA_BATCH_BYTES := 65536

  datatype Delta = Delta(text: string, bytes: nat)

  /** What the provider's stream and the clock do: the deadline passes while waiting, or an
      event arrives, perhaps after the deadline. */
  datatype Step =
    | Timeout
    | Arrive(event: Incoming, late: bool)

  datatype Incoming = Piece(delta: Delta) | StreamEnd | Ignored

  /** What the engine is handed. */
  datatype Output = Batch(deltas: seq<Delta>) | End

  /** Single deltas and ends, in order. */
  datatype Mark = One(delta: Delta) | Over

  function Marks(deltas: seq<Delta>): (r: seq<Mark>)
    ensures |r| == |deltas| && forall i :: 0 <= i < |deltas| ==> r[i] == One(deltas[i])
  {
    seq(|deltas|, i requires 0 <= i < |deltas| => One(deltas[i]))
  }

  function MarksOf(o: Output): seq<Mark> {
    match o case Batch(deltas) => Marks(deltas) case End => [Over]
  }

  /** The outputs taken apart. */
  function Apart(out: seq<Output>): seq<Mark> {
    if out == [] then [] else Apart(out[..|out| - 1]) + MarksOf(out[|out| - 1])
  }

  function Wanted1(step: Step): seq<Mark> {
    match step
    case Arrive(Piece(d), _) => [One(d)]
    case Arrive(StreamEnd, _) => [Over]
    case _ => []
  }

  /** What the provider sent, in order. */
  function Wanted(steps: seq<Step>): seq<Mark> {
    if steps == [] then [] else Wanted(steps[..|steps| - 1]) + Wanted1(steps[|steps| - 1])
  }

  function Bytes(deltas: seq<Delta>): nat {
    if deltas == [] then 0 else Bytes(deltas[..|deltas| - 1]) + deltas[|deltas| - 1].bytes
  }

  /** A batch is never empty, has at most 32 deltas, and only a single delta may be over the
      byte limit. */
  predicate BatchOk(deltas: seq<Delta>) {
    && 0 < |deltas| <= DELTA_BATCH_COUNT
    && (Bytes(deltas) <= DELTA_BATCH_BYTES || |deltas| == 1)
  }

  ghost predicate OutputsOk(out: seq<Output>) {
    forall i :: 0 <= i < |out| && out[i].Batch? ==> BatchOk(out[i].deltas)
  }

  /** A buffer that has not been flushed has room left. */
  ghost predicate BufferOk(buffer: seq<Delta>, size: nat) {
    && size == Bytes(buffer) && |buffer| < DELTA_BATCH_COUNT && (buffer != [] ==> size < DELTA_BATCH_BYTES)
  }

  /** The outputs and the buffer together are what arrived. */
  ghost predicate InStep(out: seq<Output>, buffer: seq<Delta>, size: nat, steps: seq<Step>) {
    OutputsOk(out) && BufferOk(buffer, size) && Apart(out) + Marks(buffer) == Wanted(steps)
  }

  /* ---- when a batch goes out ---- */

  predicate Full(deltas: seq<Delta>) {
    |deltas| >= DELTA_BATCH_COUNT || Bytes(deltas) >= DELTA_BATCH_BYTES
  }

  /** What is held must go out first: time is up, something else arrives, or the next delta does not
      fit with it. */
  predicate Due(held: seq<Delta>, step: Step) {
    held != [] &&
    match step
    case Timeout => true
    case Arrive(Piece(d), late) => late || Bytes(held) + d.bytes > DELTA_BATCH_BYTES
    case Arrive(_, _) => true
  }

  /** No batch goes out before it is due or full. */
  ghost predicate Needed(more: seq<Output>, held: seq<Delta>, step: Step) {
    forall k :: 0 <= k < |more| && more[k].Batch? ==> Full(more[k].deltas) || (more[k].deltas == held && Due(held, step))
  }

  /** What is held back after a step just arrived in time, and is not full. */
  predicate Prompt(held: seq<Delta>, step: Step) {
    held != [] ==> step.Arrive? && step.event.Piece? && !Full(held) && (step.late ==> |held| == 1)
  }

  /** What one step puts out. */
  ghost predicate PutsOut(out: seq<Output>, out': seq<Output>, held: seq<Delta>, held': seq<Delta>, step: Step) {
    |out| <= |out'| && out'[..|out|] == out && Needed(out'[|out|..], held, step) && Prompt(held', step)
  }

  /** The outputs over time: how many there were, and what was held back, after each step. */
  datatype Moment = Moment(count: nat, held: seq<Delta>)

  ghost predicate Timely(out: seq<Output>, steps: seq<Step>, moments: seq<Moment>) {
    && 0 < |moments| <= |steps| + 1 && moments[0] == Moment(0, [])
    && forall n :: 0 <= n < |moments| ==> TimelyAt(out, steps, moments, n)
  }

  /** After every step all that arrived is out or held back, and the next step puts out what is due
      and no more. */
  ghost predicate TimelyAt(out: seq<Output>, steps: seq<Step>, moments: seq<Moment>, n: nat)
    requires n < |moments| <= |steps| + 1
  {
    && moments[n].count <= |out| && Apart(out[..moments[n].count]) + Marks(moments[n].held) == Wanted(steps[..n])
    && (n > 0 ==> moments[n - 1].count <= moments[n].count
                  && PutsOut(out[..moments[n - 1].count], out[..moments[n].count], moments[n - 1].held, moments[n].held, steps[n - 1]))
  }

  lemma ApartNext(out: seq<Output>, o: Output)
    ensures Apart(out + [o]) == Apart(out) + MarksOf(o)
  {
    assert (out + [o])[..|out|] == out;
  }

  lemma WantedNext(steps: seq<Step>, n: nat)
    requires n < |steps|
    ensures Wanted(steps[..n + 1]) == Wanted(steps[..n]) + Wanted1(steps[n])
  {
    assert steps[..n + 1][..n] == steps[..n];
  }

  lemma BytesNext(deltas: seq<Delta>, d: Delta)
    ensures Bytes(deltas + [d]) == Bytes(deltas) + d.bytes
    ensures Marks(deltas + [d]) == Marks(deltas) + [One(d)]
  {
    assert (deltas + [d])[..|deltas|] == deltas;
  }

  /** Yield the buffer, if there is one. */
  method Flush(out: seq<Output>, buffer: seq<Delta>) returns (out': seq<Output>)
    requires OutputsOk(out) && (buffer != [] ==> BatchOk(buffer))
    ensures OutputsOk(out') && Apart(out') == Apart(out) + Marks(buffer)
    ensures out' == out + if buffer == [] then [] else [Batch(buffer)]
  {
    out' := out;
    if buffer != [] {
      ApartNext(out, Batch(buffer));
      out' := out + [Batch(buffer)];
    }
  }

  /** One delta, in batching mode: the buffer is yielded first if the delta does not fit or
      the deadline is over, and afterwards if it is full. */
  method Take(out: seq<Output>, buffer: seq<Delta>, size: nat, d: Delta, late: bool, ghost want: seq<Mark>)
    returns (out': seq<Output>, buffer': seq<Delta>, size': nat)
    requires OutputsOk(out) && BufferOk(buffer, size) && Apart(out) + Marks(buffer) == want
    ensures OutputsOk(out') && BufferOk(buffer', size') && Apart(out') + Marks(buffer') == want + [One(d)]
    ensures PutsOut(out, out', buffer, buffer', Arrive(Piece(d), late))
  {
    if buffer != [] && (size + d.bytes > DELTA_BATCH_BYTES || late) {
      out' := Flush(out, buffer);
      assert Apart(out') + Marks([]) == want;
      out', buffer', size' := Put(out', [], 0, d, want);
      FlushedFirst(out, buffer, d, late);
    } else {
      out', buffer', size' := Put(out, buffer, size, d, want);
      NotFlushed(out, buffer, d, late);
    }
  }

  function IfFilled(deltas: seq<Delta>): seq<Delta> {
    if Full(deltas) then [] else deltas
  }

  lemma FlushedFirst(out: seq<Output>, buffer: seq<Delta>, d: Delta, late: bool)
    requires Due(buffer, Arrive(Piece(d), late))
    ensures PutsOut(out, out + [Batch(buffer)] + IfFull([] + [d]), buffer, IfFilled([] + [d]), Arrive(Piece(d), late))
  {
    var more := [Batch(buffer)] + IfFull([d]);
    assert [] + [d] == [d] && out + [Batch(buffer)] + IfFull([d]) == out + more;
    Adds(out, more, buffer, IfFilled([d]), Arrive(Piece(d), late));
  }

  lemma NotFlushed(out: seq<Output>, buffer: seq<Delta>, d: Delta, late: bool)
    requires buffer == [] || !late
    ensures PutsOut(out, out + IfFull(buffer + [d]), buffer, IfFilled(buffer + [d]), Arrive(Piece(d), late))
  {
    Adds(out, IfFull(buffer + [d]), buffer, IfFilled(buffer + [d]), Arrive(Piece(d), late));
  }

  lemma FlushedThenEnd(out: seq<Output>, buffer: seq<Delta>, step: Step, last: seq<Output>)
    requires step.Arrive? && !step.event.Piece? && (last == [] || last == [End])
    ensures PutsOut(out, out + (if buffer == [] then [] else [Batch(buffer)]) + last, buffer, [], step)
  {
    var more := (if buffer == [] then [] else [Batch(buffer)]) + last;
    assert out + (if buffer == [] then [] else [Batch(buffer)]) + last == out + more;
    Adds(out, more, buffer, [], step);
  }

  function IfFull(deltas: seq<Delta>): seq<Output> {
    if Full(deltas) then [Batch(deltas)] else []
  }

  lemma Adds(out: seq<Output>, more: seq<Output>, held: seq<Delta>, held': seq<Delta>, step: Step)
    requires Needed(more, held, step) && Prompt(held', step)
    ensures PutsOut(out, out + more, held, held', step)
  {
    assert (out + more)[|out|..] == more;
  }

  method Put(out: seq<Output>, buffer: seq<Delta>, size: nat, d: Delta, ghost want: seq<Mark>)
    returns (out': seq<Output>, buffer': seq<Delta>, size': nat)
    requires OutputsOk(out) && BufferOk(buffer, size) && Apart(out) + Marks(buffer) == want
    requires buffer != [] ==> size + d.bytes <= DELTA_BATCH_BYTES
    ensures OutputsOk(out') && BufferOk(buffer', size') && Apart(out') + Marks(buffer') == want + [One(d)]
    ensures out' == out + IfFull(buffer + [d]) && buffer' == IfFilled(buffer + [d])
  {
    BytesNext(buffer, d);
    out', buffer', size' := out, buffer + [d], size + d.bytes;
    assert Apart(out) + Marks(buffer') == want + [One(d)];
    assert out + [] == out;
    if |buffer'| >= DELTA_BATCH_COUNT || size' >= DELTA_BATCH_BYTES {
      out' := Flush(out', buffer');
      buffer', size' := [], 0;
    }
  }

  /** `_stream_events`: for every stream and every timing the outputs are the deltas and ends
      in order, all deltas before an end are out before it, and every batch keeps its bounds.
      A stream that stops and one that fails flush alike. */
  method StreamEvents(steps: seq<Step>, batching: bool) returns (out: seq<Output>, ghost moments: seq<Moment>)
    ensures Apart(out) == Wanted(steps) && OutputsOk(out)
    ensures !batching ==> forall i :: 0 <= i < |out| && out[i].Batch? ==> |out[i].deltas| == 1
    ensures batching ==> |moments| == |steps| + 1 && Timely(out, steps, moments) && LastOut(out, moments[|steps|])
  {
    var buffer: seq<Delta>, size: nat := [], 0;
    out, moments := [], [Moment(0, [])];
    for n := 0 to |steps|
      invariant if batching then Midway(out, buffer, size, steps, n, moments)
                else OutputsOk(out) && Singles(out) && Apart(out) == Wanted(steps[..n])
    {
      if batching { out, buffer, size, moments := OneStep(out, buffer, size, steps, n, moments); }
      else {
        WantedNext(steps, n);
        out := Single(out, steps[n], steps[..n]);
      }
    }
    assert steps[..|steps|] == steps;
    if batching {
      TimelyStays(out, if buffer == [] then [] else [Batch(buffer)], steps, moments);
      out := Flush(out, buffer);
    }
  }

  ghost predicate Midway(out: seq<Output>, buffer: seq<Delta>, size: nat, steps: seq<Step>, n: nat, moments: seq<Moment>) {
    n <= |steps| && InStep(out, buffer, size, steps[..n]) && |moments| == n + 1 && Timely(out, steps, moments) && moments[n] == Moment(|out|, buffer)
  }

  /** One turn of the loop, in batching mode. */
  method OneStep(out: seq<Output>, buffer: seq<Delta>, size: nat, steps: seq<Step>, n: nat, ghost moments: seq<Moment>)
    returns (out': seq<Output>, buffer': seq<Delta>, size': nat, ghost moments': seq<Moment>)
    requires n < |steps| && Midway(out, buffer, size, steps, n, moments)
    ensures Midway(out', buffer', size', steps, n + 1, moments')
  {
    WantedNext(steps, n);
    out', buffer', size' := Advance(out, buffer, size, steps[n], steps[..n]);
    NextMoment(out, out', steps, moments, buffer');
    moments' := moments + [Moment(|out'|, buffer')];
  }

  /** What is held back in the end goes out last. */
  predicate LastOut(out: seq<Output>, last: Moment) {
    last.count <= |out| && out[last.count..] == if last.held == [] then [] else [Batch(last.held)]
  }

  lemma TimelyStays(out: seq<Output>, more: seq<Output>, steps: seq<Step>, moments: seq<Moment>)
    requires Timely(out, steps, moments)
    ensures Timely(out + more, steps, moments)
  {
    forall n | 0 <= n < |moments| ensures TimelyAt(out + more, steps, moments, n) {
      assert TimelyAt(out, steps, moments, n);
      if n > 0 { assert TimelyAt(out, steps, moments, n - 1) && (out + more)[..moments[n - 1].count] == out[..moments[n - 1].count]; }
      assert (out + more)[..moments[n].count] == out[..moments[n].count];
    }
  }

  lemma NextMoment(was: seq<Output>, out: seq<Output>, steps: seq<Step>, moments: seq<Moment>, held: seq<Delta>)
    requires 0 < |moments| <= |steps| && Timely(was, steps, moments) && moments[|moments| - 1].count == |was|
    requires PutsOut(was, out, moments[|moments| - 1].held, held, steps[|moments| - 1])
    requires Apart(out) + Marks(held) == Wanted(steps[..|moments|])
    ensures Timely(out, steps, moments + [Moment(|out|, held)])
  {
    assert out == was + out[|was|..];
    TimelyStays(was, out[|was|..], steps, moments);
    LastMoment(was, out, steps, moments + [Moment(|out|, held)]);
    SameMoments(out, steps, moments, moments + [Moment(|out|, held)]);
  }

  lemma SameMoments(out: seq<Output>, steps: seq<Step>, moments: seq<Moment>, all: seq<Moment>)
    requires Timely(out, steps, moments) && moments <= all && |all| == |moments| + 1 <= |steps| + 1
    requires TimelyAt(out, steps, all, |moments|)
    ensures Timely(out, steps, all)
  {
    forall n | 0 <= n < |moments| ensures TimelyAt(out, steps, all, n) { SameMoment(out, steps, moments, all, n); }
  }

  lemma SameMoment(out: seq<Output>, steps: seq<Step>, moments: seq<Moment>, all: seq<Moment>, n: nat)
    requires moments <= all && |all| <= |steps| + 1 && n < |moments| && TimelyAt(out, steps, moments, n)
    ensures TimelyAt(out, steps, all, n)
  {
  }

  lemma LastMoment(was: seq<Output>, out: seq<Output>, steps: seq<Step>, all: seq<Moment>)
    requires 2 <= |all| <= |steps| + 1 && all[|all| - 1].count == |out| && all[|all| - 2].count == |was|
    requires PutsOut(was, out, all[|all| - 2].held, all[|all| - 1].held, steps[|all| - 2])
    requires Apart(out) + Marks(all[|all| - 1].held) == Wanted(steps[..|all| - 1])
    ensures TimelyAt(out, steps, all, |all| - 1)
  {
    assert out[..|out|] == out && out[..|was|] == was;
  }

  /** Every batch holds one delta. */
  ghost predicate Singles(out: seq<Output>) {
    forall i :: 0 <= i < |out| && out[i].Batch? ==> |out[i].deltas| == 1
  }

  lemma OneMark(d: Delta)
    ensures MarksOf(Batch([d])) == [One(d)]
  {
    BytesNext([], d);
    assert [] + [d] == [d] && Marks([]) == [];
  }

  lemma SingleNext(out: seq<Output>, o: Output)
    requires OutputsOk(out) && Singles(out) && (o.Batch? ==> |o.deltas| == 1)
    ensures OutputsOk(out + [o]) && Singles(out + [o]) && Apart(out + [o]) == Apart(out) + MarksOf(o)
  {
    ApartNext(out, o);
  }

  method Single(out: seq<Output>, step: Step, ghost steps: seq<Step>) returns (out': seq<Output>)
    requires OutputsOk(out) && Apart(out) == Wanted(steps)
    requires Singles(out)
    ensures OutputsOk(out') && Singles(out') && Apart(out') == Wanted(steps) + Wanted1(step)
  {
    out' := out;
    match step
    case Arrive(Piece(d), _) =>
      OneMark(d);
      SingleNext(out, Batch([d]));
      out' := out + [Batch([d])];
    case Arrive(StreamEnd, _) =>
      SingleNext(out, End);
      out' := out + [End];
    case _ =>
  }

  method Advance(out: seq<Output>, buffer: seq<Delta>, size: nat, step: Step, ghost steps: seq<Step>)
    returns (out': seq<Output>, buffer': seq<Delta>, size': nat)
    requires InStep(out, buffer, size, steps)
    ensures OutputsOk(out') && BufferOk(buffer', size') && Apart(out') + Marks(buffer') == Wanted(steps) + Wanted1(step)
    ensures PutsOut(out, out', buffer, buffer', step)
  {
    match step
    case Arrive(Piece(d), late) =>
      out', buffer', size' := Take(out, buffer, size, d, late, Wanted(steps));
    case Arrive(e, _) =>
      out', buffer', size' := Turn(out, buffer, size, step, steps);
    case Timeout =>
      out' := Flush(out, buffer);
      buffer', size' := [], 0;
      Adds(out, if buffer == [] then [] else [Batch(buffer)], buffer, [], step);
  }

  /** Something other than a delta arrives. */
  method Turn(out: seq<Output>, buffer: seq<Delta>, size: nat, step: Step, ghost steps: seq<Step>)
    returns (out': seq<Output>, buffer': seq<Delta>, size': nat)
    requires InStep(out, buffer, size, steps) && step.Arrive? && !step.event.Piece?
    ensures OutputsOk(out') && BufferOk(buffer', size') && Apart(out') + Marks(buffer') == Wanted(steps) + Wanted1(step)
    ensures PutsOut(out, out', buffer, buffer', step)
  {
    out' := Flush(out, buffer);
    buffer', size' := [], 0;
    if step.event == StreamEnd {
      ApartNext(out', End);
      FlushedThenEnd(out, buffer, step, [End]);
      out' := out' + [End];
    } else {
      FlushedThenEnd(out, buffer, step, []);
      assert out' + [] == out';
    }
    NoMarks(Apart(out'));
  }

  lemma NoMarks(marks: seq<Mark>)
    ensures marks + Marks([]) == marks
  {
  }
}
