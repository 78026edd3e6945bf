/** The I/O buffers of src/buffering.c over a device that may take or give fewer bytes than asked, and
    the loops of include/bio/buffering.h that deal with short reads and writes. */
module Buffering {
  newtype Byte = x: int | 0 <= x < 256

  datatype Error = NoError | InvalidArgument | NotSupported | DeviceError

  /** How many bytes the device moves in its next call; 0 is a failure or the end. `answers` tells what
      it is willing to move call by call, and nothing when they are used up. */
  function Answer(answers: seq<nat>, size: nat): (n: nat)
    ensures n <= size
  {
    if answers == [] then 0 else if answers[0] <= size then answers[0] else size
  }

  function Rest(answers: seq<nat>): seq<nat> {
    if answers == [] then [] else answers[1..]
  }

  // ----- writing -----

  /** `pending` are the bytes in the buffer, `sink` what the device has taken. */
  datatype Out = Out(pending: seq<Byte>, sink: seq<Byte>, answers: seq<nat>)

  /** The flush loop with `t` bytes already written; a failed flush keeps the buffer as it was. */
  function FlushFrom(o: Out, t: nat): (bool, nat, Out)
    requires t <= |o.pending|
    decreases |o.pending| - t
  {
    if t == |o.pending| then (true, t, o.(pending := []))
    else
      var n := Answer(o.answers, |o.pending| - t);
      var o' := o.(sink := o.sink + o.pending[t..t + n], answers := Rest(o.answers));
      if n == 0 then (false, t, o') else FlushFrom(o', t + n)
  }

  lemma InTwoParts(s: seq<Byte>, a: nat, b: nat, c: nat)
    requires a <= b <= c <= |s|
    ensures s[a..b] + s[b..c] == s[a..c]
  {
  }

  lemma {:induction false} FlushWritesOnce(o: Out, t: nat)
    requires t <= |o.pending|
    ensures var (ok, u, o') := FlushFrom(o, t);
      && t <= u <= |o.pending| && o'.sink == o.sink + o.pending[t..u]
      && o'.pending == (if ok then [] else o.pending) && (ok <==> u == |o.pending|)
    decreases |o.pending| - t
  {
    if t < |o.pending| {
      var n := Answer(o.answers, |o.pending| - t);
      var o' := o.(sink := o.sink + o.pending[t..t + n], answers := Rest(o.answers));
      if n > 0 {
        FlushWritesOnce(o', t + n);
        var u := FlushFrom(o', t + n).1;
        InTwoParts(o.pending, t, t + n, u);
        assert o.sink + o.pending[t..t + n] + o.pending[t + n..u]
            == o.sink + (o.pending[t..t + n] + o.pending[t + n..u]);
      }
    }
  }

  /** `accepted` are the bytes callers were told were written, `resent` how many bytes failed flushes
      had given to the device before they failed. */
  datatype Writer = Writer(out: Out, size: nat, accepted: seq<Byte>, resent: nat)

  function Flush(w: Writer): (Writer, bool) {
    var (ok, t, o) := FlushFrom(w.out, 0);
    (w.(out := o, resent := w.resent + if ok then 0 else t), ok)
  }

  function Accept(w: Writer, bytes: seq<Byte>, n: nat): Writer
    requires n <= |bytes|
  {
    w.(accepted := w.accepted + bytes[..n])
  }

  /** A write that fits, or goes to the device directly. */
  function Place(w: Writer, bytes: seq<Byte>): (r: (Writer, nat))
    ensures r.1 <= |bytes|
  {
    if |w.out.pending| + |bytes| <= w.size then
      (Accept(w.(out := w.out.(pending := w.out.pending + bytes)), bytes, |bytes|), |bytes|)
    else
      var n := Answer(w.out.answers, |bytes|);
      (Accept(w.(out := w.out.(sink := w.out.sink + bytes[..n], answers := Rest(w.out.answers))), bytes, n), n)
  }

  function Write(w: Writer, bytes: seq<Byte>): (r: (Writer, nat))
    ensures r.1 <= |bytes|
  {
    if |w.out.pending| + |bytes| <= w.size then Place(w, bytes)
    else
      var (flushed, ok) := Flush(w);
      if ok then Place(flushed, bytes) else (flushed, 0)
  }

  /** The device has got, and the buffer holds, exactly the accepted bytes in order. */
  ghost predicate Exact(w: Writer) {
    w.out.sink + w.out.pending == w.accepted
  }

  /** What a run of the buffer keeps: the buffer fits, and the stream is longer by what was resent. */
  ghost predicate Consistent(w: Writer) {
    && |w.out.pending| <= w.size
    && |w.out.sink| + |w.out.pending| == |w.accepted| + w.resent
    && (w.resent == 0 ==> Exact(w))
  }

  lemma FlushKeepsConsistent(w: Writer)
    requires Consistent(w)
    ensures Consistent(Flush(w).0) && Flush(w).0.accepted == w.accepted
    ensures Flush(w).1 ==> Flush(w).0.out.pending == []
  {
    FlushWritesOnce(w.out, 0);
    assert w.out.pending[0..|w.out.pending|] == w.out.pending;
    var t := FlushFrom(w.out, 0).1;
    if t == 0 { assert w.out.sink + w.out.pending[0..0] == w.out.sink; }
  }

  lemma PlaceKeepsConsistent(w: Writer, bytes: seq<Byte>)
    requires Consistent(w)
    requires |w.out.pending| + |bytes| <= w.size || w.out.pending == []
    ensures Consistent(Place(w, bytes).0)
  {
    if |w.out.pending| + |bytes| <= w.size {
      assert w.out.sink + (w.out.pending + bytes) == (w.out.sink + w.out.pending) + bytes;
      assert bytes[..|bytes|] == bytes;
    } else {
      var n := Answer(w.out.answers, |bytes|);
      assert w.out.sink + bytes[..n] + [] == (w.out.sink + []) + bytes[..n];
    }
  }

  lemma WriteKeepsConsistent(w: Writer, bytes: seq<Byte>)
    requires Consistent(w)
    ensures Consistent(Write(w, bytes).0)
  {
    if |w.out.pending| + |bytes| <= w.size {
      PlaceKeepsConsistent(w, bytes);
    } else {
      FlushKeepsConsistent(w);
      if Flush(w).1 { PlaceKeepsConsistent(Flush(w).0, bytes); }
    }
  }

  datatype Op = Put(bytes: seq<Byte>) | Flushing

  function Apply(w: Writer, op: Op): Writer {
    match op
    case Put(bytes) => Write(w, bytes).0
    case Flushing => Flush(w).0
  }

  function Run(w: Writer, ops: seq<Op>): Writer
    decreases |ops|
  {
    if ops == [] then w else Apply(Run(w, ops[..|ops| - 1]), ops[|ops| - 1])
  }

  function New(size: nat, answers: seq<nat>): Writer {
    Writer(Out([], [], answers), size, [], 0)
  }

  lemma {:induction false} RunKeepsConsistent(size: nat, answers: seq<nat>, ops: seq<Op>)
    ensures Consistent(Run(New(size, answers), ops))
    decreases |ops|
  {
    if ops != [] {
      var before := ops[..|ops| - 1];
      RunKeepsConsistent(size, answers, before);
      match ops[|ops| - 1]
      case Put(bytes) => WriteKeepsConsistent(Run(New(size, answers), before), bytes);
      case Flushing => FlushKeepsConsistent(Run(New(size, answers), before));
    }
  }

  /** How many of `n` bytes a device takes, call by call, before it is done or gives up. */
  function Taken(answers: seq<nat>, n: nat): (t: nat)
    ensures t <= n
    decreases n
  {
    var m := Answer(answers, n);
    if m == 0 then 0 else m + Taken(Rest(answers), n - m)
  }

  lemma {:induction false} FlushTakes(o: Out, t: nat)
    requires t <= |o.pending|
    ensures FlushFrom(o, t).1 == t + Taken(o.answers, |o.pending| - t)
    decreases |o.pending| - t
  {
    if t < |o.pending| {
      var n := Answer(o.answers, |o.pending| - t);
      if n > 0 { FlushTakes(o.(sink := o.sink + o.pending[t..t + n], answers := Rest(o.answers)), t + n); }
    }
  }

  /** The device would take some of the buffered bytes, and then give up. */
  predicate GivesUpPartWay(w: Writer) {
    0 < Taken(w.out.answers, |w.out.pending|) < |w.out.pending|
  }

  /** A flush succeeds exactly if the device takes all bytes, and will resend bytes exactly if it gives
      up part-way. */
  lemma ResendsIff(w: Writer)
    ensures Flush(w).1 <==> Taken(w.out.answers, |w.out.pending|) == |w.out.pending|
    ensures Flush(w).0.resent > w.resent <==> GivesUpPartWay(w)
    ensures Flush(w).0.resent >= w.resent
  {
    FlushWritesOnce(w.out, 0);
    FlushTakes(w.out, 0);
  }

  /** The answers a device has left when it has taken what it takes of `n` bytes. */
  function AnswersLeft(answers: seq<nat>, n: nat): seq<nat>
    decreases n
  {
    if n == 0 then answers
    else if Answer(answers, n) == 0 then Rest(answers)
    else AnswersLeft(Rest(answers), n - Answer(answers, n))
  }

  lemma {:induction false} FlushAnswers(o: Out, t: nat)
    requires t <= |o.pending|
    ensures FlushFrom(o, t).2.answers == AnswersLeft(o.answers, |o.pending| - t)
    decreases |o.pending| - t
  {
    if t < |o.pending| {
      var n := Answer(o.answers, |o.pending| - t);
      if n > 0 { FlushAnswers(o.(sink := o.sink + o.pending[t..t + n], answers := Rest(o.answers)), t + n); }
    }
  }

  /** What a write of `bytes` makes of the buffer's content and of what the device has got, and how many bytes it
      reports: bytes that fit are buffered in full. Otherwise the buffer is flushed first; if the device gives up,
      nothing is written and the buffer stays as it was. Then bytes that fit in the empty buffer are buffered in
      full, and more are given to the device in one call. */
  ghost predicate WriteOutcome(before: Out, size: nat, bytes: seq<Byte>, after: Out, n: nat) {
    var m := |before.pending|;
    var t := Taken(before.answers, m);
    if m + |bytes| <= size then
      after == before.(pending := before.pending + bytes) && n == |bytes|
    else if t < m then
      && n == 0 && after.pending == before.pending && after.sink == before.sink + before.pending[..t]
      && after.answers == AnswersLeft(before.answers, m)
    else if |bytes| <= size then
      && n == |bytes| && after.pending == bytes && after.sink == before.sink + before.pending
      && after.answers == AnswersLeft(before.answers, m)
    else
      && n == Answer(AnswersLeft(before.answers, m), |bytes|)
      && after.pending == [] && after.sink == before.sink + before.pending + bytes[..n]
      && after.answers == Rest(AnswersLeft(before.answers, m))
  }

  lemma WriteGives(w: Writer, bytes: seq<Byte>)
    ensures WriteOutcome(w.out, w.size, bytes, Write(w, bytes).0.out, Write(w, bytes).1)
    ensures Write(w, bytes).0.size == w.size
  {
    if |w.out.pending| + |bytes| > w.size {
      FlushWritesOnce(w.out, 0);
      FlushTakes(w.out, 0);
      FlushAnswers(w.out, 0);
      assert w.out.pending[0..|w.out.pending|] == w.out.pending;
      var t := Taken(w.out.answers, |w.out.pending|);
      assert w.out.pending[0..t] == w.out.pending[..t];
      assert [] + bytes == bytes;
    }
  }

  predicate Flushes(w: Writer, op: Op) {
    op.Flushing? || |w.out.pending| + |op.bytes| > w.size
  }

  lemma ResentGrowsIff(w: Writer, op: Op)
    ensures Apply(w, op).resent >= w.resent
    ensures Apply(w, op).resent > w.resent <==> Flushes(w, op) && GivesUpPartWay(w)
  {
    ResendsIff(w);
  }

  /** At no flush of the run does the device give up part-way. */
  ghost predicate NeverPartWay(w: Writer, ops: seq<Op>)
    decreases |ops|
  {
    ops == [] ||
      var before := ops[..|ops| - 1];
      NeverPartWay(w, before) && !(Flushes(Run(w, before), ops[|ops| - 1]) && GivesUpPartWay(Run(w, before)))
  }

  lemma {:induction false} ResentIff(w: Writer, ops: seq<Op>)
    ensures Run(w, ops).resent >= w.resent
    ensures Run(w, ops).resent == w.resent <==> NeverPartWay(w, ops)
    decreases |ops|
  {
    if ops != [] {
      var before := ops[..|ops| - 1];
      ResentIff(w, before);
      ResentGrowsIff(Run(w, before), ops[|ops| - 1]);
    }
  }

  /** After any writes and flushes, over any short writes and failures of the device: what it has taken
      and what is still buffered are together the accepted bytes, each once and in order, exactly if at
      no flush the device gave up part-way. Otherwise such bytes went or will go out again. */
  lemma StreamIsExactIff(size: nat, answers: seq<nat>, ops: seq<Op>)
    ensures Exact(Run(New(size, answers), ops)) <==> NeverPartWay(New(size, answers), ops)
  {
    RunKeepsConsistent(size, answers, ops);
    ResentIff(New(size, answers), ops);
    var w := Run(New(size, answers), ops);
    assert Exact(w) ==> |w.out.sink + w.out.pending| == |w.accepted|;
  }

  const THREE: seq<Byte> := [1, 2, 3]
  const FILLED := New(4, [2, 0, 3]).(out := Out(THREE, [], [2, 0, 3]), accepted := THREE)

  lemma FirstFlushFails()
    ensures Flush(FILLED).0.out == Out(THREE, [1, 2], [3])
  {
    assert THREE[0..2] == [1, 2] && THREE[2..2] == [] && [2, 0, 3][1..] == [0, 3] && [0, 3][1..] == [3];
  }

  lemma SecondFlushResends(w: Writer)
    requires w.out == Out(THREE, [1, 2], [3])
    ensures Flush(w).0.out.sink == [1, 2, 1, 2, 3]
  {
    assert THREE[0..3] == THREE;
  }

  /** Three bytes buffered, a device that takes two and then fails once: the first two go out twice. */
  lemma FailedFlushRepeats()
    ensures Run(New(4, [2, 0, 3]), [Put([1, 2, 3]), Flushing, Flushing]).out.sink == [1, 2, 1, 2, 3]
  {
    var w := New(4, [2, 0, 3]);
    assert Write(w, THREE).0 == FILLED by { assert [] + THREE == THREE && THREE[..3] == THREE; }
    FirstFlushFails();
    SecondFlushResends(Flush(FILLED).0);
    RunOne(w, [], Put(THREE));
    RunOne(w, [Put(THREE)], Flushing);
    RunOne(w, [Put(THREE), Flushing], Flushing);
  }

  lemma RunOne(w: Writer, ops: seq<Op>, op: Op)
    ensures Run(w, ops + [op]) == Apply(Run(w, ops), op)
  {
    assert (ops + [op])[..|ops|] == ops;
  }

  /** The write buffer, with the device behind it. */
  class WriteBuffer {
    const size: nat
    const data: array<Byte>
    var offset: nat
    var open: bool          // whether its handle resolves
    const writable: bool    // write_fn is set
    var answers: seq<nat>
    ghost var sink: seq<Byte>
    ghost var accepted: seq<Byte>
    ghost var resent: nat

    ghost predicate Valid()
      reads this
    {
      offset <= size == data.Length
    }

    ghost function View(): Writer
      reads this, data
      requires Valid()
    {
      Writer(Out(data[..offset], sink, answers), size, accepted, resent)
    }

    constructor (size: nat, writable: bool, answers: seq<nat>)
      ensures Valid() && fresh(data) && View() == New(size, answers)
      ensures open && this.writable == writable
    {
      this.size := size;
      this.writable := writable;
      data := new Byte[size];
      offset := 0;
      open := true;
      this.answers := answers;
      sink, accepted, resent := [], [], 0;
    }

    /** The device's write_fn. */
    method WriteFn(bytes: seq<Byte>) returns (n: nat)
      modifies this`answers, this`sink
      ensures n == Answer(old(answers), |bytes|) && answers == Rest(old(answers))
      ensures sink == old(sink) + bytes[..n]
    {
      n := Answer(answers, |bytes|);
      answers := Rest(answers);
      sink := sink + bytes[..n];
    }

    /** `bio_flush_internal_buffer` */
    method FlushInternal() returns (ok: bool)
      requires Valid()
      modifies this`answers, this`sink, this`offset, this`resent
      ensures Valid() && (View(), ok) == Flush(old(View()))
    {
      var left, total := offset, 0;
      ghost var goal := FlushFrom(View().out, 0);
      while left > 0
        invariant total + left == offset == old(offset) && resent == old(resent)
        invariant FlushFrom(View().out, total) == goal
        decreases left
      {
        ghost var before := View().out;
        var n := WriteFn(data[total..total + left]);
        assert data[total..total + left][..n] == before.pending[total..total + n];
        if n == 0 {
          resent := resent + total;
          return false;
        }
        total := total + n;
        left := left - n;
      }
      offset := 0;
      ok := true;
    }

    /** `bio_buffered_write` */
    method BufferedWrite(bytes: seq<Byte>) returns (n: nat, error: Error)
      requires Valid()
      modifies this, data
      ensures Valid() && open == old(open)
      ensures open && writable ==> (View(), n) == Write(old(View()), bytes)
      ensures !(open && writable) ==> n == 0 && View() == old(View())
      ensures bytes != [] ==> (n == 0 <==> error != NoError)
      ensures open && writable ==> WriteOutcome(old(View()).out, size, bytes, View().out, n)
      ensures error == InvalidArgument <==> !open
      ensures error == NotSupported <==> open && !writable
    {
      if !open {
        return 0, InvalidArgument;
      }
      if !writable {
        return 0, NotSupported;
      }
      WriteGives(View(), bytes);
      if offset + |bytes| > size {
        var ok := FlushInternal();
        if !ok {
          return 0, DeviceError;
        }
      }
      if offset + |bytes| <= size {
        Copy(bytes);
        return |bytes|, NoError;
      }
      n := WriteFn(bytes);
      accepted := accepted + bytes[..n];
      error := if n == 0 then DeviceError else NoError;
    }

    /** The `memcpy` into the buffer. */
    method Copy(bytes: seq<Byte>)
      requires Valid() && offset + |bytes| <= size
      modifies this`offset, this`accepted, data
      ensures Valid() && View() == Place(old(View()), bytes).0
    {
      for i := 0 to |bytes|
        invariant data[..offset] == old(data[..offset])
        invariant data[offset..offset + i] == bytes[..i]
        modifies data
      {
        data[offset + i] := bytes[i];
      }
      offset := offset + |bytes|;
      accepted := accepted + bytes;
      assert data[..offset] == old(data[..offset]) + bytes;
      assert bytes[..|bytes|] == bytes;
    }

    /** `bio_flush_buffer`, with the answer of flush_fn when there is one. */
    method FlushBuffer(flushFn: bool, answer: bool) returns (ok: bool, error: Error)
      requires Valid()
      modifies this
      ensures Valid() && open == old(open)
      ensures open && writable ==> View() == Flush(old(View())).0
      ensures !(open && writable) ==> View() == old(View())
      ensures ok <==> open && writable && Flush(old(View())).1 && (flushFn ==> answer)
      ensures error == InvalidArgument <==> !open
      ensures error == NotSupported <==> open && !writable
    {
      if !open {
        return false, InvalidArgument;
      }
      if !writable {
        return false, NotSupported;
      }
      if offset > 0 {
        ok := FlushInternal();
        if !ok {
          return false, DeviceError;
        }
      }
      ok := if flushFn then answer else true;
      error := if ok then NoError else DeviceError;
    }

    /** How far the loop of `WriteExactly` has come: on its way to what `WriteAll` does, or refused. */
    ghost predicate Written(start: Writer, bytes: seq<Byte>, n: nat)
      reads this, data
      requires Valid()
    {
      if open && writable then WritesAs(start, bytes, View(), n) else n == 0 && View() == start
    }

    /** One turn of that loop. */
    method WriteRest(ghost start: Writer, bytes: seq<Byte>, n: nat) returns (written: nat, error: Error)
      requires Valid() && n < |bytes| && Written(start, bytes, n)
      modifies this, data
      ensures Valid() && open == old(open)
      ensures written <= |bytes| - n && (written == 0 <==> error != NoError)
      ensures written > 0 ==> Written(start, bytes, n + written)
      ensures written == 0 && open && writable ==> (View(), n) == WriteAll(start, bytes)
      ensures written == 0 && !(open && writable) ==> n == 0 && View() == start
    {
      ghost var before := View();
      written, error := BufferedWrite(bytes[n..]);
      if written > 0 && open && writable {
        WriteMore(start, bytes, before, n);
      }
    }

    /** `bio_buffered_write_exactly` */
    method WriteExactly(bytes: seq<Byte>) returns (n: nat, error: Error)
      requires Valid()
      modifies this, data
      ensures Valid() && open == old(open)
      ensures open && writable ==> (View(), n) == WriteAll(old(View()), bytes)
      ensures !(open && writable) ==> n == 0 && View() == old(View())
      ensures n <= |bytes| && (n < |bytes| <==> error != NoError)
    {
      n, error := 0, NoError;
      while n < |bytes|
        invariant Valid() && open == old(open) && n <= |bytes| && error == NoError
        invariant Written(old(View()), bytes, n)
        decreases |bytes| - n
      {
        var written;
        written, error := WriteRest(old(View()), bytes, n);
        if written == 0 {
          return;
        }
        n := n + written;
      }
    }
  }

  /** Repeated writes of what is left, until nothing is left or one is refused. */
  function WriteAll(w: Writer, bytes: seq<Byte>): (r: (Writer, nat))
    ensures r.1 <= |bytes|
    decreases |bytes|
  {
    if bytes == [] then (w, 0)
    else
      var (w', n) := Write(w, bytes);
      if n == 0 then (w', 0)
      else var (w'', m) := WriteAll(w', bytes[n..]); (w'', n + m)
  }

  /** Having written `n` of the bytes, the loop that is now at `now` is on its way to what it does. */
  ghost predicate WritesAs(start: Writer, bytes: seq<Byte>, now: Writer, n: nat) {
    n <= |bytes| && WriteAll(start, bytes) == (WriteAll(now, bytes[n..]).0, n + WriteAll(now, bytes[n..]).1)
  }

  lemma WriteMore(start: Writer, bytes: seq<Byte>, now: Writer, n: nat)
    requires WritesAs(start, bytes, now, n) && n < |bytes| && Write(now, bytes[n..]).1 > 0
    ensures WritesAs(start, bytes, Write(now, bytes[n..]).0, n + Write(now, bytes[n..]).1)
  {
    var m := Write(now, bytes[n..]).1;
    assert bytes[n..][m..] == bytes[n + m..];
  }

  /** The bytes reported as written are accepted in order, all of them unless a write was refused, and
      the stream stays exact unless a flush failed part-way. */
  lemma {:induction false} WriteAllIsExact(w: Writer, bytes: seq<Byte>)
    requires Consistent(w)
    ensures var (w', n) := WriteAll(w, bytes);
      && Consistent(w') && w'.resent >= w.resent
      && w'.accepted == w.accepted + bytes[..n]
    decreases |bytes|
  {
    if bytes != [] {
      var (w1, n) := Write(w, bytes);
      WriteKeepsConsistent(w, bytes);
      WriteAccepts(w, bytes);
      if n > 0 {
        WriteAllIsExact(w1, bytes[n..]);
        var m := WriteAll(w1, bytes[n..]).1;
        assert bytes[..n] + bytes[n..][..m] == bytes[..n + m];
        assert w.accepted + bytes[..n] + bytes[n..][..m] == w.accepted + (bytes[..n] + bytes[n..][..m]);
      }
    }
  }

  /** Writing exactly stops short only where a write of all the rest has just been refused. */
  lemma {:induction false} WriteAllStopsRefused(w: Writer, bytes: seq<Byte>) returns (last: Writer)
    ensures var (w', n) := WriteAll(w, bytes);
      n < |bytes| ==> Write(last, bytes[n..]) == (w', 0)
    decreases |bytes|
  {
    last := w;
    if bytes != [] {
      var (w1, n) := Write(w, bytes);
      assert bytes[0..] == bytes;
      if n > 0 {
        last := WriteAllStopsRefused(w1, bytes[n..]);
        var m := WriteAll(w1, bytes[n..]).1;
        assert bytes[n..][m..] == bytes[n + m..];
      }
    }
  }

  lemma WriteAccepts(w: Writer, bytes: seq<Byte>)
    ensures Write(w, bytes).0.accepted == w.accepted + bytes[..Write(w, bytes).1]
    ensures Write(w, bytes).0.resent >= w.resent
  {
    FlushWritesOnce(w.out, 0);
  }

  // ----- reading -----

  /** `available` are the bytes in the buffer not read yet, `source` those the device has left; `given`
      and `delivered` log what it gave and what readers got, `refusals` how often it gave nothing. */
  datatype Reader = Reader(
    available: seq<Byte>, source: seq<Byte>, answers: seq<nat>, size: nat,
    given: seq<Byte>, delivered: seq<Byte>, refusals: nat)

  function Refill(r: Reader): Reader
    requires r.available == []
  {
    var n := Answer(r.answers, if r.size <= |r.source| then r.size else |r.source|);
    r.(available := r.source[..n], source := r.source[n..], answers := Rest(r.answers),
       given := r.given + r.source[..n], refusals := r.refusals + if n == 0 then 1 else 0)
  }

  function Deliver(r: Reader, size: nat): (Reader, seq<Byte>) {
    var n := if size < |r.available| then size else |r.available|;
    (r.(available := r.available[n..], delivered := r.delivered + r.available[..n]), r.available[..n])
  }

  function Read(r: Reader, size: nat): (b: (Reader, seq<Byte>))
    ensures |b.1| <= size
  {
    Deliver(if r.available == [] then Refill(r) else r, size)
  }

  /** The readers have got what the device gave, in order, but for what is still buffered. */
  ghost predicate Faithful(r: Reader, all: seq<Byte>) {
    && r.given == r.delivered + r.available
    && all == r.given + r.source
    && |r.available| <= r.size
  }

  /** A read passes the stream on unchanged, and is empty only if nothing was asked for or the device
      gave nothing. */
  lemma ReadIsFaithful(r: Reader, size: nat, all: seq<Byte>)
    requires Faithful(r, all)
    ensures Faithful(Read(r, size).0, all)
    ensures Read(r, size).0.delivered == r.delivered + Read(r, size).1 && |Read(r, size).1| <= size
    ensures Read(r, size).1 == [] <==> size == 0 || Read(r, size).0.refusals > r.refusals
    ensures Read(r, size).0.refusals >= r.refusals
  {
    if r.available == [] {
      var t := Refill(r);
      assert r.source == t.available + t.source;
      assert r.delivered + [] + t.available == r.delivered + t.available;
      assert r.given + r.source == r.given + t.available + t.source;
      DeliverIsFaithful(t, size, all);
    } else {
      DeliverIsFaithful(r, size, all);
    }
  }

  function Min(a: nat, b: nat): nat {
    if a < b then a else b
  }

  /** What a read of `asked` bytes yields and leaves: the first of the bytes buffered, as many as asked for or
      all; only when there are none the device is asked, once, to fill the buffer, and then the first of what it
      gives. */
  ghost predicate ReadOutcome(before: Reader, asked: nat, after: Reader, bytes: seq<Byte>) {
    var a := before.available;
    var n := Answer(before.answers, Min(before.size, |before.source|));
    if a != [] then
      && bytes == a[..Min(asked, |a|)] && after.available == a[Min(asked, |a|)..]
      && after.source == before.source && after.answers == before.answers
    else
      && bytes == before.source[..Min(asked, n)] && after.available == before.source[Min(asked, n)..n]
      && after.source == before.source[n..] && after.answers == Rest(before.answers)
  }

  lemma ReadGives(r: Reader, asked: nat)
    ensures ReadOutcome(r, asked, Read(r, asked).0, Read(r, asked).1) && Read(r, asked).0.size == r.size
  {
    if r.available == [] {
      var n := Answer(r.answers, Min(r.size, |r.source|));
      Slices(r.source, 0, n, Min(asked, n));
      assert r.source[0..n] == r.source[..n];
    }
  }

  lemma DeliverIsFaithful(r: Reader, size: nat, all: seq<Byte>)
    requires Faithful(r, all)
    ensures Faithful(Deliver(r, size).0, all)
  {
    var n := if size < |r.available| then size else |r.available|;
    assert r.available == r.available[..n] + r.available[n..];
    assert r.delivered + r.available == r.delivered + r.available[..n] + r.available[n..];
  }

  lemma DeliverNothing(r: Reader, size: nat)
    requires r.available == []
    ensures Deliver(r, size) == (r, [])
  {
    assert r.available[..0] == [] && r.available[0..] == [] && r.delivered + [] == r.delivered;
  }

  lemma Slices(s: seq<Byte>, a: nat, b: nat, n: nat)
    requires a + n <= b <= |s|
    ensures s[a..b][..n] == s[a..a + n] && s[a..b][n..] == s[a + n..b]
  {
  }

  /** The read buffer, with the device behind it. */
  class ReadBuffer {
    const size: nat
    const data: array<Byte>
    var offset: nat
    var dataSize: nat
    var open: bool
    const readable: bool    // read_fn is set
    var answers: seq<nat>
    var source: seq<Byte>
    ghost var given: seq<Byte>
    ghost var delivered: seq<Byte>
    ghost var refusals: nat

    ghost predicate Valid()
      reads this
    {
      offset <= dataSize <= size == data.Length
    }

    ghost function View(): Reader
      reads this, data
      requires Valid()
    {
      Reader(data[offset..dataSize], source, answers, size, given, delivered, refusals)
    }

    constructor (size: nat, readable: bool, answers: seq<nat>, source: seq<Byte>)
      ensures Valid() && fresh(data) && Faithful(View(), source)
      ensures View() == Reader([], source, answers, size, [], [], 0) && open && this.readable == readable
    {
      this.size := size;
      this.readable := readable;
      data := new Byte[size];
      offset, dataSize := 0, 0;
      open := true;
      this.answers := answers;
      this.source := source;
      given, delivered, refusals := [], [], 0;
    }

    /** The device's read_fn, asked to fill the buffer. */
    method ReadFn() returns (n: nat)
      requires Valid()
      modifies this`answers, this`source, this`given, this`refusals, data
      ensures Valid() && n <= size && n <= |old(source)|
      ensures n == Answer(old(answers), if size <= |old(source)| then size else |old(source)|)
      ensures data[..n] == old(source)[..n] && source == old(source)[n..] && given == old(given) + old(source)[..n]
      ensures answers == Rest(old(answers)) && refusals == old(refusals) + if n == 0 then 1 else 0
    {
      n := Answer(answers, if size <= |source| then size else |source|);
      for i := 0 to n
        invariant data[..i] == source[..i]
        modifies data
      {
        data[i] := source[i];
      }
      answers := Rest(answers);
      given := given + source[..n];
      source := source[n..];
      refusals := refusals + if n == 0 then 1 else 0;
    }

    /** Refills the empty buffer, unless the device gives nothing. */
    method Fill() returns (ok: bool)
      requires Valid() && offset == dataSize
      modifies this, data
      ensures Valid() && open == old(open)
      ensures View() == Refill(old(View())) && ok == (offset < dataSize) == (refusals == old(refusals))
    {
      var n := ReadFn();
      if n == 0 {
        assert old(source)[..0] == [] && old(source)[0..] == old(source);
        return false;
      }
      dataSize := n;
      offset := 0;
      ok := true;
    }

    /** The `memcpy` out of the buffer. */
    method TakeOut(asked: nat) returns (bytes: seq<Byte>)
      requires Valid()
      modifies this`offset, this`delivered
      ensures Valid() && (View(), bytes) == Deliver(old(View()), asked)
      ensures bytes == old(View()).available[..Min(asked, |old(View()).available|)]
    {
      var available := dataSize - offset;
      var n := if asked < available then asked else available;
      Slices(data[..], offset, dataSize, n);
      bytes := data[offset..offset + n];
      offset := offset + n;
      delivered := delivered + bytes;
    }

    /** A read from a buffer that can be read. */
    method ReadSome(asked: nat) returns (bytes: seq<Byte>, gave: bool)
      requires Valid()
      modifies this, data
      ensures Valid() && open == old(open)
      ensures (View(), bytes) == Read(old(View()), asked) && ReadOutcome(old(View()), asked, View(), bytes)
      ensures gave == (refusals == old(refusals)) && refusals >= old(refusals)
      ensures gave ==> (bytes == [] <==> asked == 0)
      ensures !gave ==> bytes == []
    {
      gave := true;
      ReadGives(View(), asked);
      if !(offset < dataSize) {
        assert View().available == [];
        gave := Fill();
        if !gave {
          DeliverNothing(View(), asked);
          return [], false;
        }
      }
      bytes := TakeOut(asked);
    }

    /** `bio_buffered_read`; what it copies to the caller is its result. */
    method BufferedRead(asked: nat) returns (bytes: seq<Byte>, error: Error)
      requires Valid()
      modifies this, data
      ensures Valid() && open == old(open)
      ensures open && readable ==> (View(), bytes) == Read(old(View()), asked)
      ensures open && readable ==> ReadOutcome(old(View()), asked, View(), bytes)
      ensures !(open && readable) ==> bytes == [] && View() == old(View())
      ensures error == InvalidArgument <==> !open
      ensures error == NotSupported <==> open && !readable
      ensures error == DeviceError <==> refusals > old(refusals)
      ensures asked > 0 ==> (bytes == [] <==> error != NoError)
    {
      if !open {
        return [], InvalidArgument;
      }
      if !readable {
        return [], NotSupported;
      }
      var gave;
      bytes, gave := ReadSome(asked);
      error := if gave then NoError else DeviceError;
    }

    /** `bio_buffered_read_exactly` */
    method ReadExactly(asked: nat) returns (bytes: seq<Byte>, error: Error)
      requires Valid()
      modifies this, data
      ensures Valid() && open == old(open)
      ensures open && readable ==> (View(), bytes) == ReadAll(old(View()), asked)
      ensures !(open && readable) ==> bytes == [] && View() == old(View())
      ensures |bytes| <= asked && (|bytes| < asked <==> error != NoError)
    {
      bytes, error := [], NoError;
      while |bytes| < asked
        invariant Valid() && open == old(open) && |bytes| <= asked && error == NoError
        invariant !(open && readable) ==> bytes == [] && View() == old(View())
        invariant open && readable ==> ReadsAs(old(View()), asked, View(), bytes)
        decreases asked - |bytes|
      {
        ghost var before := View();
        var more;
        more, error := BufferedRead(asked - |bytes|);
        if more == [] {
          assert bytes + [] == bytes;
          return;
        }
        if open && readable {
          ReadMore(old(View()), asked, before, bytes);
        }
        bytes := bytes + more;
      }
      assert bytes + [] == bytes;
    }
  }

  /** Repeated reads of what is missing, until nothing is missing or one is empty. */
  function ReadAll(r: Reader, asked: nat): (b: (Reader, seq<Byte>))
    ensures |b.1| <= asked
    decreases asked
  {
    if asked == 0 then (r, [])
    else
      var (r', bytes) := Read(r, asked);
      if bytes == [] then (r', [])
      else var (r'', more) := ReadAll(r', asked - |bytes|); (r'', bytes + more)
  }

  ghost predicate ReadsAs(start: Reader, asked: nat, now: Reader, bytes: seq<Byte>) {
    && |bytes| <= asked
    && ReadAll(start, asked).0 == ReadAll(now, asked - |bytes|).0
    && ReadAll(start, asked).1 == bytes + ReadAll(now, asked - |bytes|).1
  }

  lemma ReadMore(start: Reader, asked: nat, now: Reader, bytes: seq<Byte>)
    requires ReadsAs(start, asked, now, bytes) && |bytes| < asked && Read(now, asked - |bytes|).1 != []
    ensures ReadsAs(start, asked, Read(now, asked - |bytes|).0, bytes + Read(now, asked - |bytes|).1)
  {
    var (r, more) := Read(now, asked - |bytes|);
    var last := ReadAll(r, asked - |bytes| - |more|).1;
    assert bytes + (more + last) == bytes + more + last;
  }

  lemma ReadTwice(r: Reader, r1: Reader, bytes: seq<Byte>, asked: nat)
    requires (r1, bytes) == Read(r, asked) && bytes != [] && r1.delivered == r.delivered + bytes
    ensures ReadAll(r, asked) == (ReadAll(r1, asked - |bytes|).0, bytes + ReadAll(r1, asked - |bytes|).1)
    ensures r1.delivered + ReadAll(r1, asked - |bytes|).1 == r.delivered + ReadAll(r, asked).1
  {
    var more := ReadAll(r1, asked - |bytes|).1;
    assert r.delivered + bytes + more == r.delivered + (bytes + more);
  }

  /** Reading exactly some number of bytes yields the next bytes of the stream, all of them except
      exactly when the device gave nothing. */
  lemma {:induction false} ReadAllIsFaithful(r: Reader, asked: nat, all: seq<Byte>)
    requires Faithful(r, all)
    ensures var (r', bytes) := ReadAll(r, asked);
      && Faithful(r', all) && r'.delivered == r.delivered + bytes
      && (|bytes| < asked <==> r'.refusals > r.refusals)
      && r'.refusals >= r.refusals
    decreases asked
  {
    if asked > 0 {
      ReadIsFaithful(r, asked, all);
      var (r1, bytes) := Read(r, asked);
      if bytes != [] {
        ReadAllIsFaithful(r1, asked - |bytes|, all);
        ReadTwice(r, r1, bytes, asked);
      }
    }
  }
}
