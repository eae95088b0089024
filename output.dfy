/**
 * `CreateOutputBuffer(buffersize)`: the writer the renderer pushes samples
 * into. Every write advances a position counted in fiftieths of a sample
 * by a step that depends on the previous write's index and this one's
 * (a timing table of the original machine), then stores five copies of
 * the value from the sample at that position on, so that a slow step is
 * already covered when the next one lands.
 */
module Output {
  import opened Outcomes

  /** `timetable[previous][index]`, in fiftieths of a sample. */
  function TimeTable(previous: int, index: int): (r: int)
    requires 0 <= previous < 5 && 0 <= index < 5
    ensures 0 <= r <= 226
  {
    match previous
    case 0 => [162, 167, 167, 127, 128][index]
    case 1 => [226, 60, 60, 0, 0][index]
    case 2 => [225, 60, 59, 0, 0][index]
    case 3 => [200, 0, 0, 54, 55][index]
    case _ => [199, 0, 0, 54, 54][index]
  }

  /** What the writer's closure holds: the bytes, `bufferpos` and `oldTimeTableIndex`. */
  datatype Writer = Writer(buffer: seq<int>, bufferpos: int, last: int)

  /** A writer as the closures can leave it: a byte buffer, a position not below 0, a table row. */
  predicate Valid(w: Writer)
  {
    && 0 <= w.bufferpos && 0 <= w.last < 5
    && forall i :: 0 <= i < |w.buffer| ==> 0 <= w.buffer[i] < 256
  }

  /** The sample `bufferpos` stands in: `(bufferpos / 50) | 0`. */
  function Sample(w: Writer): int
  {
    w.bufferpos / 50
  }

  /**
   * The buffer after `buffer[at + k] = values[k]` for every k: a
   * `Uint8Array` keeps each value modulo 256 and ignores a write past its
   * end.
   */
  function Written(buffer: seq<int>, at: int, values: seq<int>): (r: seq<int>)
    ensures |r| == |buffer|
    ensures forall i :: 0 <= i < |r| ==> r[i] == if at <= i < at + |values| then values[i - at] % 256 else buffer[i]
  {
    seq(|buffer|, i requires 0 <= i < |buffer| => if at <= i < at + |values| then values[i - at] % 256 else buffer[i])
  }

  /**
   * `writer.ary(index, array)`: the position always advances; past the end
   * of the buffer the write throws and leaves the bytes and the row alone.
   */
  function Put(w: Writer, index: int, values: seq<int>): (Option<Fault>, Writer)
    requires Valid(w) && 0 <= index < 5
  {
    var pos := w.bufferpos + TimeTable(w.last, index);
    if pos / 50 > |w.buffer| then (Some(BufferOverflow(pos / 50, |w.buffer|)), w.(bufferpos := pos))
    else (None, Writer(Written(w.buffer, pos / 50, values), pos, index))
  }

  /** `[A, A, A, A, A]`. */
  function Five(a: int): (r: seq<int>)
    ensures |r| == 5 && forall k :: 0 <= k < 5 ==> r[k] == a
  {
    [a, a, a, a, a]
  }

  /** `(A & 15) * 16`: the low nibble of A moved to the high nibble. */
  function Nibble(a: int): int
  {
    (a % 16) * 16
  }

  /** `writer.get()`: the bytes before the current sample (a slice stops at the end). */
  function Visible(w: Writer): (r: seq<int>)
    requires 0 <= w.bufferpos
  {
    if Sample(w) <= |w.buffer| then w.buffer[..Sample(w)] else w.buffer
  }

  // ---------------------------------------------------------------------
  // Properties of the writer

  /**
   * A write keeps the writer valid, never moves the position back, keeps
   * the buffer's size, fails exactly when the new sample lies past the
   * end, and changes the row only when it succeeds.
   */
  lemma PutStep(w: Writer, index: int, values: seq<int>)
    requires Valid(w) && 0 <= index < 5
    ensures var (fault, w') := Put(w, index, values);
      && Valid(w')
      && w.bufferpos <= w'.bufferpos <= w.bufferpos + 226
      && |w'.buffer| == |w.buffer|
      && (fault.Some? <==> Sample(w') > |w.buffer|)
      && (fault.Some? ==> fault.value == BufferOverflow(Sample(w'), |w.buffer|) && w'.buffer == w.buffer && w'.last == w.last)
      && (fault.None? ==> w'.last == index)
  {
  }

  /** Once it succeeds, the position has not passed the end of the buffer. */
  lemma PutWithinBuffer(w: Writer, index: int, values: seq<int>)
    requires Valid(w) && 0 <= index < 5
    ensures Put(w, index, values).0.None? ==> Sample(Put(w, index, values).1) <= |w.buffer|
  {
  }

  /**
   * What `get` returns only grows: a write lands at or after the current
   * sample, so the output already before it is never changed.
   */
  lemma VisibleGrows(w: Writer, index: int, values: seq<int>)
    requires Valid(w) && 0 <= index < 5
    ensures var w' := Put(w, index, values).1;
      |Visible(w)| <= |Visible(w')| && Visible(w) == Visible(w')[..|Visible(w)|]
  {
    var w' := Put(w, index, values).1;
    DivMonotone(w.bufferpos, w'.bufferpos);
    assert Sample(w) <= Sample(w');
    var v, v' := Visible(w), Visible(w');
    forall i | 0 <= i < |v|
      ensures v'[i] == v[i]
    {
      assert i < Sample(w');
    }
  }

  lemma DivMonotone(x: int, y: int)
    requires 0 <= x <= y
    ensures x / 50 <= y / 50
  {
  }

  /**
   * The five bytes `writer(index, A)` stores are all `(A & 15) * 16`: a
   * multiple of 16 from 0 to 240 whose high nibble is A's low nibble.
   */
  lemma NibbleBytes(a: int)
    ensures 0 <= Nibble(a) <= 240 && Nibble(a) % 16 == 0
    ensures Nibble(a) / 16 == a % 16 && Nibble(a) % 256 == Nibble(a)
  {
  }

  /**
   * A successful `writer(index, A)` puts `(A & 15) * 16` at the five
   * samples from the new position on, up to the end of the buffer.
   */
  lemma WriterStores(w: Writer, index: int, a: int)
    requires Valid(w) && 0 <= index < 5
    ensures var (fault, w') := Put(w, index, Five(Nibble(a)));
      fault.None? ==>
        forall i :: 0 <= i < |w'.buffer| ==>
          w'.buffer[i] == if Sample(w') <= i < Sample(w') + 5 then Nibble(a) else w.buffer[i]
  {
    NibbleBytes(a);
  }

  // ---------------------------------------------------------------------
  // The writer the closures share

  class OutputBuffer {
    var buffer: array<int>
    var bufferpos: int
    var oldTimeTableIndex: int

    /** The writer's state as a value. */
    function State(): Writer
      reads this, buffer
    {
      Writer(buffer[..], bufferpos, oldTimeTableIndex)
    }

    /** `CreateOutputBuffer(buffersize)`: a zeroed buffer, position 0, row 0. */
    constructor (buffersize: nat)
      ensures fresh(buffer) && Valid(State())
      ensures State() == Writer(seq(buffersize, _ => 0), 0, 0)
    {
      buffer := new int[buffersize](_ => 0);
      bufferpos := 0;
      oldTimeTableIndex := 0;
    }

    /** `writer.ary(index, array)`. */
    method Ary(index: int, values: seq<int>) returns (fault: Option<Fault>)
      requires Valid(State()) && 0 <= index < 5 && |values| == 5
      modifies this, buffer
      ensures buffer == old(buffer)
      ensures (fault, State()) == Put(old(State()), index, values)
    {
      ghost var w := State();
      bufferpos := bufferpos + TimeTable(oldTimeTableIndex, index);
      if bufferpos / 50 > buffer.Length {
        return Some(BufferOverflow(bufferpos / 50, buffer.Length));
      }
      oldTimeTableIndex := index;
      var at := bufferpos / 50;
      var k := 0;
      while k < 5
        invariant 0 <= k <= 5 && buffer == old(buffer)
        invariant bufferpos == w.bufferpos + TimeTable(w.last, index) && oldTimeTableIndex == index
        invariant forall i :: 0 <= i < buffer.Length ==>
          buffer[i] == if at <= i < at + k then values[i - at] % 256 else old(buffer[i])
      {
        if at + k < buffer.Length {
          buffer[at + k] := values[k] % 256;
        }
        k := k + 1;
      }
      forall i | 0 <= i < buffer.Length
        ensures buffer[..][i] == Written(w.buffer, at, values)[i]
      {
        assert w.buffer[i] == old(buffer[i]);
      }
      assert buffer[..] == Written(w.buffer, at, values);
      return None;
    }

    /** `writer.raw(index, A)`: five copies of A. */
    method Raw(index: int, a: int) returns (fault: Option<Fault>)
      requires Valid(State()) && 0 <= index < 5
      modifies this, buffer
      ensures buffer == old(buffer)
      ensures (fault, State()) == Put(old(State()), index, Five(a))
    {
      fault := Ary(index, [a, a, a, a, a]);
    }

    /** `writer(index, A)`: the low nibble of A as a sample byte. */
    method Write(index: int, a: int) returns (fault: Option<Fault>)
      requires Valid(State()) && 0 <= index < 5
      modifies this, buffer
      ensures buffer == old(buffer)
      ensures (fault, State()) == Put(old(State()), index, Five(Nibble(a)))
    {
      fault := Raw(index, (a % 16) * 16);
    }

    /** `writer.get()`. */
    method Get() returns (out: seq<int>)
      requires Valid(State())
      ensures out == Visible(State())
    {
      var end := bufferpos / 50;
      if end <= buffer.Length {
        out := buffer[..end];
      } else {
        out := buffer[..];
      }
    }
  }
}
