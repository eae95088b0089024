/**
 * `CreateFrames`: every output triple is copied into the frame tracks once
 * per unit of its length, and a period or question mark bends the pitch of
 * up to 30 frames before it (`AddInflection`).
 */
module Frames {
  import opened Phonemes
  import opened Voice
  import opened Parser

  const FALLING_INFLECTION: int := 1
  const RISING_INFLECTION: int := 255

  /** The pitch a frame starts with before the inflection walk touches it. */
  const FLAT_PITCH: int := 127
  /** The pitch a running inflection walk steps over. */
  const TOP_PITCH: int := 255

  // ---------------------------------------------------------------------
  // The inflection walk

  /** The first index from i on whose pitch is not level, or |p| when there is none. */
  function SkipLevel(p: seq<int>, i: nat, level: int): (r: nat)
    requires i <= |p|
    ensures i <= r <= |p|
    ensures forall k :: i <= k < r ==> p[k] == level
    ensures r < |p| ==> p[r] != level
    decreases |p| - i
  {
    if i == |p| || p[i] != level then i else SkipLevel(p, i + 1, level)
  }

  /** How many pitches in [lo, hi) the walk writes: those that are not 255. */
  function Walked(p: seq<int>, lo: nat, hi: nat): (r: nat)
    requires lo <= hi <= |p|
    ensures r <= hi - lo
    decreases hi - lo
  {
    if lo == hi then 0 else Walked(p, lo, hi - 1) + (if p[hi - 1] != TOP_PITCH then 1 else 0)
  }

  /**
   * The walk from pos on, a being the value of the accumulator for pos:
   * write `a & 0xFF` at pos, step over the following 255s, and go on with
   * `a + inflection` until the end of the track.
   */
  function InflectFrom(p: seq<int>, pos: nat, a: int, inflection: int): (r: seq<int>)
    requires pos < |p|
    ensures |r| == |p|
    ensures forall k :: 0 <= k < pos ==> r[k] == p[k]
    decreases |p| - pos
  {
    var q := p[pos := a % 256];
    var next := SkipLevel(q, pos + 1, TOP_PITCH);
    if next == |q| then q else InflectFrom(q, next, a + inflection, inflection)
  }

  /** The walk starts 30 frames before the punctuation, or at the first frame. */
  function WalkStart(p: seq<int>): nat
  {
    if |p| < 30 then 0 else |p| - 30
  }

  /**
   * `AddInflection(inflection, |p|, p)`: skip the 127s from the window's
   * start, then walk to the end with the accumulator starting at the first
   * pitch that is not 127.
   */
  function Inflected(p: seq<int>, inflection: int): (r: seq<int>)
    ensures |r| == |p|
  {
    var s := SkipLevel(p, WalkStart(p), FLAT_PITCH);
    if s == |p| then p else InflectFrom(p, s, p[s] + inflection, inflection)
  }

  lemma WalkedSplit(p: seq<int>, lo: nat, mid: nat, hi: nat)
    requires lo <= mid <= hi <= |p|
    ensures Walked(p, lo, hi) == Walked(p, lo, mid) + Walked(p, mid, hi)
    decreases hi - mid
  {
    if mid < hi {
      WalkedSplit(p, lo, mid, hi - 1);
    }
  }

  lemma WalkedSame(p: seq<int>, q: seq<int>, lo: nat, hi: nat)
    requires lo <= hi <= |p| == |q|
    requires forall k :: lo <= k < hi ==> p[k] == q[k]
    ensures Walked(p, lo, hi) == Walked(q, lo, hi)
    decreases hi - lo
  {
    if lo < hi {
      WalkedSame(p, q, lo, hi - 1);
    }
  }

  lemma WalkedNone(p: seq<int>, lo: nat, hi: nat)
    requires lo <= hi <= |p|
    requires forall k :: lo <= k < hi ==> p[k] == TOP_PITCH
    ensures Walked(p, lo, hi) == 0
    decreases hi - lo
  {
    if lo < hi {
      WalkedNone(p, lo, hi - 1);
    }
  }

  /**
   * The walk's closed form: it writes `a` at pos, steps over every later
   * 255, and writes `a + n * inflection` (masked) at the frame it reaches
   * n steps on.
   */
  /** The accumulator after n more steps of the walk. */
  function Accumulated(a: int, inflection: int, n: nat): int
  {
    if n == 0 then a else Accumulated(a, inflection, n - 1) + inflection
  }

  lemma AccumulatedShift(a: int, inflection: int, n: nat)
    ensures Accumulated(a + inflection, inflection, n) == Accumulated(a, inflection, n + 1)
  {
    if n > 0 {
      AccumulatedShift(a, inflection, n - 1);
    }
  }

  /** n steps add n times the inflection. */
  lemma {:induction false} AccumulatedLinear(a: int, inflection: int, n: nat)
    ensures Accumulated(a, inflection, n) == a + n * inflection
  {
    if n > 0 {
      AccumulatedLinear(a, inflection, n - 1);
      assert n * inflection == (n - 1) * inflection + inflection;
    }
  }

  /** Counting from the walk's next stop: every frame between is a 255. */
  lemma WalkedAfterSkip(p: seq<int>, q: seq<int>, pos: nat, next: nat, k: nat)
    requires pos < next <= k < |p| == |q|
    requires forall m :: pos < m < |p| ==> q[m] == p[m]
    requires forall m :: pos < m < next ==> p[m] == TOP_PITCH
    requires p[next] != TOP_PITCH
    ensures Walked(p, pos + 1, k + 1) == 1 + (if next < k then Walked(q, next + 1, k + 1) else 0)
  {
    WalkedSplit(p, pos + 1, next, k + 1);
    WalkedNone(p, pos + 1, next);
    WalkedSplit(p, next, next + 1, k + 1);
    if next < k {
      WalkedSame(p, q, next + 1, k + 1);
    }
  }

  /** The walk writes `a` (masked) at pos and steps over every later 255. */
  lemma {:induction false} InflectWalkTop(p: seq<int>, pos: nat, a: int, inflection: int)
    requires pos < |p|
    ensures var r := InflectFrom(p, pos, a, inflection);
      && r[pos] == a % 256
      && (forall k :: pos < k < |p| && p[k] == TOP_PITCH ==> r[k] == TOP_PITCH)
    decreases |p| - pos
  {
    var r := InflectFrom(p, pos, a, inflection);
    var q := p[pos := a % 256];
    var next := SkipLevel(q, pos + 1, TOP_PITCH);
    if next < |q| {
      assert r == InflectFrom(q, next, a + inflection, inflection);
      InflectWalkTop(q, next, a + inflection, inflection);
      forall k | pos < k < |p| && p[k] == TOP_PITCH
        ensures r[k] == TOP_PITCH
      {
        assert q[k] == p[k];
      }
    }
  }

  /**
   * The walk's closed form: the frame it reaches n steps after pos gets
   * `a + n * inflection` (masked; `AccumulatedLinear`).
   */
  lemma {:induction false} InflectWalk(p: seq<int>, pos: nat, a: int, inflection: int)
    requires pos < |p|
    ensures var r := InflectFrom(p, pos, a, inflection);
      forall k :: pos < k < |p| && p[k] != TOP_PITCH ==>
        r[k] == Accumulated(a, inflection, Walked(p, pos + 1, k + 1)) % 256
    decreases |p| - pos
  {
    var r := InflectFrom(p, pos, a, inflection);
    var q := p[pos := a % 256];
    var next := SkipLevel(q, pos + 1, TOP_PITCH);
    if next < |q| {
      assert r == InflectFrom(q, next, a + inflection, inflection);
      InflectWalk(q, next, a + inflection, inflection);
      InflectWalkTop(q, next, a + inflection, inflection);
      forall k | pos < k < |p| && p[k] != TOP_PITCH
        ensures r[k] == Accumulated(a, inflection, Walked(p, pos + 1, k + 1)) % 256
      {
        WalkReaches(p, q, r, pos, next, a, inflection, k);
      }
    }
  }

  /** One frame past the walk's next stop gets the count from pos, once the count from the stop is known. */
  lemma WalkReaches(p: seq<int>, q: seq<int>, r: seq<int>, pos: nat, next: nat, a: int, inflection: int, k: nat)
    requires pos < k < |p| == |r| && p[k] != TOP_PITCH
    requires q == p[pos := a % 256] && next == SkipLevel(q, pos + 1, TOP_PITCH) && next < |q|
    requires r[next] == (a + inflection) % 256
    requires next < k ==> r[k] == Accumulated(a + inflection, inflection, Walked(q, next + 1, k + 1)) % 256
    ensures r[k] == Accumulated(a, inflection, Walked(p, pos + 1, k + 1)) % 256
  {
    assert q[k] == p[k];
    WalkedAfterSkip(p, q, pos, next, k);
    if next < k {
      AccumulatedShift(a, inflection, Walked(q, next + 1, k + 1));
    }
  }

  /**
   * `AddInflection` in closed form: nothing before the first pitch of the
   * window that is not 127 changes; that pitch gets `+ inflection`; after
   * it every 255 is stepped over and the n-th pitch written gets
   * `+ n * inflection` (`AccumulatedLinear`), masked to a byte.
   */
  lemma InflectedClosedForm(p: seq<int>, inflection: int)
    ensures var r := Inflected(p, inflection);
      var s := SkipLevel(p, WalkStart(p), FLAT_PITCH);
      && (forall k :: 0 <= k < s ==> r[k] == p[k])
      && (forall k :: s < k < |p| && p[k] == TOP_PITCH ==> r[k] == TOP_PITCH)
      && (forall k :: s <= k < |p| && (k == s || p[k] != TOP_PITCH) ==>
            r[k] == Accumulated(p[s], inflection, 1 + Walked(p, s + 1, k + 1)) % 256)
  {
    var s := SkipLevel(p, WalkStart(p), FLAT_PITCH);
    if s < |p| {
      var r := Inflected(p, inflection);
      var a := p[s] + inflection;
      assert r == InflectFrom(p, s, a, inflection);
      InflectWalkTop(p, s, a, inflection);
      InflectWalk(p, s, a, inflection);
      forall k | s <= k < |p| && (k == s || p[k] != TOP_PITCH)
        ensures r[k] == Accumulated(p[s], inflection, 1 + Walked(p, s + 1, k + 1)) % 256
      {
        var w := if k == s then 0 else Walked(p, s + 1, k + 1);
        assert r[k] == Accumulated(a, inflection, w) % 256;
        assert Walked(p, s + 1, s + 1) == 0;
        AccumulatedShift(p[s], inflection, w);
      }
    }
  }

  /** The inflection never reaches more than 30 frames back. */
  lemma InflectedWindow(p: seq<int>, inflection: int)
    ensures forall k :: 0 <= k < |p| - 30 ==> Inflected(p, inflection)[k] == p[k]
  {
    InflectedClosedForm(p, inflection);
  }

  /** Every pitch the walk touches it leaves a byte. */
  lemma InflectedBytes(p: seq<int>, inflection: int)
    requires forall k :: 0 <= k < |p| ==> 0 <= p[k] < 256
    ensures forall k :: 0 <= k < |p| ==> 0 <= Inflected(p, inflection)[k] < 256
  {
    InflectedClosedForm(p, inflection);
  }

  // ---------------------------------------------------------------------
  // The frame tracks

  /** The parallel frame tracks: pitch, F1..F3, their amplitudes, the sample flags. */
  datatype Tracks = Tracks(pitches: seq<int>, f1: seq<int>, f2: seq<int>, f3: seq<int>,
                           a1: seq<int>, a2: seq<int>, a3: seq<int>, flags: seq<int>)
  {
    predicate Valid()
    {
      && |f1| == |pitches| && |f2| == |pitches| && |f3| == |pitches|
      && |a1| == |pitches| && |a2| == |pitches| && |a3| == |pitches| && |flags| == |pitches|
    }
  }

  /** One frame: a value for each track. */
  datatype Frame = Frame(pitch: int, f1: int, f2: int, f3: int, a1: int, a2: int, a3: int, flag: int)

  const NoTracks: Tracks := Tracks([], [], [], [], [], [], [], [])

  /** Frame X of every track gets f's value. */
  function Push(t: Tracks, f: Frame): (r: Tracks)
    requires t.Valid()
    ensures r.Valid() && |r.pitches| == |t.pitches| + 1
  {
    Tracks(t.pitches + [f.pitch], t.f1 + [f.f1], t.f2 + [f.f2], t.f3 + [f.f3],
           t.a1 + [f.a1], t.a2 + [f.a2], t.a3 + [f.a3], t.flags + [f.flag])
  }

  function Copies(n: nat, v: int): (r: seq<int>)
    ensures |r| == n && forall k :: 0 <= k < n ==> r[k] == v
  {
    seq(n, _ => v)
  }

  /** n more frames, each a copy of f. */
  function Repeat(t: Tracks, f: Frame, n: nat): (r: Tracks)
    requires t.Valid()
    ensures r.Valid() && |r.pitches| == |t.pitches| + n
  {
    Tracks(t.pitches + Copies(n, f.pitch), t.f1 + Copies(n, f.f1), t.f2 + Copies(n, f.f2),
           t.f3 + Copies(n, f.f3), t.a1 + Copies(n, f.a1), t.a2 + Copies(n, f.a2),
           t.a3 + Copies(n, f.a3), t.flags + Copies(n, f.flag))
  }

  lemma CopiesGrow(s: seq<int>, n: nat, v: int)
    ensures s + Copies(n, v) + [v] == s + Copies(n + 1, v)
  {
    assert Copies(n, v) + [v] == Copies(n + 1, v);
  }

  lemma RepeatNone(t: Tracks, f: Frame)
    requires t.Valid()
    ensures Repeat(t, f, 0) == t
  {
    assert forall s: seq<int>, v :: s + Copies(0, v) == s;
  }

  /** One frame more is one copy more. */
  lemma RepeatGrows(t: Tracks, f: Frame, n: nat)
    requires t.Valid()
    ensures Push(Repeat(t, f, n), f) == Repeat(t, f, n + 1)
  {
    CopiesGrow(t.pitches, n, f.pitch);
    CopiesGrow(t.f1, n, f.f1);
    CopiesGrow(t.f2, n, f.f2);
    CopiesGrow(t.f3, n, f.f3);
    CopiesGrow(t.a1, n, f.a1);
    CopiesGrow(t.a2, n, f.a2);
    CopiesGrow(t.a3, n, f.a3);
    CopiesGrow(t.flags, n, f.flag);
  }

  /** `table[i]`, where an id outside the table reads 0. */
  function Entry(table: seq<int>, i: int): int
  {
    if 0 <= i < |table| then table[i] else 0
  }

  /**
   * `(pitch + stressPitch[stress + 1]) & 0xFF`; a stress outside the table
   * reads `undefined`, and the masked `NaN` is 0.
   */
  function StressedPitch(pitch: int, stress: int): (r: int)
    ensures 0 <= r < 256
  {
    if -1 <= stress < 10 then (pitch + StressPitch(stress + 1)) % 256 else 0
  }

  /** The frame a triple is copied into. */
  function TokenFrame(pitch: int, tuple: Triple, freq: Formants): Frame
  {
    Frame(StressedPitch(pitch, tuple.stress),
          Entry(freq.f1, tuple.id), Entry(freq.f2, tuple.id), Entry(freq.f3, tuple.id),
          PackedByte(AmplitudeEntry(tuple.id), 0), PackedByte(AmplitudeEntry(tuple.id), 1),
          PackedByte(AmplitudeEntry(tuple.id), 2), SampledConsonantFlags(tuple.id))
  }

  /** The number of frames a triple gets: its length, or none for a length <= 0. */
  function Duration(tuple: Triple): nat
  {
    if tuple.length > 0 then tuple.length else 0
  }

  /** The total number of frames. */
  function FrameCount(tuples: seq<Triple>): nat
  {
    if |tuples| == 0 then 0 else FrameCount(tuples[..|tuples| - 1]) + Duration(tuples[|tuples| - 1])
  }

  /** A period bends the pitch down, a question mark up; other ids do nothing. */
  function Inflect(t: Tracks, id: int): (r: Tracks)
    requires t.Valid()
    ensures r.Valid() && r == t.(pitches := r.pitches)
  {
    if id == PHONEME_PERIOD then t.(pitches := Inflected(t.pitches, FALLING_INFLECTION))
    else if id == PHONEME_QUESTION then t.(pitches := Inflected(t.pitches, RISING_INFLECTION))
    else t
  }

  /** The tracks `CreateFrames` returns. */
  function Framed(pitch: int, tuples: seq<Triple>, freq: Formants): (r: Tracks)
    ensures r.Valid() && |r.pitches| == FrameCount(tuples)
  {
    if |tuples| == 0 then NoTracks
    else
      var last := tuples[|tuples| - 1];
      Repeat(Inflect(Framed(pitch, tuples[..|tuples| - 1], freq), last.id),
             TokenFrame(pitch, last, freq), Duration(last))
  }

  /** The JavaScript arrays `CreateFrames` fills. */
  class FrameArrays {
    var pitches: seq<int>
    var f1: seq<int>
    var f2: seq<int>
    var f3: seq<int>
    var a1: seq<int>
    var a2: seq<int>
    var a3: seq<int>
    var flags: seq<int>

    function Contents(): Tracks
      reads this
    {
      Tracks(pitches, f1, f2, f3, a1, a2, a3, flags)
    }

    constructor ()
      ensures Contents() == NoTracks
    {
      pitches, f1, f2, f3 := [], [], [], [];
      a1, a2, a3, flags := [], [], [], [];
    }

    /** Frame X of every track gets f's value, X being the frames written so far. */
    method Append(f: Frame)
      requires Contents().Valid()
      modifies this
      ensures Contents() == Push(old(Contents()), f)
    {
      f1 := f1 + [f.f1];
      f2 := f2 + [f.f2];
      f3 := f3 + [f.f3];
      a1 := a1 + [f.a1];
      a2 := a2 + [f.a2];
      a3 := a3 + [f.a3];
      flags := flags + [f.flag];
      pitches := pitches + [f.pitch];
    }

    /** `AddInflection(inflection, pos, pitches)`, pos being the frames written so far. */
    method AddInflection(inflection: int, pos: nat)
      requires pos == |pitches|
      modifies this
      ensures Contents() == old(Contents()).(pitches := Inflected(old(pitches), inflection))
    {
      pitches := InflectPitches(inflection, pos, pitches);
    }
  }

  /** The loops of `AddInflection`, run over the pitch track p. */
  method InflectPitches(inflection: int, pos: nat, p: seq<int>) returns (r: seq<int>)
    requires pos == |p|
    ensures r == Inflected(p, inflection)
  {
    var i: nat := if pos < 30 then 0 else pos - 30;
    i := Skip(p, i, FLAT_PITCH);
    if i == pos {
      return p;
    }
    r := Walk(p, i, p[i] + inflection, inflection);
  }

  /** `while (pos !== end)`: the walk from pos to the end, a being the accumulator after its `+=`. */
  method Walk(p: seq<int>, pos: nat, a: int, inflection: int) returns (r: seq<int>)
    requires pos < |p|
    ensures r == InflectFrom(p, pos, a, inflection)
  {
    ghost var goal := InflectFrom(p, pos, a, inflection);
    r := p;
    var i := pos;
    var b := a;
    while i != |r|
      invariant i <= |r| == |p|
      invariant i < |r| ==> InflectFrom(r, i, b, inflection) == goal
      invariant i == |r| ==> r == goal
      decreases |r| - i
    {
      InflectAdvance(r, i, b, inflection, goal);
      r := r[i := b % 256];
      b := b + inflection;
      i := Skip(r, i + 1, TOP_PITCH);
    }
  }

  /** One turn of the walk: write at pos and go on from the next pitch that is not 255. */
  lemma InflectAdvance(p: seq<int>, pos: nat, a: int, inflection: int, goal: seq<int>)
    requires pos < |p| && InflectFrom(p, pos, a, inflection) == goal
    ensures var q := p[pos := a % 256];
      var next := SkipLevel(q, pos + 1, TOP_PITCH);
      (next < |q| ==> InflectFrom(q, next, a + inflection, inflection) == goal) && (next == |q| ==> q == goal)
  {
  }

  /** `while (pitches[pos] === level) ++pos`, stopping at the end of the track. */
  method Skip(p: seq<int>, from: nat, level: int) returns (i: nat)
    requires from <= |p|
    ensures i == SkipLevel(p, from, level)
  {
    i := from;
    while i != |p| && p[i] == level
      invariant from <= i <= |p|
      invariant SkipLevel(p, i, level) == SkipLevel(p, from, level)
      decreases |p| - i
    {
      i := i + 1;
    }
  }

  /** One more triple: its inflection, then its frames. */
  lemma FramedStep(pitch: int, tuples: seq<Triple>, freq: Formants, i: nat)
    requires i < |tuples|
    ensures Framed(pitch, tuples[..i + 1], freq)
      == Repeat(Inflect(Framed(pitch, tuples[..i], freq), tuples[i].id), TokenFrame(pitch, tuples[i], freq), Duration(tuples[i]))
  {
    assert tuples[..i + 1][..i] == tuples[..i];
  }

  /** `CreateFrames(pitch, tuples, frequencyData)`. */
  method CreateFrames(pitch: int, tuples: seq<Triple>, freq: Formants) returns (frames: FrameArrays)
    ensures fresh(frames) && frames.Contents() == Framed(pitch, tuples, freq)
  {
    frames := new FrameArrays();
    var x: nat := 0;
    var i := 0;
    while i < |tuples|
      invariant 0 <= i <= |tuples|
      invariant frames.Contents() == Framed(pitch, tuples[..i], freq) && x == |frames.pitches|
      modifies frames
    {
      FramedStep(pitch, tuples, freq, i);
      var phoneme := tuples[i].id;
      if phoneme == PHONEME_PERIOD {
        frames.AddInflection(FALLING_INFLECTION, x);
      } else if phoneme == PHONEME_QUESTION {
        frames.AddInflection(RISING_INFLECTION, x);
      }
      ghost var start := frames.Contents();
      assert start == Inflect(Framed(pitch, tuples[..i], freq), phoneme);
      var f := TokenFrame(pitch, tuples[i], freq);
      var n := tuples[i].length;
      ghost var done: nat := 0;
      RepeatNone(start, f);
      while n > 0
        invariant done + (if n > 0 then n else 0) == Duration(tuples[i])
        invariant frames.Contents() == Repeat(start, f, done)
        invariant x == |frames.pitches|
        modifies frames
      {
        RepeatGrows(start, f, done);
        frames.Append(f);
        x := x + 1;
        n := n - 1;
        done := done + 1;
      }
      assert frames.Contents() == Framed(pitch, tuples[..i + 1], freq);
      i := i + 1;
    }
    assert tuples[..i] == tuples;
  }

  // ---------------------------------------------------------------------
  // What the frames hold

  /** Index of the first frame of triple i. */
  function FirstFrame(tuples: seq<Triple>, i: nat): (r: nat)
    requires i <= |tuples|
    ensures i < |tuples| ==> r + Duration(tuples[i]) <= FrameCount(tuples)
  {
    if i < |tuples| then FrameCountPrefix(tuples, i); FrameCount(tuples[..i])
    else FrameCount(tuples[..i])
  }

  lemma FrameCountPrefix(tuples: seq<Triple>, i: nat)
    requires i < |tuples|
    ensures FrameCount(tuples[..i]) + Duration(tuples[i]) <= FrameCount(tuples)
    decreases |tuples| - i
  {
    var n := |tuples|;
    assert tuples[..n - 1][..i] == tuples[..i];
    if i < n - 1 {
      FrameCountPrefix(tuples[..n - 1], i);
      assert tuples[..n - 1][i] == tuples[i];
    } else {
      assert tuples[..i] == tuples[..n - 1];
    }
  }

  /**
   * Frame j of triple i carries that triple's formants, amplitudes and
   * sample flags: the inflection touches only the pitch track.
   */
  lemma FramesCopyTables(pitch: int, tuples: seq<Triple>, freq: Formants, i: nat, j: nat)
    requires i < |tuples| && j < Duration(tuples[i])
    ensures var r := Framed(pitch, tuples, freq);
      var x := FirstFrame(tuples, i) + j;
      var id := tuples[i].id;
      && r.f1[x] == Entry(freq.f1, id) && r.f2[x] == Entry(freq.f2, id) && r.f3[x] == Entry(freq.f3, id)
      && r.a1[x] == PackedByte(AmplitudeEntry(id), 0) && r.a2[x] == PackedByte(AmplitudeEntry(id), 1)
      && r.a3[x] == PackedByte(AmplitudeEntry(id), 2) && r.flags[x] == SampledConsonantFlags(id)
  {
    FramedTables(pitch, tuples, freq, i, j);
  }

  /** Frame x without its pitch: what every track but the pitch track holds there. */
  function TablesAt(t: Tracks, x: nat): Frame
    requires t.Valid() && x < |t.pitches|
  {
    Frame(0, t.f1[x], t.f2[x], t.f3[x], t.a1[x], t.a2[x], t.a3[x], t.flags[x])
  }

  /** The repeated frames follow the old ones, which stay where they were. */
  lemma RepeatTables(t: Tracks, f: Frame, n: nat, x: nat)
    requires t.Valid() && x < |t.pitches| + n
    ensures TablesAt(Repeat(t, f, n), x) == if x < |t.pitches| then TablesAt(t, x) else f.(pitch := 0)
  {
  }

  lemma {:induction false} FramedTables(pitch: int, tuples: seq<Triple>, freq: Formants, i: nat, j: nat)
    requires i < |tuples| && j < Duration(tuples[i])
    ensures FirstFrame(tuples, i) + j < FrameCount(tuples)
    ensures TablesAt(Framed(pitch, tuples, freq), FirstFrame(tuples, i) + j)
      == TokenFrame(pitch, tuples[i], freq).(pitch := 0)
    decreases |tuples|
  {
    var n := |tuples|;
    var prefix := tuples[..n - 1];
    var last := tuples[n - 1];
    var before := Framed(pitch, prefix, freq);
    var x := FirstFrame(tuples, i) + j;
    assert prefix[..i] == tuples[..i];
    RepeatTables(Inflect(before, last.id), TokenFrame(pitch, last, freq), Duration(last), x);
    if i < n - 1 {
      assert prefix[i] == tuples[i];
      FramedTables(pitch, prefix, freq, i, j);
      assert TablesAt(Inflect(before, last.id), x) == TablesAt(before, x);
    } else {
      assert tuples[..i] == prefix;
    }
  }

  /** A period or question mark among the triples after i, starting within 30 frames of x. */
  predicate InflectedNear(tuples: seq<Triple>, i: nat, x: nat)
    requires i < |tuples|
  {
    exists k :: i < k < |tuples| && (tuples[k].id == PHONEME_PERIOD || tuples[k].id == PHONEME_QUESTION)
      && FirstFrame(tuples, k) <= x + 30
  }

  /** No punctuation near x after triple i stays true when the last triple is dropped. */
  lemma NotNearPrefix(tuples: seq<Triple>, i: nat, x: nat)
    requires i < |tuples| - 1
    requires !InflectedNear(tuples, i, x)
    ensures !InflectedNear(tuples[..|tuples| - 1], i, x)
  {
    var prefix := tuples[..|tuples| - 1];
    forall k | i < k < |prefix|
      ensures !((prefix[k].id == PHONEME_PERIOD || prefix[k].id == PHONEME_QUESTION) && FirstFrame(prefix, k) <= x + 30)
    {
      assert prefix[k] == tuples[k] && prefix[..k] == tuples[..k];
    }
  }

  /** The last triple's inflection leaves a frame more than 30 frames back alone. */
  lemma LastKeepsPitch(pitch: int, tuples: seq<Triple>, freq: Formants, x: nat)
    requires |tuples| > 0
    requires var n := |tuples|;
      x + 30 < FrameCount(tuples[..n - 1])
      || (tuples[n - 1].id != PHONEME_PERIOD && tuples[n - 1].id != PHONEME_QUESTION)
    requires x < FrameCount(tuples[..|tuples| - 1])
    ensures Framed(pitch, tuples, freq).pitches[x] == Framed(pitch, tuples[..|tuples| - 1], freq).pitches[x]
  {
    var before := Framed(pitch, tuples[..|tuples| - 1], freq);
    InflectedWindow(before.pitches, FALLING_INFLECTION);
    InflectedWindow(before.pitches, RISING_INFLECTION);
  }

  /**
   * A frame keeps the pitch its triple's stress gives it unless a period or
   * question mark starts at most 30 frames after it.
   */
  lemma {:induction false} PitchesFromStress(pitch: int, tuples: seq<Triple>, freq: Formants, i: nat, j: nat)
    requires i < |tuples| && j < Duration(tuples[i])
    requires !InflectedNear(tuples, i, FirstFrame(tuples, i) + j)
    ensures Framed(pitch, tuples, freq).pitches[FirstFrame(tuples, i) + j] == StressedPitch(pitch, tuples[i].stress)
    decreases |tuples|
  {
    var n := |tuples|;
    var prefix := tuples[..n - 1];
    assert prefix[..i] == tuples[..i];
    var x := FirstFrame(tuples, i) + j;
    if i < n - 1 {
      assert prefix[i] == tuples[i];
      NotNearPrefix(tuples, i, x);
      PitchesFromStress(pitch, prefix, freq, i, j);
      assert tuples[..n - 1] == prefix;
      assert FirstFrame(prefix, i) + Duration(tuples[i]) <= FrameCount(prefix);
      assert !((tuples[n - 1].id == PHONEME_PERIOD || tuples[n - 1].id == PHONEME_QUESTION)
               && FirstFrame(tuples, n - 1) <= x + 30);
      LastKeepsPitch(pitch, tuples, freq, x);
    } else {
      assert tuples[..i] == prefix;
    }
  }

  /** Every pitch `CreateFrames` writes, inflected or not, is a byte. */
  lemma {:induction false} PitchesAreBytes(pitch: int, tuples: seq<Triple>, freq: Formants)
    ensures forall x :: 0 <= x < FrameCount(tuples) ==> 0 <= Framed(pitch, tuples, freq).pitches[x] < 256
    decreases |tuples|
  {
    if |tuples| > 0 {
      var prefix := tuples[..|tuples| - 1];
      PitchesAreBytes(pitch, prefix, freq);
      var before := Framed(pitch, prefix, freq);
      assert forall k :: 0 <= k < |before.pitches| ==> 0 <= before.pitches[k] < 256;
      var last := tuples[|tuples| - 1];
      var bent := Inflect(before, last.id);
      InflectedBytes(before.pitches, FALLING_INFLECTION);
      InflectedBytes(before.pitches, RISING_INFLECTION);
      var r := Framed(pitch, tuples, freq);
      forall x | 0 <= x < |r.pitches|
        ensures 0 <= r.pitches[x] < 256
      {
        if x < |bent.pitches| {
          assert r.pitches[x] == bent.pitches[x];
        } else {
          assert r.pitches[x] == StressedPitch(pitch, last.stress);
        }
      }
    }
  }
}
