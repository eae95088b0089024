/**
 * `CreateTransitions`: across the boundary of each pair of neighbouring
 * phonemes the pitch, formant and amplitude tracks are ramped by
 * `interpolate`, an integer ramp that carries its remainder from frame to
 * frame.
 *
 * The tracks are plain JS arrays here: an index nobody wrote reads
 * `undefined`, arithmetic on it gives `NaN`, and a write at any index
 * (past the end, or negative) simply stores there. A track is therefore a
 * map from index to `Num`.
 */
module Transitions {
  import opened Phonemes
  import opened Parser
  import opened Frames
  import Voice

  /** A JS number that is an integer, or `undefined`/`NaN` (which behave alike here). */
  datatype Num = Int(v: int) | NaN

  /** One track as the JS array holds it. */
  type Table = map<int, Num>

  /** `tables[t][i]`. */
  function Read(t: Table, i: int): Num
  {
    if i in t then t[i] else NaN
  }

  function Plus(a: Num, b: Num): (r: Num)
    ensures r.Int? <==> a.Int? && b.Int?
  {
    if a.Int? && b.Int? then Int(a.v + b.v) else NaN
  }

  function Minus(a: Num, b: Num): (r: Num)
    ensures r.Int? <==> a.Int? && b.Int?
  {
    if a.Int? && b.Int? then Int(a.v - b.v) else NaN
  }

  function Abs(x: int): nat
  {
    if x < 0 then -x else x
  }

  /** `(d / width) | 0`: the quotient truncated toward zero; `NaN | 0` is 0. */
  function Div(d: Num, width: int): int
    requires width > 0
  {
    if d.NaN? then 0 else if d.v < 0 then -(Abs(d.v) / width) else d.v / width
  }

  /** `Math.abs(d) % width`. */
  function Remainder(d: Num, width: int): Num
    requires width > 0
  {
    if d.NaN? then NaN else Int(Abs(d.v) % width)
  }

  /**
   * One turn of the `interpolate` loop from the value at `frame`: the value
   * written at `frame + 1` and the new error. div, remainder and sign are
   * the loop's constants for the delta being spread.
   */
  function StepValue(t: Table, frame: int, width: int, div: int, remainder: Num, sign: bool, error: Num): (Num, Num)
  {
    var val := Plus(Read(t, frame), Int(div));
    var e := Plus(error, remainder);
    if e.Int? && e.v >= width then
      var adjusted :=
        if sign then Plus(val, Int(-1))
        else if val.Int? && val.v != 0 then Plus(val, Int(1))
        else val;
      (adjusted, Int(e.v - width))
    else (val, e)
  }

  /** n turns of the loop, the first writing `frame + 1`. */
  function Steps(t: Table, frame: int, n: nat, width: int, div: int, remainder: Num, sign: bool, error: Num): Table
    decreases n
  {
    if n == 0 then t
    else
      var (val, e) := StepValue(t, frame, width, div, remainder, sign, error);
      Steps(t[frame + 1 := val], frame + 1, n - 1, width, div, remainder, sign, e)
  }

  /** The track after `interpolate(width, table, frame, d)`: width - 1 turns, none for width <= 1. */
  function Interpolated(t: Table, width: int, frame: int, d: Num): Table
  {
    if width <= 1 then t
    else Steps(t, frame, width - 1, width, Div(d, width), Remainder(d, width), d.Int? && d.v < 0, Int(0))
  }

  /**
   * Where a ramp from s by d across width frames stands k frames in,
   * rounding toward s. A ramp from 0 upward by less than one per frame
   * stays at 0, since the loop never increments a zero value.
   */
  function Ramp(s: int, d: int, width: int, k: nat): int
    requires width > 0
  {
    if s == 0 && 0 <= d < width then 0
    else if d < 0 then s - (k * Abs(d)) / width
    else s + (k * d) / width
  }

  // ---------------------------------------------------------------------
  // What a ramp writes

  /** The loop writes frame + 1 .. frame + n and leaves every other index as it was. */
  lemma {:induction false} StepsOutside(t: Table, frame: int, n: nat, width: int, div: int, remainder: Num,
                                        sign: bool, error: Num)
    ensures forall i :: (i <= frame || i > frame + n) ==> Read(Steps(t, frame, n, width, div, remainder, sign, error), i) == Read(t, i)
    ensures forall i :: i in t ==> i in Steps(t, frame, n, width, div, remainder, sign, error)
    ensures forall i :: frame < i <= frame + n ==> i in Steps(t, frame, n, width, div, remainder, sign, error)
    decreases n
  {
    if n > 0 {
      var (val, e) := StepValue(t, frame, width, div, remainder, sign, error);
      StepsOutside(t[frame + 1 := val], frame + 1, n - 1, width, div, remainder, sign, e);
    }
  }

  /** `interpolate(width, t, frame, d)` writes exactly the indices frame + 1 .. frame + width - 1. */
  lemma InterpolatedOutside(t: Table, width: int, frame: int, d: Num)
    ensures forall i :: (i <= frame || i >= frame + width) ==> Read(Interpolated(t, width, frame, d), i) == Read(t, i)
    ensures forall i :: frame < i < frame + width ==> i in Interpolated(t, width, frame, d)
  {
    if width > 1 {
      StepsOutside(t, frame, width - 1, width, Div(d, width), Remainder(d, width), d.Int? && d.v < 0, Int(0));
    }
  }

  /** With an undefined start every written value is `NaN`. */
  lemma {:induction false} StepsUndefined(t: Table, frame: int, n: nat, width: int, div: int, remainder: Num,
                                          sign: bool, error: Num)
    requires Read(t, frame).NaN?
    ensures forall i :: frame < i <= frame + n ==> Read(Steps(t, frame, n, width, div, remainder, sign, error), i).NaN?
    decreases n
  {
    if n > 0 {
      var (val, e) := StepValue(t, frame, width, div, remainder, sign, error);
      var t' := t[frame + 1 := val];
      StepsUndefined(t', frame + 1, n - 1, width, div, remainder, sign, e);
      StepsOutside(t', frame + 1, n - 1, width, div, remainder, sign, e);
    }
  }

  /** A ramp starting from an index nobody wrote fills its window with `NaN`. */
  lemma InterpolatedUndefined(t: Table, width: int, frame: int, d: Num)
    requires Read(t, frame).NaN?
    ensures forall i :: frame < i < frame + width ==> Read(Interpolated(t, width, frame, d), i).NaN?
  {
    if width > 1 {
      StepsUndefined(t, frame, width - 1, width, Div(d, width), Remainder(d, width), d.Int? && d.v < 0, Int(0));
    }
  }

  /** With a `NaN` remainder the error never reaches width and no adjustment happens. */
  lemma HoldStep(t: Table, frame: int, width: int, sign: bool, error: Num)
    ensures StepValue(t, frame, width, 0, NaN, sign, error) == (Read(t, frame), NaN)
  {
  }

  lemma {:induction false} StepsHold(t: Table, frame: int, n: nat, width: int, sign: bool, error: Num)
    ensures forall i :: frame < i <= frame + n ==> Read(Steps(t, frame, n, width, 0, NaN, sign, error), i) == Read(t, frame)
    decreases n
  {
    if n > 0 {
      HoldStep(t, frame, width, sign, error);
      var t' := t[frame + 1 := Read(t, frame)];
      assert Steps(t, frame, n, width, 0, NaN, sign, error) == Steps(t', frame + 1, n - 1, width, 0, NaN, sign, NaN);
      StepsHold(t', frame + 1, n - 1, width, sign, NaN);
      StepsOutside(t', frame + 1, n - 1, width, 0, NaN, sign, NaN);
    }
  }

  /** A `NaN` delta (an endpoint nobody wrote) copies the start value across the window. */
  lemma InterpolatedHold(t: Table, width: int, frame: int, d: Num)
    requires d.NaN?
    ensures forall i :: frame < i < frame + width ==> Read(Interpolated(t, width, frame, d), i) == Read(t, frame)
  {
    if width > 1 {
      StepsHold(t, frame, width - 1, width, false, Int(0));
    }
  }

  /** Division by a positive divisor has one quotient and one remainder. */
  lemma DivUnique(x: int, w: int, q: int, m: int)
    requires w > 0 && x == w * q + m && 0 <= m < w
    ensures x / w == q && x % w == m
  {
    var q0, m0 := x / w, x % w;
    assert w * (q0 - q) == m - m0;
    if q0 > q {
      Voice.MulMonotone(1, q0 - q, w);
    } else if q0 < q {
      Voice.MulMonotone(1, q - q0, w);
    }
  }

  /**
   * Turn j + 1 of a ramp spreading D over width w: the running error after
   * j turns is j * (D % w) % w, and it crosses w exactly when the quotient
   * j * D / w grows by one more than D / w.
   */
  lemma ErrorStep(dAbs: nat, w: int, j: nat)
    requires w > 0
    ensures (j * (dAbs % w)) % w + dAbs % w >= w ==>
      ((j + 1) * (dAbs % w)) % w == (j * (dAbs % w)) % w + dAbs % w - w
      && ((j + 1) * dAbs) / w == (j * dAbs) / w + dAbs / w + 1
    ensures (j * (dAbs % w)) % w + dAbs % w < w ==>
      ((j + 1) * (dAbs % w)) % w == (j * (dAbs % w)) % w + dAbs % w
      && ((j + 1) * dAbs) / w == (j * dAbs) / w + dAbs / w
  {
    var q, r := dAbs / w, dAbs % w;
    var a, m := (j * r) / w, (j * r) % w;
    assert dAbs == w * q + r;
    assert j * dAbs == w * (j * q + a) + m by {
      assert j * dAbs == j * (w * q) + j * r;
      assert j * (w * q) == w * (j * q);
    }
    DivUnique(j * dAbs, w, j * q + a, m);
    assert (j + 1) * r == j * r + r;
    assert (j + 1) * dAbs == j * dAbs + dAbs;
    if m + r >= w {
      DivUnique((j + 1) * r, w, a + 1, m + r - w);
      DivUnique((j + 1) * dAbs, w, j * q + a + q + 1, m + r - w);
    } else {
      DivUnique((j + 1) * r, w, a, m + r);
      DivUnique((j + 1) * dAbs, w, j * q + a + q, m + r);
    }
  }

  /**
   * The closed-form ramp obeys the loop's update: add the quotient, and one
   * more toward the target when the error crosses w, except that a zero
   * value is never incremented.
   */
  lemma RampNext(s: int, d: int, w: int, j: nat)
    requires w > 1 && (s >= 0 || d < 0)
    ensures var r := Abs(d) % w;
      var v := Ramp(s, d, w, j) + Div(Int(d), w);
      ((j * r) % w + r >= w ==>
        ((j + 1) * r) % w == (j * r) % w + r - w
        && Ramp(s, d, w, j + 1) == if d < 0 then v - 1 else if v != 0 then v + 1 else v)
      && ((j * r) % w + r < w ==>
        ((j + 1) * r) % w == (j * r) % w + r && Ramp(s, d, w, j + 1) == v)
  {
    ErrorStep(Abs(d), w, j);
    if d >= 0 {
      if s == 0 && d < w {
        DivUnique(d, w, 0, d);
      } else {
        DivMonotone(0, j * d, w);
        if s == 0 {
          DivMonotone(w, d, w);
          DivUnique(w, w, 1, 0);
        }
      }
    }
  }

  /** One turn of the loop moves the closed-form ramp from k = j to k = j + 1. */
  lemma RampStep(t: Table, frame: int, s: int, d: int, w: int, j: nat)
    requires w > 1 && (s >= 0 || d < 0)
    requires Read(t, frame) == Int(Ramp(s, d, w, j))
    ensures StepValue(t, frame, w, Div(Int(d), w), Int(Abs(d) % w), d < 0, Int((j * (Abs(d) % w)) % w))
         == (Int(Ramp(s, d, w, j + 1)), Int(((j + 1) * (Abs(d) % w)) % w))
  {
    RampNext(s, d, w, j);
  }

  /** From turn j on, the loop writes the closed-form ramp. */
  lemma {:induction false} StepsRamp(t: Table, start: int, n: nat, s: int, d: int, w: int, j: nat)
    requires w > 1 && (s >= 0 || d < 0)
    requires Read(t, start + j) == Int(Ramp(s, d, w, j))
    ensures forall k :: j < k <= j + n ==>
      Read(Steps(t, start + j, n, w, Div(Int(d), w), Int(Abs(d) % w), d < 0, Int((j * (Abs(d) % w)) % w)), start + k)
        == Int(Ramp(s, d, w, k))
    decreases n
  {
    if n > 0 {
      var error := Int((j * (Abs(d) % w)) % w);
      RampStep(t, start + j, s, d, w, j);
      var (val, e) := StepValue(t, start + j, w, Div(Int(d), w), Int(Abs(d) % w), d < 0, error);
      var t' := t[start + j + 1 := val];
      assert start + j + 1 == start + (j + 1);
      StepsRamp(t', start, n - 1, s, d, w, j + 1);
      StepsOutside(t', start + (j + 1), n - 1, w, Div(Int(d), w), Int(Abs(d) % w), d < 0, e);
    }
  }

  /**
   * The ramp itself: k frames into the window the value is `Ramp(s, d,
   * width, k)`, the start plus k / width of the delta rounded toward the
   * start, unless a zero start meets a delta less than one per frame.
   * A negative start ramping upward is not covered: it can pass through
   * zero at a turn the increment is due, and that turn is skipped.
   */
  lemma InterpolatedRamp(t: Table, width: int, frame: int, d: Num)
    requires width > 1 && Read(t, frame).Int? && d.Int?
    requires Read(t, frame).v >= 0 || d.v < 0
    ensures forall k :: 0 < k < width ==>
      Read(Interpolated(t, width, frame, d), frame + k) == Int(Ramp(Read(t, frame).v, d.v, width, k))
  {
    var s := Read(t, frame).v;
    assert (0 * (Abs(d.v) % width)) % width == 0;
    assert Read(t, frame + 0) == Int(Ramp(s, d.v, width, 0));
    StepsRamp(t, frame, width - 1, s, d.v, width, 0);
  }

  /** x <= y gives x / w <= y / w. */
  lemma DivMonotone(x: int, y: int, w: int)
    requires w > 0 && x <= y
    ensures x / w <= y / w
  {
    if x / w > y / w {
      Voice.MulMonotone(y / w + 1, x / w, w);
    }
  }

  /**
   * The ramp starts at s, never leaves the range between s and s + d, and
   * reaches s + d after width frames (save for a zero start with a delta
   * below one per frame, which stays at 0).
   */
  lemma RampBetween(s: int, d: int, width: int, k: nat)
    requires width > 0 && k <= width
    ensures Ramp(s, d, width, 0) == s
    ensures d >= 0 ==> s <= Ramp(s, d, width, k) <= s + d
    ensures d < 0 ==> s + d <= Ramp(s, d, width, k) <= s
    ensures !(s == 0 && 0 <= d < width) ==> Ramp(s, d, width, width) == s + d
  {
    Voice.MulMonotone(k, width, Abs(d));
    Voice.MulMonotone(0, k, Abs(d));
    DivMonotone(0, k * Abs(d), width);
    DivMonotone(k * Abs(d), width * Abs(d), width);
    DivUnique(width * Abs(d), width, Abs(d), 0);
    assert 0 * Abs(d) == 0;
  }

  // ---------------------------------------------------------------------
  // The seven tracks

  /** `tables`: the tracks `CreateTransitions` blends, numbered 0..6 in this order. */
  datatype Tables = Tables(pitches: Table, f1: Table, f2: Table, f3: Table, a1: Table, a2: Table, a3: Table)

  /** `tables[table]`. */
  function Track(ts: Tables, table: int): Table
    requires 0 <= table < 7
  {
    if table == 0 then ts.pitches
    else if table == 1 then ts.f1
    else if table == 2 then ts.f2
    else if table == 3 then ts.f3
    else if table == 4 then ts.a1
    else if table == 5 then ts.a2
    else ts.a3
  }

  /** The tracks with `tables[table]` replaced by t. */
  function WithTrack(ts: Tables, table: int, t: Table): (r: Tables)
    requires 0 <= table < 7
    ensures Track(r, table) == t
    ensures forall k :: 0 <= k < 7 && k != table ==> Track(r, k) == Track(ts, k)
  {
    if table == 0 then ts.(pitches := t)
    else if table == 1 then ts.(f1 := t)
    else if table == 2 then ts.(f2 := t)
    else if table == 3 then ts.(f3 := t)
    else if table == 4 then ts.(a1 := t)
    else if table == 5 then ts.(a2 := t)
    else ts.(a3 := t)
  }

  /** Tracks that agree track by track are the same. */
  lemma SameTracks(a: Tables, b: Tables)
    requires forall k :: 0 <= k < 7 ==> Track(a, k) == Track(b, k)
    ensures a == b
  {
    assert Track(a, 0) == Track(b, 0) && Track(a, 1) == Track(b, 1) && Track(a, 2) == Track(b, 2);
    assert Track(a, 3) == Track(b, 3) && Track(a, 4) == Track(b, 4);
    assert Track(a, 5) == Track(b, 5) && Track(a, 6) == Track(b, 6);
  }

  // ---------------------------------------------------------------------
  // The blend windows

  /** Which lengths, [phase1, phase2], blend the pair (p, q). */
  function Phases(p: int, q: int): (int, int)
  {
    if BlendRank(p) == BlendRank(q) then (OutBlendLength(p), OutBlendLength(q))
    else if BlendRank(p) < BlendRank(q) then (InBlendLength(q), OutBlendLength(q))
    else (OutBlendLength(p), InBlendLength(p))
  }

  /** One formant or amplitude track ramped from phase3 toward its value at speedcounter. */
  function Ramped(t: Table, transition: int, phase3: int, speedcounter: int): Table
  {
    Interpolated(t, transition, phase3, Minus(Read(t, speedcounter), Read(t, phase3)))
  }

  /**
   * The seven tracks after one blend: unless bit 7 of transition - 2 is
   * set, the pitch is ramped across the middles of the two phonemes and
   * every other track from phase3 toward its value at speedcounter.
   */
  function BlendWindow(ts: Tables, curWidth: int, nextWidth: int, mem49: int,
                       phase3: int, speedcounter: int, transition: int): Tables
  {
    // `((transition - 2) & 128) === 0`: bit 7 of the two's complement is clear
    if (transition - 2) % 256 < 128 then
      var pitch := Minus(Read(ts.pitches, nextWidth + mem49), Read(ts.pitches, mem49 - curWidth));
      RampedAll(ts.(pitches := Interpolated(ts.pitches, curWidth + nextWidth, phase3, pitch)),
                transition, phase3, speedcounter)
    else ts
  }

  /** The seven tracks after the pair (pos, pos + 1), mem49 being the frames up to the end of pos. */
  function Blended(ts: Tables, tuples: seq<Triple>, pos: nat, mem49: int): Tables
    requires pos + 1 < |tuples|
  {
    var (phase1, phase2) := Phases(tuples[pos].id, tuples[pos + 1].id);
    BlendWindow(ts, tuples[pos].length / 2, tuples[pos + 1].length / 2, mem49,
                mem49 - phase1, mem49 + phase2, phase1 + phase2)
  }

  /** `Blended` in terms of the values the loop body computes. */
  lemma BlendedWindow(ts: Tables, tuples: seq<Triple>, pos: nat, mem49: int, phase1: int, phase2: int,
                      curWidth: int, nextWidth: int, phase3: int, speedcounter: int, transition: int)
    requires pos + 1 < |tuples| && (phase1, phase2) == Phases(tuples[pos].id, tuples[pos + 1].id)
    requires curWidth == tuples[pos].length / 2 && nextWidth == tuples[pos + 1].length / 2
    requires phase3 == mem49 - phase1 && speedcounter == mem49 + phase2 && transition == phase1 + phase2
    ensures Blended(ts, tuples, pos, mem49) == BlendWindow(ts, curWidth, nextWidth, mem49, phase3, speedcounter, transition)
  {
    WindowCongruent(ts, tuples[pos].length / 2, tuples[pos + 1].length / 2, mem49,
                    mem49 - Phases(tuples[pos].id, tuples[pos + 1].id).0,
                    mem49 + Phases(tuples[pos].id, tuples[pos + 1].id).1,
                    Phases(tuples[pos].id, tuples[pos + 1].id).0 + Phases(tuples[pos].id, tuples[pos + 1].id).1,
                    curWidth, nextWidth, phase3, speedcounter, transition);
  }

  lemma WindowCongruent(ts: Tables, c: int, n: int, m: int, p: int, s: int, t: int,
                        c': int, n': int, p': int, s': int, t': int)
    requires c == c' && n == n' && p == p' && s == s' && t == t'
    ensures BlendWindow(ts, c, n, m, p, s, t) == BlendWindow(ts, c', n', m, p', s', t')
  {
  }

  /** The sum of the lengths of the triples. */
  function TotalLength(tuples: seq<Triple>): int
  {
    if |tuples| == 0 then 0 else TotalLength(tuples[..|tuples| - 1]) + tuples[|tuples| - 1].length
  }

  lemma TotalLengthPrefix(tuples: seq<Triple>, pos: nat)
    requires pos < |tuples|
    ensures TotalLength(tuples[..pos + 1]) == TotalLength(tuples[..pos]) + tuples[pos].length
    ensures pos + 1 == |tuples| ==> TotalLength(tuples) == TotalLength(tuples[..pos + 1])
  {
    assert tuples[..pos + 1][..pos] == tuples[..pos];
    if pos + 1 == |tuples| {
      assert tuples[..pos + 1] == tuples;
    }
  }

  /** The tracks after every pair from pos on, mem49 being the lengths before pos. */
  function TransitionsFrom(ts: Tables, tuples: seq<Triple>, pos: nat, mem49: int): Tables
    decreases |tuples| - pos
  {
    if pos + 1 >= |tuples| then ts
    else
      var m := mem49 + tuples[pos].length;
      TransitionsFrom(Blended(ts, tuples, pos, m), tuples, pos + 1, m)
  }

  /** One pair further toward the tracks `CreateTransitions` ends with. */
  lemma TransitionsStep(before: Tables, after: Tables, goal: Tables, tuples: seq<Triple>,
                        pos: nat, mem49: int, next: int)
    requires pos + 1 < |tuples| && next == mem49 + tuples[pos].length
    requires TransitionsFrom(before, tuples, pos, mem49) == goal
    requires after == Blended(before, tuples, pos, next)
    ensures TransitionsFrom(after, tuples, pos + 1, next) == goal
  {
    BlendedCongruent(before, tuples, pos, next, mem49 + tuples[pos].length);
    FromCongruent(after, tuples, pos + 1, next, mem49 + tuples[pos].length);
  }

  lemma BlendedCongruent(ts: Tables, tuples: seq<Triple>, pos: nat, a: int, b: int)
    requires pos + 1 < |tuples| && a == b
    ensures Blended(ts, tuples, pos, a) == Blended(ts, tuples, pos, b)
  {
  }

  lemma FromCongruent(ts: Tables, tuples: seq<Triple>, pos: nat, a: int, b: int)
    requires a == b
    ensures TransitionsFrom(ts, tuples, pos, a) == TransitionsFrom(ts, tuples, pos, b)
  {
  }

  /** A track of n frames, as `CreateFrames` leaves it. */
  function AsTable(s: seq<int>): (r: Table)
    ensures forall i :: Read(r, i) == if 0 <= i < |s| then Int(s[i]) else NaN
  {
    map i | 0 <= i < |s| :: Int(s[i])
  }

  /** `[pitches, frequency[0..2], amplitude[0..2]]`; the flags take no part. */
  function TablesOf(t: Tracks): Tables
  {
    Tables(AsTable(t.pitches), AsTable(t.f1), AsTable(t.f2), AsTable(t.f3),
           AsTable(t.a1), AsTable(t.a2), AsTable(t.a3))
  }

  /** Every tuple's id indexes the blend tables. */
  predicate TableIds(tuples: seq<Triple>)
  {
    forall k :: 0 <= k < |tuples| ==> 0 <= tuples[k].id < 80
  }

  lemma PitchTrack(ts: Tables, x: Table)
    ensures Track(ts, 0) == ts.pitches && WithTrack(ts, 0, x) == ts.(pitches := x)
  {
  }

  /** f applied to each track but the pitch. */
  function EachTrack(ts: Tables, f: Table -> Table): (r: Tables)
    ensures r.pitches == ts.pitches
  {
    Tables(ts.pitches, f(ts.f1), f(ts.f2), f(ts.f3), f(ts.a1), f(ts.a2), f(ts.a3))
  }

  lemma EachTrackAt(ts: Tables, f: Table -> Table, k: int)
    requires 1 <= k < 7
    ensures Track(EachTrack(ts, f), k) == f(Track(ts, k))
  {
  }

  /** Every track but the pitch ramped from phase3 toward its value at speedcounter. */
  function RampedAll(ts: Tables, transition: int, phase3: int, speedcounter: int): (r: Tables)
    ensures r.pitches == ts.pitches
  {
    EachTrack(ts, t => Ramped(t, transition, phase3, speedcounter))
  }

  /** ts with tracks 1 .. n - 1 taken from r: the tracks after n - 1 turns of the track loop. */
  function Below(ts: Tables, n: int, r: Tables): Tables
  {
    Tables(ts.pitches,
           if 1 < n then r.f1 else ts.f1, if 2 < n then r.f2 else ts.f2, if 3 < n then r.f3 else ts.f3,
           if 4 < n then r.a1 else ts.a1, if 5 < n then r.a2 else ts.a2, if 6 < n then r.a3 else ts.a3)
  }

  /** Taking track n from r as well gives `Below(ts, n + 1, r)`. */
  lemma BelowNext(ts: Tables, n: int, r: Tables)
    requires 1 <= n < 7
    ensures Track(Below(ts, n, r), n) == Track(ts, n)
    ensures WithTrack(Below(ts, n, r), n, Track(r, n)) == Below(ts, n + 1, r)
  {
  }

  // ---------------------------------------------------------------------
  // Properties of the blends

  /**
   * Both blend lengths are non-negative bytes, and the width of the blend
   * does not depend on the order of the pair. When the ranks differ, the
   * phoneme with the numerically higher rank supplies both lengths: the
   * code's `rank < next_rank` branch takes the next phoneme's.
   */
  lemma TransitionWidth(p: int, q: int)
    ensures 0 <= Phases(p, q).0 < 256 && 0 <= Phases(p, q).1 < 256
    ensures Phases(p, q).0 + Phases(p, q).1 == Phases(q, p).0 + Phases(q, p).1
    ensures BlendRank(p) != BlendRank(q) ==>
      var g := if BlendRank(p) > BlendRank(q) then p else q;
      Phases(p, q).0 + Phases(p, q).1 == InBlendLength(g) + OutBlendLength(g)
    ensures BlendRank(p) == BlendRank(q) ==> Phases(p, q) == (OutBlendLength(p), OutBlendLength(q))
  {
  }

  /** A value between lo and hi; `NaN` passes. */
  predicate InBounds(x: Num, lo: int, hi: int)
  {
    x.Int? ==> lo <= x.v <= hi
  }

  /** Every value of the track between lo and hi. */
  ghost predicate InRange(t: Table, lo: int, hi: int)
  {
    forall i :: InBounds(Read(t, i), lo, hi)
  }

  /**
   * A ramp from frame toward the value at frame + width keeps a track
   * within any range [lo, hi] with lo >= 0: every written value lies
   * between the two ends, or copies the start, or is `NaN`.
   */
  lemma InterpolatedInRange(t: Table, width: int, frame: int, lo: int, hi: int)
    requires 0 <= lo && InRange(t, lo, hi)
    ensures InRange(Interpolated(t, width, frame, Minus(Read(t, frame + width), Read(t, frame))), lo, hi)
  {
    var d := Minus(Read(t, frame + width), Read(t, frame));
    var r := Interpolated(t, width, frame, d);
    InterpolatedOutside(t, width, frame, d);
    if width > 1 {
      WindowInRange(t, width, frame, lo, hi);
    }
    forall i
      ensures InBounds(Read(r, i), lo, hi)
    {
      if i <= frame || i >= frame + width {
        assert Read(r, i) == Read(t, i);
      }
    }
  }

  /** The values written inside the window are in range. */
  lemma WindowInRange(t: Table, width: int, frame: int, lo: int, hi: int)
    requires 0 <= lo && InRange(t, lo, hi) && width > 1
    ensures var r := Interpolated(t, width, frame, Minus(Read(t, frame + width), Read(t, frame)));
      forall i :: frame < i < frame + width ==> InBounds(Read(r, i), lo, hi)
  {
    var d := Minus(Read(t, frame + width), Read(t, frame));
    assert InBounds(Read(t, frame), lo, hi);
    if Read(t, frame).NaN? {
      InterpolatedUndefined(t, width, frame, d);
    } else if d.NaN? {
      InterpolatedHold(t, width, frame, d);
    } else {
      assert InBounds(Read(t, frame + width), lo, hi);
      RampInRange(t, width, frame, d, lo, hi);
    }
  }

  lemma RampInRange(t: Table, width: int, frame: int, d: Num, lo: int, hi: int)
    requires width > 1 && Read(t, frame).Int? && d.Int? && 0 <= lo
    requires lo <= Read(t, frame).v <= hi && lo <= Read(t, frame).v + d.v <= hi
    ensures forall i :: frame < i < frame + width ==> InBounds(Read(Interpolated(t, width, frame, d), i), lo, hi)
  {
    var s := Read(t, frame).v;
    InterpolatedRamp(t, width, frame, d);
    forall i | frame < i < frame + width
      ensures InBounds(Read(Interpolated(t, width, frame, d), i), lo, hi)
    {
      assert Read(Interpolated(t, width, frame, d), frame + (i - frame)) == Int(Ramp(s, d.v, width, i - frame));
      RampBetween(s, d.v, width, i - frame);
    }
  }

  lemma RampedInRange(t: Table, transition: int, phase3: int, speedcounter: int, lo: int, hi: int)
    requires 0 <= lo && InRange(t, lo, hi) && speedcounter == phase3 + transition
    ensures InRange(Ramped(t, transition, phase3, speedcounter), lo, hi)
  {
    InterpolatedInRange(t, transition, phase3, lo, hi);
  }

  /** Track k (1..6) after a blend: ramped across the window, or untouched when bit 7 is set. */
  lemma BlendedTrack(ts: Tables, tuples: seq<Triple>, pos: nat, mem49: int, k: int)
    requires pos + 1 < |tuples| && 1 <= k < 7
    ensures var (phase1, phase2) := Phases(tuples[pos].id, tuples[pos + 1].id);
      Track(Blended(ts, tuples, pos, mem49), k)
        == if (phase1 + phase2 - 2) % 256 < 128
           then Ramped(Track(ts, k), phase1 + phase2, mem49 - phase1, mem49 + phase2)
           else Track(ts, k)
  {
    var (phase1, phase2) := Phases(tuples[pos].id, tuples[pos + 1].id);
    var curWidth, nextWidth := tuples[pos].length / 2, tuples[pos + 1].length / 2;
    BlendedWindow(ts, tuples, pos, mem49, phase1, phase2, curWidth, nextWidth,
                  mem49 - phase1, mem49 + phase2, phase1 + phase2);
    WindowTrack(ts, curWidth, nextWidth, mem49, mem49 - phase1, mem49 + phase2, phase1 + phase2, k);
  }

  lemma WindowTrack(ts: Tables, curWidth: int, nextWidth: int, mem49: int,
                    phase3: int, speedcounter: int, transition: int, k: int)
    requires 1 <= k < 7
    ensures Track(BlendWindow(ts, curWidth, nextWidth, mem49, phase3, speedcounter, transition), k)
      == if (transition - 2) % 256 < 128 then Ramped(Track(ts, k), transition, phase3, speedcounter) else Track(ts, k)
  {
    if (transition - 2) % 256 < 128 {
      var pitch := Minus(Read(ts.pitches, nextWidth + mem49), Read(ts.pitches, mem49 - curWidth));
      var pitched := ts.(pitches := Interpolated(ts.pitches, curWidth + nextWidth, phase3, pitch));
      assert Track(pitched, k) == Track(ts, k);
      EachTrackAt(pitched, t => Ramped(t, transition, phase3, speedcounter), k);
    }
  }

  /**
   * Over the whole run every formant and amplitude track stays within the
   * range it started in: a blend only ramps between values already there.
   * (The pitch track has no such bound: its ramp starts at phase3 but
   * spreads the difference between the two phonemes' middles.)
   */
  lemma {:induction false} TransitionsKeepRange(ts: Tables, tuples: seq<Triple>, pos: nat, mem49: int,
                                                k: int, lo: int, hi: int)
    requires 1 <= k < 7 && 0 <= lo && InRange(Track(ts, k), lo, hi)
    ensures InRange(Track(TransitionsFrom(ts, tuples, pos, mem49), k), lo, hi)
    decreases |tuples| - pos
  {
    if pos + 1 < |tuples| {
      var m := mem49 + tuples[pos].length;
      var (phase1, phase2) := Phases(tuples[pos].id, tuples[pos + 1].id);
      BlendedTrack(ts, tuples, pos, m, k);
      if (phase1 + phase2 - 2) % 256 < 128 {
        RampedInRange(Track(ts, k), phase1 + phase2, m - phase1, m + phase2, lo, hi);
      }
      TransitionsKeepRange(Blended(ts, tuples, pos, m), tuples, pos + 1, m, k, lo, hi);
    }
  }

  /** A track as `CreateFrames` leaves it is in range when all its values are. */
  lemma AsTableInRange(s: seq<int>, lo: int, hi: int)
    requires forall i :: 0 <= i < |s| ==> lo <= s[i] <= hi
    ensures InRange(AsTable(s), lo, hi)
  {
  }

  /** With no negative lengths the total is the number of frames `CreateFrames` made. */
  lemma {:induction false} TotalIsFrameCount(tuples: seq<Triple>)
    requires forall k :: 0 <= k < |tuples| ==> tuples[k].length >= 0
    ensures TotalLength(tuples) == FrameCount(tuples)
  {
    if |tuples| > 0 {
      TotalIsFrameCount(tuples[..|tuples| - 1]);
    }
  }

  // ---------------------------------------------------------------------
  // The tracks `CreateTransitions` works on

  class TransitionTables {
    var tables: Tables

    constructor (t: Tracks)
      ensures tables == TablesOf(t)
    {
      tables := TablesOf(t);
    }

    /** `interpolate(width, table, frame, mem53)`. */
    method Interpolate(width: int, table: int, frame: int, mem53: Num)
      requires 0 <= table < 7
      modifies this
      ensures tables == WithTrack(old(tables), table, Interpolated(Track(old(tables), table), width, frame, mem53))
    {
      var sign := mem53.Int? && mem53.v < 0;
      var remainder := if width > 0 then Remainder(mem53, width) else NaN;
      var div := if width > 0 then Div(mem53, width) else 0;
      var error := Int(0);
      var t := Track(tables, table);
      ghost var goal := Interpolated(t, width, frame, mem53);
      var at := frame;
      var pos := width - 1;
      while pos > 0
        invariant pos > 0 ==> width > 1
        invariant width > 1 ==> 0 <= pos && Steps(t, at, pos, width, div, remainder, sign, error) == goal
        invariant width <= 1 ==> t == goal
      {
        var val := Plus(Read(t, at), Int(div));
        error := Plus(error, remainder);
        if error.Int? && error.v >= width {
          error := Int(error.v - width);
          if sign {
            val := Plus(val, Int(-1));
          } else if val.Int? && val.v != 0 {
            val := Plus(val, Int(1));
          }
        }
        at := at + 1;
        t := t[at := val];
        pos := pos - 1;
      }
      tables := WithTrack(tables, table, t);
    }

    /**
     * `CreateTransitions(pitches, frequency, amplitude, tuples)`: blends
     * every pair of neighbours and returns the number of frames, masked to
     * a byte.
     */
    method CreateTransitions(tuples: seq<Triple>) returns (t: int)
      requires |tuples| > 0 && TableIds(tuples)
      modifies this
      ensures tables == TransitionsFrom(old(tables), tuples, 0, 0)
      ensures 0 <= t < 256 && t == TotalLength(tuples) % 256
    {
      ghost var goal := TransitionsFrom(tables, tuples, 0, 0);
      var mem49 := 0;
      var pos := 0;
      while pos < |tuples| - 1
        invariant 0 <= pos < |tuples|
        invariant mem49 == TotalLength(tuples[..pos])
        invariant TransitionsFrom(tables, tuples, pos, mem49) == goal
      {
        TotalLengthPrefix(tuples, pos);
        ghost var before := tables;
        ghost var m := mem49;
        mem49 := mem49 + tuples[pos].length;
        BlendPair(tuples, pos, mem49);
        TransitionsStep(before, tables, goal, tuples, pos, m, mem49);
        pos := pos + 1;
      }
      TotalLengthPrefix(tuples, |tuples| - 1);
      t := (mem49 + tuples[|tuples| - 1].length) % 256;
    }

    /** One turn of the loop over the pairs, mem49 already counting the frames of pos. */
    method BlendPair(tuples: seq<Triple>, pos: nat, mem49: int)
      requires pos + 1 < |tuples|
      modifies this
      ensures tables == Blended(old(tables), tuples, pos, mem49)
    {
      var phoneme := tuples[pos].id;
      var nextPhoneme := tuples[pos + 1].id;
      var nextRank := BlendRank(nextPhoneme);
      var rank := BlendRank(phoneme);
      var phase1, phase2;
      if rank == nextRank {
        phase1, phase2 := OutBlendLength(phoneme), OutBlendLength(nextPhoneme);
      } else if rank < nextRank {
        phase1, phase2 := InBlendLength(nextPhoneme), OutBlendLength(nextPhoneme);
      } else {
        phase1, phase2 := OutBlendLength(phoneme), InBlendLength(phoneme);
      }
      assert (phase1, phase2) == Phases(phoneme, nextPhoneme);
      var speedcounter := mem49 + phase2;
      var phase3 := mem49 - phase1;
      var transition := phase1 + phase2;
      var curWidth := tuples[pos].length / 2;
      var nextWidth := tuples[pos + 1].length / 2;
      BlendedWindow(tables, tuples, pos, mem49, phase1, phase2, curWidth, nextWidth, phase3, speedcounter, transition);
      Blend(curWidth, nextWidth, mem49, phase3, speedcounter, transition);
    }

    /** The body of the loop once the window is known. */
    method Blend(curWidth: int, nextWidth: int, mem49: int, phase3: int, speedcounter: int, transition: int)
      modifies this
      ensures tables == BlendWindow(old(tables), curWidth, nextWidth, mem49, phase3, speedcounter, transition)
    {
      if (transition - 2) % 256 < 128 {
        var pitch := Minus(Read(tables.pitches, nextWidth + mem49), Read(tables.pitches, mem49 - curWidth));
        RampPitch(curWidth + nextWidth, phase3, pitch);
        RampTracks(transition, phase3, speedcounter);
      }
    }

    /** The pitch track ramped across width frames from frame by d. */
    method RampPitch(width: int, frame: int, d: Num)
      modifies this
      ensures tables == old(tables).(pitches := Interpolated(old(tables).pitches, width, frame, d))
    {
      PitchTrack(tables, Interpolated(tables.pitches, width, frame, d));
      Interpolate(width, 0, frame, d);
    }

    /** `for (table = 1; table < 7; table++)`: every track but the pitch ramped toward its value at speedcounter. */
    method RampTracks(transition: int, phase3: int, speedcounter: int)
      modifies this
      ensures tables == RampedAll(old(tables), transition, phase3, speedcounter)
    {
      ghost var start := tables;
      ghost var all := RampedAll(start, transition, phase3, speedcounter);
      var table := 1;
      while table < 7
        invariant 1 <= table <= 7
        invariant tables == Below(start, table, all)
      {
        BelowNext(start, table, all);
        EachTrackAt(start, t => Ramped(t, transition, phase3, speedcounter), table);
        RampTrack(table, transition, phase3, speedcounter);
        table := table + 1;
      }
    }

    /** One turn of that loop: `interpolate(transition, table, phase3, value)` with the track's own delta. */
    method RampTrack(table: int, transition: int, phase3: int, speedcounter: int)
      requires 1 <= table < 7
      modifies this
      ensures tables == WithTrack(old(tables), table, Ramped(Track(old(tables), table), transition, phase3, speedcounter))
    {
      var value := Minus(Read(Track(tables, table), speedcounter), Read(Track(tables, table), phase3));
      Interpolate(transition, table, phase3, value);
    }
  }
}
