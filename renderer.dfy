/**
 * The sampler: `ProcessFrames`, the glottal-pulse state machine that turns
 * the prepared frames into samples, and `RenderSample`, which plays the
 * stored noise of a sampled consonant bit by bit. The `sinus` and
 * `sampleTable` tables are taken as parameters.
 */
module Sampler {
  import opened Outcomes
  import opened Phonemes
  import opened Parser
  import opened Voice
  import opened Frames
  import opened Transitions
  import opened Output

  // ---------------------------------------------------------------------
  // JavaScript integer operations on possibly undefined numbers

  /** A number as the bit operators see it: `undefined` and `NaN` are 0. */
  function Int32(x: Num): int
  {
    if x.Int? then x.v else 0
  }

  /** `table[i]`: `undefined` outside the table. */
  function Byte(table: seq<int>, i: int): (r: Num)
    ensures r.Int? <==> 0 <= i < |table|
  {
    if 0 <= i < |table| then Int(table[i]) else NaN
  }

  /** `(x & 0x7F) - (x & 0x80)`: the low byte of x read as a signed char. */
  function SignedByte(x: int): (r: int)
    ensures -128 <= r < 128 && (r - x) % 256 == 0
  {
    var b := x % 256;
    if b < 128 then b else b - 256
  }

  /**
   * a / d truncated toward zero, as `| 0` truncates a quotient: the
   * largest multiple of d not above |a| in size, carrying the sign of a.
   */
  function TruncDiv(a: int, d: int): (r: int)
    requires d > 0
    ensures d * Abs(r) <= Abs(a) < d * (Abs(r) + 1)
    ensures 0 <= a ==> 0 <= r
    ensures a <= 0 ==> r <= 0
  {
    if a >= 0 then a / d else -((-a) / d)
  }

  /** `(mux / 32 + 128) | 0`: the mixed value as an unsigned sample. */
  function Level(mux: int): int
  {
    TruncDiv(mux + 4096, 32)
  }

  /** `glottal_pulse * .75 | 0`. */
  function Window(g: Num): int
  {
    if g.Int? then TruncDiv(3 * g.v, 4) else 0
  }

  // ---------------------------------------------------------------------
  // RenderSample: one bit of `sampleTable` per write

  /** The index pairs `renderSample` is called with, between which every step of the writer is positive. */
  predicate Paired(i1: int, i0: int)
  {
    (i1 == 3 && i0 == 4) || (i1 == 2 && i0 == 1)
  }

  /**
   * The last n turns of `renderSample(index1, value1, index0, value0)`:
   * a set bit 7 of `sample` writes value1 at index1, a clear one value0 at
   * index0, and the sample moves one bit up; the first write that
   * overflows ends the run.
   */
  function Bits(w: Writer, sample: int, i1: int, v1: int, i0: int, v0: int, n: nat): (r: (Option<Fault>, Writer))
    requires Valid(w) && 0 <= i1 < 5 && 0 <= i0 < 5
    ensures Valid(r.1) && |r.1.buffer| == |w.buffer| && w.bufferpos <= r.1.bufferpos
    ensures r.0.None? && n > 0 ==> Sample(r.1) <= |w.buffer| && (r.1.last == i1 || r.1.last == i0)
    ensures r.0.None? && n > 0 && Paired(i1, i0) && (w.last == i1 || w.last == i0) ==> w.bufferpos < r.1.bufferpos
    ensures r.0.None? && n > 1 && Paired(i1, i0) ==> w.bufferpos < r.1.bufferpos
    ensures n == 0 ==> r == (None, w)
    // the position as a second component keeps the eight bits of a literal count from being unrolled at every use
    decreases n, w.bufferpos
  {
    if n == 0 then (None, w)
    else
      var index, value := if sample % 256 >= 128 then i1 else i0, if sample % 256 >= 128 then v1 else v0;
      PutStep(w, index, Five(Nibble(value)));
      var (fault, w') := Put(w, index, Five(Nibble(value)));
      if fault.Some? then (fault, w') else Bits(w', sample * 2, i1, v1, i0, v0, n - 1)
  }

  /** `tab48426[kind] & 0xFF`: the value a clear bit of an unvoiced sample writes. */
  function Unvoiced(kind: int): (r: int)
    ensures 0 <= r < 256
  {
    if 0 <= kind < 5 then [0x18, 0x1A, 0x17, 0x17, 0x17][kind] else 0
  }

  /**
   * `count` rounds of the voiced-sample loop from `off`: each renders the
   * byte at `samplePage + off` as 3/26 or 4/6 and moves to the next byte.
   * The third component is `off` after the last round.
   */
  function VoicedRounds(w: Writer, samples: seq<int>, page: int, off: int, count: nat): (r: (Option<Fault>, Writer, int))
    requires Valid(w)
    ensures Valid(r.1) && |r.1.buffer| == |w.buffer| && w.bufferpos <= r.1.bufferpos
    ensures r.0.None? && count > 0 ==> Sample(r.1) <= |w.buffer| && w.bufferpos < r.1.bufferpos
    ensures r.0.None? ==> r.2 == off + count
    decreases count
  {
    if count == 0 then (None, w, off)
    else
      var (fault, w') := Bits(w, Int32(Byte(samples, page + off)), 3, 26, 4, 6, 8);
      if fault.Some? then (fault, w', off) else VoicedRounds(w', samples, page, off + 1, count - 1)
  }

  /**
   * `count` rounds of the unvoiced loop from `off`: each renders the byte
   * at `samplePage + off` as 2/5 or 1/value0.
   */
  function UnvoicedRounds(w: Writer, samples: seq<int>, page: int, off: int, value0: int, count: nat): (r: (Option<Fault>, Writer))
    requires Valid(w)
    ensures Valid(r.1) && |r.1.buffer| == |w.buffer| && w.bufferpos <= r.1.bufferpos
    ensures r.0.None? && count > 0 ==> Sample(r.1) <= |w.buffer| && w.bufferpos < r.1.bufferpos
    decreases count
  {
    if count == 0 then (None, w)
    else
      var (fault, w') := Bits(w, Int32(Byte(samples, page + off)), 2, 5, 1, value0, 8);
      if fault.Some? then (fault, w') else UnvoicedRounds(w', samples, page, off + 1, value0, count - 1)
  }

  /**
   * `RenderSample(lastSampleOffset, consonantFlag, mem49)`: bits 3..7 of
   * the flag pick the offset of an unvoiced sample, which is rendered
   * from `255 - off` to the end of its page; without them the voiced
   * sample is rendered from `lastSampleOffset & 0xFF` for a number of
   * bytes set by the pitch of frame `mem49 & 0xFF`, and the offset after
   * it is returned. The page is `((flag & 7) - 1) * 256 & 0xFFFF`.
   */
  function SampleRun(w: Writer, pitches: Table, samples: seq<int>, last: int, flag: Num, mem49: int): (r: (Option<Fault>, Writer, int))
    requires Valid(w)
    ensures Valid(r.1) && |r.1.buffer| == |w.buffer|
    ensures r.0.None? ==> Sample(r.1) <= |w.buffer| && w.bufferpos < r.1.bufferpos
  {
    var f := Int32(flag);
    var kind := f % 8 - 1;
    var page := (kind * 256) % 65536;
    var off := f % 256 / 8 * 8;
    if off == 0 then
      VoicedRounds(w, samples, page, last % 256, 1 + (Int32(Read(pitches, mem49 % 256)) / 16) % 256)
    else
      var (fault, w') := UnvoicedRounds(w, samples, page, 255 - off, Unvoiced(kind), off + 1);
      (fault, w', last)
  }

  /** What a rendering method hands back, as the sample run r says: its fault and writer, and the offset when it succeeds. */
  predicate Rendered(r: (Option<Fault>, Writer, int), fault: Option<Fault>, w: Writer, off: int)
  {
    fault == r.0 && w == r.1 && (fault.None? ==> off == r.2)
  }

  // ---------------------------------------------------------------------
  // ProcessFrames: the glottal pulse and the formant generators

  /** What `ProcessFrames` reads besides its own variables. */
  datatype Setup = Setup(ts: Tables, flags: seq<int>, speed: int, sinus: seq<int>, samples: seq<int>)

  /** The variables of `ProcessFrames` at the head of its loop. */
  datatype Synth = Synth(speedcounter: int, phase1: int, phase2: int, phase3: int, lastSampleOffset: int,
                         pos: nat, glottal: Num, mem38: int, frameCount: int)

  /** `f * 256 / 4`: one step of a formant generator. */
  function Stride(f: Num): Num
  {
    if f.Int? then Int(f.v * 256 / 4) else NaN
  }

  /** `p` after k turns of `p += f * 256 / 4` from `phase * 256`. */
  function Accumulator(phase: int, f: Num, k: nat): (r: Num)
    ensures k > 0 && f.NaN? ==> r.NaN?
  {
    if k == 0 then Int(phase * 256) else if f.Int? then Int(phase * 256 + 64 * k * f.v) else NaN
  }

  /** `char(sinus[0xff & (p >> 8)])`. */
  function Sine(sinus: seq<int>, p: Num): int
  {
    SignedByte(Int32(Byte(sinus, Int32(p) / 256 % 256)))
  }

  /** `char(0xff & ((p >> 8) < 129 ? 0x90 : 0x70))`: the rectangle wave. */
  function Rectangle(p: Num): (r: int)
    ensures r == (if Int32(p) / 256 < 129 then -112 else 112)
  {
    SignedByte(if Int32(p) / 256 < 129 then 0x90 else 0x70)
  }

  /** `x & 0x0F`. */
  function Low4(x: Num): (r: int)
    ensures 0 <= r < 16
  {
    Int32(x) % 16
  }

  /**
   * `ary[k]`: the two sines and the rectangle at their k-th step, each
   * scaled by the low nibble of its amplitude, mixed into one sample.
   */
  function Mixed(st: Setup, s: Synth, k: nat): int
  {
    var sp1 := Sine(st.sinus, Accumulator(s.phase1, Read(st.ts.f1, s.pos), k));
    var sp2 := Sine(st.sinus, Accumulator(s.phase2, Read(st.ts.f2, s.pos), k));
    var rp3 := Rectangle(Accumulator(s.phase3, Read(st.ts.f3, s.pos), k));
    Level(sp1 * Low4(Read(st.ts.a1, s.pos)) + sp2 * Low4(Read(st.ts.a2, s.pos)) + rp3 * Low4(Read(st.ts.a3, s.pos)))
  }

  /** The five samples one voiced turn writes. */
  function Tick(st: Setup, s: Synth): (r: seq<int>)
    ensures |r| == 5 && forall k :: 0 <= k < 5 ==> r[k] == Mixed(st, s, k)
  {
    seq(5, k requires 0 <= k => Mixed(st, s, k))
  }

  /** The pulse restarts: the pitch of frame pos, three quarters of it as the window, the phases at 0. */
  function Restart(st: Setup, s: Synth): (r: Synth)
    ensures r.pos == s.pos && r.frameCount == s.frameCount && r.speedcounter == s.speedcounter
  {
    var g := Read(st.ts.pitches, s.pos);
    s.(glottal := g, mem38 := Window(g), phase1 := 0, phase2 := 0, phase3 := 0)
  }

  /** `(phase + f) & 0xFF`. */
  function Phase(phase: int, f: Num): (r: int)
    ensures 0 <= r < 256
  {
    Int32(Plus(Int(phase), f)) % 256
  }

  /** `(flags & 248) !== 0`: the frame is an unvoiced sampled consonant. */
  predicate Sampled(flags: Num)
  {
    Int32(flags) % 256 / 8 != 0
  }

  /** How one turn of the loop ends: an exception, the `return`, or the next state. */
  datatype Outcome = Outcome(fault: Option<Fault>, done: bool, s: Synth, w: Writer)

  /**
   * One turn of the `while (frameCount)` loop. A sampled frame renders its
   * sample and skips two frames; any other frame writes one tick, counts
   * down the speed, the pulse and its window, and either moves the phases
   * on, or (at the end of the window of a voiced sample) renders the
   * sample, or (at the end of the pulse) restarts the pulse.
   */
  function Turn(st: Setup, s: Synth, w: Writer): (r: Outcome)
    requires Valid(w)
    ensures Valid(r.w) && |r.w.buffer| == |w.buffer|
    ensures r.fault.None? ==> Sample(r.w) <= |w.buffer| && w.bufferpos < r.w.bufferpos
    ensures r.done ==> r.fault.None? && r.s.frameCount == 0
    ensures r.fault.None? ==> s.frameCount - 2 <= r.s.frameCount <= s.frameCount
  {
    var flags := Byte(st.flags, s.pos);
    if Sampled(flags) then
      var (fault, w', last) := SampleRun(w, st.ts.pitches, st.samples, s.lastSampleOffset, flags, s.pos);
      if fault.Some? then Outcome(fault, false, s, w')
      else Outcome(None, false, Restart(st, s.(lastSampleOffset := last, pos := s.pos + 2,
                                                 frameCount := s.frameCount - 2, speedcounter := st.speed)), w')
    else
      PutStep(w, 0, Tick(st, s));
      var (fault, w') := Put(w, 0, Tick(st, s));
      if fault.Some? then Outcome(fault, false, s, w')
      else
        var sc := s.speedcounter - 1;
        var pos := if sc == 0 then s.pos + 1 else s.pos;
        var count := if sc == 0 then s.frameCount - 1 else s.frameCount;
        if sc == 0 && count == 0 then Outcome(None, true, s.(speedcounter := sc, pos := pos, frameCount := count), w')
        else
          var s1 := s.(speedcounter := if sc == 0 then st.speed else sc, pos := pos, frameCount := count,
                       glottal := Plus(s.glottal, Int(-1)));
          if s1.glottal == Int(0) then Outcome(None, false, Restart(st, s1), w')
          else
            var s2 := s1.(mem38 := s1.mem38 - 1);
            if s2.mem38 != 0 || flags == Int(0) then
              Outcome(None, false, s2.(phase1 := Phase(s2.phase1, Read(st.ts.f1, pos)),
                                       phase2 := Phase(s2.phase2, Read(st.ts.f2, pos)),
                                       phase3 := Phase(s2.phase3, Read(st.ts.f3, pos))), w')
            else
              var (fault2, w'', last) := SampleRun(w', st.ts.pitches, st.samples, s2.lastSampleOffset, flags, pos);
              if fault2.Some? then Outcome(fault2, false, s2, w'')
              else Outcome(None, false, Restart(st, s2.(lastSampleOffset := last)), w'')
  }

  /**
   * The loop from state s: it stops when `frameCount` is 0 at its head,
   * at the `return` inside, or at the first write past the end of the
   * buffer. Every turn writes, so the position in the buffer measures it.
   */
  function Run(st: Setup, s: Synth, w: Writer): (r: (Option<Fault>, Writer))
    requires Valid(w)
    ensures Valid(r.1) && |r.1.buffer| == |w.buffer| && w.bufferpos <= r.1.bufferpos
    decreases 50 * (|w.buffer| + 1) - w.bufferpos, 1
  {
    if s.frameCount == 0 then (None, w) else Continue(st, s, w)
  }

  /** One turn from s, and the loop after it unless the turn ended it. */
  function Continue(st: Setup, s: Synth, w: Writer): (r: (Option<Fault>, Writer))
    requires Valid(w)
    ensures Valid(r.1) && |r.1.buffer| == |w.buffer| && w.bufferpos <= r.1.bufferpos
    decreases 50 * (|w.buffer| + 1) - w.bufferpos, 0
  {
    var o := Turn(st, s, w);
    if o.fault.Some? || o.done then (o.fault, o.w) else Run(st, o.s, o.w)
  }

  /** The variables before the loop: speed counter 72, phases 0, the pulse from frame 0. */
  function Start(ts: Tables, frameCount: int): Synth
  {
    var g := Read(ts.pitches, 0);
    Synth(72, 0, 0, 0, 0, 0, g, Window(g), frameCount)
  }

  // ---------------------------------------------------------------------
  // The loops as the closures run them

  /** `renderSample(index1, value1, index0, value0)` on `sample`. */
  method RenderBits(out: OutputBuffer, sample: int, i1: int, v1: int, i0: int, v0: int) returns (fault: Option<Fault>)
    requires Valid(out.State()) && 0 <= i1 < 5 && 0 <= i0 < 5
    modifies out, out.buffer
    ensures out.buffer == old(out.buffer)
    ensures (fault, out.State()) == Bits(old(out.State()), sample, i1, v1, i0, v0, 8)
  {
    ghost var goal := Bits(out.State(), sample, i1, v1, i0, v0, 8);
    var bit := 8;
    var sample := sample;
    while bit > 0
      invariant 0 <= bit <= 8 && Valid(out.State()) && out.buffer == old(out.buffer)
      invariant Bits(out.State(), sample, i1, v1, i0, v0, bit) == goal
    {
      ghost var w := out.State();
      PutStep(w, if sample % 256 >= 128 then i1 else i0, Five(Nibble(if sample % 256 >= 128 then v1 else v0)));
      if sample % 256 >= 128 {
        fault := out.Write(i1, v1);
      } else {
        fault := out.Write(i0, v0);
      }
      if fault.Some? {
        return;
      }
      sample := sample * 2;
      bit := bit - 1;
    }
    fault := None;
  }

  /** `RenderSample(lastSampleOffset, consonantFlag, mem49)`, writing through `out`. */
  method RenderSample(out: OutputBuffer, pitches: Table, samples: seq<int>, lastSampleOffset: int, consonantFlag: Num, mem49: int)
    returns (fault: Option<Fault>, off: int)
    requires Valid(out.State())
    modifies out, out.buffer
    ensures out.buffer == old(out.buffer)
    ensures Rendered(SampleRun(old(out.State()), pitches, samples, lastSampleOffset, consonantFlag, mem49), fault, out.State(), off)
  {
    ghost var w := out.State();
    var kind := Int32(consonantFlag) % 8 - 1;
    var samplePage := (kind * 256) % 65536;
    off := Int32(consonantFlag) % 256 / 8 * 8;
    if off == 0 {
      // phase1 holds the low byte of `(pitches[mem49 & 0xFF] >> 4) ^ 255`, the only part the loop tests
      var x := Int32(Read(pitches, mem49 % 256)) / 16;
      var phase1 := 255 - x % 256;
      VoicedRun(w, pitches, samples, lastSampleOffset, consonantFlag, mem49, samplePage, lastSampleOffset % 256, 256 - phase1);
      fault, off := VoicedSample(out, samples, samplePage, lastSampleOffset % 256, phase1);
    } else {
      // `off ^ 255` flips the low byte of an offset below 256
      var value0 := Unvoiced(kind);
      UnvoicedRun(w, pitches, samples, lastSampleOffset, consonantFlag, mem49, samplePage, 255 - off, value0, off + 1);
      fault := UnvoicedSample(out, samples, samplePage, 255 - off, value0);
      off := lastSampleOffset;
    }
  }

  /** Without bits 3..7 in the flag, the sample is the voiced one, for 256 - phase1 rounds. */
  lemma VoicedRun(w: Writer, pitches: Table, samples: seq<int>, last: int, flag: Num, mem49: int,
                  page: int, off: int, count: nat)
    requires Valid(w) && Int32(flag) % 256 / 8 * 8 == 0
    requires page == (Int32(flag) % 8 - 1) * 256 % 65536 && off == last % 256
    requires count == 1 + (Int32(Read(pitches, mem49 % 256)) / 16) % 256
    ensures SampleRun(w, pitches, samples, last, flag, mem49) == VoicedRounds(w, samples, page, off, count)
  {
  }

  /** With them, it is the unvoiced one from `255 - off`, and the offset is kept. */
  lemma UnvoicedRun(w: Writer, pitches: Table, samples: seq<int>, last: int, flag: Num, mem49: int,
                    page: int, off: int, value0: int, count: nat)
    requires Valid(w) && Int32(flag) % 256 / 8 * 8 != 0
    requires page == (Int32(flag) % 8 - 1) * 256 % 65536 && off == 255 - Int32(flag) % 256 / 8 * 8
    requires value0 == Unvoiced(Int32(flag) % 8 - 1) && count == 256 - off
    ensures SampleRun(w, pitches, samples, last, flag, mem49)
      == (UnvoicedRounds(w, samples, page, off, value0, count).0, UnvoicedRounds(w, samples, page, off, value0, count).1, last)
  {
  }

  /** The voiced-sample loop: rounds from `off` until the low byte of phase1 wraps to 0. */
  method VoicedSample(out: OutputBuffer, samples: seq<int>, samplePage: int, off: int, phase1: int)
    returns (fault: Option<Fault>, next: int)
    requires Valid(out.State()) && 0 <= phase1 < 256
    modifies out, out.buffer
    ensures out.buffer == old(out.buffer)
    ensures Rendered(VoicedRounds(old(out.State()), samples, samplePage, off, 256 - phase1), fault, out.State(), next)
  {
    ghost var goal := VoicedRounds(out.State(), samples, samplePage, off, 256 - phase1);
    ghost var rounds: nat := 256 - phase1;
    next := off;
    var phase1 := phase1;
    while true
      invariant 0 <= phase1 < 256 && rounds == 256 - phase1
      invariant Valid(out.State()) && out.buffer == old(out.buffer)
      invariant VoicedRounds(out.State(), samples, samplePage, next, rounds) == goal
      decreases rounds
    {
      ghost var w, n0, r0 := out.State(), next, rounds;
      fault := RenderBits(out, Int32(Byte(samples, samplePage + next)), 3, 26, 4, 6);
      if fault.Some? {
        VoicedRoundsFail(w, out.State(), samples, samplePage, next, rounds, fault, goal);
        return;
      }
      next := next + 1;
      phase1 := phase1 + 1;
      rounds := rounds - 1;
      VoicedRoundsNext(w, out.State(), samples, samplePage, n0, r0, next, rounds, goal);
      WrapsAt256(phase1);
      if phase1 % 256 == 0 {
        VoicedRoundsDone(out.State(), samples, samplePage, next, rounds, goal);
        break;
      }
    }
  }

  /** The unvoiced loop: rounds from `off` to the end of the page. */
  method UnvoicedSample(out: OutputBuffer, samples: seq<int>, samplePage: int, off: int, value0: int)
    returns (fault: Option<Fault>)
    requires Valid(out.State()) && 0 <= off < 256
    modifies out, out.buffer
    ensures out.buffer == old(out.buffer)
    ensures (fault, out.State()) == UnvoicedRounds(old(out.State()), samples, samplePage, off, value0, 256 - off)
  {
    ghost var goal := UnvoicedRounds(out.State(), samples, samplePage, off, value0, 256 - off);
    ghost var rounds: nat := 256 - off;
    var off := off;
    while true
      invariant 0 <= off < 256 && rounds == 256 - off
      invariant Valid(out.State()) && out.buffer == old(out.buffer)
      invariant UnvoicedRounds(out.State(), samples, samplePage, off, value0, rounds) == goal
      decreases rounds
    {
      ghost var w, o0, r0 := out.State(), off, rounds;
      fault := RenderBits(out, Int32(Byte(samples, samplePage + off)), 2, 5, 1, value0);
      if fault.Some? {
        UnvoicedRoundsFail(w, out.State(), samples, samplePage, off, value0, rounds, fault, goal);
        return;
      }
      off := off + 1;
      rounds := rounds - 1;
      UnvoicedRoundsNext(w, out.State(), samples, samplePage, o0, value0, r0, off, rounds, goal);
      WrapsAt256(off);
      if off % 256 == 0 {
        UnvoicedRoundsDone(out.State(), samples, samplePage, off, value0, rounds, goal);
        break;
      }
    }
  }

  /** A failed round ends the voiced-sample loop with that fault. */
  lemma VoicedRoundsFail(w: Writer, w1: Writer, samples: seq<int>, page: int, off: int, count: nat,
                         fault: Option<Fault>, goal: (Option<Fault>, Writer, int))
    requires Valid(w) && count > 0 && VoicedRounds(w, samples, page, off, count) == goal
    requires (fault, w1) == Bits(w, Int32(Byte(samples, page + off)), 3, 26, 4, 6, 8) && fault.Some?
    ensures fault == goal.0 && w1 == goal.1
  {
  }

  /** A round that succeeds leaves the rest of the loop to do. */
  lemma VoicedRoundsNext(w: Writer, w1: Writer, samples: seq<int>, page: int, off: int, count: nat,
                         off1: int, count1: nat, goal: (Option<Fault>, Writer, int))
    requires Valid(w) && count > 0 && VoicedRounds(w, samples, page, off, count) == goal
    requires (None, w1) == Bits(w, Int32(Byte(samples, page + off)), 3, 26, 4, 6, 8)
    requires off1 == off + 1 && count1 == count - 1
    ensures Valid(w1) && VoicedRounds(w1, samples, page, off1, count1) == goal
  {
  }

  /** With no rounds left, the loop's result is the writer and the offset as they are. */
  lemma VoicedRoundsDone(w: Writer, samples: seq<int>, page: int, off: int, count: nat, goal: (Option<Fault>, Writer, int))
    requires Valid(w) && count == 0 && VoicedRounds(w, samples, page, off, count) == goal
    ensures goal == (None, w, off)
  {
  }

  /** A failed round ends the unvoiced loop with that fault. */
  lemma UnvoicedRoundsFail(w: Writer, w1: Writer, samples: seq<int>, page: int, off: int, value0: int, count: nat,
                           fault: Option<Fault>, goal: (Option<Fault>, Writer))
    requires Valid(w) && count > 0 && UnvoicedRounds(w, samples, page, off, value0, count) == goal
    requires (fault, w1) == Bits(w, Int32(Byte(samples, page + off)), 2, 5, 1, value0, 8) && fault.Some?
    ensures (fault, w1) == goal
  {
  }

  /** A round that succeeds leaves the rest of the loop to do. */
  lemma UnvoicedRoundsNext(w: Writer, w1: Writer, samples: seq<int>, page: int, off: int, value0: int, count: nat,
                           off1: int, count1: nat, goal: (Option<Fault>, Writer))
    requires Valid(w) && count > 0 && UnvoicedRounds(w, samples, page, off, value0, count) == goal
    requires (None, w1) == Bits(w, Int32(Byte(samples, page + off)), 2, 5, 1, value0, 8)
    requires off1 == off + 1 && count1 == count - 1
    ensures Valid(w1) && UnvoicedRounds(w1, samples, page, off1, value0, count1) == goal
  {
  }

  /** With no rounds left, the loop's result is the writer as it is. */
  lemma UnvoicedRoundsDone(w: Writer, samples: seq<int>, page: int, off: int, value0: int, count: nat,
                           goal: (Option<Fault>, Writer))
    requires Valid(w) && count == 0 && UnvoicedRounds(w, samples, page, off, value0, count) == goal
    ensures goal == (None, w)
  {
  }

  /** Counting up by one from below 256, the low byte is first 0 at 256. */
  lemma WrapsAt256(x: int)
    requires 0 < x <= 256
    ensures x % 256 == 0 <==> x == 256
  {
  }

  /** The `for (k = 0; k < 5; k++)` loop of a voiced turn: the five mixed samples. */
  method Mix(st: Setup, s: Synth) returns (ary: seq<int>)
    ensures ary == Tick(st, s)
  {
    var pos := s.pos;
    var p1, p2, p3 := Int(s.phase1 * 256), Int(s.phase2 * 256), Int(s.phase3 * 256);
    ary := [];
    var k := 0;
    while k < 5
      invariant 0 <= k <= 5 && |ary| == k
      invariant p1 == Accumulator(s.phase1, Read(st.ts.f1, pos), k)
      invariant p2 == Accumulator(s.phase2, Read(st.ts.f2, pos), k)
      invariant p3 == Accumulator(s.phase3, Read(st.ts.f3, pos), k)
      invariant forall j :: 0 <= j < k ==> ary[j] == Mixed(st, s, j)
    {
      var sp1 := SignedByte(Int32(Byte(st.sinus, Int32(p1) / 256 % 256)));
      var sp2 := SignedByte(Int32(Byte(st.sinus, Int32(p2) / 256 % 256)));
      var rp3 := SignedByte(if Int32(p3) / 256 < 129 then 0x90 else 0x70);
      var sin1 := sp1 * (Int32(Read(st.ts.a1, pos)) % 16);
      var sin2 := sp2 * (Int32(Read(st.ts.a2, pos)) % 16);
      var rect := rp3 * (Int32(Read(st.ts.a3, pos)) % 16);
      var mux := sin1 + sin2 + rect;
      ary := ary + [TruncDiv(mux + 4096, 32)];
      AccumulatorNext(s.phase1, Read(st.ts.f1, pos), k);
      AccumulatorNext(s.phase2, Read(st.ts.f2, pos), k);
      AccumulatorNext(s.phase3, Read(st.ts.f3, pos), k);
      p1 := Plus(p1, Stride(Read(st.ts.f1, pos)));
      p2 := Plus(p2, Stride(Read(st.ts.f2, pos)));
      p3 := Plus(p3, Stride(Read(st.ts.f3, pos)));
      k := k + 1;
    }
  }

  /** One more step of a generator. */
  lemma AccumulatorNext(phase: int, f: Num, k: nat)
    ensures Accumulator(phase, f, k + 1) == Plus(Accumulator(phase, f, k), Stride(f))
  {
    if f.Int? {
      assert phase * 256 + 64 * (k + 1) * f.v == phase * 256 + 64 * k * f.v + f.v * 256 / 4;
    }
  }

  // ---------------------------------------------------------------------
  // One turn of the loop, path by path, as `Run` continues after it

  /** The loop takes turn o from s unless `frameCount` is 0, and goes on from o unless it ended there. */
  lemma RunStep(st: Setup, s: Synth, w: Writer, o: Outcome, goal: (Option<Fault>, Writer))
    requires Valid(w) && s.frameCount != 0 && Turn(st, s, w) == o && Run(st, s, w) == goal
    ensures o.fault.Some? || o.done ==> (o.fault, o.w) == goal
    ensures !(o.fault.Some? || o.done) ==> Valid(o.w) && Run(st, o.s, o.w) == goal
  {
  }

  /**
   * Once `frameCount` is below 0 (a sampled frame takes two off, so 1 goes
   * to -1), it never comes back to 0: the loop runs on until a write
   * overflows the buffer.
   */
  lemma {:induction false} NegativeCountOverflows(st: Setup, s: Synth, w: Writer)
    requires Valid(w) && s.frameCount < 0
    ensures Run(st, s, w).0.Some?
    decreases 50 * (|w.buffer| + 1) - w.bufferpos
  {
    var o := Turn(st, s, w);
    if o.fault.None? {
      NegativeCountOverflows(st, o.s, o.w);
    }
  }

  /** A sampled frame renders its sample; unless that overflows, the pulse restarts two frames on. */
  lemma SampledFrame(st: Setup, s: Synth, w: Writer, fault: Option<Fault>, w1: Writer, off: int)
    requires Valid(w) && Sampled(Byte(st.flags, s.pos))
    requires Rendered(SampleRun(w, st.ts.pitches, st.samples, s.lastSampleOffset, Byte(st.flags, s.pos), s.pos), fault, w1, off)
    ensures Turn(st, s, w) == if fault.Some? then Outcome(fault, false, s, w1)
      else Outcome(None, false, Synth(st.speed, 0, 0, 0, off, s.pos + 2, Read(st.ts.pitches, s.pos + 2),
                                      Window(Read(st.ts.pitches, s.pos + 2)), s.frameCount - 2), w1)
  {
  }

  /** Any other frame first writes its tick; a tick past the end of the buffer ends the turn with the fault. */
  lemma TickOverflow(st: Setup, s: Synth, w: Writer, fault: Option<Fault>, w1: Writer)
    requires Valid(w) && !Sampled(Byte(st.flags, s.pos)) && (fault, w1) == Put(w, 0, Tick(st, s)) && fault.Some?
    ensures Turn(st, s, w) == Outcome(fault, false, s, w1)
  {
  }

  /** After a tick, the speed counter has run down (moving to the next frame) or not. */
  predicate Counted(st: Setup, s: Synth, speedcounter: int, pos: int, frameCount: int)
  {
    var sc := s.speedcounter - 1;
    && speedcounter == (if sc == 0 then st.speed else sc)
    && pos == (if sc == 0 then s.pos + 1 else s.pos)
    && frameCount == (if sc == 0 then s.frameCount - 1 else s.frameCount)
    && !(sc == 0 && frameCount == 0)
  }

  /** The tick that counts the last frame down is the `return`. */
  lemma LastTick(st: Setup, s: Synth, w: Writer, w1: Writer)
    requires Valid(w) && !Sampled(Byte(st.flags, s.pos)) && (None, w1) == Put(w, 0, Tick(st, s))
    requires s.speedcounter - 1 == 0 && s.frameCount - 1 == 0
    ensures Turn(st, s, w) == Outcome(None, true, s.(speedcounter := 0, pos := s.pos + 1, frameCount := 0), w1)
  {
  }

  /** At the end of the pulse, the pulse restarts from the pitch of the frame now current. */
  lemma PulseEnd(st: Setup, s: Synth, w: Writer, w1: Writer, speedcounter: int, pos: nat, frameCount: int)
    requires Valid(w) && !Sampled(Byte(st.flags, s.pos)) && (None, w1) == Put(w, 0, Tick(st, s))
    requires Counted(st, s, speedcounter, pos, frameCount) && Plus(s.glottal, Int(-1)) == Int(0)
    ensures Turn(st, s, w) == Outcome(None, false, Synth(speedcounter, 0, 0, 0, s.lastSampleOffset, pos,
                                      Read(st.ts.pitches, pos), Window(Read(st.ts.pitches, pos)), frameCount), w1)
  {
  }

  /** Inside the pulse and its window, or on a frame without a sample, the phases move on by the formants. */
  lemma PulseGoesOn(st: Setup, s: Synth, w: Writer, w1: Writer, speedcounter: int, pos: nat, frameCount: int)
    requires Valid(w) && !Sampled(Byte(st.flags, s.pos)) && (None, w1) == Put(w, 0, Tick(st, s))
    requires Counted(st, s, speedcounter, pos, frameCount) && Plus(s.glottal, Int(-1)) != Int(0)
    requires s.mem38 - 1 != 0 || Byte(st.flags, s.pos) == Int(0)
    ensures Turn(st, s, w) == Outcome(None, false, Synth(speedcounter, Phase(s.phase1, Read(st.ts.f1, pos)),
                                      Phase(s.phase2, Read(st.ts.f2, pos)), Phase(s.phase3, Read(st.ts.f3, pos)),
                                      s.lastSampleOffset, pos, Plus(s.glottal, Int(-1)), s.mem38 - 1, frameCount), w1)
  {
  }

  /** At the end of the window of a voiced sample, the sample is rendered; unless that overflows, the pulse restarts. */
  lemma WindowEnd(st: Setup, s: Synth, w: Writer, w1: Writer, speedcounter: int, pos: nat, frameCount: int,
                  fault: Option<Fault>, w2: Writer, off: int)
    requires Valid(w) && !Sampled(Byte(st.flags, s.pos)) && (None, w1) == Put(w, 0, Tick(st, s))
    requires Counted(st, s, speedcounter, pos, frameCount) && Plus(s.glottal, Int(-1)) != Int(0)
    requires s.mem38 - 1 == 0 && Byte(st.flags, s.pos) != Int(0)
    requires Valid(w1) && Rendered(SampleRun(w1, st.ts.pitches, st.samples, s.lastSampleOffset, Byte(st.flags, s.pos), pos), fault, w2, off)
    ensures Turn(st, s, w) == if fault.Some?
      then Outcome(fault, false, Synth(speedcounter, s.phase1, s.phase2, s.phase3, s.lastSampleOffset, pos,
                                       Plus(s.glottal, Int(-1)), s.mem38 - 1, frameCount), w2)
      else Outcome(None, false, Synth(speedcounter, 0, 0, 0, off, pos, Read(st.ts.pitches, pos),
                                      Window(Read(st.ts.pitches, pos)), frameCount), w2)
  {
  }

  /**
   * One turn of the `while (frameCount)` loop, on the variables s holds,
   * writing through `out`: it ends the way `Turn` says.
   */
  method Step(out: OutputBuffer, st: Setup, s: Synth) returns (fault: Option<Fault>, done: bool, next: Synth)
    requires Valid(out.State())
    modifies out, out.buffer
    ensures out.buffer == old(out.buffer)
    ensures Outcome(fault, done, next, out.State()) == Turn(st, s, old(out.State()))
  {
    ghost var w := out.State();
    var speedcounter, phase1, phase2, phase3 := s.speedcounter, s.phase1, s.phase2, s.phase3;
    var lastSampleOffset, pos, glottal, mem38, frameCount := s.lastSampleOffset, s.pos, s.glottal, s.mem38, s.frameCount;
    done, next := false, s;
    var flags := Byte(st.flags, pos);
    if Sampled(flags) {
      var off;
      fault, off := RenderSample(out, st.ts.pitches, st.samples, lastSampleOffset, flags, pos);
      SampledFrame(st, s, w, fault, out.State(), off);
      if fault.Some? {
        return;
      }
      lastSampleOffset := off;
      pos := pos + 2;
      frameCount := frameCount - 2;
      speedcounter := st.speed;
    } else {
      var ary := Mix(st, s);
      fault := out.Ary(0, ary);
      if fault.Some? {
        TickOverflow(st, s, w, fault, out.State());
        return;
      }
      ghost var w1 := out.State();
      speedcounter := speedcounter - 1;
      if speedcounter == 0 {
        pos := pos + 1;
        frameCount := frameCount - 1;
        if frameCount == 0 {
          LastTick(st, s, w, w1);
          done, next := true, s.(speedcounter := speedcounter, pos := pos, frameCount := frameCount);
          return;
        }
        speedcounter := st.speed;
      }
      glottal := Plus(glottal, Int(-1));
      if glottal != Int(0) {
        mem38 := mem38 - 1;
        if mem38 != 0 || flags == Int(0) {
          phase1 := Phase(phase1, Read(st.ts.f1, pos));
          phase2 := Phase(phase2, Read(st.ts.f2, pos));
          phase3 := Phase(phase3, Read(st.ts.f3, pos));
          PulseGoesOn(st, s, w, w1, speedcounter, pos, frameCount);
          next := Synth(speedcounter, phase1, phase2, phase3, lastSampleOffset, pos, glottal, mem38, frameCount);
          return;
        }
        var off;
        fault, off := RenderSample(out, st.ts.pitches, st.samples, lastSampleOffset, flags, pos);
        WindowEnd(st, s, w, w1, speedcounter, pos, frameCount, fault, out.State(), off);
        if fault.Some? {
          next := Synth(speedcounter, phase1, phase2, phase3, lastSampleOffset, pos, glottal, mem38, frameCount);
          return;
        }
        lastSampleOffset := off;
      } else {
        PulseEnd(st, s, w, w1, speedcounter, pos, frameCount);
      }
    }
    glottal := Read(st.ts.pitches, pos);
    mem38 := Window(glottal);
    phase1, phase2, phase3 := 0, 0, 0;
    next := Synth(speedcounter, phase1, phase2, phase3, lastSampleOffset, pos, glottal, mem38, frameCount);
  }

  /**
   * `ProcessFrames(frameCount, speed, frequency, pitches, amplitude,
   * sampledConsonantFlag)`, writing through `out`: it does what `Run` says
   * from the starting variables, an overflowing write ending it with the fault.
   */
  method ProcessFrames(out: OutputBuffer, frameCount: int, speed: int, ts: Tables, flags: seq<int>,
                       sinus: seq<int>, samples: seq<int>) returns (fault: Option<Fault>)
    requires Valid(out.State())
    modifies out, out.buffer
    ensures out.buffer == old(out.buffer)
    ensures (fault, out.State()) == Run(Setup(ts, flags, speed, sinus, samples), Start(ts, frameCount), old(out.State()))
  {
    var st := Setup(ts, flags, speed, sinus, samples);
    var glottal := Read(ts.pitches, 0);
    var s := Synth(72, 0, 0, 0, 0, 0, glottal, Window(glottal), frameCount);
    ghost var goal := Run(st, s, out.State());
    fault := None;
    while s.frameCount != 0
      invariant Valid(out.State()) && out.buffer == old(out.buffer) && fault.None?
      invariant goal == Run(st, s, out.State())
      decreases 50 * (out.buffer.Length + 1) - out.State().bufferpos
    {
      ghost var w, s0 := out.State(), s;
      var done;
      fault, done, s := Step(out, st, s);
      RunStep(st, s0, w, Outcome(fault, done, s, out.State()), goal);
      if fault.Some? || done {
        return;
      }
    }
  }
}
