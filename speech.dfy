/**
 * `Renderer(phonemes, pitch, mouth, throat, speed, singmode)`: the options
 * with their defaults, an output buffer sized by the total length of the
 * triples, the triples cut into phrases at BREAK up to END, and `Render`,
 * which turns one phrase into frames, blends them, bends the pitch by the
 * first formant (unless singing), rescales the amplitudes and hands the
 * frames to `ProcessFrames`.
 */
module Speech {
  import opened Outcomes
  import opened Phonemes
  import opened Store
  import opened Parser
  import opened Voice
  import opened Frames
  import opened Transitions
  import opened Output
  import opened Sampler
  import opened Doubles

  // ---------------------------------------------------------------------
  // The length of a JS array

  /** A set that is not empty has an element. */
  lemma Occupied(keys: set<int>)
    ensures keys == {} || exists k :: k in keys
  {
    if forall k :: k !in keys {
      assert keys == {};
    }
  }

  /** The largest element of a nonempty set. */
  ghost function Max(keys: set<int>): (m: int)
    requires keys != {}
    ensures m in keys && forall k :: k in keys ==> k <= m
    decreases |keys|
  {
    Occupied(keys);
    var k :| k in keys;
    var rest := keys - {k};
    assert forall j :: j in keys ==> j in rest || j == k;
    if rest == {} then k
    else
      var m := Max(rest);
      if k < m then m else k
  }

  /** The array indices present in t. */
  function Indices(t: Table): set<int>
  {
    set i | i in t && 0 <= i
  }

  /** `t.length`: one past the largest array index stored, 0 when there is none. */
  ghost function Length(t: Table): nat
  {
    if Indices(t) == {} then 0 else Max(Indices(t)) + 1
  }

  /** n is one past every stored index, and the index just below n is stored. */
  predicate IsLength(t: Table, n: int)
  {
    && 0 <= n
    && (forall i :: i in t && 0 <= i ==> i < n)
    && (n == 0 || n - 1 in t)
  }

  /** The length is the one number of that kind. */
  lemma LengthIs(t: Table, n: int)
    ensures IsLength(t, n) <==> n == Length(t)
  {
    var ks := Indices(t);
    assert forall i :: i in t && 0 <= i <==> i in ks;
    if ks != {} {
      var m := Max(ks);
      assert m in t && 0 <= m;
    } else {
      assert forall i :: i !in ks;
    }
  }

  /** `t.length`, read off the stored indices. */
  method ArrayLength(t: Table) returns (n: nat)
    ensures n == Length(t)
  {
    n := 0;
    var keys := t.Keys;
    while keys != {}
      invariant keys <= t.Keys
      invariant forall i :: i in t && 0 <= i && i !in keys ==> i < n
      invariant n == 0 || n - 1 in t
      decreases |keys|
    {
      Occupied(keys);
      var k :| k in keys;
      if k >= n {
        n := k + 1;
      }
      keys := keys - {k};
    }
    LengthIs(t, n);
  }

  /** Writing below the length keeps it. */
  lemma LengthKeeps(t: Table, u: Table, n: int)
    requires IsLength(t, n)
    requires forall i :: i in u <==> i in t || 0 <= i < n
    ensures Length(u) == Length(t)
  {
    LengthIs(t, n);
    assert IsLength(u, n);
    LengthIs(u, n);
  }

  // ---------------------------------------------------------------------
  // The pitch contour

  /**
   * `pitches[i] -= frequency[0][i] >> 1` for each i below n, in increasing
   * order: half the first formant, rounded down, is taken off the pitch;
   * an undefined pitch becomes NaN, and every index below n is written.
   */
  function Contour(pitches: Table, f1: Table, n: int): (r: Table)
    ensures forall i :: i in r <==> i in pitches || 0 <= i < n
    decreases n
  {
    if n <= 0 then pitches
    else Contour(pitches, f1, n - 1)[n - 1 := Minus(Read(pitches, n - 1), Int(Int32(Read(f1, n - 1)) / 2))]
  }

  /** Each pitch below n has lost half its formant, and the others are as they were. */
  lemma {:induction false} ContourAt(pitches: Table, f1: Table, n: int, i: int)
    ensures 0 <= i < n ==> Read(Contour(pitches, f1, n), i) == Minus(Read(pitches, i), Int(Int32(Read(f1, i)) / 2))
    ensures !(0 <= i < n) ==> Read(Contour(pitches, f1, n), i) == Read(pitches, i)
    decreases n
  {
    if n > 0 && i != n - 1 {
      ContourAt(pitches, f1, n - 1, i);
    }
  }

  /** With a formant of 0 or more, the contour lowers a pitch by half the formant and never raises it. */
  lemma ContourLowers(pitches: Table, f1: Table, n: int, i: int)
    requires 0 <= i < n && Read(pitches, i).Int? && Read(f1, i).Int? && Read(f1, i).v >= 0
    ensures Read(Contour(pitches, f1, n), i).Int?
    ensures Read(pitches, i).v - Read(f1, i).v / 2 == Read(Contour(pitches, f1, n), i).v <= Read(pitches, i).v
  {
    ContourAt(pitches, f1, n, i);
  }

  /** The contour loop writes only below the length, so `pitches.length` stays what it was. */
  lemma ContourLength(pitches: Table, f1: Table)
    ensures Length(Contour(pitches, f1, Length(pitches))) == Length(pitches)
  {
    LengthIs(pitches, Length(pitches));
    LengthKeeps(pitches, Contour(pitches, f1, Length(pitches)), Length(pitches));
  }

  /** Turn i of the loop reads pitch i as it was before the loop. */
  lemma ContourNext(pitches: Table, f1: Table, i: nat)
    ensures Contour(pitches, f1, i + 1)
      == Contour(pitches, f1, i)[i := Minus(Read(Contour(pitches, f1, i), i), Int(Int32(Read(f1, i)) / 2))]
  {
    ContourAt(pitches, f1, i, i);
  }

  /** Nothing written yet, the pitches are the ones given. */
  lemma ContourNone(pitches: Table, f1: Table)
    ensures Contour(pitches, f1, 0) == pitches
  {
  }

  // ---------------------------------------------------------------------
  // The amplitude rescale

  /** `amplitudeRescale`: a linear amplitude 0..15 on a logarithmic scale, and 16 as 0. */
  const AmplitudeRescale: seq<int> := [0x00, 0x01, 0x02, 0x02, 0x02, 0x03, 0x03, 0x04,
                                       0x04, 0x05, 0x06, 0x08, 0x09, 0x0B, 0x0D, 0x0F, 0x00]

  /** `amplitudeRescale[x]`: `undefined` unless x indexes the table. */
  function Rescale(x: Num): (r: Num)
    ensures r.Int? <==> x.Int? && 0 <= x.v < 17
  {
    if x.Int? && 0 <= x.v < |AmplitudeRescale| then Int(AmplitudeRescale[x.v]) else NaN
  }

  /** `a[i] = amplitudeRescale[a[i]]` for each i from n - 1 down to lo. */
  function Rescaled(a: Table, lo: int, n: int): (r: Table)
    ensures forall i :: i in r <==> i in a || lo <= i < n
    decreases n - lo
  {
    if lo >= n then a else Rescaled(a, lo + 1, n)[lo := Rescale(Read(a, lo))]
  }

  /** The three amplitude tracks rescaled from n - 1 down to lo. */
  function RescaledFrom(ts: Tables, lo: int, n: int): (r: Tables)
    ensures r.pitches == ts.pitches && r.f1 == ts.f1 && r.f2 == ts.f2 && r.f3 == ts.f3
  {
    ts.(a1 := Rescaled(ts.a1, lo, n), a2 := Rescaled(ts.a2, lo, n), a3 := Rescaled(ts.a3, lo, n))
  }

  /** A rescaled amplitude is a nibble, so the mixer's `& 0x0F` leaves it alone. */
  lemma RescaleIsNibble(x: Num)
    ensures Rescale(x).Int? ==> 0 <= Rescale(x).v < 16
    ensures Low4(Rescale(x)) == Int32(Rescale(x))
  {
    if x.Int? && 0 <= x.v < 17 {
      assert forall k :: 0 <= k < 17 ==> 0 <= AmplitudeRescale[k] < 16;
    }
  }

  /** On 0..15 the rescale keeps the order of the amplitudes. */
  lemma RescaleMonotone(a: int, b: int)
    requires 0 <= a <= b < 16
    ensures Rescale(Int(a)).v <= Rescale(Int(b)).v
  {
    assert forall k :: 0 <= k < 15 ==> AmplitudeRescale[k] <= AmplitudeRescale[k + 1];
    if a < b {
      RescaleMonotone(a, b - 1);
    }
  }

  /** Every amplitude from lo to n - 1 reads as its rescaled value; the others as before. */
  lemma {:induction false} RescaledAt(a: Table, lo: int, n: int, i: int)
    ensures lo <= i < n ==> Read(Rescaled(a, lo, n), i) == Rescale(Read(a, i))
    ensures !(lo <= i < n) ==> Read(Rescaled(a, lo, n), i) == Read(a, i)
    decreases n - lo
  {
    if lo < n && i != lo {
      RescaledAt(a, lo + 1, n, i);
    }
  }

  /** Turn i of the loop reads amplitude i as it was before the loop. */
  lemma RescaledFromNext(ts: Tables, i: int, n: int)
    requires i < n
    ensures var r := RescaledFrom(ts, i + 1, n);
      RescaledFrom(ts, i, n) == r.(a1 := r.a1[i := Rescale(Read(r.a1, i))],
                                   a2 := r.a2[i := Rescale(Read(r.a2, i))],
                                   a3 := r.a3[i := Rescale(Read(r.a3, i))])
  {
    RescaledAt(ts.a1, i + 1, n, i);
    RescaledAt(ts.a2, i + 1, n, i);
    RescaledAt(ts.a3, i + 1, n, i);
  }

  /** The rescale leaves the length of the first amplitude track alone. */
  lemma RescaledLength(a: Table)
    ensures Length(Rescaled(a, 0, Length(a))) == Length(a)
  {
    LengthIs(a, Length(a));
    LengthKeeps(a, Rescaled(a, 0, Length(a)), Length(a));
  }

  // ---------------------------------------------------------------------
  // Render: one phrase

  /** What `Render` reads from the closure around it. */
  datatype Settings = Settings(pitch: int, speed: int, singmode: bool, freq: Formants, sinus: seq<int>, samples: seq<int>)

  /** The tracks after the transitions, bent by the first formant unless singing. */
  ghost function Bent(cfg: Settings, ts: Tables): (r: Tables)
    ensures r.f1 == ts.f1 && r.f2 == ts.f2 && r.f3 == ts.f3 && r.a1 == ts.a1 && r.a2 == ts.a2 && r.a3 == ts.a3
  {
    if cfg.singmode then ts else ts.(pitches := Contour(ts.pitches, ts.f1, Length(ts.pitches)))
  }

  /** The tracks `ProcessFrames` is given for a nonempty phrase. */
  ghost function Prepared(cfg: Settings, tuples: seq<Triple>): Tables
  {
    var ts := Bent(cfg, TransitionsFrom(TablesOf(Framed(cfg.pitch, tuples, cfg.freq)), tuples, 0, 0));
    RescaledFrom(ts, 0, Length(ts.a1))
  }

  /** `Render(tuples)` with writer w: nothing for an empty phrase, else the loop of `ProcessFrames` over the prepared tracks. */
  ghost function Rendering(cfg: Settings, tuples: seq<Triple>, w: Writer): (r: (Option<Fault>, Writer))
    requires Valid(w)
    ensures Valid(r.1) && |r.1.buffer| == |w.buffer| && w.bufferpos <= r.1.bufferpos
  {
    if |tuples| == 0 then (None, w)
    else
      var ts := Prepared(cfg, tuples);
      Run(Setup(ts, Framed(cfg.pitch, tuples, cfg.freq).flags, cfg.speed, cfg.sinus, cfg.samples),
          Start(ts, TotalLength(tuples) % 256), w)
  }

  /** An empty phrase writes nothing. */
  lemma EmptyPhrase(cfg: Settings, w: Writer)
    requires Valid(w)
    ensures Rendering(cfg, [], w) == (None, w)
  {
  }

  /** The `ASSIGN PITCH CONTOUR` loop over the pitches of tt. */
  method AssignPitchContour(tt: TransitionTables)
    modifies tt
    ensures tt.tables == old(tt.tables).(pitches := Contour(old(tt.tables.pitches), old(tt.tables.f1), Length(old(tt.tables.pitches))))
  {
    ghost var p0, f1 := tt.tables.pitches, tt.tables.f1;
    var n := ArrayLength(tt.tables.pitches);
    ContourNone(p0, f1);
    var i := 0;
    while i < n
      invariant 0 <= i <= n
      invariant tt.tables == old(tt.tables).(pitches := Contour(p0, f1, i))
    {
      ContourNext(p0, f1, i);
      var pitches := tt.tables.pitches;
      pitches := pitches[i := Minus(Read(pitches, i), Int(Int32(Read(tt.tables.f1, i)) / 2))];
      tt.tables := tt.tables.(pitches := pitches);
      i := i + 1;
    }
  }

  /** The `RESCALE AMPLITUDE` loop, from the last index of the first amplitude track down to 0. */
  method RescaleAmplitude(tt: TransitionTables)
    modifies tt
    ensures tt.tables == RescaledFrom(old(tt.tables), 0, Length(old(tt.tables.a1)))
  {
    ghost var t0 := tt.tables;
    var n := ArrayLength(tt.tables.a1);
    var i := n as int - 1;
    while i >= 0
      invariant -1 <= i < n
      invariant tt.tables == RescaledFrom(t0, i + 1, n)
    {
      RescaledFromNext(t0, i, n);
      var ts := tt.tables;
      tt.tables := ts.(a1 := ts.a1[i := Rescale(Read(ts.a1, i))],
                       a2 := ts.a2[i := Rescale(Read(ts.a2, i))],
                       a3 := ts.a3[i := Rescale(Read(ts.a3, i))]);
      i := i - 1;
    }
  }

  /** `Render(tuples)`, writing through `out`. */
  method Render(out: OutputBuffer, cfg: Settings, tuples: seq<Triple>) returns (fault: Option<Fault>)
    requires Valid(out.State()) && TableIds(tuples)
    modifies out, out.buffer
    ensures out.buffer == old(out.buffer)
    ensures (fault, out.State()) == Rendering(cfg, tuples, old(out.State()))
  {
    if |tuples| == 0 {
      return None;
    }
    var frames := CreateFrames(cfg.pitch, tuples, cfg.freq);
    var tt := new TransitionTables(frames.Contents());
    var t := tt.CreateTransitions(tuples);
    if !cfg.singmode {
      AssignPitchContour(tt);
    }
    RescaleAmplitude(tt);
    fault := ProcessFrames(out, t, cfg.speed, tt.tables, frames.flags, cfg.sinus, cfg.samples);
  }

  // ---------------------------------------------------------------------
  // Renderer: the options, the buffer and the phrases

  /** The ids `Renderer` can meet: a hole, a table id, BREAK or END. */
  predicate Renderable(phonemes: seq<Triple>)
  {
    forall k :: 0 <= k < |phonemes| ==>
      phonemes[k].id == HOLE || 0 <= phonemes[k].id < 80 || phonemes[k].id == BREAK || phonemes[k].id == END
  }

  /**
   * The loop of `Renderer` from srcpos, with the phrase collected so far:
   * a missing triple (a hole, or past the end) throws, id 0 is passed over,
   * BREAK renders the phrase and starts a new one, END renders it and
   * returns what the writer holds, and any other triple joins the phrase.
   */
  ghost function Speak(cfg: Settings, phonemes: seq<Triple>, srcpos: nat, tuples: seq<Triple>, w: Writer): (r: Result<seq<int>>)
    requires Valid(w) && Renderable(phonemes) && TableIds(tuples)
    decreases |phonemes| - srcpos
  {
    if srcpos >= |phonemes| || phonemes[srcpos].id == HOLE then Err(NotATriple(srcpos))
    else
      var a := phonemes[srcpos];
      if a.id == END then
        var (fault, w') := Rendering(cfg, tuples, w);
        if fault.Some? then Err(fault.value) else Ok(Visible(w'))
      else if a.id == BREAK then
        var (fault, w') := Rendering(cfg, tuples, w);
        if fault.Some? then Err(fault.value) else Speak(cfg, phonemes, srcpos + 1, [], w')
      else if a.id == 0 then Speak(cfg, phonemes, srcpos + 1, tuples, w)
      else Speak(cfg, phonemes, srcpos + 1, tuples + [a], w)
  }

  /** A missing triple throws. */
  lemma SpeakMissing(cfg: Settings, phonemes: seq<Triple>, srcpos: nat, tuples: seq<Triple>, w: Writer)
    requires Valid(w) && Renderable(phonemes) && TableIds(tuples)
    requires srcpos >= |phonemes| || phonemes[srcpos].id == HOLE
    ensures Speak(cfg, phonemes, srcpos, tuples, w) == Err(NotATriple(srcpos))
  {
  }

  /** END renders the phrase and returns the bytes written, unless the rendering threw. */
  lemma SpeakEnd(cfg: Settings, phonemes: seq<Triple>, srcpos: nat, tuples: seq<Triple>, w: Writer)
    requires Valid(w) && Renderable(phonemes) && TableIds(tuples)
    requires srcpos < |phonemes| && phonemes[srcpos].id == END
    ensures Speak(cfg, phonemes, srcpos, tuples, w) == Finish(cfg, tuples, w)
  {
  }

  /** What END returns after rendering the phrase: the bytes written, or the exception. */
  ghost function Finish(cfg: Settings, tuples: seq<Triple>, w: Writer): (r: Result<seq<int>>)
    requires Valid(w)
    ensures r.Ok? ==> |r.value| <= |w.buffer|
  {
    var (fault, w') := Rendering(cfg, tuples, w);
    if fault.Some? then Err(fault.value) else Ok(Visible(w'))
  }

  /** BREAK renders the phrase and goes on with an empty one, unless the rendering threw. */
  lemma SpeakBreak(cfg: Settings, phonemes: seq<Triple>, srcpos: nat, tuples: seq<Triple>, w: Writer,
                   fault: Option<Fault>, w1: Writer)
    requires Valid(w) && Renderable(phonemes) && TableIds(tuples)
    requires srcpos < |phonemes| && phonemes[srcpos].id == BREAK && (fault, w1) == Rendering(cfg, tuples, w)
    ensures fault.Some? ==> Speak(cfg, phonemes, srcpos, tuples, w) == Err(fault.value)
    ensures fault.None? ==> Valid(w1) && Speak(cfg, phonemes, srcpos, tuples, w) == Speak(cfg, phonemes, srcpos + 1, [], w1)
  {
  }

  /** Id 0 is passed over, and any other table id joins the phrase. */
  lemma SpeakOn(cfg: Settings, phonemes: seq<Triple>, srcpos: nat, tuples: seq<Triple>, w: Writer, next: seq<Triple>)
    requires Valid(w) && Renderable(phonemes) && TableIds(tuples)
    requires srcpos < |phonemes| && phonemes[srcpos].id !in {HOLE, END, BREAK}
    requires next == if phonemes[srcpos].id == 0 then tuples else tuples + [phonemes[srcpos]]
    ensures TableIds(next) && Speak(cfg, phonemes, srcpos, tuples, w) == Speak(cfg, phonemes, srcpos + 1, next, w)
  {
  }

  /** The loop only returns bytes after reaching an END, and never more than the buffer holds. */
  lemma {:induction false} SpeakEnds(cfg: Settings, phonemes: seq<Triple>, srcpos: nat, tuples: seq<Triple>, w: Writer)
    requires Valid(w) && Renderable(phonemes) && TableIds(tuples)
    requires Speak(cfg, phonemes, srcpos, tuples, w).Ok?
    ensures exists k :: srcpos <= k < |phonemes| && phonemes[k].id == END
    ensures |Speak(cfg, phonemes, srcpos, tuples, w).value| <= |w.buffer|
    decreases |phonemes| - srcpos
  {
    if srcpos < |phonemes| && phonemes[srcpos].id != HOLE {
      var a := phonemes[srcpos];
      if a.id == END {
        assert phonemes[srcpos].id == END;
      } else if a.id == BREAK {
        var (fault, w') := Rendering(cfg, tuples, w);
        if fault.None? {
          SpeakEnds(cfg, phonemes, srcpos + 1, [], w');
        }
      } else {
        var next := if a.id == 0 then tuples else tuples + [a];
        SpeakOn(cfg, phonemes, srcpos, tuples, w, next);
        SpeakEnds(cfg, phonemes, srcpos + 1, next, w);
      }
    }
  }

  /**
   * A run of table ids other than 0 up to END is one phrase: the loop
   * renders it whole, after what was collected before it.
   */
  lemma {:induction false} OnePhrase(cfg: Settings, phonemes: seq<Triple>, srcpos: nat, e: nat, tuples: seq<Triple>,
                                     w: Writer, phrase: seq<Triple>)
    requires Valid(w) && Renderable(phonemes) && TableIds(tuples)
    requires srcpos <= e < |phonemes| && phonemes[e].id == END
    requires forall k :: srcpos <= k < e ==> 0 < phonemes[k].id < 80
    requires phrase == tuples + phonemes[srcpos..e]
    ensures TableIds(phrase) && Speak(cfg, phonemes, srcpos, tuples, w) == Finish(cfg, phrase, w)
    decreases e - srcpos
  {
    if srcpos == e {
      assert phrase == tuples;
      SpeakEnd(cfg, phonemes, srcpos, tuples, w);
    } else {
      var next := tuples + [phonemes[srcpos]];
      SpeakOn(cfg, phonemes, srcpos, tuples, w, next);
      assert next + phonemes[srcpos + 1..e] == phrase;
      OnePhrase(cfg, phonemes, srcpos + 1, e, next, w, phrase);
    }
  }

  /** The options as the caller gives them, `None` standing for `undefined`. */
  datatype Options = Options(pitch: Option<int>, mouth: Option<int>, throat: Option<int>,
                             speed: Option<int>, singmode: Option<bool>)

  /** `x === undefined ? d : x & 0xFF`. */
  function ByteOr(x: Option<int>, d: int): (r: int)
    ensures x.Some? ==> 0 <= r < 256 && (r - x.value) % 256 == 0
    ensures x.None? ==> r == d
  {
    if x.None? then d else x.value % 256
  }

  /** `(speed || 72) & 0xFF`: an undefined or zero speed is 72. */
  function SpeedOf(x: Option<int>): (r: int)
    ensures 0 <= r < 256
    ensures x.None? || x.value == 0 ==> r == 72
    ensures x.Some? && x.value != 0 ==> (r - x.value) % 256 == 0
  {
    if x.None? || x.value == 0 then 72 else x.value % 256
  }

  /**
   * `441 * total / 50 * speed | 0` in doubles: the product `441 * total` is
   * a whole number, its quotient by 50 is rounded to the nearest double,
   * the product with the speed is rounded again, and `| 0` truncates.
   */
  function Size(total: int, speed: int): (r: int)
    ensures total >= 0 && speed >= 0 ==> r >= 0
  {
    var q := Quotient(441 * total, 50);
    NumSign(q);
    var p := Times(q, speed);
    NumSign(p);
    TruncBounds(p);
    Trunc(p)
  }

  /** The buffer size: 176.4 bytes for each frame of length at the given speed, in doubles. */
  function BufferSize(phonemes: seq<Triple>, speed: int): (r: int)
    ensures TotalLength(phonemes) >= 0 && speed >= 0 ==> r >= 0
  {
    Size(20 * TotalLength(phonemes), speed)
  }

  lemma Pow2Values()
    ensures Pow2(34) == 17179869184 && Pow2(35) == 34359738368 && Pow2(36) == 68719476736
    ensures Pow2(40) == 1099511627776 && Pow2(41) == 2199023255552
  {
    assert Pow2(10) == 1024 && Pow2(4) == 16 && Pow2(5) == 32 && Pow2(6) == 64;
    Pow2Add(10, 10);
    Pow2Add(20, 10);
    Pow2Add(30, 4);
    Pow2Add(30, 5);
    Pow2Add(30, 6);
    Pow2Add(30, 10);
    Pow2Add(40, 1);
  }

  /**
   * Rounding can cost a byte: for a total length of 13 at speed 50, the
   * quotient 2293.2 is stored a little low and the product truncates to
   * 114659, where the exact value is 114660.
   */
  lemma SizeRoundsDown()
    ensures Size(20 * 13, 50) == 114659 && 441 * (20 * 13) * 50 / 50 == 114660
  {
    Pow2Values();
    var q := Quotient(441 * 260, 50);
    UpJump(114660, 50, 0, 41);
    assert q == Double(5042800129631846, -41);
    var a := 5042800129631846 * 50;
    UpJump(a, Pow2(41), 0, 36);
    assert Times(q, 50) == Double(7879375202549759, -36);
  }

  /** At the default speed 72 the same length gives the exact size, 165110. */
  lemma SizeAtDefaultSpeed()
    ensures Size(20 * 13, 72) == 165110 == 441 * (20 * 13) * 72 / 50
  {
    Pow2Values();
    var q := Quotient(441 * 260, 50);
    UpJump(114660, 50, 0, 41);
    assert q == Double(5042800129631846, -41);
    var a := 5042800129631846 * 72;
    assert Times(q, 72) == Up(a, Pow2(41), 0);
    UpJump(a, Pow2(41), 0, 35);
    assert RoundHalfEven(a * Pow2(35), Pow2(41)) == 5673150145835827;
    var p := Double(5673150145835827, -35);
    assert Times(q, 72) == p;
    assert Numer(p) == 5673150145835827 && Denom(p) == Pow2(35);
  }

  /**
   * `Renderer(phonemes, pitch, mouth, throat, speed, singmode)` with the
   * given sine and sample tables: the bytes written up to END, or the
   * exception that ended it.
   */
  ghost function Speech(phonemes: seq<Triple>, opts: Options, sinus: seq<int>, samples: seq<int>): Result<seq<int>>
    requires Renderable(phonemes)
  {
    var speed := SpeedOf(opts.speed);
    var size := BufferSize(phonemes, speed);
    if size < 0 then Err(InvalidLength(size))
    else
      var cfg := Settings(ByteOr(opts.pitch, 64), speed, opts.singmode == Some(true),
                          MouthThroat(ByteOr(opts.mouth, 128), ByteOr(opts.throat, 128)), sinus, samples);
      Speak(cfg, phonemes, 0, [], Writer(seq(size, _ => 0), 0, 0))
  }

  /** `Renderer` returns bytes only for a list with an END, and at most the bytes its buffer was sized for. */
  lemma SpeechEnds(phonemes: seq<Triple>, opts: Options, sinus: seq<int>, samples: seq<int>)
    requires Renderable(phonemes) && Speech(phonemes, opts, sinus, samples).Ok?
    ensures exists k :: 0 <= k < |phonemes| && phonemes[k].id == END
    ensures |Speech(phonemes, opts, sinus, samples).value| <= BufferSize(phonemes, SpeedOf(opts.speed))
  {
    var speed := SpeedOf(opts.speed);
    var size := BufferSize(phonemes, speed);
    var cfg := Settings(ByteOr(opts.pitch, 64), speed, opts.singmode == Some(true),
                        MouthThroat(ByteOr(opts.mouth, 128), ByteOr(opts.throat, 128)), sinus, samples);
    SpeakEnds(cfg, phonemes, 0, [], Writer(seq(size, _ => 0), 0, 0));
  }

  /** What `Parser` returns is something `Renderer` can take. */
  lemma ParseRenderable(input: string, fuel: nat)
    ensures Parse(input, fuel).Output? ==> Renderable(Parse(input, fuel).triples)
  {
    ParseIds(input, fuel);
  }

  /** The renderer's result, written out by the loop over the triples. */
  method Renderer(phonemes: seq<Triple>, opts: Options, sinus: seq<int>, samples: seq<int>) returns (r: Result<seq<int>>)
    requires Renderable(phonemes)
    ensures r == Speech(phonemes, opts, sinus, samples)
  {
    var pitch := ByteOr(opts.pitch, 64);
    var mouth := ByteOr(opts.mouth, 128);
    var throat := ByteOr(opts.throat, 128);
    var speed := SpeedOf(opts.speed);
    var singmode := opts.singmode == Some(true);
    var size := BufferSize(phonemes, speed);
    if size < 0 {
      return Err(InvalidLength(size));
    }
    var out := new OutputBuffer(size);
    var freqdata := SetMouthThroat(mouth, throat);
    var cfg := Settings(pitch, speed, singmode, freqdata, sinus, samples);
    ghost var goal := Speak(cfg, phonemes, 0, [], out.State());
    assert goal == Speech(phonemes, opts, sinus, samples);
    var srcpos := 0;
    var tuples := [];
    while true
      invariant 0 <= srcpos <= |phonemes| && Valid(out.State()) && TableIds(tuples) && fresh(out.buffer)
      invariant Speak(cfg, phonemes, srcpos, tuples, out.State()) == goal
      decreases |phonemes| - srcpos
    {
      if srcpos == |phonemes| || phonemes[srcpos].id == HOLE {
        SpeakMissing(cfg, phonemes, srcpos, tuples, out.State());
        return Err(NotATriple(srcpos));
      }
      var stop;
      stop, r, tuples := Take(out, cfg, phonemes, srcpos, tuples);
      if stop {
        return;
      }
      srcpos := srcpos + 1;
    }
  }

  /** One turn of the loop of `Renderer` on the triple at srcpos: it returns r, or goes on with the phrase next. */
  method Take(out: OutputBuffer, cfg: Settings, phonemes: seq<Triple>, srcpos: nat, tuples: seq<Triple>)
    returns (stop: bool, r: Result<seq<int>>, next: seq<Triple>)
    requires Valid(out.State()) && Renderable(phonemes) && TableIds(tuples)
    requires srcpos < |phonemes| && phonemes[srcpos].id != HOLE
    modifies out, out.buffer
    ensures out.buffer == old(out.buffer) && Valid(out.State()) && TableIds(next)
    ensures stop ==> r == Speak(cfg, phonemes, srcpos, tuples, old(out.State()))
    ensures !stop ==> Speak(cfg, phonemes, srcpos, tuples, old(out.State())) == Speak(cfg, phonemes, srcpos + 1, next, out.State())
  {
    var a := phonemes[srcpos];
    ghost var w := out.State();
    stop, r, next := false, Err(NotATriple(srcpos)), tuples;
    if a.id == END {
      var fault := Render(out, cfg, tuples);
      SpeakEnd(cfg, phonemes, srcpos, tuples, w);
      stop := true;
      if fault.Some? {
        r := Err(fault.value);
      } else {
        var bytes := out.Get();
        r := Ok(bytes);
      }
    } else if a.id == BREAK {
      var fault := Render(out, cfg, tuples);
      SpeakBreak(cfg, phonemes, srcpos, tuples, w, fault, out.State());
      if fault.Some? {
        stop, r := true, Err(fault.value);
      } else {
        next := [];
      }
    } else {
      next := if a.id == 0 then tuples else tuples + [a];
      SpeakOn(cfg, phonemes, srcpos, tuples, w, next);
    }
  }
}
