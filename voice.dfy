/**
 * The voice: `trans` scales a formant base by the mouth or throat setting,
 * and `SetMouthThroat` builds the F1, F2 and F3 tables the frames copy.
 */
module Voice {
  import opened Phonemes

  /** `((((factor & 0xFF) * (x & 0xFF)) >> 8) & 0xFF) << 1`. */
  function Trans(factor: int, initial: int): (r: int)
    ensures r % 2 == 0 && 0 <= r <= 510
  {
    ((((factor % 256) * (initial % 256)) / 256) % 256) * 2
  }

  /** The three per-phoneme formant tables `[F1, F2, F3]`, each indexed by id. */
  datatype Formants = Formants(f1: seq<int>, f2: seq<int>, f3: seq<int>)

  /** Byte k of `frequencyData[p]` for every id of the table. */
  function FrequencyBytes(k: nat): (r: seq<int>)
    requires k < 3
    ensures |r| == 80
    ensures forall p :: 0 <= p < 80 ==> r[p] == PackedByte(FrequencyEntry(p), k) && 0 <= r[p] < 256
  {
    seq(80, p => PackedByte(FrequencyEntry(p), k))
  }

  /** Ids 5..29 are the voiced phonemes whose F1 and F2 the voice rescales. */
  predicate Voiced(p: int)
  {
    5 <= p < 30
  }

  /** Ids 48..53 are the diphthong glides whose F1 and F2 it rescales too. */
  predicate Glide(p: int)
  {
    48 <= p < 54
  }

  /** Entry p of the F1 (k = 0) or F2 (k = 1) table the voice builds from `setting`. */
  function Scaled(setting: int, k: nat, p: int): int
    requires k < 2
  {
    if Voiced(p) then Trans(setting, if k == 0 then MouthFormant(p) else ThroatFormant(p))
    else if Glide(p) then Trans(setting, if k == 0 then DiphthongMouthFormant(p - 48) else DiphthongThroatFormant(p - 48))
    else PackedByte(FrequencyEntry(p), k)
  }

  /** The tables `SetMouthThroat(mouth, throat)` returns. */
  function MouthThroat(mouth: int, throat: int): (r: Formants)
    ensures |r.f1| == 80 && |r.f2| == 80 && r.f3 == FrequencyBytes(2)
  {
    Formants(seq(80, p => Scaled(mouth, 0, p)), seq(80, p => Scaled(throat, 1, p)), FrequencyBytes(2))
  }

  /**
   * The mouth setting scales F1 and the throat setting F2 of the voiced
   * phonemes and of the glides; every other entry, and all of F3, keeps
   * its `frequencyData` byte.
   */
  method SetMouthThroat(mouth: int, throat: int) returns (freq: Formants)
    ensures |freq.f1| == 80 && |freq.f2| == 80 && |freq.f3| == 80
    ensures forall p :: Voiced(p) ==>
      freq.f1[p] == Trans(mouth, MouthFormant(p)) && freq.f2[p] == Trans(throat, ThroatFormant(p))
    ensures forall p :: Glide(p) ==>
      freq.f1[p] == Trans(mouth, DiphthongMouthFormant(p - 48))
      && freq.f2[p] == Trans(throat, DiphthongThroatFormant(p - 48))
    ensures forall p :: 0 <= p < 80 && !Voiced(p) && !Glide(p) ==>
      freq.f1[p] == PackedByte(FrequencyEntry(p), 0) && freq.f2[p] == PackedByte(FrequencyEntry(p), 1)
    ensures freq.f3 == FrequencyBytes(2)
    ensures freq == MouthThroat(mouth, throat)
  {
    var f1 := FrequencyBytes(0);
    var f2 := FrequencyBytes(1);
    var f3 := FrequencyBytes(2);
    var newFrequency := 0;
    var pos := 5;
    while pos < 30
      invariant 5 <= pos <= 30
      invariant |f1| == 80 && |f2| == 80
      invariant forall p :: 0 <= p < 80 ==>
        f1[p] == (if 5 <= p < pos then Trans(mouth, MouthFormant(p)) else PackedByte(FrequencyEntry(p), 0))
      invariant forall p :: 0 <= p < 80 ==>
        f2[p] == (if 5 <= p < pos then Trans(throat, ThroatFormant(p)) else PackedByte(FrequencyEntry(p), 1))
    {
      NoZeroFormants(pos);
      var initial := MouthFormant(pos);
      if initial != 0 {
        newFrequency := Trans(mouth, initial);
      }
      f1 := f1[pos := newFrequency];
      initial := ThroatFormant(pos);
      if initial != 0 {
        newFrequency := Trans(throat, initial);
      }
      f2 := f2[pos := newFrequency];
      pos := pos + 1;
    }
    pos := 0;
    while pos < 6
      invariant 0 <= pos <= 6
      invariant |f1| == 80 && |f2| == 80
      invariant forall p :: 0 <= p < 80 ==>
        f1[p] == (if Voiced(p) then Trans(mouth, MouthFormant(p))
                  else if 48 <= p < 48 + pos then Trans(mouth, DiphthongMouthFormant(p - 48))
                  else PackedByte(FrequencyEntry(p), 0))
      invariant forall p :: 0 <= p < 80 ==>
        f2[p] == (if Voiced(p) then Trans(throat, ThroatFormant(p))
                  else if 48 <= p < 48 + pos then Trans(throat, DiphthongThroatFormant(p - 48))
                  else PackedByte(FrequencyEntry(p), 1))
    {
      newFrequency := Trans(mouth, DiphthongMouthFormant(pos));
      f1 := f1[pos + 48 := newFrequency];
      newFrequency := Trans(throat, DiphthongThroatFormant(pos));
      f2 := f2[pos + 48 := newFrequency];
      pos := pos + 1;
    }
    freq := Formants(f1, f2, f3);
    assert f1 == MouthThroat(mouth, throat).f1;
    assert f2 == MouthThroat(mouth, throat).f2;
  }

  /**
   * No voiced phoneme has a zero base, so the stale `newFrequency` the
   * loop would write for one is never used.
   */
  lemma NoZeroFormants(p: int)
    requires Voiced(p)
    ensures MouthFormant(p) != 0 && ThroatFormant(p) != 0
  {
    if p < 16 {
    } else {
    }
  }

  // ---------------------------------------------------------------------
  // Properties of the scaling

  /** Multiplying by a nonnegative factor keeps the order. */
  lemma MulMonotone(a: int, b: int, c: int)
    requires 0 <= c && a <= b
    ensures a * c <= b * c
  {
  }

  /** The product of two bytes never reaches 2^16, so the inner mask is a no-op. */
  lemma TransNoWrap(factor: int, initial: int)
    ensures Trans(factor, initial) == ((factor % 256) * (initial % 256)) / 256 * 2
  {
    var f, x := factor % 256, initial % 256;
    ByteProduct(f, x);
    HighByte(f * x);
  }

  /** Two bytes multiply to less than 2^16. */
  lemma ByteProduct(f: int, x: int)
    requires 0 <= f < 256 && 0 <= x < 256
    ensures 0 <= f * x < 65536
  {
    MulMonotone(f, 255, x);
    MulMonotone(x, 255, 255);
    MulMonotone(0, f, x);
  }

  /** Below 2^16, the byte above the lowest is already a byte. */
  lemma HighByte(y: int)
    requires 0 <= y < 65536
    ensures (y / 256) % 256 == y / 256
  {
  }

  /** A larger mouth (or throat) setting never lowers the formant. */
  lemma TransMonotone(f: int, g: int, initial: int)
    requires 0 <= f <= g < 256
    ensures Trans(f, initial) <= Trans(g, initial)
  {
    TransNoWrap(f, initial);
    TransNoWrap(g, initial);
    MulMonotone(f, g, initial % 256);
  }

  /** The neutral setting 128 rounds a base down to even. */
  lemma TransNeutral(initial: int)
    requires 0 <= initial < 256
    ensures Trans(128, initial) == initial / 2 * 2
  {
    TransNoWrap(128, initial);
  }

  /** F1 and F2 of the voiced phonemes are their base formants rounded down to even. */
  lemma VoicedAtHalfScale(p: int)
    requires Voiced(p)
    ensures MouthFormant(p) / 2 * 2 == PackedByte(FrequencyEntry(p), 0)
    ensures ThroatFormant(p) / 2 * 2 == PackedByte(FrequencyEntry(p), 1)
  {
    if p < 13 {
      HalfScaleBelow13(p);
    } else if p < 21 {
      HalfScaleBelow21(p);
    } else {
      HalfScaleFrom21(p);
    }
  }

  lemma HalfScaleBelow13(p: int)
    requires 5 <= p < 13
    ensures MouthFormant(p) / 2 * 2 == PackedByte(FrequencyEntry(p), 0)
    ensures ThroatFormant(p) / 2 * 2 == PackedByte(FrequencyEntry(p), 1)
  {
    if p == 5 {
    } else if p == 6 {
    } else if p == 7 {
    } else if p == 8 {
    } else if p == 9 {
    } else if p == 10 {
    } else if p == 11 {
    } else {
    }
  }

  lemma HalfScaleBelow21(p: int)
    requires 13 <= p < 21
    ensures MouthFormant(p) / 2 * 2 == PackedByte(FrequencyEntry(p), 0)
    ensures ThroatFormant(p) / 2 * 2 == PackedByte(FrequencyEntry(p), 1)
  {
    if p == 13 {
    } else if p == 14 {
    } else if p == 15 {
    } else if p == 16 {
    } else if p == 17 {
    } else if p == 18 {
    } else if p == 19 {
    } else {
    }
  }

  lemma HalfScaleFrom21(p: int)
    requires 21 <= p < 30
    ensures MouthFormant(p) / 2 * 2 == PackedByte(FrequencyEntry(p), 0)
    ensures ThroatFormant(p) / 2 * 2 == PackedByte(FrequencyEntry(p), 1)
  {
    if p == 21 {
    } else if p == 22 {
    } else if p == 23 {
    } else if p == 24 {
    } else if p == 25 {
    } else if p == 26 {
    } else if p == 27 {
    } else if p == 28 {
    } else {
    }
  }

  /**
   * With mouth and throat both 128 (the defaults), the rescaled entries are
   * exactly the `frequencyData` bytes: the two base tables are the stored
   * formants at half scale.
   */
  lemma NeutralVoiceAt(p: int)
    requires Voiced(p) || Glide(p)
    ensures Voiced(p) ==> Trans(128, MouthFormant(p)) == PackedByte(FrequencyEntry(p), 0)
    ensures Voiced(p) ==> Trans(128, ThroatFormant(p)) == PackedByte(FrequencyEntry(p), 1)
    ensures Glide(p) ==> Trans(128, DiphthongMouthFormant(p - 48)) == PackedByte(FrequencyEntry(p), 0)
    ensures Glide(p) ==> Trans(128, DiphthongThroatFormant(p - 48)) == PackedByte(FrequencyEntry(p), 1)
  {
    if Voiced(p) {
      NoZeroFormants(p);
      TransNeutral(MouthFormant(p));
      TransNeutral(ThroatFormant(p));
      VoicedAtHalfScale(p);
    } else {
      TransNeutral(DiphthongMouthFormant(p - 48));
      TransNeutral(DiphthongThroatFormant(p - 48));
    }
  }

  /**
   * So `SetMouthThroat(128, 128)` returns `frequencyData` unchanged: every
   * entry its contract describes equals the stored byte.
   */
  lemma NeutralVoice()
    ensures forall p :: 0 <= p < 80 ==>
      (if Voiced(p) then Trans(128, MouthFormant(p))
       else if Glide(p) then Trans(128, DiphthongMouthFormant(p - 48))
       else PackedByte(FrequencyEntry(p), 0)) == FrequencyBytes(0)[p]
    ensures forall p :: 0 <= p < 80 ==>
      (if Voiced(p) then Trans(128, ThroatFormant(p))
       else if Glide(p) then Trans(128, DiphthongThroatFormant(p - 48))
       else PackedByte(FrequencyEntry(p), 1)) == FrequencyBytes(1)[p]
  {
    forall p | Voiced(p) || Glide(p) {
      NeutralVoiceAt(p);
    }
  }
}
