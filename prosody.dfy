/**
 * Two passes between the rewrite and the length adjustment: `CopyStress`
 * gives a consonant the stress of the vowel after it plus one, and
 * `SetPhonemeLength` gives every phoneme its table length for its stress.
 * Both walk from the first slot up to the first one that reads as END.
 */
module Prosody {
  import opened Outcomes
  import opened Phonemes
  import opened Store

  // ---------------------------------------------------------------------
  // CopyStress

  /** A consonant followed by a vowel (not END) whose stress s has 0 < s < 0x80 (JS: `s !== 0 && s < 0x80`). */
  predicate TakesStress(t: Tokens, k: nat)
    requires Aligned(t) && k + 1 < |t.ids|
  {
    var next := At(t, k + 1);
    var s := StressAt(t, k + 1);
    HasFlag(At(t, k), FLAG_CONSONANT) && next != END && HasFlag(next, FLAG_VOWEL) && s != 0 && s < 0x80
  }

  /**
   * The stress `CopyStress` leaves at k: before the first END a consonant
   * that takes stress gets the stress of the next phoneme plus one, as that
   * phoneme had it before the pass; every other entry keeps its stress.
   */
  function CopiedStress(t: Tokens, k: nat): int
    requires Aligned(t) && k < |t.ids|
  {
    if k < FirstEnd(t) && TakesStress(t, k) then t.stresses[k + 1] + 1 else t.stresses[k]
  }

  /** The store after `CopyStress`: only stresses change. */
  function StressCopied(t: Tokens): (r: Tokens)
    requires Aligned(t)
    ensures Aligned(r) && r.ids == t.ids && r.lengths == t.lengths
    ensures forall k :: 0 <= k < |t.ids| ==> r.stresses[k] == CopiedStress(t, k)
  {
    t.(stresses := seq(|t.stresses|, k requires 0 <= k < |t.stresses| => CopiedStress(t, k)))
  }

  method CopyStress(u: Utterance)
    requires u.Valid()
    modifies u
    ensures u.Valid() && u.Contents() == StressCopied(old(u.Contents()))
  {
    ghost var t := u.Contents();
    var position := 0;
    while u.Phoneme(position) != END
      invariant u.Valid() && position <= FirstEnd(t)
      invariant u.ids == t.ids && u.lengths == t.lengths && |u.stresses| == |t.stresses|
      invariant forall k :: 0 <= k < position ==> u.stresses[k] == CopiedStress(t, k)
      invariant forall k :: position <= k < |t.stresses| ==> u.stresses[k] == t.stresses[k]
      decreases |t.ids| - position
    {
      ghost var before := u.stresses;
      var phoneme := u.Phoneme(position);
      if HasFlag(phoneme, FLAG_CONSONANT) {
        phoneme := u.Phoneme(position + 1);
        if phoneme != END && HasFlag(phoneme, FLAG_VOWEL) {
          var stress := u.Stress(position + 1);
          if stress != 0 && stress < 0x80 {
            u.SetStress(position, stress + 1);
          }
        }
      }
      assert u.stresses == before[position := CopiedStress(t, position)];
      position := position + 1;
    }
    assert u.Contents() == StressCopied(t);
  }

  /** Only consonants before a stressed vowel change, and each gets that vowel's stress plus one. */
  lemma StressCopiedChanges(t: Tokens, k: nat)
    requires Aligned(t) && k < |t.ids|
    ensures StressCopied(t).stresses[k] != t.stresses[k] ==>
      k < FirstEnd(t) && HasFlag(t.ids[k], FLAG_CONSONANT) && HasFlag(t.ids[k + 1], FLAG_VOWEL)
      && StressCopied(t).stresses[k] == t.stresses[k + 1] + 1 && t.stresses[k + 1] != 0 && t.stresses[k + 1] < 0x80
  {
  }

  /** A vowel that is not also a consonant keeps its stress, so the test at k reads the same after the pass. */
  lemma TakesStressAfter(t: Tokens, k: nat)
    requires Aligned(t) && k + 1 < |t.ids| && t.ids[k + 1] != 79 && t.ids[k + 1] != 80
    ensures TakesStress(StressCopied(t), k) == TakesStress(t, k)
    ensures TakesStress(t, k) ==> StressCopied(t).stresses[k + 1] == t.stresses[k + 1]
  {
    var r := StressCopied(t);
    if At(t, k + 1) != END && HasFlag(At(t, k + 1), FLAG_VOWEL) {
      VowelConsonants(t.ids[k + 1]);
      assert !TakesStress(t, k + 1) by {
        if k + 2 < |t.ids| {
          assert At(t, k + 1) == t.ids[k + 1];
        }
      }
      assert StressAt(r, k + 1) == StressAt(t, k + 1);
    }
  }

  /**
   * With no phoneme flagged both vowel and consonant (UM and UN are gone after
   * the rewrite pass), a vowel's stress is never changed, so a second
   * `CopyStress` changes nothing.
   */
  lemma StressCopiedIdempotent(t: Tokens)
    requires Aligned(t)
    requires forall k :: 0 <= k < |t.ids| ==> t.ids[k] != 79 && t.ids[k] != 80
    ensures StressCopied(StressCopied(t)) == StressCopied(t)
  {
    var r := StressCopied(t);
    var r2 := StressCopied(r);
    var e := FirstEnd(t);
    assert FirstEnd(r) == e;
    forall k | 0 <= k < |t.stresses|
      ensures r2.stresses[k] == r.stresses[k]
    {
      if k < e {
        TakesStressAfter(t, k);
      }
    }
    assert r2.stresses == r.stresses;
  }

  // ---------------------------------------------------------------------
  // SetPhonemeLength

  /** The length written at k: the low table byte for stress 0 or above 0x7F, the high byte otherwise. */
  function StressLength(t: Tokens, k: nat): int
    requires Aligned(t) && k < |t.ids|
  {
    var s := StressAt(t, k);
    if s == 0 || s > 0x7F then UnstressedLength(At(t, k)) else StressedLength(At(t, k))
  }

  /** `setLength` throws on this value. */
  predicate Rejected(t: Tokens, k: nat)
    requires Aligned(t) && k < |t.ids|
  {
    StressLength(t, k) % 256 >= 128
  }

  /** The first position from pos on, before the first END, whose length `setLength` throws on. */
  function FirstRejected(t: Tokens, pos: nat): (r: Option<nat>)
    requires Aligned(t) && pos <= FirstEnd(t)
    ensures r.None? ==> forall k :: pos <= k < FirstEnd(t) ==> !Rejected(t, k)
    ensures r.Some? ==>
      && pos <= r.value < FirstEnd(t) && Rejected(t, r.value)
      && forall k :: pos <= k < r.value ==> !Rejected(t, k)
    decreases FirstEnd(t) - pos
  {
    if pos == FirstEnd(t) then None
    else if Rejected(t, pos) then Some(pos)
    else FirstRejected(t, pos + 1)
  }

  /** The length `SetPhonemeLength` leaves at k: its stress-dependent length before the first END. */
  function SetLengthAt(t: Tokens, k: nat): int
    requires Aligned(t) && k < |t.ids|
  {
    if k < FirstEnd(t) then StressLength(t, k) else t.lengths[k]
  }

  /**
   * The outcome of `SetPhonemeLength`: it throws on the first length with
   * bit 7 set; otherwise every phoneme before the first END has its
   * stress-dependent length, and ids, stresses and later lengths stay.
   */
  function LengthsSet(t: Tokens): (r: Result<Tokens>)
    requires Aligned(t)
    ensures r.Err? <==> FirstRejected(t, 0).Some?
    ensures r.Err? ==> r.fault == LengthHasFlag80(StressLength(t, FirstRejected(t, 0).value))
    ensures r.Ok? ==> Aligned(r.value) && r.value.ids == t.ids && r.value.stresses == t.stresses
    ensures r.Ok? ==> forall k :: 0 <= k < |t.ids| ==> r.value.lengths[k] == SetLengthAt(t, k)
  {
    match FirstRejected(t, 0)
    case Some(k) => Err(LengthHasFlag80(StressLength(t, k)))
    case None => Ok(t.(lengths := seq(|t.lengths|, k requires 0 <= k < |t.lengths| => SetLengthAt(t, k))))
  }

  method SetPhonemeLength(u: Utterance) returns (fault: Option<Fault>)
    requires u.Valid()
    modifies u
    ensures u.Valid()
    ensures match LengthsSet(old(u.Contents()))
      case Ok(t) => fault == None && u.Contents() == t
      case Err(f) => fault == Some(f)
  {
    ghost var t := u.Contents();
    var position := 0;
    while u.Phoneme(position) != END
      invariant u.Valid() && position <= FirstEnd(t)
      invariant u.ids == t.ids && u.stresses == t.stresses && |u.lengths| == |t.lengths|
      invariant forall k :: 0 <= k < position ==> u.lengths[k] == SetLengthAt(t, k)
      invariant forall k :: position <= k < |t.lengths| ==> u.lengths[k] == t.lengths[k]
      invariant FirstRejected(t, 0) == FirstRejected(t, position)
      decreases |t.ids| - position
    {
      ghost var before := u.lengths;
      var stress := u.Stress(position);
      var phoneme := u.Phoneme(position);
      var length := if stress == 0 || stress > 0x7F then UnstressedLength(phoneme) else StressedLength(phoneme);
      assert length == StressLength(t, position);
      fault := u.SetLength(position, length);
      if fault.Some? {
        assert FirstRejected(t, position) == Some(position);
        return;
      }
      assert u.lengths == before[position := SetLengthAt(t, position)];
      position := position + 1;
    }
    fault := None;
    assert u.lengths == LengthsSet(t).value.lengths;
  }

  /** The pass throws exactly when UL or UM, unstressed (stress 0 or above 0x7F), comes before the first END. */
  lemma LengthsSetFaults(t: Tokens)
    requires Aligned(t)
    ensures LengthsSet(t).Err? <==>
      exists k :: 0 <= k < FirstEnd(t) && t.ids[k] in {78, 79} && (t.stresses[k] == 0 || t.stresses[k] > 0x7F)
  {
    forall k | 0 <= k < FirstEnd(t)
      ensures Rejected(t, k) <==> t.ids[k] in {78, 79} && (t.stresses[k] == 0 || t.stresses[k] > 0x7F)
    {
      StressedLengthByte(t.ids[k]);
      UnstressedLengthByte(t.ids[k]);
    }
    if LengthsSet(t).Err? {
      var k := FirstRejected(t, 0).value;
      assert t.ids[k] in {78, 79} && (t.stresses[k] == 0 || t.stresses[k] > 0x7F);
    }
  }

  /** The lengths written depend on ids and stresses only, so a second run writes the same ones. */
  lemma LengthsSetIdempotent(t: Tokens)
    requires Aligned(t) && LengthsSet(t).Ok?
    ensures LengthsSet(LengthsSet(t).value) == LengthsSet(t)
  {
    var r := LengthsSet(t).value;
    var e := FirstEnd(t);
    assert FirstEnd(r) == e;
    assert forall k :: 0 <= k < |t.ids| ==> StressLength(r, k) == StressLength(t, k);
    assert FirstRejected(r, 0).None? by {
      assert forall k :: 0 <= k < e ==> Rejected(r, k) == Rejected(t, k);
    }
    assert LengthsSet(r).value.lengths == r.lengths;
  }
}
