/**
 * `AdjustLengths`: two walks over the phonemes that change lengths only.
 * The first lengthens what lies between a punctuation mark and the vowel
 * before it; the second shortens or lengthens a phoneme by what follows it.
 * Every length goes through `setLength`, which throws on a value with bit 7
 * set, so both walks can fail part-way.
 */
module Adjust {
  import opened Outcomes
  import opened Phonemes
  import opened Store

  // ---------------------------------------------------------------------
  // First walk: lengthen before punctuation

  /**
   * `while ((--position > 1) && !vowel(getPhoneme(position)))` started at
   * from: the last vowel at index 2 or more before from, otherwise 1, or
   * from - 1 when from is 0 or 1.
   */
  function BackUp(t: Tokens, from: int): (r: int)
    requires Aligned(t) && from <= |t.ids|
    ensures r < from && (r <= 1 ==> r == if from <= 2 then from - 1 else 1)
    ensures r > 1 ==> HasFlag(At(t, r), FLAG_VOWEL)
    ensures forall k :: r < k < from && k > 1 ==> !HasFlag(At(t, k), FLAG_VOWEL)
    decreases from
  {
    var p := from - 1;
    if p > 1 && !HasFlag(At(t, p), FLAG_VOWEL) then BackUp(t, p) else p
  }

  /** Everything but an unvoiced fricative is lengthened. */
  predicate Lengthens(p: int)
  {
    !HasFlag(p, FLAG_FRICATIVE) || HasFlag(p, FLAG_VOICED)
  }

  /** The inner loop over k from start up to stop - 1: length A becomes `(A >> 1) + A + 1`; position -1 throws. */
  function LengthenFrom(t: Tokens, k: int, stop: nat): (r: Result<Tokens>)
    requires Aligned(t) && stop < |t.ids|
    ensures r.Ok? ==> Aligned(r.value) && r.value.ids == t.ids && r.value.stresses == t.stresses
    decreases stop - k
  {
    if k >= stop then Ok(t)
    else
      var p :- GetPhoneme(t, k);
      if Lengthens(p) then
        var a := LengthAt(t, k);
        var t' :- PutLength(t, k, a / 2 + a + 1);
        LengthenFrom(t', k + 1, stop)
      else LengthenFrom(t, k + 1, stop)
  }

  /**
   * The outer loop from position on: at a punctuation mark back up to the
   * vowel, stop the walk when that lands on position 0, else lengthen the
   * stretch and go on after the mark.
   */
  function PunctuationFrom(t: Tokens, position: nat): (r: Result<Tokens>)
    requires Aligned(t) && position < |t.ids|
    ensures r.Ok? ==> Aligned(r.value) && r.value.ids == t.ids && r.value.stresses == t.stresses
    decreases |t.ids| - position
  {
    if At(t, position) == END then Ok(t)
    else if !HasFlag(At(t, position), FLAG_PUNCT) then PunctuationFrom(t, position + 1)
    else
      var v := BackUp(t, position);
      if v == 0 then Ok(t)
      else
        var t' :- LengthenFrom(t, v, position);
        PunctuationFrom(t', position + 1)
  }

  // ---------------------------------------------------------------------
  // Second walk: one rule per phoneme

  /** A vowel: RX or LX then a consonant, an unvoiced plosive, or a voiced consonant after it. */
  function VowelRule(t: Tokens, i: nat): (r: Result<Tokens>)
    requires Aligned(t) && i + 1 < |t.ids|
    ensures r.Ok? ==> Aligned(r.value) && r.value.ids == t.ids && r.value.stresses == t.stresses
  {
    var next := At(t, i + 1);
    var a := LengthAt(t, i);
    if !HasFlag(next, FLAG_CONSONANT) then
      if (next == 18 || next == 19) && HasFlag(At(t, i + 2), FLAG_CONSONANT) then PutLength(t, i, a - 1)
      else Ok(t)
    else if !HasFlag(next, FLAG_VOICED) then
      if HasFlag(next, FLAG_PLOSIVE) then PutLength(t, i, a - a / 8) else Ok(t)
    else PutLength(t, i, a / 4 + a + 1)
  }

  /** A (voiced) stop consonant, pauses, then a stop consonant: both become half their length plus one. */
  function StopPairRule(t: Tokens, i: nat): (r: Result<Tokens>)
    requires Aligned(t) && i + 1 < |t.ids|
    ensures r.Ok? ==> Aligned(r.value) && r.value.ids == t.ids && r.value.stresses == t.stresses
  {
    var j := SkipPauses(t, i + 1);
    var next := At(t, j);
    if next != END && HasFlag(next, FLAG_STOPCONS) then
      var t' :- PutLength(t, j, LengthAt(t, j) / 2 + 1);
      PutLength(t', i, LengthAt(t', i) / 2 + 1)
    else Ok(t)
  }

  /** One turn of the second walk at i, which reads before the first END. */
  function ShortenStep(t: Tokens, i: nat): (r: Result<Tokens>)
    requires Aligned(t) && i + 1 < |t.ids|
    ensures r.Ok? ==> Aligned(r.value) && r.value.ids == t.ids && r.value.stresses == t.stresses
  {
    var p := At(t, i);
    if HasFlag(p, FLAG_VOWEL) then VowelRule(t, i)
    else if HasFlag(p, FLAG_NASAL) then
      var next := At(t, i + 1);
      if next != END && HasFlag(next, FLAG_STOPCONS) then
        var t' :- PutLength(t, i + 1, 6);
        PutLength(t', i, 5)
      else Ok(t)
    else if HasFlag(p, FLAG_STOPCONS) then StopPairRule(t, i)
    else if i > 0 && HasFlag(p, FLAG_LIQUIC) && HasFlag(At(t, i - 1), FLAG_STOPCONS) then
      PutLength(t, i, LengthAt(t, i) - 2)
    else Ok(t)
  }

  function ShortenFrom(t: Tokens, i: nat): (r: Result<Tokens>)
    requires Aligned(t) && i < |t.ids|
    ensures r.Ok? ==> Aligned(r.value) && r.value.ids == t.ids && r.value.stresses == t.stresses
    decreases |t.ids| - i
  {
    if At(t, i) == END then Ok(t)
    else
      var t' :- ShortenStep(t, i);
      ShortenFrom(t', i + 1)
  }

  /** The outcome of `AdjustLengths`: the first walk, then the second on its result. */
  function Adjusted(t: Tokens): (r: Result<Tokens>)
    requires Aligned(t)
    ensures r.Ok? ==> Aligned(r.value) && r.value.ids == t.ids && r.value.stresses == t.stresses
  {
    var t1 :- PunctuationFrom(t, 0);
    ShortenFrom(t1, 0)
  }

  // ---------------------------------------------------------------------
  // The walks on the store

  /** The inner loop of the first walk: `for (; position < stop; position++)`. */
  method Lengthen(u: Utterance, from: int, stop: nat) returns (fault: Option<Fault>)
    requires u.Valid() && stop < |u.ids|
    modifies u
    ensures u.Valid()
    ensures match LengthenFrom(old(u.Contents()), from, stop)
      case Ok(t) => fault == None && u.Contents() == t
      case Err(f) => fault == Some(f)
  {
    ghost var start := u.Contents();
    var position := from;
    while position < stop
      invariant u.Valid() && u.ids == start.ids
      invariant LengthenFrom(start, from, stop) == LengthenFrom(u.Contents(), position, stop)
      decreases stop - position
    {
      var phoneme := GetPhoneme(u.Contents(), position);
      if phoneme.Err? {
        return Some(phoneme.fault);
      }
      if Lengthens(phoneme.value) {
        var a := u.Length(position);
        fault := u.SetLength(position, a / 2 + a + 1);
        if fault.Some? {
          return;
        }
      }
      position := position + 1;
    }
    fault := None;
  }

  /** The first walk: lengthen what lies between each punctuation mark and the vowel before it. */
  method LengthenBeforePunctuation(u: Utterance) returns (fault: Option<Fault>)
    requires u.Valid()
    modifies u
    ensures u.Valid()
    ensures match PunctuationFrom(old(u.Contents()), 0)
      case Ok(t) => fault == None && u.Contents() == t
      case Err(f) => fault == Some(f)
  {
    ghost var start := u.Contents();
    var position := 0;
    while u.Phoneme(position) != END
      invariant u.Valid() && u.ids == start.ids && position < |u.ids|
      invariant PunctuationFrom(start, 0) == PunctuationFrom(u.Contents(), position)
      decreases |u.ids| - position
    {
      if !HasFlag(u.Phoneme(position), FLAG_PUNCT) {
        position := position + 1;
        continue;
      }
      var loopIndex := position;
      position := VowelBefore(u, loopIndex);
      if position == 0 {
        break;
      }
      fault := Lengthen(u, position, loopIndex);
      if fault.Some? {
        return;
      }
      position := loopIndex + 1;
    }
    fault := None;
  }

  /** The backward walk from a punctuation mark: `while (--position > 1) { if vowel break; }`. */
  method VowelBefore(u: Utterance, loopIndex: nat) returns (position: int)
    requires u.Valid() && loopIndex < |u.ids|
    ensures position == BackUp(u.Contents(), loopIndex)
  {
    position := loopIndex - 1;
    while position > 1 && !HasFlag(u.Phoneme(position), FLAG_VOWEL)
      invariant position < loopIndex && BackUp(u.Contents(), loopIndex) == BackUp(u.Contents(), position + 1)
      decreases position
    {
      position := position - 1;
    }
  }

  method VowelRuleAt(u: Utterance, loopIndex: nat) returns (fault: Option<Fault>)
    requires u.Valid() && loopIndex + 1 < |u.ids|
    modifies u
    ensures u.Valid()
    ensures match VowelRule(old(u.Contents()), loopIndex)
      case Ok(t) => fault == None && u.Contents() == t
      case Err(f) => fault == Some(f)
  {
    var phoneme := u.Phoneme(loopIndex + 1);
    fault := None;
    if !HasFlag(phoneme, FLAG_CONSONANT) {
      if (phoneme == 18 || phoneme == 19) && HasFlag(u.Phoneme(loopIndex + 2), FLAG_CONSONANT) {
        fault := u.SetLength(loopIndex, u.Length(loopIndex) - 1);
      }
      return;
    }
    if !HasFlag(phoneme, FLAG_VOICED) {
      if HasFlag(phoneme, FLAG_PLOSIVE) {
        var a := u.Length(loopIndex);
        fault := u.SetLength(loopIndex, a - a / 8);
      }
      return;
    }
    var a := u.Length(loopIndex);
    fault := u.SetLength(loopIndex, a / 4 + a + 1);
  }

  method StopPairAt(u: Utterance, loopIndex: nat) returns (fault: Option<Fault>)
    requires u.Valid() && loopIndex + 1 < |u.ids|
    modifies u
    ensures u.Valid()
    ensures match StopPairRule(old(u.Contents()), loopIndex)
      case Ok(t) => fault == None && u.Contents() == t
      case Err(f) => fault == Some(f)
  {
    var position := loopIndex + 1;
    var phoneme := u.Phoneme(position);
    while phoneme == 0
      invariant loopIndex < position < |u.ids| && phoneme == u.Phoneme(position)
      invariant SkipPauses(u.Contents(), loopIndex + 1) == SkipPauses(u.Contents(), position)
      decreases |u.ids| - position
    {
      position := position + 1;
      phoneme := u.Phoneme(position);
    }
    fault := None;
    if phoneme != END && HasFlag(phoneme, FLAG_STOPCONS) {
      fault := u.SetLength(position, u.Length(position) / 2 + 1);
      if fault.Some? {
        return;
      }
      fault := u.SetLength(loopIndex, u.Length(loopIndex) / 2 + 1);
    }
  }

  /** One turn of the second walk. */
  method ShortenAt(u: Utterance, loopIndex: nat) returns (fault: Option<Fault>)
    requires u.Valid() && loopIndex + 1 < |u.ids|
    modifies u
    ensures u.Valid()
    ensures match ShortenStep(old(u.Contents()), loopIndex)
      case Ok(t) => fault == None && u.Contents() == t
      case Err(f) => fault == Some(f)
  {
    var phoneme := u.Phoneme(loopIndex);
    fault := None;
    if HasFlag(phoneme, FLAG_VOWEL) {
      fault := VowelRuleAt(u, loopIndex);
      return;
    }
    if HasFlag(phoneme, FLAG_NASAL) {
      var next := u.Phoneme(loopIndex + 1);
      if next != END && HasFlag(next, FLAG_STOPCONS) {
        fault := u.SetLength(loopIndex + 1, 6);
        if fault.Some? {
          return;
        }
        fault := u.SetLength(loopIndex, 5);
      }
      return;
    }
    if HasFlag(phoneme, FLAG_STOPCONS) {
      fault := StopPairAt(u, loopIndex);
      return;
    }
    if loopIndex > 0 && HasFlag(phoneme, FLAG_LIQUIC) && HasFlag(u.Phoneme(loopIndex - 1), FLAG_STOPCONS) {
      fault := u.SetLength(loopIndex, u.Length(loopIndex) - 2);
    }
  }

  /** The second walk: one rule per phoneme up to the first END. */
  method ShortenAll(u: Utterance) returns (fault: Option<Fault>)
    requires u.Valid()
    modifies u
    ensures u.Valid()
    ensures match ShortenFrom(old(u.Contents()), 0)
      case Ok(t) => fault == None && u.Contents() == t
      case Err(f) => fault == Some(f)
  {
    ghost var start := u.Contents();
    var loopIndex := 0;
    while u.Phoneme(loopIndex) != END
      invariant u.Valid() && u.ids == start.ids && loopIndex < |u.ids|
      invariant ShortenFrom(start, 0) == ShortenFrom(u.Contents(), loopIndex)
      decreases |u.ids| - loopIndex
    {
      fault := ShortenAt(u, loopIndex);
      if fault.Some? {
        return;
      }
      loopIndex := loopIndex + 1;
    }
    fault := None;
  }

  method AdjustLengths(u: Utterance) returns (fault: Option<Fault>)
    requires u.Valid()
    modifies u
    ensures u.Valid()
    ensures match Adjusted(old(u.Contents()))
      case Ok(t) => fault == None && u.Contents() == t
      case Err(f) => fault == Some(f)
  {
    fault := LengthenBeforePunctuation(u);
    if fault.Some? {
      return;
    }
    fault := ShortenAll(u);
  }

  // ---------------------------------------------------------------------
  // What the walks promise

  /**
   * r differs from t in lengths only, and only before the first END; every
   * length that was written passed `setLength`'s bit-7 check.
   */
  predicate LengthsOnly(t: Tokens, r: Tokens)
  {
    && Aligned(t) && Aligned(r) && r.ids == t.ids && r.stresses == t.stresses
    && forall k :: 0 <= k < |t.lengths| ==>
         r.lengths[k] == t.lengths[k] || (k < FirstEnd(t) && r.lengths[k] % 256 < 128)
  }

  lemma LengthsOnlyChain(t: Tokens, r1: Tokens, r2: Tokens)
    requires LengthsOnly(t, r1) && LengthsOnly(r1, r2)
    ensures LengthsOnly(t, r2)
  {
    assert FirstEnd(r1) == FirstEnd(t);
  }

  lemma PutLengthOnly(t: Tokens, k: int, v: int)
    requires Aligned(t) && 0 <= k < FirstEnd(t) && PutLength(t, k, v).Ok?
    ensures LengthsOnly(t, PutLength(t, k, v).value)
  {
  }

  lemma {:induction false} LengthenOnly(t: Tokens, k: int, stop: nat)
    requires Aligned(t) && stop <= FirstEnd(t) && LengthenFrom(t, k, stop).Ok?
    ensures LengthsOnly(t, LengthenFrom(t, k, stop).value)
    decreases stop - k
  {
    if k < stop {
      var p := GetPhoneme(t, k).value;
      if Lengthens(p) {
        var a := LengthAt(t, k);
        var t' := PutLength(t, k, a / 2 + a + 1).value;
        PutLengthOnly(t, k, a / 2 + a + 1);
        assert FirstEnd(t') == FirstEnd(t);
        LengthenOnly(t', k + 1, stop);
        LengthsOnlyChain(t, t', LengthenFrom(t, k, stop).value);
      } else {
        LengthenOnly(t, k + 1, stop);
      }
    }
  }

  lemma {:induction false} PunctuationOnly(t: Tokens, position: nat)
    requires Aligned(t) && position <= FirstEnd(t) && PunctuationFrom(t, position).Ok?
    ensures LengthsOnly(t, PunctuationFrom(t, position).value)
    decreases |t.ids| - position
  {
    if At(t, position) != END {
      if !HasFlag(At(t, position), FLAG_PUNCT) {
        PunctuationOnly(t, position + 1);
      } else {
        var v := BackUp(t, position);
        if v != 0 {
          var t' := LengthenFrom(t, v, position).value;
          LengthenOnly(t, v, position);
          assert FirstEnd(t') == FirstEnd(t);
          PunctuationOnly(t', position + 1);
          LengthsOnlyChain(t, t', PunctuationFrom(t, position).value);
        }
      }
    }
  }

  lemma StopPairOnly(t: Tokens, i: nat)
    requires Aligned(t) && i < FirstEnd(t) && StopPairRule(t, i).Ok?
    ensures LengthsOnly(t, StopPairRule(t, i).value)
  {
    var j := SkipPauses(t, i + 1);
    var next := At(t, j);
    if next != END && HasFlag(next, FLAG_STOPCONS) {
      assert At(t, FirstEnd(t)) == END;
      assert j < FirstEnd(t);
      var t' := PutLength(t, j, LengthAt(t, j) / 2 + 1).value;
      PutLengthOnly(t, j, LengthAt(t, j) / 2 + 1);
      assert FirstEnd(t') == FirstEnd(t);
      PutLengthOnly(t', i, LengthAt(t', i) / 2 + 1);
      LengthsOnlyChain(t, t', StopPairRule(t, i).value);
    }
  }

  lemma StepOnly(t: Tokens, i: nat)
    requires Aligned(t) && i < FirstEnd(t) && ShortenStep(t, i).Ok?
    ensures LengthsOnly(t, ShortenStep(t, i).value)
  {
    var p := At(t, i);
    if HasFlag(p, FLAG_VOWEL) {
      if VowelRule(t, i) != Ok(t) {
        assert VowelRule(t, i).value.lengths == t.lengths[i := VowelRule(t, i).value.lengths[i]];
      }
    } else if HasFlag(p, FLAG_NASAL) {
      var next := At(t, i + 1);
      if next != END && HasFlag(next, FLAG_STOPCONS) {
        var t' := PutLength(t, i + 1, 6).value;
        PutLengthOnly(t, i + 1, 6);
        assert FirstEnd(t') == FirstEnd(t);
        PutLengthOnly(t', i, 5);
        LengthsOnlyChain(t, t', ShortenStep(t, i).value);
      }
    } else if HasFlag(p, FLAG_STOPCONS) {
      StopPairOnly(t, i);
    }
  }

  lemma {:induction false} ShortenOnly(t: Tokens, i: nat)
    requires Aligned(t) && i <= FirstEnd(t) && ShortenFrom(t, i).Ok?
    ensures LengthsOnly(t, ShortenFrom(t, i).value)
    decreases |t.ids| - i
  {
    if At(t, i) != END {
      var t' := ShortenStep(t, i).value;
      StepOnly(t, i);
      assert FirstEnd(t') == FirstEnd(t);
      ShortenOnly(t', i + 1);
      LengthsOnlyChain(t, t', ShortenFrom(t, i).value);
    }
  }

  /** `AdjustLengths` changes lengths only, before the first END, and each new length has bit 7 clear. */
  lemma AdjustedOnlyLengths(t: Tokens)
    requires Aligned(t) && Adjusted(t).Ok?
    ensures LengthsOnly(t, Adjusted(t).value)
  {
    var t1 := PunctuationFrom(t, 0).value;
    PunctuationOnly(t, 0);
    ShortenOnly(t1, 0);
    LengthsOnlyChain(t, t1, Adjusted(t).value);
  }

  /** Without punctuation before the first END the first walk changes nothing. */
  lemma {:induction false} NoPunctuationNoChange(t: Tokens, position: nat)
    requires Aligned(t) && position <= FirstEnd(t)
    requires forall k :: position <= k < FirstEnd(t) ==> !HasFlag(t.ids[k], FLAG_PUNCT)
    ensures PunctuationFrom(t, position) == Ok(t)
    decreases |t.ids| - position
  {
    if At(t, position) != END {
      NoPunctuationNoChange(t, position + 1);
    }
  }

  /** Punctuation as the first phoneme: backing up lands on position -1, and reading it throws. */
  lemma PunctuationFirstFaults(t: Tokens)
    requires Aligned(t) && 0 < FirstEnd(t) && HasFlag(t.ids[0], FLAG_PUNCT)
    ensures Adjusted(t) == Err(OutOfBounds(-1))
  {
  }

  /** Punctuation as the second phoneme: backing up lands on 0, which ends the first walk unchanged. */
  lemma PunctuationSecondStops(t: Tokens)
    requires Aligned(t) && 1 < FirstEnd(t) && !HasFlag(t.ids[0], FLAG_PUNCT) && HasFlag(t.ids[1], FLAG_PUNCT)
    ensures PunctuationFrom(t, 0) == Ok(t)
  {
  }

  /** `<NASAL> <STOP CONSONANT>`: the nasal gets length 5 and the stop length 6. */
  lemma NasalBeforeStop(t: Tokens, i: nat)
    requires Aligned(t) && i + 1 < FirstEnd(t)
    requires !HasFlag(t.ids[i], FLAG_VOWEL) && HasFlag(t.ids[i], FLAG_NASAL) && HasFlag(t.ids[i + 1], FLAG_STOPCONS)
    ensures ShortenStep(t, i) == Ok(t.(lengths := t.lengths[i + 1 := 6][i := 5]))
  {
  }

  /** `<VOWEL> <UNVOICED PLOSIVE>`: the vowel loses an eighth of its length, rounded down. */
  lemma VowelBeforeUnvoicedPlosive(t: Tokens, i: nat)
    requires Aligned(t) && i + 1 < FirstEnd(t)
    requires HasFlag(t.ids[i], FLAG_VOWEL) && HasFlag(t.ids[i + 1], FLAG_CONSONANT)
    requires !HasFlag(t.ids[i + 1], FLAG_VOICED) && HasFlag(t.ids[i + 1], FLAG_PLOSIVE)
    requires 0 <= t.lengths[i] < 128
    ensures ShortenStep(t, i) == Ok(t.(lengths := t.lengths[i := t.lengths[i] - t.lengths[i] / 8]))
  {
  }

  /**
   * `<VOWEL> ... <PUNCTUATION>`: every phoneme from k up to stop, except an
   * unvoiced fricative, gets half its length again plus one; nothing else
   * changes. Lengths up to 84 stay below bit 7, so nothing throws.
   */
  lemma {:induction false} LengthenStretch(t: Tokens, k: nat, stop: nat)
    requires Aligned(t) && k <= stop < |t.ids|
    requires forall j :: k <= j < stop ==> 0 <= t.lengths[j] <= 84
    ensures LengthenFrom(t, k, stop).Ok?
    ensures var r := LengthenFrom(t, k, stop).value;
      |r.lengths| == |t.lengths| &&
      forall j :: 0 <= j < |t.lengths| ==>
        r.lengths[j] == if k <= j < stop && Lengthens(t.ids[j]) then t.lengths[j] / 2 + t.lengths[j] + 1 else t.lengths[j]
    decreases stop - k
  {
    if k < stop {
      assert At(t, k) == t.ids[k];
      if Lengthens(t.ids[k]) {
        var a := t.lengths[k];
        var t' := PutLength(t, k, a / 2 + a + 1).value;
        assert t'.lengths == t.lengths[k := a / 2 + a + 1];
        LengthenStretch(t', k + 1, stop);
      } else {
        LengthenStretch(t, k + 1, stop);
      }
    }
  }

  /** `<VOWEL> <RX | LX> <CONSONANT>`: the vowel loses one from its length. */
  lemma VowelBeforeRxLx(t: Tokens, i: nat)
    requires Aligned(t) && i + 1 < FirstEnd(t)
    requires HasFlag(t.ids[i], FLAG_VOWEL) && t.ids[i + 1] in {18, 19} && HasFlag(At(t, i + 2), FLAG_CONSONANT)
    requires 1 <= t.lengths[i] <= 128
    ensures ShortenStep(t, i) == Ok(t.(lengths := t.lengths[i := t.lengths[i] - 1]))
  {
    assert Flags(18) == Flags(19) == 0x0084;
  }

  /** `<VOWEL> <VOICED CONSONANT>`: the vowel gets a quarter of its length again plus one. */
  lemma VowelBeforeVoicedConsonant(t: Tokens, i: nat)
    requires Aligned(t) && i + 1 < FirstEnd(t)
    requires HasFlag(t.ids[i], FLAG_VOWEL) && HasFlag(t.ids[i + 1], FLAG_CONSONANT) && HasFlag(t.ids[i + 1], FLAG_VOICED)
    requires 0 <= t.lengths[i] <= 101
    ensures ShortenStep(t, i) == Ok(t.(lengths := t.lengths[i := t.lengths[i] / 4 + t.lengths[i] + 1]))
  {
  }

  lemma {:induction false} SkipPausesTo(t: Tokens, k: nat, j: nat)
    requires Aligned(t) && k <= j < FirstEnd(t) && t.ids[j] != 0
    requires forall m :: k <= m < j ==> t.ids[m] == 0
    ensures SkipPauses(t, k) == j
    decreases j - k
  {
    assert At(t, k) == t.ids[k];
    if k < j {
      SkipPausesTo(t, k + 1, j);
    }
  }

  /**
   * `<STOP CONSONANT> {optional silence} <STOP CONSONANT>`: both get half
   * their length plus one, the second first.
   */
  lemma StopConsonantPair(t: Tokens, i: nat, j: nat)
    requires Aligned(t) && i < j < FirstEnd(t)
    requires !HasFlag(t.ids[i], FLAG_VOWEL) && !HasFlag(t.ids[i], FLAG_NASAL) && HasFlag(t.ids[i], FLAG_STOPCONS)
    requires (forall m :: i < m < j ==> t.ids[m] == 0) && HasFlag(t.ids[j], FLAG_STOPCONS)
    requires 0 <= t.lengths[i] <= 253 && 0 <= t.lengths[j] <= 253
    ensures ShortenStep(t, i) == Ok(t.(lengths := t.lengths[j := t.lengths[j] / 2 + 1][i := t.lengths[i] / 2 + 1]))
  {
    assert Flags(0) == 0x8000;
    SkipPausesTo(t, i + 1, j);
    assert At(t, i) == t.ids[i] && At(t, j) == t.ids[j];
  }

  /** `<STOP CONSONANT> <LIQUID>`: the liquid loses two from its length. */
  lemma LiquidAfterStop(t: Tokens, i: nat)
    requires Aligned(t) && 0 < i && i + 1 < FirstEnd(t)
    requires !HasFlag(t.ids[i], FLAG_VOWEL) && !HasFlag(t.ids[i], FLAG_NASAL) && !HasFlag(t.ids[i], FLAG_STOPCONS)
    requires HasFlag(t.ids[i], FLAG_LIQUIC) && HasFlag(t.ids[i - 1], FLAG_STOPCONS)
    requires 2 <= t.lengths[i] <= 129
    ensures ShortenStep(t, i) == Ok(t.(lengths := t.lengths[i := t.lengths[i] - 2]))
  {
  }

  // ---------------------------------------------------------------------
  // What can throw

  /** The two exceptions `AdjustLengths` can raise: reading position -1, and a length with bit 7 set. */
  predicate Benign(r: Result<Tokens>)
  {
    r.Err? ==> r.fault == OutOfBounds(-1) || r.fault.LengthHasFlag80?
  }

  lemma {:induction false} LengthenFaults(t: Tokens, k: int, stop: nat)
    requires Aligned(t) && stop < |t.ids| && k >= -1
    ensures Benign(LengthenFrom(t, k, stop))
    decreases stop - k
  {
    if k < stop && k >= 0 {
      var p := At(t, k);
      if Lengthens(p) {
        var a := LengthAt(t, k);
        var r := PutLength(t, k, a / 2 + a + 1);
        if r.Ok? {
          LengthenFaults(r.value, k + 1, stop);
        }
      } else {
        LengthenFaults(t, k + 1, stop);
      }
    }
  }

  lemma {:induction false} PunctuationFaults(t: Tokens, position: nat)
    requires Aligned(t) && position < |t.ids|
    ensures Benign(PunctuationFrom(t, position))
    decreases |t.ids| - position
  {
    if At(t, position) != END {
      if !HasFlag(At(t, position), FLAG_PUNCT) {
        PunctuationFaults(t, position + 1);
      } else {
        var v := BackUp(t, position);
        if v != 0 {
          LengthenFaults(t, v, position);
          var r := LengthenFrom(t, v, position);
          if r.Ok? {
            PunctuationFaults(r.value, position + 1);
          }
        }
      }
    }
  }

  lemma ShortenStepFaults(t: Tokens, i: nat)
    requires Aligned(t) && i + 1 < |t.ids|
    ensures Benign(ShortenStep(t, i))
  {
  }

  lemma {:induction false} ShortenFaults(t: Tokens, i: nat)
    requires Aligned(t) && i < |t.ids|
    ensures Benign(ShortenFrom(t, i))
    decreases |t.ids| - i
  {
    if At(t, i) != END {
      ShortenStepFaults(t, i);
      var r := ShortenStep(t, i);
      if r.Ok? {
        ShortenFaults(r.value, i + 1);
      }
    }
  }

  /** `AdjustLengths` throws only on position -1 or on a length with bit 7 set. */
  lemma AdjustedFaults(t: Tokens)
    requires Aligned(t)
    ensures Adjusted(t).Err? ==> Adjusted(t).fault == OutOfBounds(-1) || Adjusted(t).fault.LengthHasFlag80?
  {
    PunctuationFaults(t, 0);
    var r := PunctuationFrom(t, 0);
    if r.Ok? {
      ShortenFaults(r.value, 0);
    }
  }
}
