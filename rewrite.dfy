/**
 * `Parser2`: the phonetic rewrite pass. A cursor walks the store from the
 * first slot up to END; at each phoneme the first rule that applies rewrites
 * it, a neighbour, or inserts a phoneme after it, and the cursor moves one
 * place on. Inserted phonemes are visited in their turn.
 */
module Rewrite {
  import opened Outcomes
  import opened Phonemes
  import opened Store

  const pR: int := 23
  const pD: int := 57
  const pT: int := 69

  /** JavaScript `!x` on a phoneme read: true for the pause 0 and for `undefined`. */
  predicate Blank(p: int)
  {
    p == 0 || p == HOLE
  }

  // ---------------------------------------------------------------------
  // The rules, as functions of the store

  /**
   * `handleUW_CH_J`: UW after an alveolar becomes UX; CH and J* get their
   * second half ('**' 43 or 45) inserted after them with their stress. UW at
   * position 0 reads position -1, which throws.
   */
  function UwChJRule(t: Tokens, phoneme: int, pos: nat): (r: Result<Tokens>)
    requires Aligned(t) && pos + 1 < |t.ids|
    ensures r.Err? <==> phoneme == 53 && pos == 0
    ensures r.Err? ==> r.fault == OutOfBounds(-1)
    ensures r.Ok? ==> Aligned(r.value) && |t.ids| <= |r.value.ids| <= |t.ids| + 1
  {
    if phoneme == 53 then
      if pos == 0 then Err(OutOfBounds(-1))
      else if HasFlag(At(t, pos - 1), FLAG_ALVEOLAR) then Ok(PutId(t, pos, 16))
      else Ok(t)
    else if phoneme == 42 then Ok(Insert(t, pos + 1, 43, StressAt(t, pos), 0))
    else if phoneme == 44 then Ok(Insert(t, pos + 1, 45, StressAt(t, pos), 0))
    else Ok(t)
  }

  /** `changeAX`: the phoneme becomes AX and the suffix follows it with the same stress. */
  function AxRule(t: Tokens, pos: nat, suffix: int): Tokens
    requires Aligned(t) && pos + 1 < |t.ids|
  {
    Insert(PutId(t, pos, 13), pos + 1, suffix, StressAt(t, pos), 0)
  }

  /** The consonant that follows AX: L* for UL, M* for UM, N* for UN. */
  function SyllabicSuffix(p: int): int
  {
    if p == 78 then 24 else if p == 79 then 27 else 28
  }

  /** A stressed vowel, a pause, then another stressed vowel: a glottal stop Q* goes before the second. */
  function GlottalStopRule(t: Tokens, pos: nat): Tokens
    requires Aligned(t) && pos + 1 < |t.ids|
  {
    if Blank(At(t, pos + 1)) then
      var next := At(t, pos + 2);
      if next != END && HasFlag(next, FLAG_VOWEL) && StressAt(t, pos + 2) != 0 then
        Insert(t, pos + 2, 31, 0, 0)
      else t
    else t
  }

  /** T* or D* after a vowel and before a vowel with stress 0 (a pause between may be skipped) becomes DX. */
  function SoftenRule(t: Tokens, pos: nat): Tokens
    requires Aligned(t) && pos + 1 < |t.ids|
  {
    if pos > 0 && HasFlag(At(t, pos - 1), FLAG_VOWEL) then
      var next := At(t, pos + 1);
      var next' := if Blank(next) then At(t, pos + 2) else next;
      if HasFlag(next', FLAG_VOWEL) && StressAt(t, pos + 1) == 0 then PutId(t, pos, 30) else t
    else t
  }

  /** The rules tried on a phoneme that is none of: pause, diphthong, UL/UM/UN, stressed vowel. */
  function ConsonantRules(t: Tokens, pos: nat, phoneme: int, prior: int): (r: Result<Tokens>)
    requires Aligned(t) && pos + 1 < |t.ids|
    requires prior == if pos == 0 then END else At(t, pos - 1)
    ensures r.Ok? ==> Aligned(r.value) && |t.ids| <= |r.value.ids| <= |t.ids| + 1
  {
    if phoneme == pR then
      if prior == pT then Ok(PutId(t, pos - 1, 42))
      else if prior == pD then Ok(PutId(t, pos - 1, 44))
      else if HasFlag(prior, FLAG_VOWEL) then Ok(PutId(t, pos, 18))
      else Ok(t)
    else if phoneme == 24 && HasFlag(prior, FLAG_VOWEL) then Ok(PutId(t, pos, 19))
    else if prior == 60 && phoneme == 32 then Ok(PutId(t, pos, 38))
    else if phoneme == 60 then
      var next := At(t, pos + 1);
      Ok(if !HasFlag(next, FLAG_DIP_YX) && next != END then PutId(t, pos, 63) else t)
    else StopRules(t, pos, phoneme, prior)
  }

  /** K* before anything but a YX-type phoneme becomes KX; then S* softens a plosive; then T* or D* softening. */
  function StopRules(t: Tokens, pos: nat, phoneme: int, prior: int): (r: Result<Tokens>)
    requires Aligned(t) && pos + 1 < |t.ids|
    ensures r.Ok? ==> Aligned(r.value) && |t.ids| <= |r.value.ids| <= |t.ids| + 1
  {
    var next := At(t, pos + 1);
    var kx := phoneme == 72 && (!HasFlag(next, FLAG_DIP_YX) || next == END);
    var t1 := if kx then PutId(t, pos, 75) else t;
    var p := if kx then 75 else phoneme;
    var t2 :-
      if HasFlag(p, FLAG_PLOSIVE) && prior == 32 then Ok(PutId(t1, pos, p - 12))
      else if !HasFlag(p, FLAG_PLOSIVE) then UwChJRule(t1, p, pos)
      else Ok(t1);
    Ok(if p == pT || p == pD then SoftenRule(t2, pos) else t2)
  }

  /** One turn of the `Parser2` loop at pos, which is before the END slot. */
  function RewriteStep(t: Tokens, pos: nat): (r: Result<Tokens>)
    requires Aligned(t) && pos + 1 < |t.ids|
    ensures r.Ok? ==> Aligned(r.value) && |t.ids| <= |r.value.ids| <= |t.ids| + 1
  {
    var p := t.ids[pos];
    if p == 0 then Ok(t)
    else if HasFlag(p, FLAG_DIPTHONG) then
      UwChJRule(Insert(t, pos + 1, if HasFlag(p, FLAG_DIP_YX) then 21 else 20, StressAt(t, pos), 0), p, pos)
    else if p == 78 then Ok(AxRule(t, pos, 24))
    else if p == 79 then Ok(AxRule(t, pos, 27))
    else if p == 80 then Ok(AxRule(t, pos, 28))
    else if HasFlag(p, FLAG_VOWEL) && StressAt(t, pos) != 0 then Ok(GlottalStopRule(t, pos))
    else ConsonantRules(t, pos, p, if pos == 0 then END else At(t, pos - 1))
  }

  // ---------------------------------------------------------------------
  // Termination: the loop visits inserted phonemes, so it is measured by weight

  /**
   * The weight of a phoneme: what it can still insert behind itself when the
   * cursor reaches it. A diphthong inserts WX or YX (a vowel); a vowel may
   * insert Q*; CH, J*, UL, UM and UN insert a consonant.
   */
  function Cost(p: int): nat
  {
    if HasFlag(p, FLAG_DIPTHONG) then 3 else if HasFlag(p, FLAG_VOWEL) || p == 42 || p == 44 then 2 else 1
  }

  function Weight(s: seq<int>): nat
  {
    if |s| == 0 then 0 else Cost(s[0]) + Weight(s[1..])
  }

  /** The ids behind pos are those before a step. */
  predicate Keeps(t: Tokens, t': Tokens, pos: nat)
  {
    pos + 1 <= |t.ids| && pos + 1 <= |t'.ids| && t'.ids[pos + 1..] == t.ids[pos + 1..]
  }

  /** The ids behind pos are those before a step, with x in front. */
  predicate Grows(t: Tokens, t': Tokens, pos: nat, x: int)
  {
    pos + 1 <= |t.ids| && pos + 1 <= |t'.ids| && t'.ids[pos + 1..] == [x] + t.ids[pos + 1..]
  }

  lemma PutIdKeeps(t: Tokens, q: nat, v: int, pos: nat)
    requires Aligned(t) && q <= pos < |t.ids|
    ensures Keeps(t, PutId(t, q, v), pos)
  {
    var r := PutId(t, q, v);
    assert r.ids[pos + 1..] == t.ids[pos + 1..];
  }

  lemma InsertGrows(t: Tokens, pos: nat, x: int, s: int, len: int)
    requires Aligned(t) && pos + 1 <= |t.ids|
    ensures Grows(t, Insert(t, pos + 1, x, s, len), pos, x)
  {
    var r := Insert(t, pos + 1, x, s, len);
    assert r.ids[pos + 1..] == [x] + t.ids[pos + 1..];
  }

  lemma KeepsThenGrows(t: Tokens, t1: Tokens, t2: Tokens, pos: nat, x: int)
    requires Keeps(t, t1, pos) && Grows(t1, t2, pos, x)
    ensures Grows(t, t2, pos, x)
  {
  }

  lemma KeepsThenKeeps(t: Tokens, t1: Tokens, t2: Tokens, pos: nat)
    requires Keeps(t, t1, pos) && Keeps(t1, t2, pos)
    ensures Keeps(t, t2, pos)
  {
  }

  lemma GrowsThenKeeps(t: Tokens, t1: Tokens, t2: Tokens, pos: nat, x: int)
    requires Grows(t, t1, pos, x) && Keeps(t1, t2, pos)
    ensures Grows(t, t2, pos, x)
  {
  }

  /** What `handleUW_CH_J` leaves behind the cursor. */
  lemma UwChJSuffix(t: Tokens, phoneme: int, pos: nat)
    requires Aligned(t) && pos + 1 < |t.ids| && UwChJRule(t, phoneme, pos).Ok?
    ensures var r := UwChJRule(t, phoneme, pos).value;
      if phoneme == 42 then Grows(t, r, pos, 43)
      else if phoneme == 44 then Grows(t, r, pos, 45)
      else Keeps(t, r, pos)
  {
    if phoneme == 53 {
      PutIdKeeps(t, pos, 16, pos);
      assert Keeps(t, t, pos);
    } else if phoneme == 42 {
      InsertGrows(t, pos, 43, StressAt(t, pos), 0);
    } else if phoneme == 44 {
      InsertGrows(t, pos, 45, StressAt(t, pos), 0);
    } else {
      assert Keeps(t, t, pos);
    }
  }

  lemma SoftenKeeps(t: Tokens, pos: nat)
    requires Aligned(t) && pos + 1 < |t.ids|
    ensures Keeps(t, SoftenRule(t, pos), pos)
  {
    PutIdKeeps(t, pos, 30, pos);
    assert Keeps(t, t, pos);
  }

  /** What the consonant rules leave behind the cursor. */
  lemma ConsonantSuffix(t: Tokens, pos: nat, prior: int)
    requires Aligned(t) && pos + 1 < |t.ids|
    requires prior == if pos == 0 then END else At(t, pos - 1)
    requires ConsonantRules(t, pos, t.ids[pos], prior).Ok?
    ensures var r := ConsonantRules(t, pos, t.ids[pos], prior).value;
      if t.ids[pos] == 42 then Grows(t, r, pos, 43)
      else if t.ids[pos] == 44 then Grows(t, r, pos, 45)
      else Keeps(t, r, pos)
  {
    var phoneme := t.ids[pos];
    assert Keeps(t, t, pos);
    if phoneme == pR {
      if prior == pT {
        PutIdKeeps(t, pos - 1, 42, pos);
      } else if prior == pD {
        PutIdKeeps(t, pos - 1, 44, pos);
      } else {
        PutIdKeeps(t, pos, 18, pos);
      }
    } else if phoneme == 24 && HasFlag(prior, FLAG_VOWEL) {
      PutIdKeeps(t, pos, 19, pos);
    } else if prior == 60 && phoneme == 32 {
      PutIdKeeps(t, pos, 38, pos);
    } else if phoneme == 60 {
      PutIdKeeps(t, pos, 63, pos);
    } else {
      var next := At(t, pos + 1);
      var kx := phoneme == 72 && (!HasFlag(next, FLAG_DIP_YX) || next == END);
      var t1 := if kx then PutId(t, pos, 75) else t;
      var p := if kx then 75 else phoneme;
      PutIdKeeps(t, pos, 75, pos);
      assert Keeps(t, t1, pos);
      var t2r :=
        if HasFlag(p, FLAG_PLOSIVE) && prior == 32 then Ok(PutId(t1, pos, p - 12))
        else if !HasFlag(p, FLAG_PLOSIVE) then UwChJRule(t1, p, pos)
        else Ok(t1);
      var t2 := t2r.value;
      if HasFlag(p, FLAG_PLOSIVE) && prior == 32 {
        PutIdKeeps(t1, pos, p - 12, pos);
        KeepsThenKeeps(t, t1, t2, pos);
      } else if !HasFlag(p, FLAG_PLOSIVE) {
        UwChJSuffix(t1, p, pos);
        if p == 42 {
          KeepsThenGrows(t, t1, t2, pos, 43);
        } else if p == 44 {
          KeepsThenGrows(t, t1, t2, pos, 45);
        } else {
          KeepsThenKeeps(t, t1, t2, pos);
        }
      } else {
        assert Keeps(t, t2, pos);
      }
      if p == pT || p == pD {
        SoftenKeeps(t2, pos);
        KeepsThenKeeps(t, t2, SoftenRule(t2, pos), pos);
      }
    }
  }

  lemma WeightFront(s: seq<int>, k: nat)
    requires k < |s|
    ensures Weight(s[k..]) == Cost(s[k]) + Weight(s[k + 1..])
  {
    assert s[k..][1..] == s[k + 1..];
  }

  /** The weights of the phonemes the rules insert, and of those that insert them. */
  lemma InsertedCosts()
    ensures Cost(20) == 2 && Cost(21) == 2
    ensures Cost(24) == 1 && Cost(27) == 1 && Cost(28) == 1 && Cost(31) == 1 && Cost(43) == 1 && Cost(45) == 1
    ensures Cost(42) == 2 && Cost(44) == 2 && Cost(78) == 2 && Cost(79) == 2 && Cost(80) == 2
  {
    assert Flags(20) == 0x0084 && Flags(21) == 0x0084;
    assert Flags(24) == 0x1044 && Flags(27) == 0x084C && Flags(28) == 0x0C4C && Flags(31) == 0x404C;
    assert Flags(43) == 0x2040 && Flags(45) == 0x2044;
    assert Flags(78) == 0x0080 && Flags(79) == 0x00C1 && Flags(80) == 0x00C1;
  }

  lemma ShrinkKeeps(t: Tokens, r: Tokens, pos: nat)
    requires pos < |t.ids| && Keeps(t, r, pos)
    ensures Weight(r.ids[pos + 1..]) < Weight(t.ids[pos..])
  {
    WeightFront(t.ids, pos);
  }

  lemma ShrinkGrows(t: Tokens, r: Tokens, pos: nat, x: int)
    requires pos < |t.ids| && Grows(t, r, pos, x) && Cost(x) < Cost(t.ids[pos])
    ensures Weight(r.ids[pos + 1..]) < Weight(t.ids[pos..])
  {
    WeightFront(t.ids, pos);
    var rest := t.ids[pos + 1..];
    WeightFront([x] + rest, 0);
    assert ([x] + rest)[1..] == rest;
  }

  /** The glottal stop goes in one place further on, behind a pause. */
  lemma ShrinkGlottal(t: Tokens, pos: nat)
    requires Aligned(t) && pos + 1 < |t.ids| && Cost(t.ids[pos]) >= 2
    ensures var r := Insert(t, pos + 2, 31, 0, 0);
      pos + 1 < |r.ids| && Weight(r.ids[pos + 1..]) < Weight(t.ids[pos..])
  {
    var r := Insert(t, pos + 2, 31, 0, 0);
    SliceAfterInsert(t.ids, pos + 2, 31);
    assert r.ids[pos + 1..] == [t.ids[pos + 1], 31] + t.ids[pos + 2..];
    WeightTwo(t.ids[pos + 1], 31, t.ids[pos + 2..]);
    WeightFront(t.ids, pos);
    WeightFront(t.ids, pos + 1);
    InsertedCosts();
  }

  /** Read from one before the inserted value, a sequence with v inserted at n. */
  lemma SliceAfterInsert(a: seq<int>, n: nat, v: int)
    requires 0 < n <= |a|
    ensures (a[..n] + [v] + a[n..])[n - 1..] == [a[n - 1], v] + a[n..]
  {
  }

  lemma WeightTwo(x: int, y: int, rest: seq<int>)
    ensures Weight([x, y] + rest) == Cost(x) + Cost(y) + Weight(rest)
  {
    assert ([x, y] + rest)[1..] == [y] + rest;
    assert ([y] + rest)[1..] == rest;
  }

  /** Every step lowers the weight of what is left to visit. */
  lemma StepShrinks(t: Tokens, pos: nat)
    requires Aligned(t) && pos + 1 < |t.ids| && RewriteStep(t, pos).Ok?
    ensures pos + 1 < |RewriteStep(t, pos).value.ids|
    ensures Weight(RewriteStep(t, pos).value.ids[pos + 1..]) < Weight(t.ids[pos..])
  {
    var p := t.ids[pos];
    var r := RewriteStep(t, pos).value;
    InsertedCosts();
    if p == 0 {
      assert Keeps(t, r, pos);
      ShrinkKeeps(t, r, pos);
    } else if HasFlag(p, FLAG_DIPTHONG) {
      var x := if HasFlag(p, FLAG_DIP_YX) then 21 else 20;
      var t1 := Insert(t, pos + 1, x, StressAt(t, pos), 0);
      InsertGrows(t, pos, x, StressAt(t, pos), 0);
      UwChJSuffix(t1, p, pos);
      GrowsThenKeeps(t, t1, r, pos, x);
      ShrinkGrows(t, r, pos, x);
    } else if p == 78 || p == 79 || p == 80 {
      var x := SyllabicSuffix(p);
      var t1 := PutId(t, pos, 13);
      PutIdKeeps(t, pos, 13, pos);
      InsertGrows(t1, pos, x, StressAt(t, pos), 0);
      KeepsThenGrows(t, t1, r, pos, x);
      ShrinkGrows(t, r, pos, x);
    } else if HasFlag(p, FLAG_VOWEL) && StressAt(t, pos) != 0 {
      if r == t {
        assert Keeps(t, r, pos);
        ShrinkKeeps(t, r, pos);
      } else {
        ShrinkGlottal(t, pos);
      }
    } else {
      ConsonantSuffix(t, pos, if pos == 0 then END else At(t, pos - 1));
      if p == 42 {
        ShrinkGrows(t, r, pos, 43);
      } else if p == 44 {
        ShrinkGrows(t, r, pos, 45);
      } else {
        ShrinkKeeps(t, r, pos);
      }
    }
  }

  lemma KeepsLast(t: Tokens, r: Tokens, pos: nat)
    requires pos + 1 < |t.ids| && Keeps(t, r, pos)
    ensures Last(r.ids) == Last(t.ids)
  {
    assert Last(r.ids) == Last(r.ids[pos + 1..]) && Last(t.ids) == Last(t.ids[pos + 1..]);
  }

  lemma GrowsLast(t: Tokens, r: Tokens, pos: nat, x: int)
    requires pos + 1 < |t.ids| && Grows(t, r, pos, x)
    ensures Last(r.ids) == Last(t.ids)
  {
    assert Last(r.ids) == Last(r.ids[pos + 1..]) && Last(t.ids) == Last(t.ids[pos + 1..]);
  }

  /** Every step writes and inserts before the last slot, so the id there stays. */
  lemma StepKeepsLast(t: Tokens, pos: nat)
    requires Aligned(t) && pos + 1 < |t.ids| && RewriteStep(t, pos).Ok?
    ensures Last(RewriteStep(t, pos).value.ids) == Last(t.ids)
  {
    var p := t.ids[pos];
    var r := RewriteStep(t, pos).value;
    if p == 0 {
      KeepsLast(t, r, pos);
    } else if HasFlag(p, FLAG_DIPTHONG) {
      var x := if HasFlag(p, FLAG_DIP_YX) then 21 else 20;
      var t1 := Insert(t, pos + 1, x, StressAt(t, pos), 0);
      InsertGrows(t, pos, x, StressAt(t, pos), 0);
      UwChJSuffix(t1, p, pos);
      GrowsThenKeeps(t, t1, r, pos, x);
      GrowsLast(t, r, pos, x);
    } else if p == 78 || p == 79 || p == 80 {
      var x := SyllabicSuffix(p);
      var t1 := PutId(t, pos, 13);
      PutIdKeeps(t, pos, 13, pos);
      InsertGrows(t1, pos, x, StressAt(t, pos), 0);
      KeepsThenGrows(t, t1, r, pos, x);
      GrowsLast(t, r, pos, x);
    } else if HasFlag(p, FLAG_VOWEL) && StressAt(t, pos) != 0 {
      if r == t {
      } else {
        assert r.ids[|r.ids| - 1] == t.ids[|t.ids| - 1];
      }
    } else {
      ConsonantSuffix(t, pos, if pos == 0 then END else At(t, pos - 1));
      if p == 42 {
        GrowsLast(t, r, pos, 43);
      } else if p == 44 {
        GrowsLast(t, r, pos, 45);
      } else {
        KeepsLast(t, r, pos);
      }
    }
  }

  /** The whole pass keeps the id in the last slot. */
  lemma {:induction false} RewrittenKeepsLast(t: Tokens, pos: nat)
    requires Aligned(t) && pos < |t.ids| && Rewritten(t, pos).Ok?
    ensures Last(Rewritten(t, pos).value.ids) == Last(t.ids)
    decreases Weight(t.ids[pos..])
  {
    if At(t, pos) != END {
      StepShrinks(t, pos);
      StepKeepsLast(t, pos);
      RewrittenKeepsLast(RewriteStep(t, pos).value, pos + 1);
    }
  }

  /** `Parser2` from the cursor at pos on. */
  function Rewritten(t: Tokens, pos: nat): (r: Result<Tokens>)
    requires Aligned(t) && pos < |t.ids|
    ensures r.Ok? ==> Aligned(r.value) && |r.value.ids| >= |t.ids|
    decreases Weight(t.ids[pos..])
  {
    if At(t, pos) == END then Ok(t)
    else
      match RewriteStep(t, pos)
      case Err(f) => Err(f)
      case Ok(t') =>
        StepShrinks(t, pos);
        Rewritten(t', pos + 1)
  }

  // ---------------------------------------------------------------------
  // The pass on the store object

  /** `handleUW_CH_J`. */
  method HandleUwChJ(u: Utterance, phoneme: int, pos: nat) returns (fault: Option<Fault>)
    requires u.Valid() && pos + 1 < |u.ids|
    modifies u
    ensures u.Valid()
    ensures match UwChJRule(old(u.Contents()), phoneme, pos)
      case Ok(t) => fault == None && u.Contents() == t
      case Err(f) => fault == Some(f)
  {
    fault := None;
    if phoneme == 53 {
      if pos == 0 {
        // getPhoneme(-1) throws
        return Some(OutOfBounds(-1));
      }
      if HasFlag(u.Phoneme(pos - 1), FLAG_ALVEOLAR) {
        u.SetPhoneme(pos, 16);
      }
    } else if phoneme == 42 {
      u.InsertPhoneme(pos + 1, 43, u.Stress(pos), 0);
    } else if phoneme == 44 {
      u.InsertPhoneme(pos + 1, 45, u.Stress(pos), 0);
    }
  }

  /** `changeAX`. */
  method ChangeAX(u: Utterance, pos: nat, suffix: int)
    requires u.Valid() && pos + 1 < |u.ids|
    modifies u
    ensures u.Valid() && u.Contents() == AxRule(old(u.Contents()), pos, suffix)
  {
    u.SetPhoneme(pos, 13);
    u.InsertPhoneme(pos + 1, suffix, u.Stress(pos), 0);
  }

  /** The rules after `priorPhoneme` is read: R*, L*, G*, K*, the S* softening, T* or D*. */
  method ConsonantRulesAt(u: Utterance, pos: nat, phoneme: int) returns (fault: Option<Fault>)
    requires u.Valid() && pos + 1 < |u.ids|
    modifies u
    ensures u.Valid()
    ensures match ConsonantRules(old(u.Contents()), pos, phoneme, if pos == 0 then END else At(old(u.Contents()), pos - 1))
      case Ok(t) => fault == None && u.Contents() == t
      case Err(f) => fault == Some(f)
  {
    fault := None;
    var priorPhoneme := if pos == 0 then END else u.Phoneme(pos - 1);
    if phoneme == pR {
      if priorPhoneme == pT {
        u.SetPhoneme(pos - 1, 42);
      } else if priorPhoneme == pD {
        u.SetPhoneme(pos - 1, 44);
      } else if HasFlag(priorPhoneme, FLAG_VOWEL) {
        u.SetPhoneme(pos, 18);
      }
      return;
    }
    if phoneme == 24 && HasFlag(priorPhoneme, FLAG_VOWEL) {
      u.SetPhoneme(pos, 19);
      return;
    }
    if priorPhoneme == 60 && phoneme == 32 {
      u.SetPhoneme(pos, 38);
      return;
    }
    if phoneme == 60 {
      var next := u.Phoneme(pos + 1);
      if !HasFlag(next, FLAG_DIP_YX) && next != END {
        u.SetPhoneme(pos, 63);
      }
      return;
    }
    fault := StopRulesAt(u, pos, phoneme, priorPhoneme);
  }

  /** The K*, S* and T* or D* rules of the `Parser2` loop body. */
  method StopRulesAt(u: Utterance, pos: nat, phoneme: int, priorPhoneme: int) returns (fault: Option<Fault>)
    requires u.Valid() && pos + 1 < |u.ids|
    modifies u
    ensures u.Valid()
    ensures match StopRules(old(u.Contents()), pos, phoneme, priorPhoneme)
      case Ok(t) => fault == None && u.Contents() == t
      case Err(f) => fault == Some(f)
  {
    fault := None;
    var p := phoneme;
    if p == 72 {
      var y := u.Phoneme(pos + 1);
      if !HasFlag(y, FLAG_DIP_YX) || y == END {
        u.SetPhoneme(pos, 75);
        p := 75;
      }
    }
    if HasFlag(p, FLAG_PLOSIVE) && priorPhoneme == 32 {
      u.SetPhoneme(pos, p - 12);
    } else if !HasFlag(p, FLAG_PLOSIVE) {
      fault := HandleUwChJ(u, p, pos);
      if fault.Some? {
        return;
      }
    }
    if p == pT || p == pD {
      SoftenAt(u, pos);
    }
  }

  /** T* or D* after a vowel and before an unstressed vowel becomes DX. */
  method SoftenAt(u: Utterance, pos: nat)
    requires u.Valid() && pos + 1 < |u.ids|
    modifies u
    ensures u.Valid() && u.Contents() == SoftenRule(old(u.Contents()), pos)
  {
    if pos > 0 && HasFlag(u.Phoneme(pos - 1), FLAG_VOWEL) {
      var next := u.Phoneme(pos + 1);
      if Blank(next) {
        next := u.Phoneme(pos + 2);
      }
      if HasFlag(next, FLAG_VOWEL) && u.Stress(pos + 1) == 0 {
        u.SetPhoneme(pos, 30);
      }
    }
  }

  /** One turn of the `Parser2` loop. */
  method RewriteAt(u: Utterance, pos: nat) returns (fault: Option<Fault>)
    requires u.Valid() && pos + 1 < |u.ids|
    modifies u
    ensures u.Valid()
    ensures match RewriteStep(old(u.Contents()), pos)
      case Ok(t) => fault == None && u.Contents() == t
      case Err(f) => fault == Some(f)
  {
    ghost var t := u.Contents();
    fault := None;
    var phoneme := u.Phoneme(pos);
    if phoneme == 0 {
      return;
    }
    if HasFlag(phoneme, FLAG_DIPTHONG) {
      fault := DiphthongAt(u, pos, phoneme);
      return;
    }
    if phoneme == 78 || phoneme == 79 || phoneme == 80 {
      ChangeAX(u, pos, SyllabicSuffix(phoneme));
      return;
    }
    if HasFlag(phoneme, FLAG_VOWEL) && u.Stress(pos) != 0 {
      GlottalStopAt(u, pos);
      return;
    }
    fault := ConsonantRulesAt(u, pos, phoneme);
  }

  /** A diphthong is followed by WX or YX with its stress, then the UW, CH and J* rules run. */
  method DiphthongAt(u: Utterance, pos: nat, phoneme: int) returns (fault: Option<Fault>)
    requires u.Valid() && pos + 1 < |u.ids| && phoneme == u.ids[pos]
    modifies u
    ensures u.Valid()
    ensures match UwChJRule(Insert(old(u.Contents()), pos + 1,
                                   if HasFlag(phoneme, FLAG_DIP_YX) then 21 else 20, StressAt(old(u.Contents()), pos), 0), phoneme, pos)
      case Ok(t) => fault == None && u.Contents() == t
      case Err(f) => fault == Some(f)
  {
    ghost var t := u.Contents();
    var glide := if HasFlag(phoneme, FLAG_DIP_YX) then 21 else 20;
    var stress := u.Stress(pos);
    assert stress == StressAt(t, pos);
    ghost var t1 := Insert(t, pos + 1, glide, stress, 0);
    u.InsertPhoneme(pos + 1, glide, stress, 0);
    assert u.Contents() == t1;
    fault := HandleUwChJ(u, phoneme, pos);
    assert match UwChJRule(t1, phoneme, pos)
      case Ok(r) => fault == None && u.Contents() == r
      case Err(f) => fault == Some(f);
  }

  /** `<STRESSED VOWEL> <SILENCE> <STRESSED VOWEL>`: insert Q* before the second vowel. */
  method GlottalStopAt(u: Utterance, pos: nat)
    requires u.Valid() && pos + 1 < |u.ids|
    modifies u
    ensures u.Valid() && u.Contents() == GlottalStopRule(old(u.Contents()), pos)
  {
    if Blank(u.Phoneme(pos + 1)) {
      var next := u.Phoneme(pos + 2);
      if next != END && HasFlag(next, FLAG_VOWEL) && u.Stress(pos + 2) != 0 {
        u.InsertPhoneme(pos + 2, 31, 0, 0);
      }
    }
  }

  /** The pass from pos on is one step, then the pass from pos + 1 on. */
  lemma RewrittenUnfolds(t: Tokens, pos: nat)
    requires Aligned(t) && pos + 1 < |t.ids| && At(t, pos) != END
    ensures match RewriteStep(t, pos)
      case Err(f) => Rewritten(t, pos) == Err(f)
      case Ok(t') =>
        (pos + 1 < |t'.ids| && Rewritten(t, pos) == Rewritten(t', pos + 1)
         && Weight(t'.ids[pos + 1..]) < Weight(t.ids[pos..]))
  {
    if RewriteStep(t, pos).Ok? {
      StepShrinks(t, pos);
    }
  }

  /** `Parser2`: the rewrite loop, which stops at the first fault. */
  method Parser2(u: Utterance) returns (fault: Option<Fault>)
    requires u.Valid()
    modifies u
    ensures u.Valid()
    ensures match Rewritten(old(u.Contents()), 0)
      case Ok(t) => fault == None && u.Contents() == t
      case Err(f) => fault == Some(f)
  {
    ghost var start := u.Contents();
    fault := None;
    var pos := 0;
    while u.Phoneme(pos) != END
      invariant u.Valid() && pos < |u.ids| && fault == None
      invariant Rewritten(start, 0) == Rewritten(u.Contents(), pos)
      decreases Weight(u.ids[pos..])
    {
      ghost var before := u.Contents();
      RewrittenUnfolds(before, pos);
      fault := RewriteAt(u, pos);
      if fault.Some? {
        return;
      }
      pos := pos + 1;
    }
    assert Rewritten(u.Contents(), pos) == Ok(u.Contents());
  }

  // ---------------------------------------------------------------------
  // What the rules do

  /** UL, UM and UN become AX, followed by L*, M* or N* carrying the original stress. */
  lemma SyllabicBecomesAx(t: Tokens, pos: nat)
    requires Aligned(t) && pos + 1 < |t.ids| && t.ids[pos] in {78, 79, 80}
    ensures RewriteStep(t, pos).Ok?
    ensures var r := RewriteStep(t, pos).value;
      var suffix := SyllabicSuffix(t.ids[pos]);
      && |r.ids| == |t.ids| + 1
      && r.ids[pos] == 13 && r.stresses[pos] == t.stresses[pos] && r.lengths[pos] == t.lengths[pos]
      && r.ids[pos + 1] == suffix && r.stresses[pos + 1] == t.stresses[pos] && r.lengths[pos + 1] == 0
      && (forall k :: 0 <= k < pos ==>
            r.ids[k] == t.ids[k] && r.lengths[k] == t.lengths[k] && r.stresses[k] == t.stresses[k])
      && (forall k :: pos + 1 < k < |r.ids| ==>
            r.ids[k] == t.ids[k - 1] && r.lengths[k] == t.lengths[k - 1] && r.stresses[k] == t.stresses[k - 1])
  {
    assert !HasFlag(78, FLAG_DIPTHONG) && !HasFlag(79, FLAG_DIPTHONG) && !HasFlag(80, FLAG_DIPTHONG);
  }

  /** T* before R* becomes CH, D* before R* becomes J*; the R* itself and the rest stay. */
  lemma AffricateBeforeR(t: Tokens, pos: nat)
    requires Aligned(t) && 0 < pos && pos + 1 < |t.ids| && t.ids[pos] == pR && t.ids[pos - 1] in {pT, pD}
    ensures RewriteStep(t, pos).Ok?
    ensures var r := RewriteStep(t, pos).value;
      && r.ids == t.ids[pos - 1 := if t.ids[pos - 1] == pT then 42 else 44]
      && r.lengths == t.lengths && r.stresses == t.stresses
  {
    assert Flags(pR) == 0x1044;
  }

  /**
   * Every id the rules write or insert is a table id other than UL, UM and UN;
   * a plosive's softer version (12 ids lower) is one too.
   */
  lemma PlosivesSoften(p: int)
    requires 0 <= p < PHONEME_COUNT && HasFlag(p, FLAG_PLOSIVE)
    ensures 12 <= p && p - 12 < 78
  {
  }

  /** r is t with the id at q replaced by v; lengths and stresses stay. */
  predicate SetsId(t: Tokens, r: Tokens, q: nat, v: int)
  {
    q < |t.ids| && r.ids == t.ids[q := v] && r.lengths == t.lengths && r.stresses == t.stresses
  }

  /** EY, AY and OY are followed by YX, AW and OW by WX, carrying the diphthong's stress and length 0. */
  lemma DiphthongGetsGlide(t: Tokens, pos: nat)
    requires Aligned(t) && pos + 1 < |t.ids| && 48 <= t.ids[pos] <= 52
    ensures RewriteStep(t, pos) == Ok(Insert(t, pos + 1, if t.ids[pos] <= 50 then 21 else 20, t.stresses[pos], 0))
  {
    assert Flags(48) == Flags(49) == Flags(50) == 0x00B4;
    assert Flags(51) == Flags(52) == 0x0094;
  }

  /** UW is followed by WX; after an alveolar it becomes UX as well. At position 0 the look-behind throws. */
  lemma UwGetsGlide(t: Tokens, pos: nat)
    requires Aligned(t) && pos + 1 < |t.ids| && t.ids[pos] == 53
    ensures var t1 := Insert(t, pos + 1, 20, t.stresses[pos], 0);
      && (pos == 0 ==> RewriteStep(t, pos) == Err(OutOfBounds(-1)))
      && (pos > 0 && HasFlag(t.ids[pos - 1], FLAG_ALVEOLAR) ==>
            RewriteStep(t, pos).Ok? && SetsId(t1, RewriteStep(t, pos).value, pos, 16))
      && (pos > 0 && !HasFlag(t.ids[pos - 1], FLAG_ALVEOLAR) ==> RewriteStep(t, pos) == Ok(t1))
  {
    assert Flags(53) == 0x0094;
  }

  /**
   * A stressed vowel (no diphthong, not UL/UM/UN), a pause, then a stressed
   * vowel before END: Q* with stress 0 and length 0 goes before the second
   * vowel. Anything else after the first vowel leaves the store as it is.
   */
  lemma GlottalStopInserted(t: Tokens, pos: nat)
    requires Aligned(t) && pos + 1 < |t.ids|
    requires HasFlag(t.ids[pos], FLAG_VOWEL) && !HasFlag(t.ids[pos], FLAG_DIPTHONG) && t.ids[pos] !in {78, 79, 80}
    requires t.stresses[pos] != 0
    ensures RewriteStep(t, pos) == Ok(
      if pos + 2 < |t.ids| - 1 && t.ids[pos + 1] in {0, HOLE}
         && HasFlag(t.ids[pos + 2], FLAG_VOWEL) && t.stresses[pos + 2] != 0
      then Insert(t, pos + 2, 31, 0, 0)
      else t)
  {
  }

  /** R* after a vowel becomes RX. */
  lemma VowelRBecomesRx(t: Tokens, pos: nat)
    requires Aligned(t) && 0 < pos && pos + 1 < |t.ids| && t.ids[pos] == pR && HasFlag(t.ids[pos - 1], FLAG_VOWEL)
    ensures RewriteStep(t, pos).Ok? && SetsId(t, RewriteStep(t, pos).value, pos, 18)
  {
    assert Flags(pR) == 0x1044;
  }

  /** L* after a vowel becomes LX. */
  lemma VowelLBecomesLx(t: Tokens, pos: nat)
    requires Aligned(t) && 0 < pos && pos + 1 < |t.ids| && t.ids[pos] == 24 && HasFlag(t.ids[pos - 1], FLAG_VOWEL)
    ensures RewriteStep(t, pos).Ok? && SetsId(t, RewriteStep(t, pos).value, pos, 19)
  {
    assert Flags(24) == 0x1044;
  }

  /** S* after G* becomes Z*. */
  lemma SAfterGBecomesZ(t: Tokens, pos: nat)
    requires Aligned(t) && 0 < pos && pos + 1 < |t.ids| && t.ids[pos] == 32 && t.ids[pos - 1] == 60
    ensures RewriteStep(t, pos).Ok? && SetsId(t, RewriteStep(t, pos).value, pos, 38)
  {
    assert Flags(32) == 0x2440;
  }

  /** G* becomes GX unless END or a YX-type phoneme follows. */
  lemma GBecomesGx(t: Tokens, pos: nat)
    requires Aligned(t) && pos + 1 < |t.ids| && t.ids[pos] == 60
    ensures var next := At(t, pos + 1);
      && RewriteStep(t, pos).Ok?
      && (!HasFlag(next, FLAG_DIP_YX) && next != END ==> SetsId(t, RewriteStep(t, pos).value, pos, 63))
      && (HasFlag(next, FLAG_DIP_YX) || next == END ==> RewriteStep(t, pos).value == t)
  {
    assert Flags(60) == 0x004E;
  }

  /**
   * K* becomes KX unless a YX-type phoneme (other than END) follows; after S*
   * the result softens a further 12 ids, to GX from KX and to G* from K*.
   */
  lemma KBecomesKx(t: Tokens, pos: nat)
    requires Aligned(t) && pos + 1 < |t.ids| && t.ids[pos] == 72
    ensures var next := At(t, pos + 1);
      var kx := !HasFlag(next, FLAG_DIP_YX) || next == END;
      var afterS := pos > 0 && t.ids[pos - 1] == 32;
      && RewriteStep(t, pos).Ok?
      && (kx && !afterS ==> SetsId(t, RewriteStep(t, pos).value, pos, 75))
      && (kx && afterS ==> SetsId(t, RewriteStep(t, pos).value, pos, 63))
      && (!kx && afterS ==> SetsId(t, RewriteStep(t, pos).value, pos, 60))
      && (!kx && !afterS ==> RewriteStep(t, pos).value == t)
  {
    assert Flags(72) == Flags(75) == 0x004B;
    var r := RewriteStep(t, pos).value;
    if pos > 0 && t.ids[pos - 1] == 32 && (!HasFlag(At(t, pos + 1), FLAG_DIP_YX) || At(t, pos + 1) == END) {
      assert r == PutId(PutId(t, pos, 75), pos, 63);
      assert r.ids == t.ids[pos := 63];
    }
  }

  /** Any other plosive after S* (P*, T*, and the X forms) becomes the one 12 ids lower. */
  lemma PlosiveAfterS(t: Tokens, pos: nat)
    requires Aligned(t) && 0 < pos && pos + 1 < |t.ids| && t.ids[pos - 1] == 32
    requires 0 <= t.ids[pos] < 78 && t.ids[pos] != 72 && HasFlag(t.ids[pos], FLAG_PLOSIVE)
    ensures RewriteStep(t, pos).Ok? && SetsId(t, RewriteStep(t, pos).value, pos, t.ids[pos] - 12)
  {
    PlosivesSoften(t.ids[pos]);
  }

  /** CH and J* get their second half (CH and J* 43 and 45) inserted after them, with their stress and length 0. */
  lemma AffricateSecondHalf(t: Tokens, pos: nat)
    requires Aligned(t) && pos + 1 < |t.ids| && t.ids[pos] in {42, 44}
    ensures RewriteStep(t, pos) == Ok(Insert(t, pos + 1, t.ids[pos] + 1, t.stresses[pos], 0))
  {
    assert Flags(42) == 0x2048 && Flags(44) == 0x004C;
  }

  /**
   * T* or D* after a vowel becomes the flap DX when the next phoneme, or the
   * one after a pause, is a vowel and the slot after pos has stress 0; else
   * it stays.
   */
  lemma FlapBetweenVowels(t: Tokens, pos: nat)
    requires Aligned(t) && 0 < pos && pos + 1 < |t.ids| && t.ids[pos] in {pT, pD}
    requires HasFlag(t.ids[pos - 1], FLAG_VOWEL)
    ensures var next := At(t, pos + 1);
      var next' := if next in {0, HOLE} then At(t, pos + 2) else next;
      var flap := HasFlag(next', FLAG_VOWEL) && t.stresses[pos + 1] == 0;
      && RewriteStep(t, pos).Ok?
      && (flap ==> SetsId(t, RewriteStep(t, pos).value, pos, 30))
      && (!flap ==> RewriteStep(t, pos).value == t)
  {
    assert Flags(pT) == 0x044B && Flags(pD) == 0x044E;
  }

  // ---------------------------------------------------------------------
  // Faults: only UW as the very first phoneme makes the pass throw

  lemma StepFaults(t: Tokens, pos: nat)
    requires Aligned(t) && pos + 1 < |t.ids|
    ensures RewriteStep(t, pos).Err? <==> pos == 0 && t.ids[0] == 53
  {
    assert Flags(53) == 0x0094;
  }

  lemma {:induction false} RewrittenLaterOk(t: Tokens, pos: nat)
    requires Aligned(t) && 0 < pos < |t.ids|
    ensures Rewritten(t, pos).Ok?
    decreases Weight(t.ids[pos..])
  {
    if At(t, pos) != END {
      StepFaults(t, pos);
      StepShrinks(t, pos);
      RewrittenLaterOk(RewriteStep(t, pos).value, pos + 1);
    }
  }

  /** The pass fails exactly when the first phoneme is UW, whose rule reads position -1. */
  lemma RewrittenFaults(t: Tokens)
    requires Aligned(t)
    ensures Rewritten(t, 0).Err? <==> At(t, 0) != END && t.ids[0] == 53
    ensures Rewritten(t, 0).Err? ==> Rewritten(t, 0).fault == OutOfBounds(-1)
  {
    if At(t, 0) != END {
      StepFaults(t, 0);
      if t.ids[0] != 53 {
        StepShrinks(t, 0);
        RewrittenLaterOk(RewriteStep(t, 0).value, 1);
      } else {
        assert Flags(53) == 0x0094;
      }
    }
  }

  // ---------------------------------------------------------------------
  // No UL, UM or UN survives the pass

  /** No UL, UM or UN (nor anything past them) among the first n ids. */
  predicate SettledBefore(t: Tokens, n: nat)
  {
    n <= |t.ids| && forall k :: 0 <= k < n ==> t.ids[k] < 78
  }

  lemma PutIdShape(t: Tokens, q: nat, v: int, n: nat)
    requires ScanShaped(t) && q + 1 < |t.ids| && 0 <= v < 78
    requires SettledBefore(t, n) || (n == q + 1 && SettledBefore(t, q))
    ensures ScanShaped(PutId(t, q, v)) && SettledBefore(PutId(t, q, v), n)
  {
  }

  lemma InsertShape(t: Tokens, q: nat, v: int, s: int, len: int, n: nat)
    requires ScanShaped(t) && q < |t.ids| && 0 <= v < 78 && SettledBefore(t, n) && n <= q
    ensures ScanShaped(Insert(t, q, v, s, len)) && SettledBefore(Insert(t, q, v, s, len), n)
  {
  }

  lemma UwChJShape(t: Tokens, phoneme: int, pos: nat)
    requires ScanShaped(t) && pos + 1 < |t.ids| && SettledBefore(t, pos + 1)
    requires UwChJRule(t, phoneme, pos).Ok?
    ensures ScanShaped(UwChJRule(t, phoneme, pos).value) && SettledBefore(UwChJRule(t, phoneme, pos).value, pos + 1)
  {
    if phoneme == 53 {
      PutIdShape(t, pos, 16, pos + 1);
    } else if phoneme == 42 || phoneme == 44 {
      InsertShape(t, pos + 1, phoneme + 1, StressAt(t, pos), 0, pos + 1);
    }
  }

  lemma StopShape(t: Tokens, pos: nat, phoneme: int, prior: int)
    requires ScanShaped(t) && pos + 1 < |t.ids| && SettledBefore(t, pos + 1) && phoneme == t.ids[pos]
    requires StopRules(t, pos, phoneme, prior).Ok?
    ensures ScanShaped(StopRules(t, pos, phoneme, prior).value)
    ensures SettledBefore(StopRules(t, pos, phoneme, prior).value, pos + 1)
  {
    var next := At(t, pos + 1);
    var kx := phoneme == 72 && (!HasFlag(next, FLAG_DIP_YX) || next == END);
    var t1 := if kx then PutId(t, pos, 75) else t;
    var p := if kx then 75 else phoneme;
    if kx {
      PutIdShape(t, pos, 75, pos + 1);
    }
    assert t1.ids[pos] == p && ScanShaped(t1) && SettledBefore(t1, pos + 1);
    var t2;
    if HasFlag(p, FLAG_PLOSIVE) && prior == 32 {
      PlosivesSoften(p);
      PutIdShape(t1, pos, p - 12, pos + 1);
      t2 := PutId(t1, pos, p - 12);
    } else if !HasFlag(p, FLAG_PLOSIVE) {
      UwChJShape(t1, p, pos);
      t2 := UwChJRule(t1, p, pos).value;
    } else {
      t2 := t1;
    }
    if (p == pT || p == pD) && SoftenRule(t2, pos) != t2 {
      PutIdShape(t2, pos, 30, pos + 1);
    }
  }

  lemma ConsonantShape(t: Tokens, pos: nat, prior: int)
    requires ScanShaped(t) && pos + 1 < |t.ids| && SettledBefore(t, pos + 1)
    requires prior == if pos == 0 then END else At(t, pos - 1)
    requires ConsonantRules(t, pos, t.ids[pos], prior).Ok?
    ensures ScanShaped(ConsonantRules(t, pos, t.ids[pos], prior).value)
    ensures SettledBefore(ConsonantRules(t, pos, t.ids[pos], prior).value, pos + 1)
  {
    var phoneme := t.ids[pos];
    if phoneme == pR {
      if pos > 0 && prior == pT {
        PutIdShape(t, pos - 1, 42, pos + 1);
      } else if pos > 0 && prior == pD {
        PutIdShape(t, pos - 1, 44, pos + 1);
      } else if HasFlag(prior, FLAG_VOWEL) {
        PutIdShape(t, pos, 18, pos + 1);
      }
    } else if phoneme == 24 && HasFlag(prior, FLAG_VOWEL) {
      PutIdShape(t, pos, 19, pos + 1);
    } else if prior == 60 && phoneme == 32 {
      PutIdShape(t, pos, 38, pos + 1);
    } else if phoneme == 60 {
      PutIdShape(t, pos, 63, pos + 1);
    } else {
      StopShape(t, pos, phoneme, prior);
    }
  }

  lemma DiphthongShape(t: Tokens, pos: nat)
    requires ScanShaped(t) && pos + 1 < |t.ids| && SettledBefore(t, pos)
    requires HasFlag(t.ids[pos], FLAG_DIPTHONG) && t.ids[pos] < 78
    requires RewriteStep(t, pos).Ok?
    ensures ScanShaped(RewriteStep(t, pos).value) && SettledBefore(RewriteStep(t, pos).value, pos + 1)
  {
    var p := t.ids[pos];
    var x := if HasFlag(p, FLAG_DIP_YX) then 21 else 20;
    InsertShape(t, pos + 1, x, StressAt(t, pos), 0, pos + 1);
    UwChJShape(Insert(t, pos + 1, x, StressAt(t, pos), 0), p, pos);
  }

  /** For UL, UM and UN the step is the AX rule with L*, M* or N*. */
  lemma SyllabicStep(t: Tokens, pos: nat)
    requires Aligned(t) && pos + 1 < |t.ids| && t.ids[pos] in {78, 79, 80}
    ensures RewriteStep(t, pos) == Ok(AxRule(t, pos, SyllabicSuffix(t.ids[pos])))
  {
    assert !HasFlag(78, FLAG_DIPTHONG) && !HasFlag(79, FLAG_DIPTHONG) && !HasFlag(80, FLAG_DIPTHONG);
  }

  lemma SyllabicShape(t: Tokens, pos: nat, suffix: int)
    requires ScanShaped(t) && pos + 1 < |t.ids| && SettledBefore(t, pos) && 0 <= suffix < 78
    ensures ScanShaped(AxRule(t, pos, suffix)) && SettledBefore(AxRule(t, pos, suffix), pos + 1)
  {
    PutIdShape(t, pos, 13, pos + 1);
    InsertShape(PutId(t, pos, 13), pos + 1, suffix, StressAt(t, pos), 0, pos + 1);
  }

  lemma GlottalShape(t: Tokens, pos: nat)
    requires ScanShaped(t) && pos + 1 < |t.ids| && SettledBefore(t, pos + 1)
    ensures ScanShaped(GlottalStopRule(t, pos)) && SettledBefore(GlottalStopRule(t, pos), pos + 1)
  {
    if GlottalStopRule(t, pos) != t {
      InsertShape(t, pos + 2, 31, 0, 0, pos + 1);
    }
  }

  lemma VowelStepShape(t: Tokens, pos: nat)
    requires ScanShaped(t) && pos + 1 < |t.ids| && SettledBefore(t, pos) && !(t.ids[pos] in {78, 79, 80})
    requires !HasFlag(t.ids[pos], FLAG_DIPTHONG) && HasFlag(t.ids[pos], FLAG_VOWEL) && StressAt(t, pos) != 0
    ensures RewriteStep(t, pos).Ok?
    ensures ScanShaped(RewriteStep(t, pos).value) && SettledBefore(RewriteStep(t, pos).value, pos + 1)
  {
    GlottalShape(t, pos);
  }

  lemma ConsonantStepShape(t: Tokens, pos: nat)
    requires ScanShaped(t) && pos + 1 < |t.ids| && SettledBefore(t, pos) && !(t.ids[pos] in {0, 78, 79, 80})
    requires !HasFlag(t.ids[pos], FLAG_DIPTHONG) && !(HasFlag(t.ids[pos], FLAG_VOWEL) && StressAt(t, pos) != 0)
    requires RewriteStep(t, pos).Ok?
    ensures ScanShaped(RewriteStep(t, pos).value) && SettledBefore(RewriteStep(t, pos).value, pos + 1)
  {
    ConsonantShape(t, pos, if pos == 0 then END else At(t, pos - 1));
  }

  lemma StepShape(t: Tokens, pos: nat)
    requires ScanShaped(t) && pos + 1 < |t.ids| && SettledBefore(t, pos) && RewriteStep(t, pos).Ok?
    ensures ScanShaped(RewriteStep(t, pos).value) && SettledBefore(RewriteStep(t, pos).value, pos + 1)
  {
    var p := t.ids[pos];
    if p in {78, 79, 80} {
      SyllabicStep(t, pos);
      SyllabicShape(t, pos, SyllabicSuffix(p));
    } else if p == 0 {
    } else if HasFlag(p, FLAG_DIPTHONG) {
      DiphthongShape(t, pos);
    } else if HasFlag(p, FLAG_VOWEL) && StressAt(t, pos) != 0 {
      VowelStepShape(t, pos);
    } else {
      ConsonantStepShape(t, pos);
    }
  }

  lemma {:induction false} RewrittenShape(t: Tokens, pos: nat, r: Tokens)
    requires ScanShaped(t) && pos < |t.ids| && SettledBefore(t, pos) && Rewritten(t, pos) == Ok(r)
    ensures ScanShaped(r) && SettledBefore(r, |r.ids| - 1)
    decreases Weight(t.ids[pos..])
  {
    if At(t, pos) == END {
      assert pos == |t.ids| - 1 && r == t;
    } else {
      RewrittenUnfolds(t, pos);
      var t' := RewriteStep(t, pos).value;
      StepShape(t, pos);
      RewrittenShape(t', pos + 1, r);
    }
  }

  /** After the pass, every phoneme before END is below UL (78): no UL, UM or UN is left. */
  lemma NoSyllabicsRemain(t: Tokens)
    requires ScanShaped(t) && Rewritten(t, 0).Ok?
    ensures ScanShaped(Rewritten(t, 0).value)
    ensures forall k :: 0 <= k < |Rewritten(t, 0).value.ids| - 1 ==> 0 <= Rewritten(t, 0).value.ids[k] < 78
  {
    RewrittenShape(t, 0, Rewritten(t, 0).value);
  }
}
