/**
 * The three passes after the length adjustment: stop consonants are
 * prolonged by their two closure phonemes, the store is cut at the first id
 * above 80, and `InsertBreath` puts a BREAK after punctuation and, when the
 * running length grows too large, a glottal stop and a BREAK at the last pause.
 */
module Breath {
  import opened Outcomes
  import opened Phonemes
  import opened Store

  // ---------------------------------------------------------------------
  // ProlongPlosiveStopConsonantsCode41240

  /**
   * A plosive is left alone when its next phoneme other than a pause is not
   * END and has flag 0x0008 or is /H (36) or /X (37).
   */
  predicate Unreleased(t: Tokens, pos: nat)
    requires Aligned(t) && pos + 1 < |t.ids|
  {
    var next := At(t, SkipPauses(t, pos + 1));
    next != END && (HasFlag(next, FLAG_0008) || next == 36 || next == 37)
  }

  /** Whether the pass inserts the two closure phonemes after pos. */
  predicate Prolongs(t: Tokens, pos: nat)
    requires Aligned(t) && pos + 1 < |t.ids|
  {
    var index := At(t, pos);
    HasFlag(index, FLAG_STOPCONS) && !(HasFlag(index, FLAG_PLOSIVE) && Unreleased(t, pos))
  }

  /**
   * The two table entries after the stop consonant at pos go right behind
   * it, each with its stress and with its own unstressed length.
   */
  function Closures(t: Tokens, pos: nat): (r: Tokens)
    requires Aligned(t) && pos + 1 < |t.ids|
    ensures Aligned(r) && |r.ids| == |t.ids| + 2
  {
    var p := t.ids[pos];
    var s := StressAt(t, pos);
    Tokens(t.ids[..pos + 1] + [p + 1, p + 2] + t.ids[pos + 1..],
           t.lengths[..pos + 1] + [UnstressedLength(p + 1), UnstressedLength(p + 2)] + t.lengths[pos + 1..],
           t.stresses[..pos + 1] + [s, s] + t.stresses[pos + 1..])
  }

  lemma InsertTwice(a: seq<int>, pos: nat, x: int, y: int)
    requires pos < |a|
    ensures var b := a[..pos + 1] + [x] + a[pos + 1..];
      b[..pos + 2] + [y] + b[pos + 2..] == a[..pos + 1] + [x, y] + a[pos + 1..]
  {
    var b := a[..pos + 1] + [x] + a[pos + 1..];
    assert b[..pos + 2] == a[..pos + 1] + [x];
    assert b[pos + 2..] == a[pos + 1..];
  }

  /** The two `insertPhoneme` calls of the pass build exactly these closures. */
  lemma ClosuresAreInserts(t: Tokens, pos: nat, p: int, s: int)
    requires Aligned(t) && pos + 1 < |t.ids| && p == t.ids[pos] && s == StressAt(t, pos)
    ensures Insert(Insert(t, pos + 1, p + 1, s, UnstressedLength(p + 1)), pos + 2, p + 2, s, UnstressedLength(p + 2))
        == Closures(t, pos)
  {
    InsertTwice(t.ids, pos, p + 1, p + 2);
    InsertTwice(t.lengths, pos, UnstressedLength(p + 1), UnstressedLength(p + 2));
    InsertTwice(t.stresses, pos, s, s);
  }

  /** The pass from pos on; the two inserted phonemes are stepped over. */
  function ProlongFrom(t: Tokens, pos: nat): (r: Tokens)
    requires Aligned(t) && pos < |t.ids|
    ensures Aligned(r) && |r.ids| >= |t.ids|
    decreases |t.ids| - pos
  {
    if At(t, pos) == END then t
    else if Prolongs(t, pos) then ProlongFrom(Closures(t, pos), pos + 3)
    else ProlongFrom(t, pos + 1)
  }

  /** `do { next = getPhoneme(++X) } while (next === 0)`, started at X = pos. */
  method NextNonPause(u: Utterance, pos: nat) returns (next: int)
    requires u.Valid() && pos + 1 < |u.ids|
    ensures next == At(u.Contents(), SkipPauses(u.Contents(), pos + 1))
  {
    var x := pos + 1;
    next := u.Phoneme(x);
    while next == 0
      invariant pos + 1 <= x <= SkipPauses(u.Contents(), pos + 1) && next == u.Phoneme(x)
      decreases SkipPauses(u.Contents(), pos + 1) - x
    {
      x := x + 1;
      next := u.Phoneme(x);
    }
  }

  /** The two `insertPhoneme` calls behind the stop consonant at pos. */
  method InsertClosures(u: Utterance, pos: nat)
    requires u.Valid() && pos + 1 < |u.ids|
    modifies u
    ensures u.Valid() && u.Contents() == Closures(old(u.Contents()), pos)
  {
    ghost var c := u.Contents();
    var index := u.ids[pos];
    var stress := u.Stress(pos);
    ClosuresAreInserts(c, pos, index, stress);
    ghost var c1 := Insert(c, pos + 1, index + 1, stress, UnstressedLength(index + 1));
    u.InsertPhoneme(pos + 1, index + 1, stress, UnstressedLength(index + 1));
    assert u.Contents() == c1;
    assert u.Stress(pos) == stress;
    u.InsertPhoneme(pos + 2, index + 2, u.Stress(pos), UnstressedLength(index + 2));
  }

  method Prolong(u: Utterance)
    requires u.Valid()
    modifies u
    ensures u.Valid() && u.Contents() == ProlongFrom(old(u.Contents()), 0)
  {
    ghost var t := u.Contents();
    var pos: nat := 0;
    while u.Phoneme(pos) != END
      invariant u.Valid() && pos < |u.ids|
      invariant ProlongFrom(u.Contents(), pos) == ProlongFrom(t, 0)
      decreases |u.ids| - pos
    {
      var index := u.Phoneme(pos);
      if !HasFlag(index, FLAG_STOPCONS) {
        pos := pos + 1;
        continue;
      }
      if HasFlag(index, FLAG_PLOSIVE) {
        var next := NextNonPause(u, pos);
        if next != END && (HasFlag(next, FLAG_0008) || next == 36 || next == 37) {
          pos := pos + 1;
          continue;
        }
      }
      assert Prolongs(u.Contents(), pos);
      InsertClosures(u, pos);
      pos := pos + 3;
    }
  }

  /**
   * A prolonged stop consonant p is followed by p + 1 and p + 2 with its
   * stress and their unstressed table lengths; everything up to it stays and
   * everything after it moves two places right.
   */
  lemma ClosuresFollow(t: Tokens, pos: nat)
    requires Aligned(t) && pos + 1 < |t.ids|
    ensures var r := Closures(t, pos); var p := t.ids[pos];
      && r.ids[pos + 1] == p + 1 && r.ids[pos + 2] == p + 2
      && r.stresses[pos + 1] == t.stresses[pos] && r.stresses[pos + 2] == t.stresses[pos]
      && r.lengths[pos + 1] == UnstressedLength(p + 1) && r.lengths[pos + 2] == UnstressedLength(p + 2)
      && (forall k :: 0 <= k <= pos ==>
            r.ids[k] == t.ids[k] && r.lengths[k] == t.lengths[k] && r.stresses[k] == t.stresses[k])
      && (forall k :: pos + 2 < k < |r.ids| ==>
            r.ids[k] == t.ids[k - 2] && r.lengths[k] == t.lengths[k - 2] && r.stresses[k] == t.stresses[k - 2])
  {
  }

  lemma ClosuresShaped(t: Tokens, pos: nat)
    requires ScanShaped(t) && pos + 1 < |t.ids| && HasFlag(t.ids[pos], FLAG_STOPCONS)
    ensures ScanShaped(Closures(t, pos))
  {
    StopConsonantIds(t.ids[pos]);
    ClosuresFollow(t, pos);
  }

  /** The pass keeps table ids before the last slot: a stop consonant is at most KX (77), so p + 2 is still a table id. */
  lemma {:induction false} ProlongShaped(t: Tokens, pos: nat)
    requires ScanShaped(t) && pos < |t.ids|
    ensures ScanShaped(ProlongFrom(t, pos))
    decreases |t.ids| - pos
  {
    if At(t, pos) != END {
      if Prolongs(t, pos) {
        ClosuresShaped(t, pos);
        ProlongShaped(Closures(t, pos), pos + 3);
      } else {
        ProlongShaped(t, pos + 1);
      }
    }
  }

  /** Ids in 0..limit - 1 before the last slot. */
  predicate IdsBelow(t: Tokens, limit: int)
  {
    Aligned(t) && forall k :: 0 <= k < |t.ids| - 1 ==> 0 <= t.ids[k] < limit
  }

  /**
   * With no UL, UM or UN left the pass keeps every id before the last slot
   * below UN (80): a stop consonant is at most 77. The last slot stays where
   * it was.
   */
  lemma {:induction false} ProlongBelow(t: Tokens, pos: nat)
    requires IdsBelow(t, 80) && pos < |t.ids|
    ensures IdsBelow(ProlongFrom(t, pos), 80) && Last(ProlongFrom(t, pos).ids) == Last(t.ids)
    decreases |t.ids| - pos
  {
    if At(t, pos) != END {
      if Prolongs(t, pos) {
        StopConsonantIds(t.ids[pos]);
        ClosuresFollow(t, pos);
        var c := Closures(t, pos);
        assert IdsBelow(c, 80);
        assert Last(c.ids) == Last(t.ids);
        ProlongBelow(c, pos + 3);
      } else {
        ProlongBelow(t, pos + 1);
      }
    }
  }

  // ---------------------------------------------------------------------
  // The cut at the first id above 80

  /** The first position from i on whose id is above 80. */
  function FirstAbove(ids: seq<int>, i: nat): (r: Option<nat>)
    requires i <= |ids|
    ensures r.None? ==> forall k :: i <= k < |ids| ==> ids[k] <= 80
    ensures r.Some? ==> i <= r.value < |ids| && ids[r.value] > 80
    ensures r.Some? ==> forall k :: i <= k < r.value ==> ids[k] <= 80
    decreases |ids| - i
  {
    if i == |ids| then None else if ids[i] > 80 then Some(i) else FirstAbove(ids, i + 1)
  }

  /** The first id above 80 becomes END, and the loop stops there. */
  function Truncated(t: Tokens): (r: Tokens)
    requires Aligned(t)
    ensures Aligned(r) && |r.ids| == |t.ids| && r.lengths == t.lengths && r.stresses == t.stresses
  {
    match FirstAbove(t.ids, 0)
    case Some(k) => t.(ids := t.ids[k := END])
    case None => t
  }

  method Truncate(u: Utterance)
    requires u.Valid()
    modifies u
    ensures u.Valid() && u.Contents() == Truncated(old(u.Contents()))
  {
    var i := 0;
    while i < |u.ids|
      invariant i <= |u.ids| && u.Contents() == old(u.Contents())
      invariant FirstAbove(u.ids, i) == FirstAbove(u.ids, 0)
    {
      if u.ids[i] > 80 {
        u.ids := u.ids[i := END];
        return;
      }
      i := i + 1;
    }
  }

  /** After the cut every id before the first END is at most 80, and only the cut position changed. */
  lemma TruncatedIds(t: Tokens)
    requires Aligned(t)
    ensures var r := Truncated(t);
      && Aligned(r) && r.lengths == t.lengths && r.stresses == t.stresses
      && (forall k :: 0 <= k < FirstEnd(r) ==> r.ids[k] <= 80)
      && (forall k :: 0 <= k < |t.ids| ==> r.ids[k] == t.ids[k] || r.ids[k] == END)
  {
    var r := Truncated(t);
    match FirstAbove(t.ids, 0)
    case Some(c) =>
      assert r.ids[c] == END;
      assert FirstEnd(r) <= c;
    case None =>
  }

  /** A second cut changes nothing. */
  lemma TruncateIdempotent(t: Tokens)
    requires Aligned(t)
    ensures Truncated(Truncated(t)) == Truncated(t)
  {
    var r := Truncated(t);
    match FirstAbove(t.ids, 0)
    case Some(c) =>
      assert FirstAbove(r.ids, 0) == Some(c) by {
        assert forall k :: 0 <= k < c ==> r.ids[k] == t.ids[k];
        FirstAboveSame(t.ids, r.ids, 0, c);
      }
    case None =>
  }

  lemma {:induction false} FirstAboveSame(a: seq<int>, b: seq<int>, i: nat, c: nat)
    requires i <= c < |a| == |b| && a[c] > 80 && b[c] > 80
    requires forall k :: i <= k < c ==> a[k] == b[k] && a[k] <= 80
    ensures FirstAbove(b, i) == Some(c)
    decreases c - i
  {
    if i < c {
      FirstAboveSame(a, b, i + 1, c);
    }
  }

  /**
   * On a store with table ids before its last slot the cut can only hit the
   * last slot, so nothing the later passes read changes; when that slot holds
   * END (as the scan leaves it) the store is unchanged.
   */
  lemma TruncateReadsSame(t: Tokens)
    requires ScanShaped(t)
    ensures |Truncated(t).ids| == |t.ids|
    ensures forall k :: 0 <= k <= |t.ids| ==> At(Truncated(t), k) == At(t, k)
    ensures t.ids[|t.ids| - 1] == END ==> Truncated(t) == t
  {
    match FirstAbove(t.ids, 0)
    case Some(c) =>
      assert c == |t.ids| - 1;
    case None =>
  }

  // ---------------------------------------------------------------------
  // InsertBreath

  /** The running length at which a breath is taken. */
  const BREATH_LENGTH: int := 232
  /** Q*, the glottal stop written at the pause where the breath goes. */
  const GLOTTAL_STOP: int := 31
  /** `mem54` before any pause has been seen. */
  const NO_PAUSE: nat := 255

  /** The loop's variables: the store, the cursor, the running length and the last pause seen (`mem54`). */
  datatype Walk = Walk(t: Tokens, pos: nat, len: int, mem54: nat)

  /** How a run ends: the store, and whether the loop reached END within its step budget. */
  datatype Run = Run(t: Tokens, finished: bool)

  /**
   * `setPhoneme(m, 31)` then `setLength(m, 4)`. The call site hands the pass
   * `getStress` where it expects `setStress`, so the stress write that follows
   * is a read and the stress at m stays.
   */
  function Glottal(t: Tokens, m: nat): (r: Tokens)
    requires Aligned(t)
    ensures Aligned(r) && |r.ids| == if m < |t.ids| then |t.ids| else m + 1
  {
    var t1 := PutId(t, m, GLOTTAL_STOP);
    t1.(lengths := t1.lengths[m := 4])
  }

  /** The length write at the pause cannot throw: 4 has bit 7 clear and m is inside the store by then. */
  lemma GlottalIsSetLength(t: Tokens, m: nat)
    requires Aligned(t)
    ensures PutLength(PutId(t, m, GLOTTAL_STOP), m, 4) == Ok(Glottal(t, m))
  {
  }

  /** One turn of the loop at a position that does not read END. */
  function BreathStep(w: Walk): (r: Walk)
    requires Aligned(w.t) && w.pos < |w.t.ids| && At(w.t, w.pos) != END
    ensures Aligned(r.t) && r.pos < |r.t.ids|
  {
    var t := w.t;
    var pos := w.pos;
    var index := At(t, pos);
    var len := w.len + LengthAt(t, pos);
    if len < BREATH_LENGTH then
      if HasFlag(index, FLAG_PUNCT) then Walk(Insert(t, pos + 1, BREAK, 0, 0), pos + 1, 0, w.mem54)
      else Walk(t, pos + 1, len, if index == 0 then pos else w.mem54)
    else
      Walk(Insert(Glottal(t, w.mem54), w.mem54 + 1, BREAK, 0, 0), w.mem54 + 1, 0, w.mem54)
  }

  /** The loop from w on, with at most fuel turns. */
  function BreathFrom(w: Walk, fuel: nat): (r: Run)
    requires Aligned(w.t) && w.pos < |w.t.ids|
    ensures Aligned(r.t)
    decreases fuel
  {
    if At(w.t, w.pos) == END then Run(w.t, true)
    else if fuel == 0 then Run(w.t, false)
    else BreathFrom(BreathStep(w), fuel - 1)
  }

  /** The whole pass with at most fuel turns of its loop. */
  function Breathed(t: Tokens, fuel: nat): (r: Run)
    requires Aligned(t)
    ensures Aligned(r.t)
  {
    BreathFrom(Walk(t, 0, 0, NO_PAUSE), fuel)
  }

  /** The pass, stopped after fuel turns; finished says whether it reached END. */
  method InsertBreath(u: Utterance, fuel: nat) returns (finished: bool)
    requires u.Valid()
    modifies u
    ensures u.Valid() && Run(u.Contents(), finished) == Breathed(old(u.Contents()), fuel)
  {
    ghost var t := u.Contents();
    var mem54: nat := NO_PAUSE;
    var len := 0;
    var pos: nat := 0;
    var steps := fuel;
    while u.Phoneme(pos) != END
      invariant u.Valid() && pos < |u.ids|
      invariant BreathFrom(Walk(u.Contents(), pos, len, mem54), steps) == Breathed(t, fuel)
      decreases steps
    {
      if steps == 0 {
        return false;
      }
      BreathFromStep(Walk(u.Contents(), pos, len, mem54), steps);
      steps := steps - 1;
      pos, len, mem54 := BreathTurn(u, pos, len, mem54);
    }
    return true;
  }

  /** The ids the breath pass leaves: holes, table ids below UN, BREAK and END. */
  predicate OutputIds(t: Tokens)
  {
    Aligned(t) && forall k :: 0 <= k < |t.ids| ==>
      t.ids[k] == HOLE || 0 <= t.ids[k] < 80 || t.ids[k] == BREAK || t.ids[k] == END
  }

  /** A turn writes Q* and BREAK and pads with holes, so it keeps `OutputIds`. */
  lemma BreathStepIds(w: Walk)
    requires OutputIds(w.t) && w.pos < |w.t.ids| && At(w.t, w.pos) != END
    ensures OutputIds(BreathStep(w).t)
  {
    var len := w.len + LengthAt(w.t, w.pos);
    if len >= BREATH_LENGTH {
      var g := Glottal(w.t, w.mem54);
      assert OutputIds(g);
    }
  }

  lemma {:induction false} BreathIds(w: Walk, fuel: nat)
    requires OutputIds(w.t) && w.pos < |w.t.ids|
    ensures OutputIds(BreathFrom(w, fuel).t)
    decreases fuel
  {
    if At(w.t, w.pos) != END && fuel > 0 {
      BreathStepIds(w);
      BreathIds(BreathStep(w), fuel - 1);
    }
  }

  /** A turn of the loop with budget left is the step, then the rest of the loop. */
  lemma BreathFromStep(w: Walk, fuel: nat)
    requires Aligned(w.t) && w.pos < |w.t.ids| && At(w.t, w.pos) != END && fuel > 0
    ensures BreathFrom(w, fuel) == BreathFrom(BreathStep(w), fuel - 1)
  {
  }

  /** One turn of the loop of `InsertBreath` at a position that does not read END. */
  method BreathTurn(u: Utterance, pos: nat, len: int, mem54: nat) returns (pos': nat, len': int, mem54': nat)
    requires u.Valid() && pos < |u.ids| && At(u.Contents(), pos) != END
    modifies u
    ensures u.Valid() && pos' < |u.ids|
    ensures Walk(u.Contents(), pos', len', mem54') == BreathStep(Walk(old(u.Contents()), pos, len, mem54))
  {
    var index := u.Phoneme(pos);
    var sum := len + u.Length(pos);
    if sum >= BREATH_LENGTH {
      pos', len', mem54' := BreathAtPauseTurn(u, pos, len, mem54);
    } else if HasFlag(index, FLAG_PUNCT) {
      pos', len', mem54' := PunctuationTurn(u, pos, len, mem54);
    } else {
      pos', len', mem54' := PlainTurn(u, pos, len, mem54);
    }
  }

  /** Punctuation below the limit: a BREAK goes after it. */
  method PunctuationTurn(u: Utterance, pos: nat, len: int, mem54: nat) returns (pos': nat, len': int, mem54': nat)
    requires u.Valid() && pos < |u.ids| && At(u.Contents(), pos) != END
    requires len + LengthAt(u.Contents(), pos) < BREATH_LENGTH && HasFlag(At(u.Contents(), pos), FLAG_PUNCT)
    modifies u
    ensures u.Valid() && pos' < |u.ids|
    ensures Walk(u.Contents(), pos', len', mem54') == BreathStep(Walk(old(u.Contents()), pos, len, mem54))
  {
    PunctuationStep(Walk(u.Contents(), pos, len, mem54));
    u.InsertPhoneme(pos + 1, BREAK, 0, 0);
    pos', len', mem54' := pos + 1, 0, mem54;
  }

  /** Any other token below the limit: the length grows, and a pause is remembered. */
  method PlainTurn(u: Utterance, pos: nat, len: int, mem54: nat) returns (pos': nat, len': int, mem54': nat)
    requires u.Valid() && pos < |u.ids| && At(u.Contents(), pos) != END
    requires len + LengthAt(u.Contents(), pos) < BREATH_LENGTH && !HasFlag(At(u.Contents(), pos), FLAG_PUNCT)
    modifies u
    ensures u.Valid() && pos' < |u.ids|
    ensures Walk(u.Contents(), pos', len', mem54') == BreathStep(Walk(old(u.Contents()), pos, len, mem54))
  {
    PlainStep(Walk(u.Contents(), pos, len, mem54));
    var index := u.Phoneme(pos);
    len' := len + u.Length(pos);
    mem54' := mem54;
    if index == 0 {
      mem54' := pos;
    }
    pos' := pos + 1;
  }

  /** The limit reached: the breath goes at the last pause. */
  method BreathAtPauseTurn(u: Utterance, pos: nat, len: int, mem54: nat) returns (pos': nat, len': int, mem54': nat)
    requires u.Valid() && pos < |u.ids| && At(u.Contents(), pos) != END
    requires len + LengthAt(u.Contents(), pos) >= BREATH_LENGTH
    modifies u
    ensures u.Valid() && pos' < |u.ids|
    ensures Walk(u.Contents(), pos', len', mem54') == BreathStep(Walk(old(u.Contents()), pos, len, mem54))
  {
    BreathStepAtPause(Walk(u.Contents(), pos, len, mem54));
    TakeBreath(u, mem54);
    pos', len', mem54' := mem54 + 1, 0, mem54;
  }

  lemma PunctuationStep(w: Walk)
    requires Aligned(w.t) && w.pos < |w.t.ids| && At(w.t, w.pos) != END
    requires w.len + LengthAt(w.t, w.pos) < BREATH_LENGTH && HasFlag(At(w.t, w.pos), FLAG_PUNCT)
    ensures BreathStep(w) == Walk(Insert(w.t, w.pos + 1, BREAK, 0, 0), w.pos + 1, 0, w.mem54)
  {
  }

  lemma PlainStep(w: Walk)
    requires Aligned(w.t) && w.pos < |w.t.ids| && At(w.t, w.pos) != END
    requires w.len + LengthAt(w.t, w.pos) < BREATH_LENGTH && !HasFlag(At(w.t, w.pos), FLAG_PUNCT)
    ensures BreathStep(w) ==
      Walk(w.t, w.pos + 1, w.len + LengthAt(w.t, w.pos), if At(w.t, w.pos) == 0 then w.pos else w.mem54)
  {
  }

  lemma BreathStepAtPause(w: Walk)
    requires Aligned(w.t) && w.pos < |w.t.ids| && At(w.t, w.pos) != END
    requires w.len + LengthAt(w.t, w.pos) >= BREATH_LENGTH
    ensures BreathStep(w) == Walk(Insert(Glottal(w.t, w.mem54), w.mem54 + 1, BREAK, 0, 0), w.mem54 + 1, 0, w.mem54)
  {
  }

  /** The glottal stop and the BREAK at the last pause m. */
  method TakeBreath(u: Utterance, m: nat)
    requires u.Valid()
    modifies u
    ensures u.Valid() && u.Contents() == Insert(Glottal(old(u.Contents()), m), m + 1, BREAK, 0, 0)
  {
    GlottalIsSetLength(u.Contents(), m);
    u.SetPhoneme(m, GLOTTAL_STOP);
    var fault := u.SetLength(m, 4);
    assert fault == None;
    u.InsertPhoneme(m + 1, BREAK, 0, 0);
  }

  /**
   * Punctuation while the running length stays below 232: a BREAK with
   * length 0 and stress 0 goes right after it, the length restarts at 0 and
   * the walk goes on at the BREAK.
   */
  lemma PunctuationGetsBreak(w: Walk)
    requires Aligned(w.t) && w.pos < |w.t.ids| && At(w.t, w.pos) != END
    requires HasFlag(w.t.ids[w.pos], FLAG_PUNCT) && w.len + LengthAt(w.t, w.pos) < BREATH_LENGTH
    ensures var r := BreathStep(w); var t := w.t; var pos := w.pos;
      && r.pos == pos + 1 && r.len == 0 && r.mem54 == w.mem54 && |r.t.ids| == |t.ids| + 1
      && r.t.ids[pos + 1] == BREAK && r.t.lengths[pos + 1] == 0 && r.t.stresses[pos + 1] == 0
      && (forall k :: 0 <= k <= pos ==>
            r.t.ids[k] == t.ids[k] && r.t.lengths[k] == t.lengths[k] && r.t.stresses[k] == t.stresses[k])
      && (forall k :: pos + 1 < k < |r.t.ids| ==>
            r.t.ids[k] == t.ids[k - 1] && r.t.lengths[k] == t.lengths[k - 1] && r.t.stresses[k] == t.stresses[k - 1])
  {
  }

  /** A pause (id 0) while the length stays below 232 is remembered; the store does not change. */
  lemma PauseRemembered(w: Walk)
    requires Aligned(w.t) && w.pos < |w.t.ids| && At(w.t, w.pos) == 0
    requires w.len + LengthAt(w.t, w.pos) < BREATH_LENGTH
    ensures BreathStep(w) == Walk(w.t, w.pos + 1, w.len + LengthAt(w.t, w.pos), w.pos)
  {
  }

  /**
   * When the running length reaches 232, the last pause m becomes Q* with
   * length 4, its stress stays, a BREAK follows it, and the walk restarts
   * right after m with length 0. A store shorter than m grows with holes.
   */
  lemma BreathAtPause(w: Walk)
    requires Aligned(w.t) && w.pos < |w.t.ids| && At(w.t, w.pos) != END
    requires w.len + LengthAt(w.t, w.pos) >= BREATH_LENGTH
    ensures var r := BreathStep(w); var t := w.t; var m := w.mem54;
      && r.pos == m + 1 && r.len == 0 && r.mem54 == m
      && r.t.ids[m] == GLOTTAL_STOP && r.t.lengths[m] == 4 && StressAt(r.t, m) == StressAt(t, m)
      && r.t.ids[m + 1] == BREAK && r.t.lengths[m + 1] == 0 && r.t.stresses[m + 1] == 0
      && (forall k :: 0 <= k < m && k < |t.ids| ==>
            r.t.ids[k] == t.ids[k] && r.t.lengths[k] == t.lengths[k] && r.t.stresses[k] == t.stresses[k])
      && (forall k :: |t.ids| <= k < m ==> r.t.ids[k] == HOLE)
  {
    var m := w.mem54;
    var g := Glottal(w.t, m);
    assert g.ids[m] == GLOTTAL_STOP && g.lengths[m] == 4 && StressAt(g, m) == StressAt(w.t, m);
  }

  // ---------------------------------------------------------------------
  // The loop need not end

  /**
   * The store after k breaths taken at a pause followed by one token of
   * length 240: Q*, k BREAKs, then AA (9) and the END slot.
   */
  function Stalled(k: nat): (r: Tokens)
    ensures Aligned(r) && |r.ids| == k + 3
  {
    Tokens([GLOTTAL_STOP] + Fill(k, BREAK) + [9, END], [4] + Fill(k, 0) + [240, 0], Fill(k + 3, 0))
  }

  /** A pause, then AA with length 240, then the END slot. */
  function PauseThenLong(): (r: Tokens)
    ensures Aligned(r)
  {
    Tokens([0, 9, END], [0, 240, 0], [0, 0, 0])
  }

  /** The slots of a stalled store: Q* at 0, BREAKs of length 0 up to k, then AA of length 240. */
  lemma StalledAt(k: nat, j: nat)
    requires 1 <= j <= k + 1
    ensures At(Stalled(k), j) == (if j <= k then BREAK else 9)
    ensures LengthAt(Stalled(k), j) == (if j <= k then 0 else 240)
  {
    var s := Stalled(k);
    assert s.ids[j] == (if j <= k then BREAK else 9) && s.lengths[j] == (if j <= k then 0 else 240) by {
      var f, g := Fill(k, BREAK), Fill(k, 0);
      assert s.ids == [GLOTTAL_STOP] + f + [9, END] && s.lengths == [4] + g + [240, 0];
      if j <= k {
        assert s.ids[j] == f[j - 1] && s.lengths[j] == g[j - 1];
      }
    }
  }

  /** `[v]` then n copies of v is n + 1 copies of v. */
  lemma FillCons(n: nat, v: int)
    ensures [v] + Fill(n, v) == Fill(n + 1, v)
  {
    var a, b := [v] + Fill(n, v), Fill(n + 1, v);
    assert forall i :: 0 <= i < |a| ==> a[i] == b[i];
  }

  /** An insertion at 1 puts the new token right after the first one. */
  lemma InsertAtOne(h1: int, h2: int, h3: int, r1: seq<int>, r2: seq<int>, r3: seq<int>, v: int, st: int, len: int)
    requires |r1| == |r2| == |r3|
    ensures Insert(Tokens([h1] + r1, [h2] + r2, [h3] + r3), 1, v, st, len)
      == Tokens([h1] + ([v] + r1), [h2] + ([len] + r2), [h3] + ([st] + r3))
  {
    var a, b, c := [h1] + r1, [h2] + r2, [h3] + r3;
    assert a[..1] == [h1] && a[1..] == r1;
    assert b[..1] == [h2] && b[1..] == r2;
    assert c[..1] == [h3] && c[1..] == r3;
  }

  /** The Q* already stands at slot 0 of a stalled store, so the breath's write there changes nothing. */
  lemma GlottalKeepsStalled(k: nat)
    ensures Glottal(Stalled(k), 0) == Stalled(k)
  {
    var s := Stalled(k);
    assert PutId(s, 0, GLOTTAL_STOP).ids == s.ids;
  }

  lemma InsertStalled(k: nat)
    ensures Insert(Stalled(k), 1, BREAK, 0, 0) == Stalled(k + 1)
  {
    var f, g, z := Fill(k, BREAK), Fill(k, 0), Fill(k + 2, 0);
    assert Stalled(k) == Tokens([GLOTTAL_STOP] + (f + [9, END]), [4] + (g + [240, 0]), [0] + z);
    InsertAtOne(GLOTTAL_STOP, 4, 0, f + [9, END], g + [240, 0], z, BREAK, 0, 0);
    FillCons(k, BREAK);
    FillCons(k, 0);
    FillCons(k + 2, 0);
    FillCons(k + 3, 0);
    assert [BREAK] + (f + [9, END]) == Fill(k + 1, BREAK) + [9, END];
    assert [0] + (g + [240, 0]) == Fill(k + 1, 0) + [240, 0];
  }

  lemma StalledGrows(k: nat)
    ensures Insert(Glottal(Stalled(k), 0), 1, BREAK, 0, 0) == Stalled(k + 1)
  {
    GlottalKeepsStalled(k);
    InsertStalled(k);
  }

  /** One turn on a stalled store: over a BREAK, or at the AA a breath that adds one BREAK more. */
  lemma StalledStep(k: nat, j: nat)
    requires 1 <= j <= k + 1
    ensures At(Stalled(k), j) != END
    ensures BreathStep(Walk(Stalled(k), j, 0, 0)) ==
      if j <= k then Walk(Stalled(k), j + 1, 0, 0) else Walk(Stalled(k + 1), 1, 0, 0)
  {
    var w := Walk(Stalled(k), j, 0, 0);
    StalledAt(k, j);
    if j <= k {
      PlainStep(w);
    } else {
      BreathStepAtPause(w);
      StalledGrows(k);
    }
  }

  /** The run from a stalled slot: stopped at once without a budget, else one turn and the rest. */
  lemma StalledRun(k: nat, j: nat, fuel: nat)
    requires 1 <= j <= k + 1
    ensures BreathFrom(Walk(Stalled(k), j, 0, 0), fuel) ==
      if fuel == 0 then Run(Stalled(k), false)
      else if j <= k then BreathFrom(Walk(Stalled(k), j + 1, 0, 0), fuel - 1)
      else BreathFrom(Walk(Stalled(k + 1), 1, 0, 0), fuel - 1)
  {
    StalledStep(k, j);
    if fuel > 0 {
      BreathFromStep(Walk(Stalled(k), j, 0, 0), fuel);
    }
  }

  /** From any slot between the Q* and the AA, no budget is enough to reach END. */
  lemma {:induction false} StalledNeverEnds(k: nat, j: nat, fuel: nat)
    requires 1 <= j <= k + 1
    ensures !BreathFrom(Walk(Stalled(k), j, 0, 0), fuel).finished
    decreases fuel
  {
    StalledRun(k, j, fuel);
    if fuel > 0 {
      if j <= k {
        StalledNeverEnds(k, j + 1, fuel - 1);
      } else {
        StalledNeverEnds(k + 1, 1, fuel - 1);
      }
    }
  }

  /**
   * A pause followed by 232 or more length units before the next pause or
   * punctuation makes the loop go on for ever: each breath returns the walk
   * to just after the same pause, with one BREAK more, and the same tokens
   * fill the length again.
   */
  lemma BreathCanLoop(fuel: nat)
    ensures !Breathed(PauseThenLong(), fuel).finished
  {
    var t := PauseThenLong();
    var w0 := Walk(t, 0, 0, NO_PAUSE);
    assert BreathStep(w0) == Walk(t, 1, 0, 0) by {
      assert At(t, 0) == 0 && LengthAt(t, 0) == 0;
      PauseRemembered(w0);
    }
    if fuel > 0 {
      LoopAfterPause(fuel - 1);
    }
  }

  lemma LoopAfterPause(fuel: nat)
    ensures !BreathFrom(Walk(PauseThenLong(), 1, 0, 0), fuel).finished
  {
    if fuel > 0 {
      FirstBreath();
      StalledNeverEnds(1, 1, fuel - 1);
    }
  }

  lemma FirstBreath()
    ensures BreathStep(Walk(PauseThenLong(), 1, 0, 0)) == Walk(Stalled(1), 1, 0, 0)
  {
    var t := PauseThenLong();
    var g := Glottal(t, 0);
    assert g == Tokens([GLOTTAL_STOP, 9, END], [4, 240, 0], [0, 0, 0]) by {
      assert PutId(t, 0, GLOTTAL_STOP).ids == [GLOTTAL_STOP, 9, END];
    }
    var r := Insert(g, 1, BREAK, 0, 0);
    assert r.ids == Stalled(1).ids;
    assert r.lengths == Stalled(1).lengths;
    assert r.stresses == Stalled(1).stresses;
  }
}
