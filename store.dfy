/**
 * The utterance store that `Parser` keeps between its passes: three parallel
 * JavaScript arrays (phoneme ids, lengths and stresses) and the closures that
 * read, overwrite and insert into them.
 *
 * The model keeps the three arrays at one length. JavaScript reads an
 * unwritten length or stress as `undefined`, which every reader turns into 0
 * with `| 0`, so those slots hold 0 here. An unwritten phoneme id stays
 * `undefined`: it is the HOLE value, which no comparison in the passes
 * mistakes for a real id and whose flags read as 0.
 */
module Store {
  import opened Outcomes
  import opened Phonemes

  /** An array hole in the phoneme id array (`undefined`). */
  const HOLE: int := -1

  /** n copies of v. */
  function Fill(n: nat, v: int): (r: seq<int>)
    ensures |r| == n && forall k :: 0 <= k < n ==> r[k] == v
  {
    if n == 0 then [] else Fill(n - 1, v) + [v]
  }

  /** s grown with the value fill to at least n entries. */
  function Pad(s: seq<int>, n: nat, fill: int): (r: seq<int>)
    ensures |r| == if |s| < n then n else |s|
    ensures forall k :: 0 <= k < |r| ==> r[k] == if k < |s| then s[k] else fill
  {
    if |s| < n then s + Fill(n - |s|, fill) else s
  }

  /**
   * The JavaScript assignment `s[k] = v`: inside the array it overwrites one
   * entry; past the end the array grows to k + 1 entries, holes in between.
   */
  function Assign(s: seq<int>, k: nat, v: int, fill: int): (r: seq<int>)
    ensures |r| == if k < |s| then |s| else k + 1
    ensures forall j :: 0 <= j < |r| ==> r[j] == if j == k then v else if j < |s| then s[j] else fill
  {
    if k < |s| then s[k := v] else Pad(s, k, fill) + [v]
  }

  /** The three arrays, entry i of each describing the i-th token. */
  datatype Tokens = Tokens(ids: seq<int>, lengths: seq<int>, stresses: seq<int>)

  /** The arrays line up, and the last slot (the one that reads as END) exists. */
  predicate Aligned(t: Tokens)
  {
    |t.ids| == |t.lengths| == |t.stresses| && |t.ids| > 0
  }

  /**
   * `getPhoneme(pos)` where it does not throw: the last slot reads END whatever
   * it holds, the position one past it reads `undefined`.
   */
  function At(t: Tokens, pos: int): int
    requires Aligned(t) && 0 <= pos <= |t.ids|
  {
    if pos == |t.ids| - 1 then END else if pos == |t.ids| then HOLE else t.ids[pos]
  }

  /** `getPhoneme(pos)` with its bounds check. */
  function GetPhoneme(t: Tokens, pos: int): (r: Result<int>)
    requires Aligned(t)
    ensures r.Err? <==> pos < 0 || pos > |t.ids|
    ensures r.Err? ==> r.fault == OutOfBounds(pos)
    ensures r.Ok? ==> r.value == At(t, pos)
  {
    if pos < 0 || pos > |t.ids| then Err(OutOfBounds(pos)) else Ok(At(t, pos))
  }

  /** `s[pos] | 0`: a missing entry reads as 0. */
  function Get(s: seq<int>, pos: int): int
  {
    if 0 <= pos < |s| then s[pos] else 0
  }

  /** `getLength(pos)`. */
  function LengthAt(t: Tokens, pos: int): int
  {
    Get(t.lengths, pos)
  }

  /** `getStress(pos)`. */
  function StressAt(t: Tokens, pos: int): int
  {
    Get(t.stresses, pos)
  }

  /**
   * `setPhoneme(pos, v)`: one id changes, lengths and stresses stay; past the
   * end the arrays grow, with holes between the old end and pos.
   */
  function PutId(t: Tokens, pos: nat, v: int): (r: Tokens)
    requires Aligned(t)
    ensures Aligned(r) && |r.ids| == if pos < |t.ids| then |t.ids| else pos + 1
    ensures r.ids[pos] == v
    ensures forall k :: 0 <= k < |r.ids| && k != pos ==> r.ids[k] == if k < |t.ids| then t.ids[k] else HOLE
    ensures forall k :: 0 <= k < |r.ids| ==> LengthAt(r, k) == LengthAt(t, k) && StressAt(r, k) == StressAt(t, k)
  {
    var ids := Assign(t.ids, pos, v, HOLE);
    Tokens(ids, Pad(t.lengths, |ids|, 0), Pad(t.stresses, |ids|, 0))
  }

  /**
   * `setLength(pos, v)`: it throws when bit 7 of v is set, then when pos is
   * outside 0..length. A write to the slot one past the last id is dropped.
   */
  function PutLength(t: Tokens, pos: int, v: int): (r: Result<Tokens>)
    requires Aligned(t)
    ensures r.Err? <==> v % 256 >= 128 || pos < 0 || pos > |t.ids|
    ensures r.Err? ==> r.fault == if v % 256 >= 128 then LengthHasFlag80(v) else OutOfBounds(pos)
    ensures r.Ok? ==> Aligned(r.value) && r.value.ids == t.ids && r.value.stresses == t.stresses
    ensures r.Ok? ==> forall k :: 0 <= k < |t.ids| ==> LengthAt(r.value, k) == if k == pos then v else LengthAt(t, k)
  {
    if v % 256 >= 128 then Err(LengthHasFlag80(v))
    else if pos < 0 || pos > |t.ids| then Err(OutOfBounds(pos))
    else if pos == |t.ids| then Ok(t)
    else Ok(t.(lengths := t.lengths[pos := v]))
  }

  /** `setStress(pos, v)`; a write past the last slot is dropped. */
  function PutStress(t: Tokens, pos: nat, v: int): (r: Tokens)
    requires Aligned(t)
    ensures Aligned(r) && r.ids == t.ids && r.lengths == t.lengths
    ensures forall k :: 0 <= k < |t.ids| ==> StressAt(r, k) == if k == pos then v else StressAt(t, k)
  {
    if pos < |t.stresses| then t.(stresses := t.stresses[pos := v]) else t
  }

  /**
   * `insertPhoneme(pos, v, s, len)`: the entries before pos stay, (v, len, s)
   * goes to pos, and every entry from pos on moves one place right, in all
   * three arrays together. Past the end the arrays grow with holes up to pos.
   */
  function Insert(t: Tokens, pos: nat, v: int, s: int, len: int): (r: Tokens)
    requires Aligned(t)
    ensures Aligned(r) && |r.ids| == if pos <= |t.ids| then |t.ids| + 1 else pos + 1
    ensures r.ids[pos] == v && r.lengths[pos] == len && r.stresses[pos] == s
    ensures forall k :: 0 <= k < pos && k < |t.ids| ==>
      r.ids[k] == t.ids[k] && r.lengths[k] == t.lengths[k] && r.stresses[k] == t.stresses[k]
    ensures forall k :: pos < k < |r.ids| ==>
      r.ids[k] == t.ids[k - 1] && r.lengths[k] == t.lengths[k - 1] && r.stresses[k] == t.stresses[k - 1]
    ensures forall k :: |t.ids| <= k < pos ==> r.ids[k] == HOLE && r.lengths[k] == 0 && r.stresses[k] == 0
  {
    if pos <= |t.ids| then
      Tokens(t.ids[..pos] + [v] + t.ids[pos..], t.lengths[..pos] + [len] + t.lengths[pos..],
             t.stresses[..pos] + [s] + t.stresses[pos..])
    else
      Tokens(Pad(t.ids, pos, HOLE) + [v], Pad(t.lengths, pos, 0) + [len], Pad(t.stresses, pos, 0) + [s])
  }

  /** Table ids (0 to 80) in every slot before the last: what the scan hands over, and what the passes keep. */
  predicate ScanShaped(t: Tokens)
  {
    Aligned(t) && forall k :: 0 <= k < |t.ids| - 1 ==> 0 <= t.ids[k] < PHONEME_COUNT
  }

  /** The id in the last slot: END as the scan leaves it, and every pass before `InsertBreath` keeps it there. */
  function Last(ids: seq<int>): int
    requires |ids| > 0
  {
    ids[|ids| - 1]
  }

  /** The first position from pos on that reads as END (the last slot always does): where the passes stop walking. */
  function EndFrom(ids: seq<int>, pos: nat): (e: nat)
    requires pos < |ids|
    ensures pos <= e < |ids| && (e == |ids| - 1 || ids[e] == END)
    ensures forall k :: pos <= k < e ==> ids[k] != END
    decreases |ids| - pos
  {
    if pos == |ids| - 1 || ids[pos] == END then pos else EndFrom(ids, pos + 1)
  }

  /** The first position that reads as END: where every pass's walk stops. */
  function FirstEnd(t: Tokens): (e: nat)
    requires Aligned(t)
    ensures e < |t.ids| && At(t, e) == END
    ensures forall k :: 0 <= k < e ==> At(t, k) != END
  {
    EndFrom(t.ids, 0)
  }

  /** The first position from j on that is not a pause (id 0): where the passes' `do … while (phoneme === 0)` loops stop. */
  function SkipPauses(t: Tokens, j: nat): (r: nat)
    requires Aligned(t) && j < |t.ids|
    ensures j <= r < |t.ids| && At(t, r) != 0
    ensures forall k :: j <= k < r ==> At(t, k) == 0
    decreases |t.ids| - j
  {
    if At(t, j) != 0 then j else SkipPauses(t, j + 1)
  }

  /** The store the scan leaves: each scanned phoneme with length 0, then the END slot. */
  function Initial(phonemes: seq<int>, stress: seq<int>): (r: Tokens)
    requires |phonemes| == |stress|
    ensures Aligned(r) && |r.ids| == |phonemes| + 1 && r.ids[|phonemes|] == END
    ensures forall k :: 0 <= k < |phonemes| ==>
      At(r, k) == phonemes[k] && LengthAt(r, k) == 0 && StressAt(r, k) == stress[k]
  {
    Tokens(phonemes + [END], Fill(|phonemes| + 1, 0), stress + [0])
  }

  /**
   * The state of one array inside `insertPhoneme`'s loop once index i + 1 has
   * been written: entries up to i are the old ones, entries from i + 2 on are
   * the old ones moved one place right.
   */
  predicate Shifting(cur: seq<int>, orig: seq<int>, i: int)
  {
    i >= -1 && |cur| == (if i == |orig| - 1 then |orig| else |orig| + 1)
    && (forall k :: 0 <= k <= i && k < |orig| ==> cur[k] == orig[k])
    && (forall k :: i + 2 <= k < |cur| ==> cur[k] == orig[k - 1])
  }

  /** One turn of the shifting loop: `s[i + 1] = s[i]`. */
  lemma ShiftStep(cur: seq<int>, orig: seq<int>, i: int, fill: int)
    requires 0 <= i < |orig| && Shifting(cur, orig, i)
    ensures Shifting(Assign(cur, i + 1, cur[i], fill), orig, i - 1)
  {
  }

  /** After the loop, the write at pos completes the insertion. */
  lemma ShiftDone(cur: seq<int>, orig: seq<int>, i: int, pos: nat, v: int, fill: int)
    requires 0 < |orig| && i <= |orig| - 1 && (i == pos - 1 || (i == |orig| - 1 && pos >= |orig|))
    requires Shifting(cur, orig, i)
    ensures Assign(cur, pos, v, fill) ==
      if pos <= |orig| then orig[..pos] + [v] + orig[pos..] else Pad(orig, pos, fill) + [v]
  {
    var r := Assign(cur, pos, v, fill);
    if pos <= |orig| {
      var e := orig[..pos] + [v] + orig[pos..];
      assert |r| == |e|;
      forall k | 0 <= k < |r| ensures r[k] == e[k] {
        if k < pos {} else if k == pos {} else {}
      }
    } else {
      assert cur == orig;
    }
  }

  /** An insertion inside the store keeps the END slot last. */
  lemma InsertKeepsEnd(t: Tokens, pos: nat, v: int, s: int, len: int)
    requires Aligned(t) && pos < |t.ids|
    ensures var r := Insert(t, pos, v, s, len);
      |r.ids| == |t.ids| + 1 && r.ids[|r.ids| - 1] == t.ids[|t.ids| - 1]
      && forall k :: 0 <= k < pos ==> At(r, k) == At(t, k)
  {
  }

  /**
   * The store as a mutable object: `Parser` creates it, and the passes change
   * it only through these methods.
   */
  class Utterance {
    var ids: seq<int>
    var lengths: seq<int>
    var stresses: seq<int>

    function Contents(): Tokens
      reads this
    {
      Tokens(ids, lengths, stresses)
    }

    predicate Valid()
      reads this
    {
      Aligned(Contents())
    }

    /** The store after the scan: its phonemes, length 0 each, then the END slot. */
    constructor (phonemes: seq<int>, stress: seq<int>)
      requires |phonemes| == |stress|
      ensures Valid() && Contents() == Initial(phonemes, stress)
    {
      ids := phonemes + [END];
      lengths := Fill(|phonemes| + 1, 0);
      stresses := stress + [0];
    }

    /** `getPhoneme(pos)` where it does not throw. */
    function Phoneme(pos: int): int
      reads this
      requires Valid() && 0 <= pos <= |ids|
    {
      At(Contents(), pos)
    }

    /** `getStress(pos)`. */
    function Stress(pos: int): int
      reads this
    {
      Get(stresses, pos)
    }

    /** `getLength(pos)`. */
    function Length(pos: int): int
      reads this
    {
      Get(lengths, pos)
    }

    /** `insertPhoneme`: the downward shifting loop, then the three writes at pos. */
    method InsertPhoneme(pos: nat, value: int, stressValue: int, length: int)
      requires Valid()
      modifies this
      ensures Valid() && Contents() == Insert(old(Contents()), pos, value, stressValue, length)
    {
      ghost var t := Contents();
      var n := |ids|;
      var i := n - 1;
      while i >= pos
        invariant (pos - 1 <= i || i == n - 1) && i <= n - 1
        invariant Shifting(ids, t.ids, i) && Shifting(lengths, t.lengths, i) && Shifting(stresses, t.stresses, i)
      {
        ShiftStep(ids, t.ids, i, HOLE);
        ShiftStep(lengths, t.lengths, i, 0);
        ShiftStep(stresses, t.stresses, i, 0);
        ids := Assign(ids, i + 1, ids[i], HOLE);
        lengths := Assign(lengths, i + 1, lengths[i], 0);
        stresses := Assign(stresses, i + 1, stresses[i], 0);
        i := i - 1;
      }
      ShiftDone(ids, t.ids, i, pos, value, HOLE);
      ShiftDone(lengths, t.lengths, i, pos, length, 0);
      ShiftDone(stresses, t.stresses, i, pos, stressValue, 0);
      ids := Assign(ids, pos, value, HOLE);
      lengths := Assign(lengths, pos, length, 0);
      stresses := Assign(stresses, pos, stressValue, 0);
    }

    /** `setPhoneme(pos, value)`. */
    method SetPhoneme(pos: nat, value: int)
      requires Valid()
      modifies this
      ensures Valid() && Contents() == PutId(old(Contents()), pos, value)
    {
      ids := Assign(ids, pos, value, HOLE);
      lengths := Pad(lengths, |ids|, 0);
      stresses := Pad(stresses, |ids|, 0);
    }

    /** `setLength(pos, length)`; fault is the exception it throws, if any. */
    method SetLength(pos: int, length: int) returns (fault: Option<Fault>)
      requires Valid()
      modifies this
      ensures Valid()
      ensures match PutLength(old(Contents()), pos, length)
        case Ok(t) => fault == None && Contents() == t
        case Err(f) => fault == Some(f) && Contents() == old(Contents())
    {
      if length % 256 >= 128 {
        return Some(LengthHasFlag80(length));
      }
      if pos < 0 || pos > |ids| {
        return Some(OutOfBounds(pos));
      }
      if pos < |lengths| {
        lengths := lengths[pos := length];
      }
      fault := None;
    }

    /** `setStress(pos, value)`. */
    method SetStress(pos: nat, value: int)
      requires Valid()
      modifies this
      ensures Valid() && Contents() == PutStress(old(Contents()), pos, value)
    {
      if pos < |stresses| {
        stresses := stresses[pos := value];
      }
    }
  }
}
