/**
 * `Parser(input)`: the scan into a fresh store, then the passes in their
 * fixed order, and the store read out as [phoneme, length, stress] triples.
 */
module Parser {
  import opened Outcomes
  import opened Phonemes
  import opened Tokenizer
  import opened Store
  import opened Rewrite
  import opened Prosody
  import opened Adjust
  import opened Breath

  /** One output triple [phoneme, length, stress] (a hole in the id array reads HOLE with the lengths and stresses stored at that slot, 0 as padded). */
  datatype Triple = Triple(id: int, length: int, stress: int)

  /**
   * How `Parser` ends: `false` for empty input, an exception, the breath
   * pass still running after its step budget, or the triples.
   */
  datatype Parsed = NoInput | Failed(fault: Fault) | OutOfSteps | Output(triples: seq<Triple>)

  /** `phonemeindex.map((v, i) => [v, phonemeLength[i] | 0, stress[i] | 0])`. */
  function Triples(t: Tokens): (r: seq<Triple>)
    requires Aligned(t)
    ensures |r| == |t.ids|
    ensures forall k :: 0 <= k < |r| ==> r[k] == Triple(t.ids[k], LengthAt(t, k), StressAt(t, k))
  {
    seq(|t.ids|, k requires 0 <= k < |t.ids| => Triple(t.ids[k], LengthAt(t, k), StressAt(t, k)))
  }

  /** The passes that can throw: `Parser2`, `CopyStress`, `SetPhonemeLength` and `AdjustLengths`. */
  function Lengthened(t: Tokens): (r: Result<Tokens>)
    requires Aligned(t)
    ensures r.Ok? ==> Aligned(r.value)
  {
    var t1 :- Rewritten(t, 0);
    var t2 :- LengthsSet(StressCopied(t1));
    Adjusted(t2)
  }

  /** The passes between the scan and `InsertBreath`, each one's exception ending the run. */
  function Passes(t: Tokens): (r: Result<Tokens>)
    requires Aligned(t)
    ensures r.Ok? ==> Aligned(r.value)
  {
    var t3 :- Lengthened(t);
    Ok(Truncated(ProlongFrom(t3, 0)))
  }

  /** The whole of `Parser`, with at most fuel turns of the breath loop. */
  function Parse(input: string, fuel: nat): Parsed
  {
    if |input| == 0 then NoInput
    else
      ScanWellFormed(input);
      match Scan(input)
      case Err(f) => Failed(f)
      case Ok(s) =>
        match Passes(Initial(s.ids, s.stresses))
        case Err(f) => Failed(f)
        case Ok(t) =>
          var run := Breathed(t, fuel);
          if run.finished then Output(Triples(run.t)) else OutOfSteps
  }

  method Parser(input: string, fuel: nat) returns (r: Parsed)
    ensures r == Parse(input, fuel)
  {
    if |input| == 0 {
      return NoInput;
    }
    var scanned := Parser1(input);
    if scanned.Err? {
      return Failed(scanned.fault);
    }
    ScanWellFormed(input);
    var s := scanned.value;
    var u := new Utterance(s.ids, s.stresses);
    var fault := Parser2(u);
    if fault.Some? {
      return Failed(fault.value);
    }
    CopyStress(u);
    fault := SetPhonemeLength(u);
    if fault.Some? {
      return Failed(fault.value);
    }
    fault := AdjustLengths(u);
    if fault.Some? {
      return Failed(fault.value);
    }
    Prolong(u);
    Truncate(u);
    var finished := InsertBreath(u, fuel);
    if !finished {
      return OutOfSteps;
    }
    return Output(Triples(u.Contents()));
  }

  // ---------------------------------------------------------------------
  // Across the passes

  lemma NameTableSize()
    ensures |PhonemeNameTable| == PHONEME_COUNT
  {
  }

  /** The store a well-formed scan starts with has table ids before its END slot. */
  lemma InitialShaped(s: Scanned)
    requires WellFormed(s)
    ensures ScanShaped(Initial(s.ids, s.stresses))
  {
    NameTableSize();
  }

  /**
   * After the rewrite the duration lookup never throws: only UL and UM have
   * a table byte with bit 7 set, and the rewrite leaves neither.
   */
  lemma LookupNeverThrows(t: Tokens)
    requires ScanShaped(t) && Rewritten(t, 0).Ok?
    ensures LengthsSet(StressCopied(Rewritten(t, 0).value)).Ok?
  {
    var t1 := Rewritten(t, 0).value;
    NoSyllabicsRemain(t);
    var t2 := StressCopied(t1);
    LengthsSetFaults(t2);
  }

  /**
   * The cut at the first id above 80 never hits an earlier slot than the
   * last one: every pass keeps table ids before it, so the cut changes
   * nothing that `InsertBreath` or the output reads.
   */
  lemma CutOnlyAtEnd(t: Tokens)
    requires ScanShaped(t) && Lengthened(t).Ok?
    ensures var p := ProlongFrom(Lengthened(t).value, 0);
      forall k :: 0 <= k <= |p.ids| ==> At(Truncated(p), k) == At(p, k)
  {
    var t1 := Rewritten(t, 0).value;
    NoSyllabicsRemain(t);
    LookupNeverThrows(t);
    var t2 := LengthsSet(StressCopied(t1)).value;
    assert ScanShaped(t2);
    var t3 := Adjusted(t2).value;
    assert ScanShaped(t3);
    ProlongShaped(t3, 0);
    TruncateReadsSame(ProlongFrom(t3, 0));
  }

  /**
   * The only exceptions `Parser` can raise: a character it cannot parse,
   * position -1 read by UW's rule or by the first length walk, and a length
   * with bit 7 set written by `AdjustLengths`.
   */
  lemma ParseFaults(input: string, fuel: nat)
    ensures Parse(input, fuel).Failed? ==>
      var f := Parse(input, fuel).fault;
      || (f.CouldNotParse? && f.c in input && WildMatch(f.c) == None && !('1' <= f.c <= '8'))
      || f == OutOfBounds(-1)
      || f.LengthHasFlag80?
  {
    if |input| > 0 {
      ScanErrors(input);
      ScanWellFormed(input);
      if Scan(input).Ok? {
        var s := Scan(input).value;
        var t := Initial(s.ids, s.stresses);
        InitialShaped(s);
        RewrittenFaults(t);
        if Rewritten(t, 0).Ok? {
          LookupNeverThrows(t);
          AdjustedFaults(LengthsSet(StressCopied(Rewritten(t, 0).value)).value);
          assert Passes(t).Err? ==> Passes(t).fault == Lengthened(t).fault;
        }
      }
    }
  }

  /**
   * Every triple `Parser` returns has a hole, a table id below UN (80), BREAK
   * or END for its phoneme: the rewrite leaves no UL, UM or UN, the closures
   * of a stop consonant are at most KX's, the END the scan put in the last
   * slot stays there so the cut changes nothing, and the breath pass adds
   * only Q*, BREAK and holes.
   */
  lemma ParseIds(input: string, fuel: nat)
    ensures Parse(input, fuel).Output? ==>
      var r := Parse(input, fuel).triples;
      forall k :: 0 <= k < |r| ==> r[k].id == HOLE || 0 <= r[k].id < 80 || r[k].id == BREAK || r[k].id == END
  {
    if |input| > 0 {
      ScanWellFormed(input);
      if Scan(input).Ok? {
        var s := Scan(input).value;
        var t := Initial(s.ids, s.stresses);
        InitialShaped(s);
        if Passes(t).Ok? {
          var t1 := Rewritten(t, 0).value;
          NoSyllabicsRemain(t);
          RewrittenKeepsLast(t, 0);
          var t2 := LengthsSet(StressCopied(t1)).value;
          var t3 := Adjusted(t2).value;
          assert IdsBelow(t3, 80) && Last(t3.ids) == END;
          ProlongBelow(t3, 0);
          var p := ProlongFrom(t3, 0);
          TruncateReadsSame(p);
          assert OutputIds(Passes(t).value);
          BreathIds(Walk(Passes(t).value, 0, 0, NO_PAUSE), fuel);
        }
      }
    }
  }
}
