/**
 * The first parsing stage: a greedy left-to-right scan of the phoneme text.
 *
 * At each position the scanner tries, in this order,
 *   1. a two-character phoneme name whose second character is not '*',
 *   2. a one-character name, i.e. a table entry of the form c + '*',
 *   3. a stress digit, which sets the stress of the phoneme added last,
 * and fails on anything else.
 */
module Tokenizer {
  import opened Outcomes
  import opened Phonemes

  /** What the tokenizer's two callbacks build: one id and one stress per phoneme. */
  datatype Scanned = Scanned(ids: seq<int>, stresses: seq<int>) {
    predicate Valid() { |ids| == |stresses| }

    /** The `addPhoneme` callback: a new phoneme with stress 0. */
    function AddPhoneme(id: int): Scanned
    {
      Scanned(ids + [id], stresses + [0])
    }

    /**
     * The `addStress` callback: it writes the stress of the phoneme before the
     * cursor. Before the first phoneme that write goes to index -1, which is not
     * an array element, and is lost.
     */
    function AddStress(value: int): Scanned
      requires Valid()
    {
      if |ids| == 0 then this else Scanned(ids, stresses[|stresses| - 1 := value])
    }
  }

  // ---------------------------------------------------------------------
  // Name lookup

  /** Entry i of names is the two-character, non-wildcard name s. */
  predicate FullAt(names: seq<string>, s: string, i: int)
  {
    0 <= i < |names| && names[i] == s && |s| == 2 && s[1] != '*'
  }

  /** Entry i of names is the wildcard name c + '*'. */
  predicate WildAt(names: seq<string>, c: char, i: int)
  {
    0 <= i < |names| && names[i] == [c, '*']
  }

  /** The table entry i is the two-character, non-wildcard name s. */
  predicate IsFullName(s: string, i: int)
  {
    FullAt(PhonemeNameTable, s, i)
  }

  /** The table entry i is the wildcard name c + '*'. */
  predicate IsWildName(c: char, i: int)
  {
    WildAt(PhonemeNameTable, c, i)
  }

  /**
   * `Array.prototype.findIndex` over names from index i on, with the
   * callback of `full_match`: the entry equals the pair and does not end
   * in '*'.
   */
  function FindFull(names: seq<string>, s: string, i: nat): (r: Option<nat>)
    decreases |names| - i
    ensures r.Some? ==> i <= r.value < |names| && |s| == 2
  {
    if i >= |names| then None
    else if FullAt(names, s, i) then Some(i)
    else FindFull(names, s, i + 1)
  }

  /** `Array.prototype.findIndex` over names from index i on, with the callback of `wild_match`. */
  function FindWild(names: seq<string>, c: char, i: nat): (r: Option<nat>)
    decreases |names| - i
    ensures r.Some? ==> i <= r.value < |names|
  {
    if i >= |names| then None
    else if WildAt(names, c, i) then Some(i)
    else FindWild(names, c, i + 1)
  }

  /** The search finds the first matching entry from i on, and finds nothing only when there is none. */
  lemma {:induction false} FindFullFirst(names: seq<string>, s: string, i: nat)
    ensures var r := FindFull(names, s, i);
      && (r.Some? ==> FullAt(names, s, r.value) && forall j :: i <= j < r.value ==> !FullAt(names, s, j))
      && (r.None? ==> forall j :: i <= j ==> !FullAt(names, s, j))
    decreases |names| - i
  {
    if i < |names| && !FullAt(names, s, i) {
      FindFullFirst(names, s, i + 1);
    }
  }

  lemma {:induction false} FindWildFirst(names: seq<string>, c: char, i: nat)
    ensures var r := FindWild(names, c, i);
      && (r.Some? ==> WildAt(names, c, r.value) && forall j :: i <= j < r.value ==> !WildAt(names, c, j))
      && (r.None? ==> forall j :: i <= j ==> !WildAt(names, c, j))
    decreases |names| - i
  {
    if i < |names| && !WildAt(names, c, i) {
      FindWildFirst(names, c, i + 1);
    }
  }

  /** `full_match`: the first entry equal to sign1 + sign2 that does not end in '*'. */
  function FullMatch(sign1: char, sign2: string): (r: Option<nat>)
    ensures r.Some? ==> r.value < |PhonemeNameTable| && |sign2| == 1
  {
    FindFull(PhonemeNameTable, [sign1] + sign2, 0)
  }

  /** `wild_match`: the first entry equal to sign1 + '*'. */
  function WildMatch(sign1: char): (r: Option<nat>)
    ensures r.Some? ==> r.value < |PhonemeNameTable|
  {
    FindWild(PhonemeNameTable, sign1, 0)
  }

  /** `full_match` finds the first such entry, and none exactly when there is none. */
  lemma FullMatchFirst(sign1: char, sign2: string)
    ensures var r := FullMatch(sign1, sign2);
      && (r.Some? ==> IsFullName([sign1] + sign2, r.value))
      && (r.Some? ==> forall j :: 0 <= j < r.value ==> !IsFullName([sign1] + sign2, j))
      && (r.None? <==> forall j :: !IsFullName([sign1] + sign2, j))
  {
    FindFullFirst(PhonemeNameTable, [sign1] + sign2, 0);
    var r := FullMatch(sign1, sign2);
    if r.Some? {
      assert IsFullName([sign1] + sign2, r.value);
    }
  }

  /** `wild_match` finds the first such entry, and none exactly when there is none. */
  lemma WildMatchFirst(sign1: char)
    ensures var r := WildMatch(sign1);
      && (r.Some? ==> IsWildName(sign1, r.value))
      && (r.Some? ==> forall j :: 0 <= j < r.value ==> !IsWildName(sign1, j))
      && (r.None? <==> forall j :: !IsWildName(sign1, j))
  {
    FindWildFirst(PhonemeNameTable, sign1, 0);
    var r := WildMatch(sign1);
    if r.Some? {
      assert IsWildName(sign1, r.value);
    }
  }

  /**
   * The backward search through the stress alphabet, from index k down to 1.
   * Index 9 is one past the end and reads `undefined`, which equals no character.
   * Index 0 stops the search whatever it holds.
   */
  function StressSearch(c: char, k: nat): (r: nat)
    requires k <= |StressTable|
    ensures r <= k && r < |StressTable|
    ensures r > 0 ==> StressTable[r] == c
    ensures forall j :: r < j <= k && j < |StressTable| ==> StressTable[j] != c
  {
    if k == 0 then 0
    else if k < |StressTable| && StressTable[k] == c then k
    else StressSearch(c, k - 1)
  }

  /** The stress a character stands for, or 0 when it is not a stress character. */
  function StressIndex(c: char): nat
  {
    StressSearch(c, |StressTable|)
  }

  // ---------------------------------------------------------------------
  // Facts about the name and stress tables

  predicate IsDigit(c: char) { '0' <= c <= '9' }

  /** Every name has two characters and neither is a digit. */
  lemma NameHasNoDigit(i: int)
    requires 0 <= i < |PhonemeNameTable|
    ensures |PhonemeNameTable[i]| == 2
    ensures !IsDigit(PhonemeNameTable[i][0]) && !IsDigit(PhonemeNameTable[i][1])
  {
    // one table entry at a time
    if i == 0 {} else if i == 1 {} else if i == 2 {} else if i == 3 {} else if i == 4 {} else if i == 5 {} else if i == 6 {} else if i == 7 {} else
    if i == 8 {} else if i == 9 {} else if i == 10 {} else if i == 11 {} else if i == 12 {} else if i == 13 {} else if i == 14 {} else if i == 15 {} else
    if i == 16 {} else if i == 17 {} else if i == 18 {} else if i == 19 {} else if i == 20 {} else if i == 21 {} else if i == 22 {} else if i == 23 {} else
    if i == 24 {} else if i == 25 {} else if i == 26 {} else if i == 27 {} else if i == 28 {} else if i == 29 {} else if i == 30 {} else if i == 31 {} else
    if i == 32 {} else if i == 33 {} else if i == 34 {} else if i == 35 {} else if i == 36 {} else if i == 37 {} else if i == 38 {} else if i == 39 {} else
    if i == 40 {} else if i == 41 {} else if i == 42 {} else if i == 43 {} else if i == 44 {} else if i == 45 {} else if i == 46 {} else if i == 47 {} else
    if i == 48 {} else if i == 49 {} else if i == 50 {} else if i == 51 {} else if i == 52 {} else if i == 53 {} else if i == 54 {} else if i == 55 {} else
    if i == 56 {} else if i == 57 {} else if i == 58 {} else if i == 59 {} else if i == 60 {} else if i == 61 {} else if i == 62 {} else if i == 63 {} else
    if i == 64 {} else if i == 65 {} else if i == 66 {} else if i == 67 {} else if i == 68 {} else if i == 69 {} else if i == 70 {} else if i == 71 {} else
    if i == 72 {} else if i == 73 {} else if i == 74 {} else if i == 75 {} else if i == 76 {} else if i == 77 {} else if i == 78 {} else if i == 79 {} else
    if i == 80 {}
  }

  /** The stress alphabet is '*' followed by the digits 1 to 8 in order. */
  lemma StressIndexOfDigit(c: char)
    ensures StressIndex(c) == if '1' <= c <= '8' then c as int - '0' as int else 0
  {
    StressSearchDigits(c, |StressTable| - 1);
  }

  lemma {:induction false} StressSearchDigits(c: char, k: nat)
    requires k < |StressTable|
    ensures StressSearch(c, k) == if '1' <= c && c as int <= '0' as int + k then c as int - '0' as int else 0
  {
    if k > 0 {
      assert StressTable[k] as int == '0' as int + k;
      StressSearchDigits(c, k - 1);
    }
  }

  /** Stress s is written as the digit s. */
  lemma StressCharacter(s: int)
    requires 1 <= s < |StressTable|
    ensures '1' <= StressTable[s] <= '8' && StressTable[s] as int - '0' as int == s
  {
    if s < 5 {} else {}
  }

  /** No name begins with a digit, and no name is a digit followed by '*'. */
  lemma DigitIsNoName(d: char, sign2: string)
    requires IsDigit(d)
    ensures FullMatch(d, sign2) == None && WildMatch(d) == None
  {
    var f, w := FullMatch(d, sign2), WildMatch(d);
    FullMatchFirst(d, sign2);
    WildMatchFirst(d);
    if f.Some? { NameHasNoDigit(f.value); }
    if w.Some? { NameHasNoDigit(w.value); }
  }

  /** No name ends in a digit, so a stress digit never joins the one-character name before it. */
  lemma NoNameEndsInDigit(c: char, d: char)
    requires IsDigit(d)
    ensures FullMatch(c, [d]) == None
  {
    var f := FullMatch(c, [d]);
    FullMatchFirst(c, [d]);
    if f.Some? { NameHasNoDigit(f.value); }
  }

  /** A single character never matches a two-character name. */
  lemma NoOneCharacterName(c: char)
    ensures FullMatch(c, "") == None
  {
  }

  // ---------------------------------------------------------------------
  // The scan

  /** The character after position pos, or the empty string at the end (`input[pos + 1] || ''`). */
  function Sign2(input: string, pos: nat): (r: string)
    ensures |r| <= 1
  {
    if pos + 1 < |input| then [input[pos + 1]] else ""
  }

  /** What one turn of the scan loop does with the text at pos. */
  datatype Step =
    | Phoneme(id: nat, width: nat)   // a name of `width` characters
    | Stress(value: nat)             // a stress digit
    | Reject(c: char)                // "Could not parse char"

  /** One turn of the scan: a two-character name, else a one-character name, else a stress digit. */
  function NextStep(input: string, pos: nat): (r: Step)
    requires pos < |input|
    ensures r.Phoneme? ==> 0 <= r.id < |PhonemeNameTable| && 1 <= r.width <= 2 && pos + r.width <= |input|
    ensures r.Stress? ==> 1 <= r.value < |StressTable|
    ensures r.Reject? ==> r.c == input[pos]
  {
    var sign1 := input[pos];
    match FullMatch(sign1, Sign2(input, pos))
    case Some(m) => Phoneme(m, 2)
    case None =>
      match WildMatch(sign1)
      case Some(m) => Phoneme(m, 1)
      case None =>
        var k := StressIndex(sign1);
        if k == 0 then Reject(sign1) else Stress(k)
  }

  /**
   * What the step read: a two-character name, a one-character name when no
   * two-character name starts at pos, a stress character, or a character
   * that is neither a one-character name nor a stress.
   */
  lemma NextStepReads(input: string, pos: nat)
    requires pos < |input|
    ensures var r := NextStep(input, pos);
      && (r.Phoneme? && r.width == 2 ==> IsFullName(input[pos..pos + 2], r.id))
      && (r.Phoneme? && r.width == 1 ==>
            IsWildName(input[pos], r.id) && forall j :: !IsFullName([input[pos]] + Sign2(input, pos), j))
      && (r.Stress? ==> StressTable[r.value] == input[pos])
      && (r.Reject? ==> WildMatch(r.c) == None && StressIndex(r.c) == 0)
  {
    FullMatchFirst(input[pos], Sign2(input, pos));
    WildMatchFirst(input[pos]);
    if pos + 1 < |input| {
      assert [input[pos]] + Sign2(input, pos) == input[pos..pos + 2];
    }
  }

  /** The scan from position pos on, with acc holding what the callbacks have built so far. */
  function ScanFrom(input: string, pos: nat, acc: Scanned): Result<Scanned>
    requires acc.Valid()
    decreases |input| - pos
  {
    if pos >= |input| then Ok(acc)
    else
      match NextStep(input, pos)
      case Phoneme(id, width) => ScanFrom(input, pos + width, acc.AddPhoneme(id))
      case Stress(k) => ScanFrom(input, pos + 1, acc.AddStress(k))
      case Reject(c) => Err(CouldNotParse(c))
  }

  function Scan(input: string): Result<Scanned>
  {
    ScanFrom(input, 0, Scanned([], []))
  }

  /** `Parser1` with the store's two callbacks: the scan loop and its stress search. */
  method Parser1(input: string) returns (r: Result<Scanned>)
    ensures r == Scan(input)
  {
    var acc := Scanned([], []);
    var srcPos := 0;
    while srcPos < |input|
      invariant acc.Valid()
      invariant ScanFrom(input, srcPos, acc) == Scan(input)
      decreases |input| - srcPos
    {
      var sign1 := input[srcPos];
      var sign2 := if srcPos + 1 < |input| then [input[srcPos + 1]] else "";
      ghost var step := NextStep(input, srcPos);
      var m := FullMatch(sign1, sign2);
      if m.Some? {
        assert step == Phoneme(m.value, 2);
        acc := acc.AddPhoneme(m.value);
        srcPos := srcPos + 2;
        continue;
      }
      var w := WildMatch(sign1);
      if w.Some? {
        assert step == Phoneme(w.value, 1);
        acc := acc.AddPhoneme(w.value);
        srcPos := srcPos + 1;
        continue;
      }
      var k := |StressTable|;
      while k > 0 && (k == |StressTable| || sign1 != StressTable[k])
        invariant 0 <= k <= |StressTable|
        invariant StressSearch(sign1, k) == StressIndex(sign1)
      {
        k := k - 1;
      }
      if k == 0 {
        assert step == Reject(sign1);
        return Err(CouldNotParse(sign1));
      }
      assert step == Stress(k);
      acc := acc.AddStress(k);
      srcPos := srcPos + 1;
    }
    return Ok(acc);
  }

  // ---------------------------------------------------------------------
  // Properties of one step

  /** '*' is the wildcard name "**" (id 43), so it is a phoneme and not a parse error. */
  lemma StarIsAPhoneme()
    ensures WildMatch('*') == Some(43)
    ensures Scan("*") == Ok(Scanned([43], [0]))
  {
    assert IsWildName('*', 43);
    forall j | 0 <= j < 43 ensures !IsWildName('*', j) {
      if j < 8 {} else if j < 16 {} else if j < 24 {} else if j < 32 {} else if j < 40 {} else {}
    }
    WildMatchFirst('*');
    NoOneCharacterName('*');
    assert NextStep("*", 0) == Phoneme(43, 1);
    var acc1 := Scanned([], []).AddPhoneme(43);
    assert acc1 == Scanned([43], [0]);
    assert ScanFrom("*", 1, acc1) == Ok(acc1);
    assert ScanFrom("*", 0, Scanned([], [])) == ScanFrom("*", 1, acc1);
  }

  /** A digit 1..8 is never part of a name: it sets the stress of the phoneme added last. */
  lemma StressDigitSetsPrevious(input: string, pos: nat)
    requires pos < |input| && '1' <= input[pos] <= '8'
    ensures NextStep(input, pos) == Stress(input[pos] as int - '0' as int)
  {
    DigitIsNoName(input[pos], Sign2(input, pos));
    StressIndexOfDigit(input[pos]);
  }

  /**
   * A character that starts no name and is not a digit 1..8 is rejected:
   * '9', '0' and lower-case letters among them.
   */
  lemma RejectedCharacters(input: string, pos: nat)
    requires pos < |input| && !('1' <= input[pos] <= '8')
    requires WildMatch(input[pos]) == None && FullMatch(input[pos], Sign2(input, pos)) == None
    ensures NextStep(input, pos) == Reject(input[pos])
  {
    StressIndexOfDigit(input[pos]);
  }

  /**
   * The text at pos that starts a two-character name is taken as a whole,
   * as the first entry of that name, even if its first character is also a
   * one-character name.
   */
  lemma TwoCharacterNameWins(input: string, pos: nat, pair: string, m: nat)
    requires pos + 1 < |input| && pair == input[pos..pos + 2]
    requires IsFullName(pair, m)
    requires forall j :: 0 <= j < m ==> !IsFullName(pair, j)
    ensures NextStep(input, pos) == Phoneme(m, 2)
  {
    assert [input[pos]] + Sign2(input, pos) == pair;
    FullMatchFirst(input[pos], Sign2(input, pos));
  }

  // ---------------------------------------------------------------------
  // Properties of the whole scan

  /** A scan result: ids are table indices and stresses lie in 0..8. */
  predicate WellFormed(s: Scanned)
  {
    s.Valid()
    && (forall i :: 0 <= i < |s.ids| ==> 0 <= s.ids[i] < |PhonemeNameTable|)
    && (forall i :: 0 <= i < |s.stresses| ==> 0 <= s.stresses[i] < |StressTable|)
  }

  lemma AddPhonemeWellFormed(acc: Scanned, id: int)
    requires WellFormed(acc) && 0 <= id < |PhonemeNameTable|
    ensures WellFormed(acc.AddPhoneme(id))
  {
    var next := acc.AddPhoneme(id);
    assert forall i :: 0 <= i < |acc.ids| ==> next.ids[i] == acc.ids[i] && next.stresses[i] == acc.stresses[i];
  }

  lemma AddStressWellFormed(acc: Scanned, k: int)
    requires WellFormed(acc) && 0 <= k < |StressTable|
    ensures WellFormed(acc.AddStress(k))
  {
    var next := acc.AddStress(k);
    assert forall i :: 0 <= i < |acc.ids| - 1 ==> next.stresses[i] == acc.stresses[i];
  }

  lemma {:induction false} ScanFromWellFormed(input: string, pos: nat, acc: Scanned)
    requires WellFormed(acc)
    ensures ScanFrom(input, pos, acc).Ok? ==> WellFormed(ScanFrom(input, pos, acc).value)
    decreases |input| - pos
  {
    if pos < |input| {
      var step := NextStep(input, pos);
      if step.Phoneme? {
        ScanTakesPhoneme(input, pos, acc);
        AddPhonemeWellFormed(acc, step.id);
        ScanFromWellFormed(input, pos + step.width, acc.AddPhoneme(step.id));
      } else if step.Stress? {
        ScanTakesStress(input, pos, acc);
        AddStressWellFormed(acc, step.value);
        ScanFromWellFormed(input, pos + 1, acc.AddStress(step.value));
      }
    }
  }

  lemma {:induction false} ScanFromLength(input: string, pos: nat, acc: Scanned)
    requires acc.Valid() && pos <= |input|
    ensures ScanFrom(input, pos, acc).Ok? ==> |ScanFrom(input, pos, acc).value.ids| <= |acc.ids| + |input| - pos
    decreases |input| - pos
  {
    if pos < |input| {
      var step := NextStep(input, pos);
      if step.Phoneme? {
        ScanTakesPhoneme(input, pos, acc);
        ScanFromLength(input, pos + step.width, acc.AddPhoneme(step.id));
      } else if step.Stress? {
        ScanTakesStress(input, pos, acc);
        ScanFromLength(input, pos + 1, acc.AddStress(step.value));
      }
    }
  }

  /**
   * A successful scan yields at most one phoneme per input character, every id
   * indexes the name table and every stress is 0..8.
   */
  lemma ScanWellFormed(input: string)
    ensures Scan(input).Ok? ==> WellFormed(Scan(input).value) && |Scan(input).value.ids| <= |input|
  {
    ScanFromWellFormed(input, 0, Scanned([], []));
    ScanFromLength(input, 0, Scanned([], []));
  }

  lemma {:induction false} ScanFromErrors(input: string, pos: nat, acc: Scanned)
    requires acc.Valid()
    ensures ScanFrom(input, pos, acc).Err? ==>
      exists i :: pos <= i < |input| && ScanFrom(input, pos, acc).fault == CouldNotParse(input[i])
               && NextStep(input, i) == Reject(input[i])
    decreases |input| - pos
  {
    if pos < |input| {
      var step := NextStep(input, pos);
      if step.Phoneme? {
        ScanTakesPhoneme(input, pos, acc);
        ScanFromErrors(input, pos + step.width, acc.AddPhoneme(step.id));
      } else if step.Stress? {
        ScanTakesStress(input, pos, acc);
        ScanFromErrors(input, pos + 1, acc.AddStress(step.value));
      } else {
        ScanRejects(input, pos, acc);
      }
    }
  }

  /**
   * The scan fails only with the character at a position where the scan
   * rejects: one that is neither a one-character name nor a digit 1..8.
   */
  lemma ScanErrors(input: string)
    ensures Scan(input).Err? ==>
      var f := Scan(input).fault;
      f.CouldNotParse? && f.c in input && WildMatch(f.c) == None && !('1' <= f.c <= '8')
  {
    ScanFromErrors(input, 0, Scanned([], []));
    if Scan(input).Err? {
      var i :| 0 <= i < |input| && Scan(input).fault == CouldNotParse(input[i])
               && NextStep(input, i) == Reject(input[i]);
      NextStepReads(input, i);
      StressIndexOfDigit(input[i]);
    }
  }

  // ---------------------------------------------------------------------
  // Spelling a phoneme sequence back as text

  /** The text of a phoneme: its name without a trailing '*'. */
  function Spelling(id: int): (r: string)
    requires 0 <= id < |PhonemeNameTable|
    ensures 1 <= |r| <= 2 && r[0] == PhonemeNameTable[id][0]
  {
    NameHasNoDigit(id);
    var n := PhonemeNameTable[id];
    if n[1] == '*' then n[..1] else n
  }

  /** The stress digit written after a phoneme; stress 0 is written as nothing. */
  function StressMark(s: int): string
  {
    if 1 <= s < |StressTable| then [StressTable[s]] else ""
  }

  /** The first character of the text of a token sequence, or nothing when it is empty. */
  function FirstChar(ids: seq<int>): string
    requires |ids| > 0 ==> 0 <= ids[0] < |PhonemeNameTable|
  {
    if |ids| > 0 then Spelling(ids[0])[..1] else ""
  }

  /** Looking up a phoneme's own name finds that phoneme, not an earlier duplicate such as "**". */
  predicate Canonical(id: int)
  {
    0 <= id < |PhonemeNameTable| && |PhonemeNameTable[id]| == 2 &&
    var n := PhonemeNameTable[id];
    if n[1] == '*' then WildMatch(n[0]) == Some(id) else FullMatch(n[0], [n[1]]) == Some(id)
  }

  /**
   * A token the scanner reads back: a canonical id, a stress 0..8, and, for a
   * one-character name without a stress digit, no two-character name formed
   * with the character that follows.
   */
  predicate ReadsBack(id: int, stress: int, next: string)
  {
    Canonical(id) && 0 <= stress < |StressTable|
    && (PhonemeNameTable[id][1] == '*' && stress == 0 ==> FullMatch(PhonemeNameTable[id][0], next) == None)
  }

  /** A sequence whose every token reads back. */
  predicate Spellable(ids: seq<int>, st: seq<int>)
    decreases |ids|
  {
    |ids| == |st| &&
    (|ids| > 0 ==> Spellable(ids[1..], st[1..]) && ReadsBack(ids[0], st[0], FirstChar(ids[1..])))
  }

  /** The phoneme text of a sequence: each name, then its stress digit. */
  function Spell(ids: seq<int>, st: seq<int>): string
    requires Spellable(ids, st)
    decreases |ids|
  {
    if |ids| == 0 then ""
    else Spelling(ids[0]) + StressMark(st[0]) + Spell(ids[1..], st[1..])
  }

  /** A stress digit in the text is read as that stress. */
  lemma ReadStressMark(input: string, pos: nat, s: int)
    requires pos < |input| && 1 <= s < |StressTable| && input[pos] == StressTable[s]
    ensures NextStep(input, pos) == Stress(s)
  {
    StressCharacter(s);
    StressDigitSetsPrevious(input, pos);
  }

  /** A token's spelling is read as that token when it reads back with what follows it. */
  lemma ReadSpelling(input: string, pos: nat, id: int, s: int)
    requires 0 <= id < |PhonemeNameTable| && pos + |Spelling(id)| <= |input|
    requires input[pos..pos + |Spelling(id)|] == Spelling(id)
    requires ReadsBack(id, s, Sign2(input, pos))
    requires s != 0 ==> pos + |Spelling(id)| < |input| && input[pos + |Spelling(id)|] == StressTable[s]
    ensures NextStep(input, pos) == Phoneme(id, |Spelling(id)|)
  {
    NameHasNoDigit(id);
    var n, after := PhonemeNameTable[id], pos + |Spelling(id)|;
    assert input[pos] == n[0];
    if n[1] == '*' {
      if s != 0 {
        StressCharacter(s);
        NoNameEndsInDigit(n[0], input[after]);
        assert Sign2(input, pos) == [input[after]];
      }
    } else {
      assert Sign2(input, pos) == [n[1]];
    }
  }

  /** A spelled sequence is empty exactly when the sequence is, and starts with its first character. */
  lemma SpellStart(ids: seq<int>, st: seq<int>)
    requires Spellable(ids, st)
    ensures (Spell(ids, st) == "") == (ids == [])
    ensures ids != [] ==> Spell(ids, st)[..1] == FirstChar(ids)
  {
  }

  /** The text of a non-empty sequence: its first token's spelling, its stress digit, the rest. */
  lemma SpellSplits(pre: string, ids: seq<int>, st: seq<int>)
    requires Spellable(ids, st) && |ids| > 0
    ensures var u, mark := Spelling(ids[0]), StressMark(st[0]);
      && pre + Spell(ids, st) == (pre + u + mark) + Spell(ids[1..], st[1..])
      && (pre + Spell(ids, st))[|pre|..|pre| + |u|] == u
      && (mark == "" <==> st[0] == 0)
      && (mark != "" ==> (pre + Spell(ids, st))[|pre| + |u|] == StressTable[st[0]])
      && (mark == "" ==> (pre + Spell(ids, st))[|pre| + |u|..] == Spell(ids[1..], st[1..]))
  {
    var u, mark, rest := Spelling(ids[0]), StressMark(st[0]), Spell(ids[1..], st[1..]);
    assert Spell(ids, st) == u + mark + rest;
    TextParts(pre, u, mark, rest);
  }

  /** Positions in a text made of four parts. */
  lemma TextParts(pre: string, u: string, mark: string, rest: string)
    ensures var t := pre + (u + mark + rest);
      && t == (pre + u + mark) + rest
      && t[|pre|..|pre| + |u|] == u
      && (mark != "" ==> t[|pre| + |u|] == mark[0])
      && (mark == "" ==> t[|pre| + |u|..] == rest)
  {
    var t := pre + (u + mark + rest);
    assert t == (pre + u + mark) + rest;
    assert t[|pre|..] == u + mark + rest;
  }

  /** The scan reads the first token of a spelled sequence. */
  lemma SpelledToken(pre: string, ids: seq<int>, st: seq<int>)
    requires Spellable(ids, st) && |ids| > 0
    ensures NextStep(pre + Spell(ids, st), |pre|) == Phoneme(ids[0], |Spelling(ids[0])|)
  {
    var id, input, next := ids[0], pre + Spell(ids, st), FirstChar(ids[1..]);
    assert ReadsBack(id, st[0], next);
    SpellSplits(pre, ids, st);
    if st[0] == 0 && PhonemeNameTable[id][1] == '*' {
      SpellStart(ids[1..], st[1..]);
      Sign2After(input, |pre|, Spell(ids[1..], st[1..]));
    }
    ReadsBackWith(id, st[0], next, Sign2(input, |pre|));
    ReadSpelling(input, |pre|, id, st[0]);
  }

  /** The character after pos is the first character of what follows it. */
  lemma Sign2After(input: string, pos: nat, rest: string)
    requires pos + 1 <= |input| && input[pos + 1..] == rest
    ensures Sign2(input, pos) == if rest == "" then "" else rest[..1]
  {
  }

  /** Whether a token reads back depends on what follows only when it is a bare one-character name. */
  lemma ReadsBackWith(id: int, stress: int, next: string, next': string)
    requires ReadsBack(id, stress, next)
    requires PhonemeNameTable[id][1] == '*' && stress == 0 ==> next == next'
    ensures ReadsBack(id, stress, next')
  {
  }

  /** The scan reads the first token of a spelled sequence, then its stress digit. */
  lemma SpelledStep(pre: string, ids: seq<int>, st: seq<int>)
    requires Spellable(ids, st) && |ids| > 0
    ensures var input, u, mark := pre + Spell(ids, st), Spelling(ids[0]), StressMark(st[0]);
      && input == (pre + u + mark) + Spell(ids[1..], st[1..])
      && (mark == "" <==> st[0] == 0)
      && NextStep(input, |pre|) == Phoneme(ids[0], |u|)
      && (mark != "" ==> NextStep(input, |pre| + |u|) == Stress(st[0]))
  {
    SpellSplits(pre, ids, st);
    SpelledToken(pre, ids, st);
    if st[0] != 0 {
      ReadStressMark(pre + Spell(ids, st), |pre| + |Spelling(ids[0])|, st[0]);
    }
  }

  lemma ScanTakesPhoneme(input: string, pos: nat, acc: Scanned)
    requires acc.Valid() && pos < |input| && NextStep(input, pos).Phoneme?
    ensures var step := NextStep(input, pos);
      ScanFrom(input, pos, acc) == ScanFrom(input, pos + step.width, acc.AddPhoneme(step.id))
  {
  }

  lemma ScanTakesStress(input: string, pos: nat, acc: Scanned)
    requires acc.Valid() && pos < |input| && NextStep(input, pos).Stress?
    ensures ScanFrom(input, pos, acc) == ScanFrom(input, pos + 1, acc.AddStress(NextStep(input, pos).value))
  {
  }

  /** ScanTakesPhoneme with the step named. */
  lemma ScanPhonemeStep(input: string, pos: nat, acc: Scanned, id: nat, width: nat)
    requires acc.Valid() && pos < |input| && NextStep(input, pos) == Phoneme(id, width)
    ensures ScanFrom(input, pos, acc) == ScanFrom(input, pos + width, acc.AddPhoneme(id))
  {
    ScanTakesPhoneme(input, pos, acc);
  }

  /** ScanTakesStress with the stress named. */
  lemma ScanStressStep(input: string, pos: nat, acc: Scanned, k: nat)
    requires acc.Valid() && pos < |input| && NextStep(input, pos) == Stress(k)
    ensures ScanFrom(input, pos, acc) == ScanFrom(input, pos + 1, acc.AddStress(k))
  {
    ScanTakesStress(input, pos, acc);
  }

  lemma ScanRejects(input: string, pos: nat, acc: Scanned)
    requires acc.Valid() && pos < |input| && NextStep(input, pos).Reject?
    ensures ScanFrom(input, pos, acc) == Err(CouldNotParse(input[pos]))
  {
  }

  lemma PhonemeThenStress(acc: Scanned, id: int, k: int)
    requires acc.Valid()
    ensures acc.AddPhoneme(id).AddStress(k) == Scanned(acc.ids + [id], acc.stresses + [k])
  {
  }

  lemma AppendAfter<T>(a: seq<T>, s: seq<T>)
    requires |s| > 0
    ensures (a + [s[0]]) + s[1..] == a + s
  {
    assert s == [s[0]] + s[1..];
  }

  /**
   * A phoneme of width w at pos, then either a stress digit for k or
   * (k being 0) none: the scan adds the phoneme with stress k.
   */
  lemma ScanToken(input: string, pos: nat, acc: Scanned, id: nat, w: nat, k: nat, marked: bool)
    requires acc.Valid() && pos < |input| && NextStep(input, pos) == Phoneme(id, w)
    requires marked ==> pos + w < |input| && NextStep(input, pos + w) == Stress(k)
    requires !marked ==> k == 0
    ensures ScanFrom(input, pos, acc)
      == ScanFrom(input, pos + w + (if marked then 1 else 0), Scanned(acc.ids + [id], acc.stresses + [k]))
  {
    ScanPhonemeStep(input, pos, acc, id, w);
    if marked {
      ScanStressStep(input, pos + w, acc.AddPhoneme(id), k);
      PhonemeThenStress(acc, id, k);
    }
  }

  /**
   * Where the text at pos is a spelling, the scan reads its first phoneme
   * there, its stress mark (if any) right after, and the rest spelled on.
   */
  lemma SpelledAt(input: string, pos: nat, ids: seq<int>, st: seq<int>) returns (w: nat, m: nat)
    requires Spellable(ids, st) && |ids| > 0 && pos <= |input| && input[pos..] == Spell(ids, st)
    ensures m <= 1 && (m == 0 <==> st[0] == 0) && pos + w + m <= |input| && 0 <= ids[0] && 0 <= st[0]
    ensures NextStep(input, pos) == Phoneme(ids[0], w)
    ensures m == 1 ==> NextStep(input, pos + w) == Stress(st[0])
    ensures input[pos + w + m..] == Spell(ids[1..], st[1..])
  {
    var pre := input[..pos];
    assert input == pre + Spell(ids, st);
    SpelledStep(pre, ids, st);
    var u, mark := Spelling(ids[0]), StressMark(st[0]);
    w, m := |u|, |mark|;
    assert input == (pre + u + mark) + Spell(ids[1..], st[1..]);
    assert |pre + u + mark| == pos + |u| + |mark|;
  }

  lemma {:induction false} ScanSpelled(input: string, pos: nat, ids: seq<int>, st: seq<int>, acc: Scanned)
    requires Spellable(ids, st) && acc.Valid() && pos <= |input| && input[pos..] == Spell(ids, st)
    ensures ScanFrom(input, pos, acc) == Ok(Scanned(acc.ids + ids, acc.stresses + st))
    decreases |ids|
  {
    if |ids| == 0 {
      assert pos == |input|;
      assert acc.ids + ids == acc.ids && acc.stresses + st == acc.stresses;
    } else {
      var w, m := SpelledAt(input, pos, ids, st);
      var acc2 := Scanned(acc.ids + [ids[0]], acc.stresses + [st[0]]);
      ScanToken(input, pos, acc, ids[0], w, st[0], m == 1);
      assert ScanFrom(input, pos, acc) == ScanFrom(input, pos + w + m, acc2);
      ScanSpelled(input, pos + w + m, ids[1..], st[1..], acc2);
      AppendAfter(acc.ids, ids);
      AppendAfter(acc.stresses, st);
      assert Scanned(acc2.ids + ids[1..], acc2.stresses + st[1..]) == Scanned(acc.ids + ids, acc.stresses + st);
    }
  }

  /** Spelling a readable phoneme sequence and scanning the text gives the sequence back. */
  lemma SpellThenScan(ids: seq<int>, st: seq<int>)
    requires Spellable(ids, st)
    ensures Scan(Spell(ids, st)) == Ok(Scanned(ids, st))
  {
    var text := Spell(ids, st);
    assert text[0..] == text;
    ScanSpelled(text, 0, ids, st, Scanned([], []));
    assert [] + ids == ids && [] + st == st;
  }
}
