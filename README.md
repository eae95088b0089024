# SAM phoneme pipeline, modelled in Dafny

SAM ("Software Automatic Mouth") is a formant speech synthesizer. The
JavaScript port in `dist/guessnum.esm.js` turns a phoneme string such as
`"/HEH3LOW"` into audio in five integer, table-driven steps:

1. **Tokenizer** (`Parser1`, `full_match`, `wild_match`). It reads the
   text greedily into phoneme ids and stress marks. A two-character name
   wins first, then a one-character name with a `*` wildcard, then a stress
   digit 1-8 for the previous phoneme. Anything else throws.
2. **Utterance store and rule passes** (`Parser`). Three parallel arrays
   hold phoneme ids, lengths and stresses, behind closures that read,
   write and insert. The passes run over the store in this order:
   - the phonetic rewrites (`Parser2`);
   - the stress copy (`CopyStress`);
   - the duration lookup (`SetPhonemeLength`);
   - the duration adjustments (`AdjustLengths`);
   - the plosive prolongation;
   - the cut at the first id above 80;
   - the breath insertion (`InsertBreath`).

   The store is then read out as `[phoneme, length, stress]` triples.
3. **Voice and frames**:
   - `trans` and `SetMouthThroat` rescale F1 and F2 by the mouth and throat settings;
   - `CreateFrames` copies every phoneme's table values over its duration;
   - `AddInflection` bends the pitch before `.` and `?`;
   - `CreateTransitions` ramps every track across phoneme boundaries with `interpolate`.
4. **Output writer** (`CreateOutputBuffer`). It advances a position in
   fiftieths of a sample from a 5x5 timing table, writes five bytes, and
   throws on overflow.
5. **Renderer** (`Renderer`, `Render`, `ProcessFrames`, `RenderSample`).
   `Renderer` fills in the options, sizes the buffer from the total
   length, and cuts the triples into phrases at BREAK up to END. `Render`
   frames and blends one phrase, bends the pitch by half the first formant
   unless singing, and rescales the amplitudes. `ProcessFrames` then runs
   the glottal pulse: each turn writes five mixed samples of two sine
   generators and a rectangle, or plays a stored consonant sample bit by
   bit.

## How the model is built

The model follows the source's own form.

- **Tokenizer and voice.** The pure lookups (`full_match`, `wild_match`,
  `trans`) are functions.
- **Store.** The closures over the three arrays are the class
  `Store.Utterance`.
  - Its fields are three sequences.
  - Its methods (`InsertPhoneme` with the downward shifting loop,
    `SetPhoneme`, `SetLength`, `SetStress`) reassign them.
  - Each method is specified by a function on `Store.Tokens` (`Insert`,
    `PutId`, `PutLength`, `PutStress`).
- **Passes.** Every pass is a method with the source's `while` loop over
  an `Utterance`. It is proved equal to a recursive specification function
  on `Tokens`: `Rewritten`, `StressCopied`, `LengthsSet`, `Adjusted`,
  `ProlongFrom`, `Truncated`, `Breathed`. The lemmas state the rules'
  meaning about those functions.
- **Frames, transitions and output.**
  - `Frames.FrameArrays` holds the frame tracks.
  - `Transitions.TransitionTables` and `Output.OutputBuffer` hold the
    rest of the state these steps mutate.
  - The JS arrays the transitions write are maps from index to `Num`,
    so a read of a slot nobody wrote gives `NaN`, as it does in JS.
- **Renderer.** `Sampler.ProcessFrames` and the `RenderSample` closure
  are methods over `Output.OutputBuffer`. Each is proved equal to a
  function on the writer: `Run` for the whole loop, `Turn` for one pass,
  and `SampleRun` for a sample. `Speech.Render` and `Speech.Renderer` are
  proved equal to `Rendering` and `Speech`. The two `Render` loops on the
  tracks are specified by `Contour` and `Rescaled`, with `Length` as the
  JS `.length`.

- **Doubles.** The buffer size is the one place where the source's
  floating point changes a result, so it is computed as JS does: a
  `Doubles.Double` is a significand and an exponent, `Nearest` rounds a
  fraction to the nearest double with ties to even, and `Trunc` is `| 0`.

Exceptions are values throughout:
- `Outcomes.Fault` names each exception the source throws;
- functions return `Result`;
- methods return an `Option<Fault>` and stop where the source's throw would.

## Model

| member | source | states |
|---|---|---|
| Phonemes.StressedLengthByte | dist/guessnum.esm.js:321-402 | no stressed duration (the high byte of `combinedPhonemeLengthTable`) has bit 7 set |
| Phonemes.UnstressedLengthByte | dist/guessnum.esm.js:321-402 | the unstressed duration (the low byte) has bit 7 set exactly for UL and UM |
| Tokenizer.FullMatchFirst | dist/guessnum.esm.js:518-523 | `full_match` returns the first table index whose two characters are exactly the pair and whose second is not `*`, and returns nothing iff no name matches |
| Tokenizer.WildMatchFirst | dist/guessnum.esm.js:531-536 | `wild_match` returns the first index whose name is the character followed by `*`, and returns nothing iff there is none |
| Tokenizer.FullMatch | dist/guessnum.esm.js:518-523 | a full match is an index into the name table, and only a one-character second sign can match |
| Tokenizer.WildMatch | dist/guessnum.esm.js:531-536 | a wildcard match is an index into the name table |
| Tokenizer.NameHasNoDigit | dist/guessnum.esm.js:90-172 | every phoneme name has two characters and neither is a digit |
| Tokenizer.DigitIsNoName | dist/guessnum.esm.js:518-536 | a digit starts no full and no wildcard name, so a digit is always read as a stress mark |
| Tokenizer.NoNameEndsInDigit | dist/guessnum.esm.js:518-523 | a phoneme followed by a stress digit is never read as one two-character name |
| Tokenizer.StressIndexOfDigit | dist/guessnum.esm.js:616-620 | the backward search of the stress table finds the digit's value for 1-8 and 0 for any other character |
| Tokenizer.NextStepReads | dist/guessnum.esm.js:601-627 | one step of the scan reads a full two-character name, or a wildcard name only when no full name matches, or a stress digit, or rejects a character that is neither |
| Tokenizer.TwoCharacterNameWins | dist/guessnum.esm.js:604-608 | where the next two characters are a full name, the step takes that name's first index with width 2 |
| Tokenizer.StressDigitSetsPrevious | dist/guessnum.esm.js:616-627 | a digit 1-8 is a stress step carrying the digit's value |
| Tokenizer.RejectedCharacters | dist/guessnum.esm.js:622-626 | a character that starts no name and is no digit 1-8 is rejected |
| Tokenizer.StarIsAPhoneme | dist/guessnum.esm.js:610-613 | `*` matches the wildcard name `**` (id 43), so the input `*` scans to that one phoneme without an error |
| Tokenizer.ScanWellFormed | dist/guessnum.esm.js:591-629 | a successful scan gives as many stresses as ids, table ids only, stresses 0-8, and no more ids than characters |
| Tokenizer.ScanErrors | dist/guessnum.esm.js:622-626 | the only error of the scan is "could not parse" for a character of the input that is no wildcard name and no digit 1-8 |
| Tokenizer.SpellThenScan | dist/guessnum.esm.js:591-629 | spelling any spellable id and stress sequence and scanning the text gives back exactly those ids and stresses |
| Tokenizer.Parser1 | dist/guessnum.esm.js:591-629 | the scanning loop returns exactly the result of the scan function, error included |
| Store.GetPhoneme | dist/guessnum.esm.js:1298-1305 | throws out-of-bounds exactly for a position below 0 or past the array's length; otherwise gives END at the last slot and the stored id elsewhere |
| Store.PutId | dist/guessnum.esm.js:1306-1311 | sets the id at pos, growing the id array with holes past the end, and changes no other id, length or stress |
| Store.PutLength | dist/guessnum.esm.js:1344-1357 | throws on a length with bit 7 set first, then on a position out of bounds; otherwise changes only that length |
| Store.PutStress | dist/guessnum.esm.js:1335-1342 | changes only the stress at pos, and no id or length |
| Store.Insert | dist/guessnum.esm.js:1321-1333 | the store grows by one; entries before pos are kept; (value, length, stress) is at pos; every old entry from pos on moves right by one in all three arrays together |
| Store.InsertKeepsEnd | dist/guessnum.esm.js:1321-1333 | an insertion inside the store keeps the last slot's id last and changes no read before the insertion point |
| Store.Initial | dist/guessnum.esm.js:1363-1380 | after the scan callbacks the store holds the scanned ids with length 0 and their stresses, then END |
| Store.Utterance.constructor | dist/guessnum.esm.js:1359-1380 | a new store is exactly the store after the scan |
| Store.Utterance.InsertPhoneme | dist/guessnum.esm.js:1321-1333 | the downward shifting loop and the three writes leave exactly the inserted store |
| Store.Utterance.SetPhoneme | dist/guessnum.esm.js:1306-1311 | the store after it is the id update |
| Store.Utterance.SetLength | dist/guessnum.esm.js:1344-1357 | it throws what the length update throws and leaves the store unchanged then; otherwise the store is the length update |
| Store.Utterance.SetStress | dist/guessnum.esm.js:1335-1342 | the store after it is the stress update |
| Rewrite.UwChJRule | dist/guessnum.esm.js:731-755 | the UW/CH/J rule throws exactly for UW at position 0, when it reads position -1; otherwise it grows the store by at most one |
| Rewrite.SyllabicBecomesAx | dist/guessnum.esm.js:757-808 | UL, UM and UN become AX followed by L*, M* or N*; the inserted token carries the original stress and length 0, and everything else shifts right by one |
| Rewrite.AffricateBeforeR | dist/guessnum.esm.js:828-841 | a T* (or D*) right before R* becomes CH (or J*), and no other id, length or stress changes |
| Rewrite.DiphthongGetsGlide | dist/guessnum.esm.js:774-791 | EY, AY and OY get YX and AW and OW get WX inserted right after them, with the diphthong's stress and length 0; nothing else changes |
| Rewrite.UwGetsGlide | dist/guessnum.esm.js:731-791 | UW gets WX inserted after it and also becomes UX exactly when the phoneme before it is alveolar; in the first slot the look-behind throws out-of-bounds at -1 |
| Rewrite.AffricateSecondHalf | dist/guessnum.esm.js:742-753 | CH and J* get their second half (43 or 45) inserted right after them with their stress and length 0 |
| Rewrite.GlottalStopInserted | dist/guessnum.esm.js:809-824 | after a stressed vowel, Q* with stress 0 and length 0 goes in two slots on exactly when the next slot is a pause and the one after it a stressed vowel before END; otherwise the store is unchanged |
| Rewrite.VowelRBecomesRx | dist/guessnum.esm.js:842-849 | R* after a vowel becomes RX, and no other id, length or stress changes |
| Rewrite.VowelLBecomesLx | dist/guessnum.esm.js:855-860 | L* after a vowel becomes LX, and no other id, length or stress changes |
| Rewrite.SAfterGBecomesZ | dist/guessnum.esm.js:862-869 | S* after G* becomes Z*, and nothing else changes |
| Rewrite.GBecomesGx | dist/guessnum.esm.js:872-887 | G* becomes GX exactly when the next phoneme is neither END nor of the YX kind; otherwise the store is unchanged |
| Rewrite.KBecomesKx | dist/guessnum.esm.js:890-921 | K* becomes KX unless a YX-kind phoneme other than END follows; after S* it softens further, to GX from KX and to G* from K*; no other id changes |
| Rewrite.PlosiveAfterS | dist/guessnum.esm.js:906-921 | every other plosive after S* becomes the phoneme 12 ids lower, and nothing else changes |
| Rewrite.FlapBetweenVowels | dist/guessnum.esm.js:924-943 | T* or D* after a vowel becomes DX exactly when the next phoneme (or the one after a pause) is a vowel and the next slot has stress 0; otherwise the store is unchanged |
| Rewrite.StepFaults | dist/guessnum.esm.js:731-755 | one step of the rewrite loop throws exactly for UW at position 0 |
| Rewrite.RewrittenFaults | dist/guessnum.esm.js:765-948 | the whole rewrite throws exactly when the first slot is UW and not END, and then with out-of-bounds at -1 |
| Rewrite.NoSyllabicsRemain | dist/guessnum.esm.js:765-948 | after the rewrite every slot before the last holds an id below 78, so no UL, UM or UN is left |
| Rewrite.Rewritten | dist/guessnum.esm.js:765-948 | the rewrite keeps the three arrays aligned and never shortens the store |
| Rewrite.RewrittenKeepsLast | dist/guessnum.esm.js:765-948 | the rewrite writes and inserts only before the last slot, so the id there (END after the scan) stays |
| Rewrite.Parser2 | dist/guessnum.esm.js:722-949 | the rewrite loop leaves exactly the rewritten store, or returns the exception the rewrite throws |
| Prosody.StressCopiedChanges | dist/guessnum.esm.js:1162-1183 | a stress changes only for a consonant before END that is followed by a vowel with stress s in 1..0x7F, and then it becomes s + 1 |
| Prosody.TakesStressAfter | dist/guessnum.esm.js:1162-1183 | the copy keeps which consonants take stress, and leaves the vowel after such a consonant as it was |
| Prosody.StressCopied | dist/guessnum.esm.js:1162-1183 | ids and lengths are kept, and every slot's stress becomes its copied stress |
| Prosody.StressCopiedIdempotent | dist/guessnum.esm.js:1162-1183 | once UM and UN are gone, copying stress twice gives the same store as copying once |
| Prosody.CopyStress | dist/guessnum.esm.js:1162-1183 | the stress loop leaves exactly the stress-copied store |
| Prosody.LengthsSet | dist/guessnum.esm.js:1194-1206 | every slot before END gets the low byte of its table entry for stress 0 or above 0x7F and the high byte otherwise; it throws exactly at the first slot whose chosen byte has bit 7 set |
| Prosody.LengthsSetFaults | dist/guessnum.esm.js:1194-1206 | the lookup throws iff some slot before END is UL or UM with stress 0 or above 0x7F |
| Prosody.LengthsSetIdempotent | dist/guessnum.esm.js:1194-1206 | the lookup depends on ids and stresses only, so running it twice gives the same store |
| Prosody.SetPhonemeLength | dist/guessnum.esm.js:1194-1206 | the duration loop leaves exactly the looked-up store, or returns its exception |
| Adjust.BackUp | dist/guessnum.esm.js:987 | the back-up loop stops at the nearest vowel above position 1 before its start, or at 1 (or 0 when it started at 1) when there is none |
| Adjust.VowelBefore | dist/guessnum.esm.js:986-988 | the method's back-up loop returns exactly that position |
| Adjust.NoPunctuationNoChange | dist/guessnum.esm.js:981-985 | with no punctuation before END the first walk changes nothing |
| Adjust.PunctuationFirstFaults | dist/guessnum.esm.js:986-991 | punctuation in the first slot makes the back-up read position -1, so the pass throws out-of-bounds at -1 |
| Adjust.PunctuationSecondStops | dist/guessnum.esm.js:989-991 | punctuation in the second slot, after a non-punctuation first slot, backs up to 0 and ends the first walk with the store unchanged |
| Adjust.NasalBeforeStop | dist/guessnum.esm.js:1081-1098 | a nasal (not a vowel) followed by a stop consonant sets the nasal's length to 5 and the stop's to 6 |
| Adjust.VowelBeforeUnvoicedPlosive | dist/guessnum.esm.js:1049-1063 | a vowel followed by an unvoiced plosive consonant loses an eighth of its length |
| Adjust.LengthenStretch | dist/guessnum.esm.js:993-1011 | from the vowel up to the punctuation mark every phoneme but an unvoiced fricative gets half its length again (rounded down) plus one, every other length stays, and for lengths up to 84 nothing throws |
| Adjust.VowelBeforeRxLx | dist/guessnum.esm.js:1026-1043 | a vowel before RX or LX that is followed by a consonant loses one from its length, and nothing else changes |
| Adjust.VowelBeforeVoicedConsonant | dist/guessnum.esm.js:1067-1075 | a vowel before a voiced consonant gets a quarter of its length again (rounded down) plus one |
| Adjust.StopConsonantPair | dist/guessnum.esm.js:1103-1121 | a stop consonant followed, after any pauses, by another stop consonant: both become half their length plus one |
| Adjust.LiquidAfterStop | dist/guessnum.esm.js:1127-1139 | a liquid after a stop consonant loses two from its length |
| Adjust.LengthenFrom | dist/guessnum.esm.js:994-1011 | the inner loop changes lengths only |
| Adjust.LengthenOnly | dist/guessnum.esm.js:994-1011 | the inner loop changes lengths only before the first END, and every length it writes has bit 7 clear |
| Adjust.PunctuationOnly | dist/guessnum.esm.js:981-1012 | the same holds for the whole first walk |
| Adjust.ShortenOnly | dist/guessnum.esm.js:1019-1140 | the same holds for the whole second walk |
| Adjust.LengthenFaults | dist/guessnum.esm.js:994-1011 | the inner loop throws only out-of-bounds at -1 or a length with bit 7 set |
| Adjust.PunctuationFaults | dist/guessnum.esm.js:981-1012 | the first walk throws only out-of-bounds at -1 or a length with bit 7 set |
| Adjust.Adjusted | dist/guessnum.esm.js:968-1141 | the two walks keep every id and stress |
| Adjust.AdjustedOnlyLengths | dist/guessnum.esm.js:968-1141 | the adjustments change only lengths, and only at slots before END |
| Adjust.AdjustedFaults | dist/guessnum.esm.js:968-1141 | the only exceptions of the pass are out-of-bounds at -1 and a length with bit 7 set |
| Adjust.AdjustLengths | dist/guessnum.esm.js:968-1141 | the two walks leave exactly the adjusted store, or return its exception |
| Breath.ClosuresAreInserts | dist/guessnum.esm.js:1279-1280 | the two insertions after a stop consonant give the store with its two closure parts inserted |
| Breath.ClosuresFollow | dist/guessnum.esm.js:1279-1281 | after a stop consonant p come p + 1 and p + 2 with p's stress and their unstressed table lengths; what was before is kept and the rest moves right by two |
| Breath.ProlongShaped | dist/guessnum.esm.js:1256-1283 | the prolongation keeps every slot before the last a table id and the last one END |
| Breath.ProlongFrom | dist/guessnum.esm.js:1256-1283 | the prolongation keeps the arrays aligned and never shortens the store |
| Breath.ProlongBelow | dist/guessnum.esm.js:1256-1283 | with ids below 80 before the last slot the prolongation keeps them below 80, since a stop consonant is at most 77, and keeps the last slot's id |
| Breath.Prolong | dist/guessnum.esm.js:1256-1283 | the prolongation loop leaves exactly the prolonged store |
| Breath.TruncatedIds | dist/guessnum.esm.js:1391-1397 | the cut leaves lengths and stresses alone, turns at most one id into END, and leaves no id above 80 before the first END |
| Breath.TruncateIdempotent | dist/guessnum.esm.js:1391-1397 | cutting twice is cutting once |
| Breath.TruncateReadsSame | dist/guessnum.esm.js:1391-1397 | on a store whose slots before the last are table ids the cut changes no read, and it changes nothing at all when the last slot is END |
| Breath.Truncate | dist/guessnum.esm.js:1391-1397 | the cutting loop leaves exactly the cut store |
| Breath.PunctuationGetsBreak | dist/guessnum.esm.js:1226-1231 | while the running length stays below 232, a punctuation token gets a BREAK with stress 0 and length 0 inserted after it, and the running length restarts at 0 |
| Breath.PauseRemembered | dist/guessnum.esm.js:1232-1235 | below 232 a pause is remembered as the breath slot and the walk goes on |
| Breath.BreathAtPause | dist/guessnum.esm.js:1237-1242 | at 232 or more the remembered slot becomes Q* with length 4 and keeps its stress, a BREAK follows it, and the walk resumes after it |
| Breath.Breathed | dist/guessnum.esm.js:1219-1244 | the breath pass leaves an aligned store |
| Breath.BreathIds | dist/guessnum.esm.js:1219-1244 | the breath pass writes only Q*, BREAK and holes, so a store of holes, ids below 80, BREAK and END stays one |
| Breath.GlottalIsSetLength | dist/guessnum.esm.js:1238-1239 | the id and length writes of a breath never throw, even at slot 255 (no pause seen) |
| Breath.BreathCanLoop | dist/guessnum.esm.js:1219-1244 | a pause followed by a long vowel makes the breath loop run for ever: no step budget is enough |
| Breath.InsertBreath | dist/guessnum.esm.js:1219-1244 | the breath loop, run with a step budget, leaves exactly the store of the breath function and says whether it reached END |
| Parser.Triples | dist/guessnum.esm.js:1405 | one triple per slot with its id, and its length and stress read as 0 where unset |
| Parser.LookupNeverThrows | dist/guessnum.esm.js:1385-1387 | after a successful rewrite the duration lookup never throws, because no UL or UM is left |
| Parser.CutOnlyAtEnd | dist/guessnum.esm.js:1391-1397 | after the passes before it, the cut at the first id above 80 changes no read |
| Parser.ParseFaults | dist/guessnum.esm.js:1294-1406 | `Parser` throws only "could not parse" for a character of the input, out-of-bounds at -1, or a length with bit 7 set |
| Parser.ParseIds | dist/guessnum.esm.js:1294-1406 | every triple `Parser` returns has a hole, an id below 80, BREAK or END for its phoneme |
| Parser.Parser | dist/guessnum.esm.js:1294-1406 | the scan, the passes in order and the read-out give exactly the parse function's result |
| Voice.Trans | dist/guessnum.esm.js:1944-1946 | `trans` is always even and between 0 and 510 |
| Voice.TransNoWrap | dist/guessnum.esm.js:1944-1946 | the product of two bytes never needs the inner byte mask |
| Voice.TransMonotone | dist/guessnum.esm.js:1944-1946 | a larger mouth or throat setting never lowers a formant |
| Voice.TransNeutral | dist/guessnum.esm.js:1944-1946 | at the neutral setting 128 a base is only rounded down to even |
| Voice.FrequencyBytes | dist/guessnum.esm.js:1537-1620 | byte k of every `frequencyData` entry, one byte per id |
| Voice.NoZeroFormants | dist/guessnum.esm.js:1970-1983 | no voiced phoneme has a zero mouth or throat base, so the stale value the loop would keep for one is never written |
| Voice.SetMouthThroat | dist/guessnum.esm.js:1957-2002 | F1 and F2 of ids 5-29 and 48-53 are the bases rescaled by mouth and throat; every other id, and all of F3, keeps its `frequencyData` byte; the tables equal those the voice function builds |
| Voice.NeutralVoice | dist/guessnum.esm.js:1928-1942 | at mouth and throat 128 every rescaled entry equals its `frequencyData` byte, so the default voice leaves the table unchanged |
| Frames.Framed | dist/guessnum.esm.js:2239-2249 | the tracks have one frame per unit of every token's length |
| Frames.FramesCopyTables | dist/guessnum.esm.js:2239-2246 | each frame of a token copies that phoneme's three formants, three amplitude bytes and sampled-consonant flags |
| Frames.PitchesFromStress | dist/guessnum.esm.js:2236-2247 | a frame no later inflection reaches has pitch `(pitch + stressPitch[stress + 1]) & 0xFF` |
| Frames.PitchesAreBytes | dist/guessnum.esm.js:2216-2258 | every pitch is a byte |
| Frames.LastKeepsPitch | dist/guessnum.esm.js:2226-2233 | the last token changes no earlier pitch unless it is `.` or `?` within 30 frames of it |
| Frames.InflectedClosedForm | dist/guessnum.esm.js:2167-2192 | before the walk's start (the window start, skipping 127s) pitches are kept; from there each non-255 frame is the starting pitch plus the inflection once per non-255 frame walked, masked to a byte, and the 255s inside are left alone |
| Frames.Inflected | dist/guessnum.esm.js:2167-2192 | the inflection keeps the length of the pitch track |
| Frames.InflectedWindow | dist/guessnum.esm.js:2169-2174 | no frame more than 30 before the end is changed |
| Frames.InflectedBytes | dist/guessnum.esm.js:2188 | an inflection keeps a track of bytes a track of bytes |
| Frames.InflectPitches | dist/guessnum.esm.js:2167-2192 | the two loops of `AddInflection` give exactly the inflected track |
| Frames.Walk | dist/guessnum.esm.js:2183-2191 | the outer walk gives exactly the walk function's track |
| Frames.Skip | dist/guessnum.esm.js:2190 | the inner skip loop stops at the first index from `from` that is not `level` |
| Frames.FrameArrays.Append | dist/guessnum.esm.js:2240-2248 | one frame is added to every track |
| Frames.FrameArrays.AddInflection | dist/guessnum.esm.js:2167-2192 | only the pitch track changes, and it becomes the inflected one |
| Frames.CreateFrames | dist/guessnum.esm.js:2216-2258 | the frame loop fills exactly the framed tracks |
| Transitions.InterpolatedOutside | dist/guessnum.esm.js:2065-2096 | `interpolate(width, t, frame, d)` writes exactly the indices `frame + 1 .. frame + width - 1` and changes no other read |
| Transitions.InterpolatedRamp | dist/guessnum.esm.js:2066-2085 | with a defined start and difference, frame `frame + k` holds `start + k * d / width` truncated toward the start; a ramp from 0 upward by less than one per frame stays at 0, because the loop never increments a zero value |
| Transitions.InterpolatedHold | dist/guessnum.esm.js:2065-2096 | with an undefined difference every written frame holds the start value |
| Transitions.InterpolatedUndefined | dist/guessnum.esm.js:2074 | with an undefined start every written frame is undefined |
| Transitions.RampBetween | dist/guessnum.esm.js:2065-2096 | the ramp starts at the start value, stays between the two ends, and reaches start + d at the full width (except from 0 with 0 <= d < width) |
| Transitions.TransitionWidth | dist/guessnum.esm.js:2110-2123 | the two phases are bytes; with equal ranks they are the two out-blend lengths; otherwise their sum is the in plus out blend of the higher-ranked phoneme, whichever side it is on |
| Transitions.TransitionsKeepRange | dist/guessnum.esm.js:2141-2152 | the blends keep every formant and amplitude track within any range its defined values were in |
| Transitions.TotalIsFrameCount | dist/guessnum.esm.js:2157 | the total length is the number of frames `CreateFrames` made |
| Transitions.TransitionTables.Interpolate | dist/guessnum.esm.js:2065-2096 | the ramp loop changes only table t, and leaves it exactly interpolated |
| Transitions.TransitionTables.BlendPair | dist/guessnum.esm.js:2102-2153 | one turn of the pair loop leaves exactly the blended tables |
| Transitions.TransitionTables.CreateTransitions | dist/guessnum.esm.js:2046-2158 | the pair loop leaves exactly the transitions function's tables and returns the total length modulo 256 |
| Output.TimeTable | dist/guessnum.esm.js:2273-2279 | every step of the timing table is between 0 and 226 fiftieths of a sample |
| Output.PutStep | dist/guessnum.esm.js:2280-2290 | a write keeps the writer valid, advances the position by at most 226 and never back, throws exactly when the new sample lies past the end, and then leaves the bytes and the row alone |
| Output.PutWithinBuffer | dist/guessnum.esm.js:2280-2285 | after a successful write the position is within the buffer |
| Output.VisibleGrows | dist/guessnum.esm.js:2292-2294 | what `get` returns only grows, and the output already before the position never changes |
| Output.NibbleBytes | dist/guessnum.esm.js:2266 | `(A & 15) * 16` is a multiple of 16 from 0 to 240 whose high nibble is A's low nibble |
| Output.WriterStores | dist/guessnum.esm.js:2265-2290 | a successful `writer(index, A)` stores `(A & 15) * 16` at the five samples from the new position on and changes no other byte |
| Output.Written | dist/guessnum.esm.js:2280-2285 | the buffer keeps its size; the bytes from the write position on take the values modulo 256 and every other byte stays |
| Output.OutputBuffer.constructor | dist/guessnum.esm.js:2260-2263 | a zeroed buffer of the given size, position 0, row 0 |
| Output.OutputBuffer.Ary | dist/guessnum.esm.js:2271-2291 | the fault and the new state are exactly those of the write function |
| Output.OutputBuffer.Raw | dist/guessnum.esm.js:2268-2270 | writes five copies of A |
| Output.OutputBuffer.Write | dist/guessnum.esm.js:2265-2267 | writes five copies of A's low nibble moved up |
| Output.OutputBuffer.Get | dist/guessnum.esm.js:2292-2294 | returns the bytes before the current sample, or the whole buffer past its end |
| Sampler.SignedByte | dist/guessnum.esm.js:2511 | `char(x)` is the low byte of x read as a signed char: between -128 and 127 and equal to x modulo 256 |
| Sampler.TruncDiv | dist/guessnum.esm.js:2526-2528 | the quotient truncated toward zero, as the integer conversion truncates `mux / 32`: d times the size of the result is at most the size of the numerator and less than d more, and the result has the numerator's sign (0 or above for a nonnegative numerator, 0 or below for a nonpositive one) |
| Sampler.Rectangle | dist/guessnum.esm.js:2521 | the rectangle wave is -112 below step 129 of its phase and 112 from there on |
| Sampler.Bits | dist/guessnum.esm.js:2449-2460 | eight bit-writes keep the writer valid, never move it back, end on one of the two rows, and with the index pairs the closure uses every one of them moves the position forward |
| Sampler.VoicedRounds | dist/guessnum.esm.js:2466-2470 | the voiced rounds keep the writer valid, move it forward when any round runs, stay within the buffer unless one throws, and leave the offset advanced by the number of rounds |
| Sampler.UnvoicedRounds | dist/guessnum.esm.js:2473-2477 | the unvoiced rounds keep the writer valid and move it forward when any round runs |
| Sampler.SampleRun | dist/guessnum.esm.js:2432-2480 | a sample run that does not throw writes at least once and stays within the buffer |
| Sampler.VoicedRun | dist/guessnum.esm.js:2462-2471 | without bits 3-7 in the flag the sample is the voiced one from `lastSampleOffset & 0xFF`, for `1 + ((pitch >> 4) & 0xFF)` rounds |
| Sampler.UnvoicedRun | dist/guessnum.esm.js:2473-2479 | with them it is the unvoiced one from `255 - off` to the end of the page with `tab48426[kind]`, and `lastSampleOffset` is returned unchanged |
| Sampler.RenderBits | dist/guessnum.esm.js:2449-2460 | the `do … while (--bit)` loop writes exactly the eight bit-writes of the bit function and leaves the same buffer object |
| Sampler.VoicedSample | dist/guessnum.esm.js:2465-2470 | the voiced `do … while` loop writes exactly the voiced rounds for `256 - phase1` turns and returns the offset after them |
| Sampler.UnvoicedSample | dist/guessnum.esm.js:2473-2477 | the unvoiced `do … while` loop writes exactly the unvoiced rounds from `off` to the end of the page |
| Sampler.RenderSample | dist/guessnum.esm.js:2432-2480 | the closure's fault, writer and returned offset are exactly those of the sample run |
| Sampler.VoicedRoundsNext | dist/guessnum.esm.js:2466-2469 | after a round that does not throw, the rest of the voiced loop is the remaining rounds from the next offset |
| Sampler.UnvoicedRoundsNext | dist/guessnum.esm.js:2475-2477 | after a round that does not throw, the rest of the unvoiced loop is the remaining rounds from the next offset |
| Sampler.Tick | dist/guessnum.esm.js:2513-2533 | a voiced turn writes five samples, the k-th being the mix of the two sines and the rectangle at their k-th step |
| Sampler.Mix | dist/guessnum.esm.js:2514-2532 | the `for (k = 0; k < 5; k++)` loop with its three accumulators produces exactly those five samples |
| Sampler.AccumulatorNext | dist/guessnum.esm.js:2529-2531 | each step of a generator adds `f * 256 / 4`, NaN staying NaN |
| Sampler.Turn | dist/guessnum.esm.js:2491-2579 | one turn keeps the writer valid, writes at least once unless it throws, takes at most two frames off the count, and ends the loop only with the count at 0 |
| Sampler.Run | dist/guessnum.esm.js:2491-2579 | the loop keeps the writer valid and the buffer's size, and never moves the position back |
| Sampler.RunStep | dist/guessnum.esm.js:2491 | the loop with a nonzero count is its first turn followed, unless that turn threw or returned, by the loop from the new state |
| Sampler.NegativeCountOverflows | dist/guessnum.esm.js:2495-2500 | once the frame count is below 0 (a sampled frame at count 1 takes two), the loop can only end by a write past the end of the buffer |
| Sampler.SampledFrame | dist/guessnum.esm.js:2495-2500 | a sampled consonant renders its sample, skips two frames, resets the speed counter and restarts the pulse, unless the sample throws |
| Sampler.TickOverflow | dist/guessnum.esm.js:2533 | a tick past the end of the buffer ends the turn with that exception |
| Sampler.LastTick | dist/guessnum.esm.js:2536-2543 | the tick that counts the last frame down is the `return` |
| Sampler.PulseEnd | dist/guessnum.esm.js:2547-2578 | when the pulse runs out, it restarts from the pitch of the current frame with three quarters of it as the window and the phases at 0 |
| Sampler.PulseGoesOn | dist/guessnum.esm.js:2552-2561 | inside the window, or on a frame without a voiced sample, the three phases move on by their formants, each masked to a byte |
| Sampler.WindowEnd | dist/guessnum.esm.js:2564-2578 | at the end of the window of a voiced sample, the sample is rendered and then the pulse restarts, unless the sample throws |
| Sampler.Step | dist/guessnum.esm.js:2492-2578 | one turn of the loop through the output buffer ends exactly as the turn function says |
| Sampler.ProcessFrames | dist/guessnum.esm.js:2431-2580 | `ProcessFrames` writes exactly what the loop function gives from the starting variables (speed counter 72, phases 0, the pulse of frame 0), and stops with the exception of the first write past the end |
| Speech.LengthIs | dist/guessnum.esm.js:2391 | `pitches.length` is the one number that is above every stored index and whose predecessor is stored (0 for no index) |
| Speech.ArrayLength | dist/guessnum.esm.js:2391 | reading the stored indices one by one gives that length |
| Speech.LengthKeeps | dist/guessnum.esm.js:2391-2395 | writing only below the length keeps the length |
| Speech.Contour | dist/guessnum.esm.js:2391-2395 | the contour stores exactly the indices stored before and every index below the length |
| Speech.ContourAt | dist/guessnum.esm.js:2391-2395 | every pitch below the length loses `frequency[0][i] >> 1`, and every other index reads as before |
| Speech.ContourLowers | dist/guessnum.esm.js:2394 | with a nonnegative formant a pitch drops by exactly half its formant, rounded down, and never rises |
| Speech.ContourLength | dist/guessnum.esm.js:2391-2395 | the contour keeps `pitches.length`, so the loop's bound does not move |
| Speech.Rescale | dist/guessnum.esm.js:2403-2409 | `amplitudeRescale[x]` is defined exactly for the integers 0 to 16 |
| Speech.RescaleIsNibble | dist/guessnum.esm.js:2403-2412 | a rescaled amplitude is between 0 and 15, so the mixer's `& 0x0F` leaves it as it is |
| Speech.RescaleMonotone | dist/guessnum.esm.js:2403-2407 | the rescale table keeps the order of the amplitudes 0 to 15 |
| Speech.Rescaled | dist/guessnum.esm.js:2408-2412 | the rescale stores exactly the indices stored before and every index in its range |
| Speech.RescaledAt | dist/guessnum.esm.js:2408-2412 | every amplitude from the last index down to 0 reads as the rescale of its old value, and every other index as before |
| Speech.RescaledLength | dist/guessnum.esm.js:2408 | the rescale keeps the length of the first amplitude track |
| Speech.AssignPitchContour | dist/guessnum.esm.js:2384-2396 | the loop leaves exactly the contour of the old pitches by the old first formant over the old length, and no other track changes |
| Speech.RescaleAmplitude | dist/guessnum.esm.js:2398-2412 | the downward loop leaves exactly the three rescaled amplitude tracks over the old length of the first, and no other track changes |
| Speech.Render | dist/guessnum.esm.js:2362-2419 | an empty phrase writes nothing; any other is framed, blended, bent unless singing, rescaled, and written by `ProcessFrames` with the total length modulo 256 as its frame count |
| Speech.EmptyPhrase | dist/guessnum.esm.js:2363-2365 | an empty phrase returns without a write |
| Speech.Rendering | dist/guessnum.esm.js:2362-2419 | rendering a phrase keeps the writer valid and its buffer size, and never moves the position back |
| Speech.SpeakMissing | dist/guessnum.esm.js:2329-2330 | reading a triple past the end of the list, or in a hole, throws |
| Speech.SpeakEnd | dist/guessnum.esm.js:2331-2334 | END renders the phrase and returns `Output.get()`, or the exception the rendering threw |
| Speech.Finish | dist/guessnum.esm.js:2331-2334 | what END returns is never longer than the buffer |
| Speech.SpeakBreak | dist/guessnum.esm.js:2335-2337 | BREAK renders the phrase and goes on with an empty one, unless the rendering threw |
| Speech.SpeakOn | dist/guessnum.esm.js:2330-2342 | id 0 is passed over and any other table id is pushed onto the phrase |
| Speech.SpeakEnds | dist/guessnum.esm.js:2328-2343 | the loop returns bytes only after reaching an END, and never more bytes than the buffer holds |
| Speech.OnePhrase | dist/guessnum.esm.js:2328-2343 | a run of nonzero table ids up to END is rendered as one phrase, after whatever was collected before it |
| Speech.ByteOr | dist/guessnum.esm.js:2309-2311 | an undefined option takes its default, and a given one is its low byte |
| Speech.SpeedOf | dist/guessnum.esm.js:2312 | the speed is a byte; 72 when it is undefined or 0; otherwise the low byte of the given speed, so 256 becomes 0 |
| Speech.Size | dist/guessnum.esm.js:2316-2320 | `441 * total / 50 * speed` in doubles, each step rounded to the nearest and the result truncated toward zero, is never negative for a nonnegative total and speed |
| Speech.BufferSize | dist/guessnum.esm.js:2316-2320 | the buffer size is that value for 20 times the total length, and never negative for nonnegative lengths and speed |
| Speech.SizeRoundsDown | dist/guessnum.esm.js:2316-2320 | a total length of 13 at speed 50 gives 114659 bytes, one less than the exact 114660, because `441 * 260 / 50` is stored just below 2293.2 |
| Speech.SizeAtDefaultSpeed | dist/guessnum.esm.js:2316-2320 | at the default speed 72 the same length gives the exact size 165110 |
| Doubles.RoundHalfEven | dist/guessnum.esm.js:2316-2320 | the quotient rounded to an integer is its floor or one above it |
| Doubles.RoundNearest | dist/guessnum.esm.js:2316-2320 | that rounding is off by at most half, and a tie gives an even result |
| Doubles.Up | dist/guessnum.esm.js:2316-2320 | scaling a fraction below 2^53 up gives a significand from 2^52 to 2^53 |
| Doubles.Down | dist/guessnum.esm.js:2316-2320 | scaling a fraction of at least 2^52 down gives a significand from 2^52 to 2^53 |
| Doubles.UpNearest | dist/guessnum.esm.js:2316-2320 | the scaled-up double is within half a unit in its last place of the fraction |
| Doubles.DownNearest | dist/guessnum.esm.js:2316-2320 | the scaled-down double is within half a unit in its last place of the fraction |
| Doubles.UpJump | dist/guessnum.esm.js:2316-2320 | k doublings in one step: scaling up from n equals scaling up from n * 2^k while that stays below 2^52 |
| Doubles.Nearest | dist/guessnum.esm.js:2316-2320 | the nearest double to a fraction is 0 for 0 and otherwise normal with the fraction's sign |
| Doubles.NegativeNearest | dist/guessnum.esm.js:2316-2320 | rounding a negative fraction gives the negation of rounding its magnitude |
| Doubles.NearestBound | dist/guessnum.esm.js:2316-2320 | the nearest double is within half a unit in its last place of the fraction |
| Doubles.TruncBounds | dist/guessnum.esm.js:2316-2320 | the integer conversion is the whole part of the value with the value's sign |
| Speech.SpeechEnds | dist/guessnum.esm.js:2308-2343 | `Renderer` returns bytes only for a list that holds an END, and never more than the buffer it sized |
| Speech.ParseRenderable | dist/guessnum.esm.js:1294-1406 | whatever `Parser` returns meets what `Renderer` needs of its ids |
| Speech.Take | dist/guessnum.esm.js:2329-2342 | one turn of the loop either returns what the loop returns from there, or leaves the rest of the loop with the same result |
| Speech.Renderer | dist/guessnum.esm.js:2308-2343 | `Renderer` returns exactly the bytes written up to END or the exception that stopped it, with the options, buffer and voice set up as the source does |

## Where the code and its comments differ

The model follows the code in each case.

- The S* softening rule lists UM and UN among the plosives it softens
  (lines 912-913). Both are replaced by AX earlier in the same turn, so
  the rule never sees them (`Rewrite.SyllabicBecomesAx`,
  `Rewrite.PlosiveAfterS`).
- A UW in the first slot makes the UW rule read position -1, which throws
  (lines 736 and 1300). The model keeps this as the rewrite's error result
  rather than excluding such input (`Rewrite.RewrittenFaults`).
- `InsertBreath` is documented to set the breath slot's stress to 0.
  `Parser` passes `getStress` where `setStress` is expected (line 1399), so
  the stress is only read and stays as it was (`Breath.BreathAtPause`).
- `InsertBreath` never forgets the remembered pause. A long stretch after a
  pause sends the walk back to that pause again and again, one more BREAK
  each time, so the loop does not end (`Breath.BreathCanLoop`). The model
  runs it with a step budget.
- Punctuation in the first slot makes `AdjustLengths` back up to position
  -1 and throw (`Adjust.PunctuationFirstFaults`).
- The stress callback's bit-7 check (line 1373) never fires: a stress digit
  is at most 8.
- The comment in `CreateTransitions` says the current phoneme's blend
  lengths are used when its rank is lower. The code uses the next
  phoneme's (lines 2114-2117); see `Transitions.TransitionWidth`.
- `val += div` at line 2094 has no effect, because `val` is recomputed at
  the top of the loop.

## Left out

- The `sinus` table is computed with `Math.sin` and floats. It and `sampleTable` are parameters of the renderer, so the model says which byte is read, not its value.
- Speech.BufferSize: the division and the multiplication by the speed are rounded as binary64 doubles are, but the exponent is unbounded, so there is no overflow and no subnormal; neither can arise from a length sum and a byte. The integer steps before them (`v[1] * 20`, the sum, `441 *`) are taken as exact, which holds below 2^53. `| 0` is taken as truncation without the 32-bit wrap. A hole in the list is a HOLE triple whose length `TotalLength` adds where `reduce` skips it; the sums agree only as long as every hole carries length 0, which is what the padding of `Store.Insert` writes into a hole slot. The model does not prove that no later pass writes a length into a hole slot, and a HOLE triple with a nonzero length would be counted.
- Sampler.TruncDiv: stands for the float steps `mux /= 32` then `| 0`, and `* .75 | 0`, as exact truncation toward zero.
- `PrintOutput` is debug output and has no effect on results.
- Speech.Renderer: requires every id to be a hole, a table id below 80, BREAK or END, so that the frame tables are never read outside their rows. Id 80 is UN, which the rewrite pass replaces (`Rewrite.NoSyllabicsRemain`), and the cut at the first id above 80 ends the list there.
- Sampler.ProcessFrames: the frame count is the total length modulo 256, as `CreateTransitions` returns it. A phrase of 256 frames therefore renders nothing, and a count of 1 reached on a sampled frame goes to -1 and runs until the buffer overflows (`Sampler.NegativeCountOverflows`). The model keeps both.
- Audio playback (`Play`, `PlayBuffer`, the `AudioContext` global, `SamSpeak`'s Promise) is host I/O.
- `UInt8ArrayToFloat32Array` and `SamBuffer` are float conversion.
- The `console.log` tracing and `PrintPhonemes` have no effect on results.
- The `GuessNum` game, its `Math.random` and its canned phoneme strings are demo UI, not the synthesizer.
- Breath.InsertBreath: runs with a step budget (`fuel`). A run that uses up the budget ends as `OutOfSteps`, because the source's loop need not terminate (`Breath.BreathCanLoop`).
- Parser.Parser: inherits that step budget and returns `OutOfSteps` where the source would hang.
- JS numbers are unbounded integers here. No value in the pipeline comes near 2^31, so the `| 0` conversions are modelled as the identity on integers. The byte masks (`& 0xFF`, `>> 8`) are written out.
- A read past the end of a constant table (`phonemeFlags[255]`, the length table for END) gives `undefined` in JS. The model reads 0 there, which behaves the same under `&` and `>>`.
- Store.PutStress: a write past the last slot is dropped instead of growing the stress array. No pass writes a stress there.
- Store.PutLength: a write at the slot one past the last is dropped instead of growing the length array. No pass writes a length there, and the read-out does not see that slot.
- Transitions.InterpolatedRamp: does not cover a negative start value ramping upward, where the JS `val` test differs from the sign test. Frame values are never negative.
- Transitions.TransitionTables.CreateTransitions: requires at least one tuple and every id below 80. `Render` returns early on no tuples, and the segmentation passes no END or BREAK. Under this precondition the table check inside `Read` never throws, so it is not modelled.
- Output.OutputBuffer.Ary: requires a row index 0-4 and five values. Every caller passes those.
