/**
 * The static phoneme data of the synthesizer: names, flag bits, durations,
 * blend parameters, formant frequencies and amplitudes, sampled-consonant
 * classes and the consonant sample pages.
 *
 * JavaScript arrays read `undefined` past their end. Every lookup below says
 * what that value turns into at the place the source uses it.
 */
module Phonemes {

  /** Breath-group separator and end-of-utterance marker. */
  const BREAK: int := 254
  const END: int := 255

  const PHONEME_PERIOD: int := 1
  const PHONEME_QUESTION: int := 2

  /** The stress alphabet, lowest first; index 0 ('*') is never a valid stress. */
  const StressTable: string := "*12345678"

  /** Two-character phoneme names; a '*' second character is a wildcard. */
  const PhonemeNameTable: seq<string> :=
    [ " *", ".*", "?*", ",*", "-*", "IY", "IH", "EH",
      "AE", "AA", "AH", "AO", "UH", "AX", "IX", "ER" ]
    +
    [ "UX", "OH", "RX", "LX", "WX", "YX", "WH", "R*",
      "L*", "W*", "Y*", "M*", "N*", "NX", "DX", "Q*" ]
    +
    [ "S*", "SH", "F*", "TH", "/H", "/X", "Z*", "ZH",
      "V*", "DH", "CH", "**", "J*", "**", "**", "**" ]
    +
    [ "EY", "AY", "OY", "AW", "OW", "UW", "B*", "**",
      "**", "D*", "**", "**", "G*", "**", "**", "GX" ]
    +
    [ "**", "**", "P*", "**", "**", "T*", "**", "**",
      "K*", "**", "**", "KX", "**", "**", "UL", "UM" ]
    +
    [ "UN" ]

  const FLAG_FRICATIVE: bv16 := 0x2000
  const FLAG_LIQUIC: bv16 := 0x1000
  const FLAG_NASAL: bv16 := 0x0800
  const FLAG_ALVEOLAR: bv16 := 0x0400
  const FLAG_PUNCT: bv16 := 0x0100
  const FLAG_VOWEL: bv16 := 0x0080
  const FLAG_CONSONANT: bv16 := 0x0040
  const FLAG_DIP_YX: bv16 := 0x0020
  const FLAG_DIPTHONG: bv16 := 0x0010
  const FLAG_0008: bv16 := 0x0008
  const FLAG_VOICED: bv16 := 0x0004
  const FLAG_STOPCONS: bv16 := 0x0002
  const FLAG_PLOSIVE: bv16 := 0x0001

  /** How many phoneme ids there are: 0..80. */
  const PHONEME_COUNT: int := 81

  /**
   * The `phonemeFlags` table, one entry per phoneme id, as a function; ids
   * outside it (BREAK, END, a hole) read as 0, as `undefined & flag` does.
   */
  function Flags(phoneme: int): bv16
  {
    if phoneme < 0 then 0
    else if phoneme < 16 then
      match phoneme
      case 0 => 0x8000 case 1 => 0xC100 case 2 => 0xC100 case 3 => 0xC100
      case 4 => 0xC100 case 5 => 0x00A4 case 6 => 0x00A4 case 7 => 0x00A4
      case 8 => 0x00A4 case 9 => 0x00A4 case 10 => 0x00A4 case 11 => 0x0084
      case 12 => 0x0084 case 13 => 0x00A4 case 14 => 0x00A4 case 15 => 0x0084
      case _ => 0
    else if phoneme < 32 then
      match phoneme
      case 16 => 0x0084 case 17 => 0x0084 case 18 => 0x0084 case 19 => 0x0084
      case 20 => 0x0084 case 21 => 0x0084 case 22 => 0x0044 case 23 => 0x1044
      case 24 => 0x1044 case 25 => 0x1044 case 26 => 0x1044 case 27 => 0x084C
      case 28 => 0x0C4C case 29 => 0x084C case 30 => 0x0448 case 31 => 0x404C
      case _ => 0
    else if phoneme < 48 then
      match phoneme
      case 32 => 0x2440 case 33 => 0x2040 case 34 => 0x2040 case 35 => 0x2440
      case 36 => 0x0040 case 37 => 0x0040 case 38 => 0x2444 case 39 => 0x2044
      case 40 => 0x2044 case 41 => 0x2444 case 42 => 0x2048 case 43 => 0x2040
      case 44 => 0x004C case 45 => 0x2044 case 46 => 0x0000 case 47 => 0x0000
      case _ => 0
    else if phoneme < 64 then
      match phoneme
      case 48 => 0x00B4 case 49 => 0x00B4 case 50 => 0x00B4 case 51 => 0x0094
      case 52 => 0x0094 case 53 => 0x0094 case 54 => 0x004E case 55 => 0x004E
      case 56 => 0x004E case 57 => 0x044E case 58 => 0x044E case 59 => 0x044E
      case 60 => 0x004E case 61 => 0x004E case 62 => 0x004E case 63 => 0x004E
      case _ => 0
    else if phoneme < 80 then
      match phoneme
      case 64 => 0x004E case 65 => 0x004E case 66 => 0x004B case 67 => 0x004B
      case 68 => 0x004B case 69 => 0x044B case 70 => 0x044B case 71 => 0x044B
      case 72 => 0x004B case 73 => 0x004B case 74 => 0x004B case 75 => 0x004B
      case 76 => 0x004B case 77 => 0x004B case 78 => 0x0080 case 79 => 0x00C1
      case _ => 0
    else if phoneme < 81 then
      match phoneme
      case 80 => 0x00C1
      case _ => 0
    else 0
  }


  /**
   * `combinedPhonemeLengthTable[p]`: the unstressed length in the low byte,
   * the stressed one in the high byte, for ids 0..79; UN (80) and ids outside
   * the table read `undefined`, which is 0 under both `& 0xFF` and `>> 8`.
   */
  function LengthEntry(phoneme: int): int
  {
    if phoneme < 0 then 0
    else if phoneme < 16 then
      match phoneme
      case 0 => 0x0000 case 1 => 0x1212 case 2 => 0x1212 case 3 => 0x1212
      case 4 => 0x0808 case 5 => 0x0B08 case 6 => 0x0908 case 7 => 0x0B08
      case 8 => 0x0E08 case 9 => 0x0F0B case 10 => 0x0B06 case 11 => 0x100C
      case 12 => 0x0C0A case 13 => 0x0605 case 14 => 0x0605 case 15 => 0x0E0B
      case _ => 0
    else if phoneme < 32 then
      match phoneme
      case 16 => 0x0C0A case 17 => 0x0E0A case 18 => 0x0C0A case 19 => 0x0B09
      case 20 => 0x0808 case 21 => 0x0807 case 22 => 0x0B09 case 23 => 0x0A07
      case 24 => 0x0906 case 25 => 0x0808 case 26 => 0x0806 case 27 => 0x0807
      case 28 => 0x0807 case 29 => 0x0807 case 30 => 0x0302 case 31 => 0x0505
      case _ => 0
    else if phoneme < 48 then
      match phoneme
      case 32 => 0x0202 case 33 => 0x0202 case 34 => 0x0202 case 35 => 0x0202
      case 36 => 0x0202 case 37 => 0x0202 case 38 => 0x0606 case 39 => 0x0606
      case 40 => 0x0807 case 41 => 0x0606 case 42 => 0x0606 case 43 => 0x0202
      case 44 => 0x0908 case 45 => 0x0403 case 46 => 0x0201 case 47 => 0x011E
      case _ => 0
    else if phoneme < 64 then
      match phoneme
      case 48 => 0x0E0D case 49 => 0x0F0C case 50 => 0x0F0C case 51 => 0x0F0C
      case 52 => 0x0E0E case 53 => 0x0E09 case 54 => 0x0806 case 55 => 0x0201
      case 56 => 0x0202 case 57 => 0x0705 case 58 => 0x0201 case 59 => 0x0101
      case 60 => 0x0706 case 61 => 0x0201 case 62 => 0x0202 case 63 => 0x0706
      case _ => 0
    else if phoneme < 80 then
      match phoneme
      case 64 => 0x0201 case 65 => 0x0202 case 66 => 0x0808 case 67 => 0x0202
      case 68 => 0x0202 case 69 => 0x0604 case 70 => 0x0202 case 71 => 0x0202
      case 72 => 0x0706 case 73 => 0x0201 case 74 => 0x0404 case 75 => 0x0706
      case 76 => 0x0101 case 77 => 0x0404 case 78 => 0x05C7 case 79 => 0x05FF
      case _ => 0
    else 0
  }

  /**
   * `blendRank[p]`: of two neighbours with different ranks, the one with
   * the higher rank value supplies both blend lengths; ids outside the
   * table read 0.
   */
  function BlendRank(phoneme: int): (r: int)
    ensures 0 <= r < 256
  {
    if phoneme < 0 then 0
    else if phoneme < 16 then
      match phoneme
      case 0 => 0x00 case 1 => 0x1F case 2 => 0x1F case 3 => 0x1F
      case 4 => 0x1F case 5 => 0x02 case 6 => 0x02 case 7 => 0x02
      case 8 => 0x02 case 9 => 0x02 case 10 => 0x02 case 11 => 0x02
      case 12 => 0x02 case 13 => 0x02 case 14 => 0x05 case 15 => 0x05
      case _ => 0
    else if phoneme < 32 then
      match phoneme
      case 16 => 0x02 case 17 => 0x0A case 18 => 0x02 case 19 => 0x08
      case 20 => 0x05 case 21 => 0x05 case 22 => 0x0B case 23 => 0x0A
      case 24 => 0x09 case 25 => 0x08 case 26 => 0x08 case 27 => 0xA0
      case 28 => 0x08 case 29 => 0x08 case 30 => 0x17 case 31 => 0x1F
      case _ => 0
    else if phoneme < 48 then
      match phoneme
      case 32 => 0x12 case 33 => 0x12 case 34 => 0x12 case 35 => 0x12
      case 36 => 0x1E case 37 => 0x1E case 38 => 0x14 case 39 => 0x14
      case 40 => 0x14 case 41 => 0x14 case 42 => 0x17 case 43 => 0x17
      case 44 => 0x1A case 45 => 0x1A case 46 => 0x1D case 47 => 0x1D
      case _ => 0
    else if phoneme < 64 then
      match phoneme
      case 48 => 0x02 case 49 => 0x02 case 50 => 0x02 case 51 => 0x02
      case 52 => 0x02 case 53 => 0x02 case 54 => 0x1A case 55 => 0x1D
      case 56 => 0x1B case 57 => 0x1A case 58 => 0x1D case 59 => 0x1B
      case 60 => 0x1A case 61 => 0x1D case 62 => 0x1B case 63 => 0x1A
      case _ => 0
    else if phoneme < 80 then
      match phoneme
      case 64 => 0x1D case 65 => 0x1B case 66 => 0x17 case 67 => 0x1D
      case 68 => 0x17 case 69 => 0x17 case 70 => 0x1D case 71 => 0x17
      case 72 => 0x17 case 73 => 0x1D case 74 => 0x17 case 75 => 0x17
      case 76 => 0x1D case 77 => 0x17 case 78 => 0x17 case 79 => 0x17
      case _ => 0
    else 0
  }

  /**
   * `outBlendLength[p]`: frames at the end of a phoneme spent blending
   * into the next one.
   */
  function OutBlendLength(phoneme: int): (r: int)
    ensures 0 <= r < 256
  {
    if phoneme < 0 then 0
    else if phoneme < 16 then
      match phoneme
      case 0 => 0x00 case 1 => 0x02 case 2 => 0x02 case 3 => 0x02
      case 4 => 0x02 case 5 => 0x04 case 6 => 0x04 case 7 => 0x04
      case 8 => 0x04 case 9 => 0x04 case 10 => 0x04 case 11 => 0x04
      case 12 => 0x04 case 13 => 0x04 case 14 => 0x04 case 15 => 0x04
      case _ => 0
    else if phoneme < 32 then
      match phoneme
      case 16 => 0x04 case 17 => 0x04 case 18 => 0x03 case 19 => 0x02
      case 20 => 0x04 case 21 => 0x04 case 22 => 0x02 case 23 => 0x02
      case 24 => 0x02 case 25 => 0x02 case 26 => 0x02 case 27 => 0x01
      case 28 => 0x01 case 29 => 0x01 case 30 => 0x01 case 31 => 0x01
      case _ => 0
    else if phoneme < 48 then
      match phoneme
      case 32 => 0x01 case 33 => 0x01 case 34 => 0x01 case 35 => 0x01
      case 36 => 0x01 case 37 => 0x01 case 38 => 0x02 case 39 => 0x02
      case 40 => 0x02 case 41 => 0x01 case 42 => 0x00 case 43 => 0x01
      case 44 => 0x00 case 45 => 0x01 case 46 => 0x00 case 47 => 0x05
      case _ => 0
    else if phoneme < 64 then
      match phoneme
      case 48 => 0x05 case 49 => 0x05 case 50 => 0x05 case 51 => 0x05
      case 52 => 0x04 case 53 => 0x04 case 54 => 0x02 case 55 => 0x00
      case 56 => 0x01 case 57 => 0x02 case 58 => 0x00 case 59 => 0x01
      case 60 => 0x02 case 61 => 0x00 case 62 => 0x01 case 63 => 0x02
      case _ => 0
    else if phoneme < 80 then
      match phoneme
      case 64 => 0x00 case 65 => 0x01 case 66 => 0x02 case 67 => 0x00
      case 68 => 0x02 case 69 => 0x02 case 70 => 0x00 case 71 => 0x01
      case 72 => 0x03 case 73 => 0x00 case 74 => 0x02 case 75 => 0x03
      case 76 => 0x00 case 77 => 0x02 case 78 => 0xA0 case 79 => 0xA0
      case _ => 0
    else 0
  }

  /**
   * `inBlendLength[p]`: frames at the start of a phoneme spent blending
   * from the previous one.
   */
  function InBlendLength(phoneme: int): (r: int)
    ensures 0 <= r < 256
  {
    if phoneme < 0 then 0
    else if phoneme < 16 then
      match phoneme
      case 0 => 0x00 case 1 => 0x02 case 2 => 0x02 case 3 => 0x02
      case 4 => 0x02 case 5 => 0x04 case 6 => 0x04 case 7 => 0x04
      case 8 => 0x04 case 9 => 0x04 case 10 => 0x04 case 11 => 0x04
      case 12 => 0x04 case 13 => 0x04 case 14 => 0x04 case 15 => 0x04
      case _ => 0
    else if phoneme < 32 then
      match phoneme
      case 16 => 0x04 case 17 => 0x04 case 18 => 0x03 case 19 => 0x03
      case 20 => 0x04 case 21 => 0x04 case 22 => 0x03 case 23 => 0x03
      case 24 => 0x03 case 25 => 0x03 case 26 => 0x03 case 27 => 0x01
      case 28 => 0x02 case 29 => 0x03 case 30 => 0x02 case 31 => 0x01
      case _ => 0
    else if phoneme < 48 then
      match phoneme
      case 32 => 0x03 case 33 => 0x03 case 34 => 0x03 case 35 => 0x03
      case 36 => 0x01 case 37 => 0x01 case 38 => 0x03 case 39 => 0x03
      case 40 => 0x03 case 41 => 0x02 case 42 => 0x02 case 43 => 0x03
      case 44 => 0x02 case 45 => 0x03 case 46 => 0x00 case 47 => 0x00
      case _ => 0
    else if phoneme < 64 then
      match phoneme
      case 48 => 0x05 case 49 => 0x05 case 50 => 0x05 case 51 => 0x05
      case 52 => 0x04 case 53 => 0x04 case 54 => 0x02 case 55 => 0x00
      case 56 => 0x02 case 57 => 0x02 case 58 => 0x00 case 59 => 0x03
      case 60 => 0x02 case 61 => 0x00 case 62 => 0x04 case 63 => 0x02
      case _ => 0
    else if phoneme < 80 then
      match phoneme
      case 64 => 0x00 case 65 => 0x03 case 66 => 0x02 case 67 => 0x00
      case 68 => 0x02 case 69 => 0x02 case 70 => 0x00 case 71 => 0x02
      case 72 => 0x03 case 73 => 0x00 case 74 => 0x03 case 75 => 0x03
      case 76 => 0x00 case 77 => 0x03 case 78 => 0xB0 case 79 => 0xA0
      case _ => 0
    else 0
  }

  /**
   * `sampledConsonantFlags[p]`: sample page and offset of an unvoiced
   * consonant, 0 for every other phoneme.
   */
  function SampledConsonantFlags(phoneme: int): int
  {
    if phoneme < 0 then 0
    else if phoneme < 16 then
      match phoneme
      case 0 => 0x00 case 1 => 0x00 case 2 => 0x00 case 3 => 0x00
      case 4 => 0x00 case 5 => 0x00 case 6 => 0x00 case 7 => 0x00
      case 8 => 0x00 case 9 => 0x00 case 10 => 0x00 case 11 => 0x00
      case 12 => 0x00 case 13 => 0x00 case 14 => 0x00 case 15 => 0x00
      case _ => 0
    else if phoneme < 32 then
      match phoneme
      case 16 => 0x00 case 17 => 0x00 case 18 => 0x00 case 19 => 0x00
      case 20 => 0x00 case 21 => 0x00 case 22 => 0x00 case 23 => 0x00
      case 24 => 0x00 case 25 => 0x00 case 26 => 0x00 case 27 => 0x00
      case 28 => 0x00 case 29 => 0x00 case 30 => 0x00 case 31 => 0x00
      case _ => 0
    else if phoneme < 48 then
      match phoneme
      case 32 => 0xF1 case 33 => 0xE2 case 34 => 0xD3 case 35 => 0xBB
      case 36 => 0x7C case 37 => 0x95 case 38 => 0x01 case 39 => 0x02
      case 40 => 0x03 case 41 => 0x03 case 42 => 0x00 case 43 => 0x72
      case 44 => 0x00 case 45 => 0x02 case 46 => 0x00 case 47 => 0x00
      case _ => 0
    else if phoneme < 64 then
      match phoneme
      case 48 => 0x00 case 49 => 0x00 case 50 => 0x00 case 51 => 0x00
      case 52 => 0x00 case 53 => 0x00 case 54 => 0x00 case 55 => 0x00
      case 56 => 0x00 case 57 => 0x00 case 58 => 0x00 case 59 => 0x00
      case 60 => 0x00 case 61 => 0x00 case 62 => 0x00 case 63 => 0x00
      case _ => 0
    else if phoneme < 80 then
      match phoneme
      case 64 => 0x00 case 65 => 0x00 case 66 => 0x00 case 67 => 0x1B
      case 68 => 0x00 case 69 => 0x00 case 70 => 0x19 case 71 => 0x00
      case 72 => 0x00 case 73 => 0x00 case 74 => 0x00 case 75 => 0x00
      case 76 => 0x00 case 77 => 0x00 case 78 => 0x00 case 79 => 0x00
      case _ => 0
    else 0
  }

  /**
   * `frequencyData[p]`: F1 in the low byte, F2 in the middle byte, F3 in
   * the high byte.
   */
  function FrequencyEntry(phoneme: int): int
  {
    if phoneme < 0 then 0
    else if phoneme < 16 then
      match phoneme
      case 0 => 0x000000 case 1 => 0x5B4313 case 2 => 0x5B4313 case 3 => 0x5B4313
      case 4 => 0x5B4313 case 5 => 0x6E540A case 6 => 0x5D480E case 7 => 0x5B4212
      case 8 => 0x583E18 case 9 => 0x59281A case 10 => 0x572C16 case 11 => 0x581E14
      case 12 => 0x522410 case 13 => 0x592C14 case 14 => 0x5D480E case 15 => 0x3E3012
      case _ => 0
    else if phoneme < 32 then
      match phoneme
      case 16 => 0x52240E case 17 => 0x581E12 case 18 => 0x3E3212 case 19 => 0x6E2410
      case 20 => 0x501C0C case 21 => 0x5D440E case 22 => 0x5A180A case 23 => 0x3C3212
      case 24 => 0x6E1E0E case 25 => 0x5A180A case 26 => 0x6E5208 case 27 => 0x512E06
      case 28 => 0x793606 case 29 => 0x655606 case 30 => 0x793606 case 31 => 0x5B4311
      case _ => 0
    else if phoneme < 48 then
      match phoneme
      case 32 => 0x634906 case 33 => 0x6A4F06 case 34 => 0x511A06 case 35 => 0x794206
      case 36 => 0x5D490E case 37 => 0x522510 case 38 => 0x5D3309 case 39 => 0x67420A
      case 40 => 0x4C2808 case 41 => 0x5D2F0A case 42 => 0x654F06 case 43 => 0x654F06
      case 44 => 0x794206 case 45 => 0x654F05 case 46 => 0x796E06 case 47 => 0x000000
      case _ => 0
    else if phoneme < 64 then
      match phoneme
      case 48 => 0x5A4812 case 49 => 0x58261A case 50 => 0x581E14 case 51 => 0x582A1A
      case 52 => 0x581E12 case 53 => 0x52220C case 54 => 0x511A06 case 55 => 0x511A06
      case 56 => 0x511A06 case 57 => 0x794206 case 58 => 0x794206 case 59 => 0x794206
      case 60 => 0x706E06 case 61 => 0x6E6E06 case 62 => 0x6E6E06 case 63 => 0x5E5406
      case _ => 0
    else if phoneme < 80 then
      match phoneme
      case 64 => 0x5E5406 case 65 => 0x5E5406 case 66 => 0x511A06 case 67 => 0x511A06
      case 68 => 0x511A06 case 69 => 0x794206 case 70 => 0x794206 case 71 => 0x794206
      case 72 => 0x656D06 case 73 => 0x65560A case 74 => 0x706D0A case 75 => 0x5E5406
      case 76 => 0x5E5406 case 77 => 0x5E5406 case 78 => 0x087F2C case 79 => 0x017F13
      case _ => 0
    else 0
  }

  /**
   * `ampldata[p]`: the amplitudes of F1, F2 and F3, packed the same way;
   * an id outside the table reads `undefined`, which every mask turns into 0.
   */
  function AmplitudeEntry(phoneme: int): int
  {
    if phoneme < 0 then 0
    else if phoneme < 16 then
      match phoneme
      case 0 => 0x000000 case 1 => 0x000000 case 2 => 0x000000 case 3 => 0x000000
      case 4 => 0x000000 case 5 => 0x080A0D case 6 => 0x070B0D case 7 => 0x080D0E
      case 8 => 0x080E0F case 9 => 0x010D0F case 10 => 0x010C0F case 11 => 0x000C0F
      case 12 => 0x010B0F case 13 => 0x00090C case 14 => 0x070B0D case 15 => 0x050B0C
      case _ => 0
    else if phoneme < 32 then
      match phoneme
      case 16 => 0x010C0F case 17 => 0x000C0F case 18 => 0x060C0D case 19 => 0x01080D
      case 20 => 0x00080D case 21 => 0x070C0E case 22 => 0x00080D case 23 => 0x050A0C
      case 24 => 0x01080D case 25 => 0x00080D case 26 => 0x080A0D case 27 => 0x00030C
      case 28 => 0x000909 case 29 => 0x030609 case 30 => 0x000000 case 31 => 0x000000
      case _ => 0
    else if phoneme < 48 then
      match phoneme
      case 32 => 0x000000 case 33 => 0x000000 case 34 => 0x000000 case 35 => 0x000000
      case 36 => 0x000000 case 37 => 0x000000 case 38 => 0x00030B case 39 => 0x01050B
      case 40 => 0x00030B case 41 => 0x00040B case 42 => 0x000000 case 43 => 0x000000
      case 44 => 0x000001 case 45 => 0x01050B case 46 => 0x0E0A00 case 47 => 0x010202
      case _ => 0
    else if phoneme < 64 then
      match phoneme
      case 48 => 0x090E0E case 49 => 0x010D0F case 50 => 0x000C0F case 51 => 0x010D0F
      case 52 => 0x000C0F case 53 => 0x00080D case 54 => 0x000002 case 55 => 0x000104
      case 56 => 0x000000 case 57 => 0x000002 case 58 => 0x000104 case 59 => 0x000000
      case 60 => 0x000001 case 61 => 0x000104 case 62 => 0x000000 case 63 => 0x000001
      case _ => 0
    else if phoneme < 80 then
      match phoneme
      case 64 => 0x000104 case 65 => 0x000000 case 66 => 0x000000 case 67 => 0x000000
      case 68 => 0x000000 case 69 => 0x000000 case 70 => 0x000000 case 71 => 0x000000
      case 72 => 0x000000 case 73 => 0x070A0C case 74 => 0x000000 case 75 => 0x000000
      case 76 => 0x050A00 case 77 => 0x000000 case 78 => 0x13000F case 79 => 0x10000F
      case _ => 0
    else 0
  }

  /**
   * `stressPitch_tab47492[i]`: the pitch offset for stress i - 1.
   */
  function StressPitch(i: int): int
  {
    if i < 0 then 0
    else if i < 11 then
      match i
      case 0 => 0x00 case 1 => 0x00 case 2 => 0xE0 case 3 => 0xE6
      case 4 => 0xEC case 5 => 0xF3 case 6 => 0xF9 case 7 => 0x00
      case 8 => 0x06 case 9 => 0x0C case 10 => 0x06
      case _ => 0
    else 0
  }

  /**
   * `mouthFormants5_29[i]`: the F1 base of the voiced phonemes, indexed
   * by id (entries 0..4 are 0).
   */
  function MouthFormant(i: int): int
  {
    if i < 0 then 0
    else if i < 16 then
      match i
      case 0 => 0 case 1 => 0 case 2 => 0 case 3 => 0
      case 4 => 0 case 5 => 10 case 6 => 14 case 7 => 19
      case 8 => 24 case 9 => 27 case 10 => 23 case 11 => 21
      case 12 => 16 case 13 => 20 case 14 => 14 case 15 => 18
      case _ => 0
    else if i < 30 then
      match i
      case 16 => 14 case 17 => 18 case 18 => 18 case 19 => 16
      case 20 => 13 case 21 => 15 case 22 => 11 case 23 => 18
      case 24 => 14 case 25 => 11 case 26 => 9 case 27 => 6
      case 28 => 6 case 29 => 6
      case _ => 0
    else 0
  }

  /**
   * `throatFormants5_29[i]`: the F2 base of the voiced phonemes, indexed
   * by id (entries 0..4 are 255).
   */
  function ThroatFormant(i: int): int
  {
    if i < 0 then 0
    else if i < 16 then
      match i
      case 0 => 255 case 1 => 255 case 2 => 255 case 3 => 255
      case 4 => 255 case 5 => 84 case 6 => 73 case 7 => 67
      case 8 => 63 case 9 => 40 case 10 => 44 case 11 => 31
      case 12 => 37 case 13 => 45 case 14 => 73 case 15 => 49
      case _ => 0
    else if i < 30 then
      match i
      case 16 => 36 case 17 => 30 case 18 => 51 case 19 => 37
      case 20 => 29 case 21 => 69 case 22 => 24 case 23 => 50
      case 24 => 30 case 25 => 24 case 26 => 83 case 27 => 46
      case 28 => 54 case 29 => 86
      case _ => 0
    else 0
  }

  /**
   * `mouthFormants48_53[i]`: the F1 base of the diphthongs 48 + i.
   */
  function DiphthongMouthFormant(i: int): int
  {
    if i < 0 then 0
    else if i < 6 then
      match i
      case 0 => 19 case 1 => 27 case 2 => 21 case 3 => 27
      case 4 => 18 case 5 => 13
      case _ => 0
    else 0
  }

  /**
   * `throatFormants48_53[i]`: the F2 base of the diphthongs 48 + i.
   */
  function DiphthongThroatFormant(i: int): int
  {
    if i < 0 then 0
    else if i < 6 then
      match i
      case 0 => 72 case 1 => 39 case 2 => 31 case 3 => 43
      case 4 => 30 case 5 => 34
      case _ => 0
    else 0
  }

  // ---------------------------------------------------------------------
  // Flag tests

  predicate MatchesBitmask(bits: bv16, mask: bv16)
  {
    bits & mask != 0
  }

  predicate HasFlag(phoneme: int, flag: bv16)
  {
    MatchesBitmask(Flags(phoneme), flag)
  }

  // ---------------------------------------------------------------------
  // Table lookups with the source's out-of-range behaviour

  function UnstressedLength(phoneme: int): int
  {
    LengthEntry(phoneme) % 256
  }

  function StressedLength(phoneme: int): int
  {
    LengthEntry(phoneme) / 256
  }

  /** Byte k (0, 1 or 2) of a packed table entry: `(v >> 8*k) & 0xFF`. */
  function PackedByte(v: int, k: nat): int
    requires k < 3
  {
    if k == 0 then v % 256 else if k == 1 then (v / 256) % 256 else (v / 65536) % 256
  }

  /** No stressed length has bit 7 set. */
  lemma StressedLengthByte(p: int)
    ensures 0 <= StressedLength(p) < 128
  {
    if p < 0 || p >= PHONEME_COUNT {
    } else if p < 16 {
    } else if p < 32 {
    } else if p < 48 {
    } else if p < 64 {
    } else {
    }
  }

  /** Only UL and UM have an unstressed length with bit 7 set. */
  lemma UnstressedLengthByte(p: int)
    ensures UnstressedLength(p) >= 128 <==> p == 78 || p == 79
  {
    if p < 0 || p >= PHONEME_COUNT {
    } else if p < 16 {
    } else if p < 32 {
    } else if p < 48 {
    } else if p < 64 {
    } else {
    }
  }

  /** The stop consonants are B* to KX with their closure phonemes, ids 54 to 77. */
  lemma StopConsonantIds(p: int)
    ensures HasFlag(p, FLAG_STOPCONS) <==> 54 <= p <= 77
  {
    if p < 0 || p >= PHONEME_COUNT {
    } else if p < 16 {
    } else if p < 32 {
    } else if p < 48 {
    } else if p < 64 {
    } else {
    }
  }

  /** UM and UN are the only phonemes flagged both vowel and consonant. */
  lemma VowelConsonants(p: int)
    ensures HasFlag(p, FLAG_VOWEL) && HasFlag(p, FLAG_CONSONANT) <==> p == 79 || p == 80
  {
    if p < 0 || p >= PHONEME_COUNT {
    } else if p < 16 {
    } else if p < 32 {
    } else if p < 48 {
    } else if p < 64 {
    } else {
    }
  }

  /** WX is a vowel but no diphthong, UW is a diphthong, and END has no flags at all. */
  lemma DiphthongFlags()
    ensures !HasFlag(20, FLAG_DIPTHONG) && HasFlag(20, FLAG_VOWEL) && HasFlag(53, FLAG_DIPTHONG)
    ensures Flags(END) == 0 && !HasFlag(END, FLAG_VOWEL)
  {
    assert Flags(20) == 0x0084;
    assert Flags(53) == 0x0094;
  }
}
