/**
 * The chromatic solfege table of the Flask service and the semitone class
 * computed from a rounded MIDI number (Sanne/main.py).
 */
module Solfege {

  /** `SOLFEGE_MAP`: one syllable per semitone class, raised syllables for the black keys. */
  const SOLFEGE_MAP: map<int, string> := map[
    0 := "Do", 1 := "Di", 2 := "Re", 3 := "Ri", 4 := "Mi",
    5 := "Fa", 6 := "Fi", 7 := "Sol", 8 := "Si", 9 := "La",
    10 := "Li", 11 := "Ti"
  ]

  /** The default of the `SOLFEGE_MAP.get(semitone, '?')` lookup. */
  const UNKNOWN: string := "?"

  /** Python's `dict.get(key, default)`. */
  function Get(m: map<int, string>, key: int, default: string): string {
    if key in m then m[key] else default
  }

  /**
   * `int(round(midi)) % 12` for an already rounded MIDI number. Python's `%`
   * with a positive modulus is never negative, like Dafny's, so negative MIDI
   * numbers land in the right class too.
   */
  function SemitoneClass(midi: int): (s: int)
    ensures 0 <= s < 12
    ensures (midi - s) % 12 == 0
  {
    midi % 12
  }

  /**
   * The lyric attached to a note: `SOLFEGE_MAP.get(int(round(midi)) % 12, '?')`.
   * The lookup never misses, so the default never shows.
   */
  function Lyric(midi: int): (syllable: string)
    ensures SemitoneClass(midi) in SOLFEGE_MAP && syllable == SOLFEGE_MAP[SemitoneClass(midi)]
    ensures syllable != UNKNOWN
  {
    Get(SOLFEGE_MAP, SemitoneClass(midi), UNKNOWN)
  }

  /** Every lyric is one of the twelve syllables of the table. */
  lemma LyricInTable(midi: int)
    ensures Lyric(midi) in SOLFEGE_MAP.Values
  {
  }

  /** The table is defined on exactly the twelve semitone classes 0..11. */
  lemma TableDomain()
    ensures forall k :: k in SOLFEGE_MAP <==> 0 <= k < 12
  {
  }

  /** No two semitone classes share a syllable. */
  lemma TableInjective()
    ensures forall a, b :: a in SOLFEGE_MAP && b in SOLFEGE_MAP && a != b ==> SOLFEGE_MAP[a] != SOLFEGE_MAP[b]
  {
  }

  /** A key outside 0..11 falls back to the default; the lyric computation never produces one. */
  lemma OutsideTableIsUnknown(k: int)
    requires k < 0 || 12 <= k
    ensures Get(SOLFEGE_MAP, k, UNKNOWN) == UNKNOWN
  {
  }

  /** The lyric depends only on the semitone class: moving by whole octaves keeps it. */
  lemma LyricOctaveInvariant(midi: int, octaves: int)
    ensures Lyric(midi + 12 * octaves) == Lyric(midi)
  {
    // Both MIDI numbers have the same semitone class, hence the same key.
  }

  /** Worked values of the table, including a negative MIDI number. */
  lemma LyricExamples()
    ensures Lyric(60) == "Do" && Lyric(61) == "Di" && Lyric(67) == "Sol" && Lyric(71) == "Ti"
    ensures Lyric(62) == "Re" && Lyric(69) == "La" && Lyric(72) == "Do"
    ensures Lyric(-1) == "Ti" && Lyric(-12) == "Do"
  {
  }
}
