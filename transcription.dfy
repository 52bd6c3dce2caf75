/**
 * The note-building loop of `audio_to_notes` (Sanne/main.py): onsets whose
 * detected pitch is positive become notes, in onset order, each half a beat
 * long and carrying its solfege syllable as lyric.
 */
module Transcription {
  import Solfege

  /**
   * What the audio analysis yields for one onset: the strongest detected
   * frequency in that frame (`pitch_hz`), the rounded MIDI number
   * (`int(round(hz_to_midi(pitch_hz)))`), and the octave-less `pitch.name`
   * and `pitch.frequency` of the music21 pitch built from it.
   */
  datatype Candidate = Candidate(pitchHz: real, midi: int, name: string, frequency: real)

  /** A music21 note as the rest of the pipeline sees it. */
  datatype Note = Note(name: string, midi: int, frequency: real, duration: real, lyric: string)

  /** `music21.duration.Duration(0.5)`: every note lasts half a quarter. */
  const NOTE_DURATION: real := 0.5

  /** The guard `pitch_hz > 0`: frames without a detected pitch report 0. */
  predicate IsVoiced(c: Candidate) {
    c.pitchHz > 0.0
  }

  /** The candidates the loop keeps, in their original order. */
  function Voiced(cs: seq<Candidate>): (v: seq<Candidate>)
    ensures |v| <= |cs|
    ensures forall c :: c in v ==> c in cs && IsVoiced(c)
  {
    if cs == [] then []
    else if IsVoiced(cs[0]) then [cs[0]] + Voiced(cs[1..])
    else Voiced(cs[1..])
  }

  /** The loop body for a kept candidate: build the note and attach its lyric. */
  function MakeNote(c: Candidate): (n: Note)
    ensures n.name == c.name && n.midi == c.midi && n.frequency == c.frequency
    ensures n.duration == NOTE_DURATION
    ensures n.lyric != Solfege.UNKNOWN
  {
    Note(c.name, c.midi, c.frequency, NOTE_DURATION, Solfege.Lyric(c.midi))
  }

  /** A note's lyric is the table syllable of its rounded MIDI number's semitone class. */
  lemma NoteLyricFromTable(c: Candidate)
    ensures Solfege.SemitoneClass(c.midi) in Solfege.SOLFEGE_MAP
    ensures MakeNote(c).lyric == Solfege.SOLFEGE_MAP[Solfege.SemitoneClass(c.midi)]
  {
  }

  /** Filtering distributes over concatenation: no candidate is reordered. */
  lemma {:induction false} VoicedAppend(a: seq<Candidate>, b: seq<Candidate>)
    ensures Voiced(a + b) == Voiced(a) + Voiced(b)
  {
    if a == [] {
      assert a + b == b;
    } else {
      assert (a + b)[0] == a[0];
      assert (a + b)[1..] == a[1..] + b;
      VoicedAppend(a[1..], b);
    }
  }

  /** Every voiced candidate is kept. */
  lemma {:induction false} VoicedComplete(cs: seq<Candidate>)
    ensures forall c :: c in cs && IsVoiced(c) ==> c in Voiced(cs)
  {
    if cs != [] {
      VoicedComplete(cs[1..]);
      assert forall c :: c in cs ==> c == cs[0] || c in cs[1..];
    }
  }

  /** No notes exactly when no candidate is voiced (in particular, no onsets at all). */
  lemma {:induction false} NoVoicedNoNotes(cs: seq<Candidate>)
    ensures Voiced(cs) == [] <==> forall c :: c in cs ==> !IsVoiced(c)
  {
    VoicedComplete(cs);
    if Voiced(cs) != [] {
      assert Voiced(cs)[0] in Voiced(cs);
    }
  }

  /**
   * `notes` after the loop over `onset_times`: one note per voiced candidate,
   * in order, with duration 0.5 and the lyric of its own MIDI number.
   */
  method AudioToNotes(cs: seq<Candidate>) returns (notes: seq<Note>)
    ensures |notes| == |Voiced(cs)|
    ensures forall k :: 0 <= k < |notes| ==> notes[k] == MakeNote(Voiced(cs)[k])
    ensures forall k :: 0 <= k < |notes| ==>
              notes[k].duration == NOTE_DURATION && notes[k].lyric == Solfege.Lyric(notes[k].midi)
  {
    notes := [];
    var i := 0;
    while i < |cs|
      invariant 0 <= i <= |cs|
      invariant |notes| == |Voiced(cs[..i])|
      invariant forall k :: 0 <= k < |notes| ==> notes[k] == MakeNote(Voiced(cs[..i])[k])
    {
      var c := cs[i];
      assert cs[..i + 1] == cs[..i] + [c];
      VoicedAppend(cs[..i], [c]);
      if c.pitchHz > 0.0 {
        var semitone := Solfege.SemitoneClass(c.midi);
        var solfege := Solfege.Get(Solfege.SOLFEGE_MAP, semitone, Solfege.UNKNOWN);
        var note := Note(c.name, c.midi, c.frequency, NOTE_DURATION, solfege);
        assert note == MakeNote(c);
        notes := notes + [note];
      }
      i := i + 1;
    }
    assert cs[..i] == cs;
  }
}
