/**
 * `process_audio` (Sanne/main.py): notes from the audio analysis, a staff
 * picture from the rendering fallback, then the document. Any exception on
 * the way makes it return `None`; the ones the model can name are a failing
 * audio analysis and the empty pitch range of a recording without notes.
 */
module Pipeline {
  import opened Wrappers
  import opened Transcription
  import opened Report
  import Rendering

  /** What the audio analysis produces: the candidate onsets and the tempo estimate. */
  datatype Analysis = Analysis(candidates: seq<Candidate>, tempo: real)

  /**
   * The notes `audio_to_notes` returns for the candidates, in closed form:
   * every voiced candidate yields its note, and every note comes from one.
   */
  function NotesOf(cs: seq<Candidate>): (notes: seq<Note>)
    ensures forall c :: c in cs && IsVoiced(c) ==> MakeNote(c) in notes
    ensures forall n :: n in notes ==> exists c :: c in cs && IsVoiced(c) && n == MakeNote(c)
  {
    VoicedComplete(cs);
    var v := Voiced(cs);
    var notes := seq(|v|, k requires 0 <= k < |v| => MakeNote(v[k]));
    assert forall c :: c in v ==> MakeNote(c) in notes by {
      forall c | c in v ensures MakeNote(c) in notes {
        var k :| 0 <= k < |v| && v[k] == c;
        assert notes[k] == MakeNote(c);
      }
    }
    assert forall k :: 0 <= k < |notes| ==> v[k] in cs && IsVoiced(v[k]) && notes[k] == MakeNote(v[k]);
    notes
  }

  /**
   * The staff section of the document (`if img_path and os.path.exists(img_path)`)
   * shows the picture exactly when one of the renderers succeeded, since the
   * fallback hands on either nothing or the non-empty temporary path.
   */
  lemma StaffNotationIffRendered(traditionalOk: bool, apiKey: string, flatOk: bool, tempDir: string)
    ensures var r := Rendering.RenderFallback(traditionalOk, apiKey, flatOk, tempDir);
            HasStaffNotation(r.imgPath) <==> traditionalOk || (apiKey != "" && flatOk)
  {
    // The temporary path is never empty (`ImgPath`'s contract), so a handed-on path passes the test.
  }

  /**
   * `analysis` is `None` when loading or analysing the audio raises;
   * `traditionalOk`, `apiKey` and `flatOk` are what the two renderers see.
   */
  method ProcessAudio(analysis: Option<Analysis>, traditionalOk: bool, apiKey: string, flatOk: bool, tempDir: string)
    returns (doc: Option<Report>)
    ensures doc.None? <==> analysis.None? || Voiced(analysis.value.candidates) == []
    ensures doc.Some? ==>
              && doc.value.tempo == analysis.value.tempo
              && doc.value.totalNotes == |Voiced(analysis.value.candidates)|
              && doc.value.staffNotation == (traditionalOk || (apiKey != "" && flatOk))
              && IsSolfaTable(doc.value.rows, NotesOf(analysis.value.candidates))
              && IsPitchRange(doc.value.lowest, doc.value.highest, NotesOf(analysis.value.candidates))
  {
    if analysis.None? {
      return None;
    }
    var notes := AudioToNotes(analysis.value.candidates);
    assert notes == NotesOf(analysis.value.candidates);
    var rendering := Rendering.RenderFallback(traditionalOk, apiKey, flatOk, tempDir);
    var r := CreateProfessionalDoc(notes, analysis.value.tempo, rendering.imgPath);
    if r.Err? {
      return None;
    }
    doc := Some(r.value);
  }
}
