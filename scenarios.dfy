/** Worked runs of the pipeline, derived from the contracts alone. */
module Scenarios {
  import opened Wrappers
  import opened Transcription
  import opened PitchGroups
  import opened Report
  import opened Pipeline
  import PyStrings
  import Solfege

  /** Distinct rows, all equal to `rx` or `ry`, both present and sorted with `rx` cheaper, are `[rx, ry]`. */
  lemma TwoRows(rows: seq<Row>, rx: Row, ry: Row)
    requires rx.note != ry.note && rx.freq < ry.freq
    requires forall k :: 0 <= k < |rows| ==> rows[k] == rx || rows[k] == ry
    requires rx in rows && ry in rows
    requires forall a, b :: 0 <= a < b < |rows| ==> rows[a].note != rows[b].note
    requires forall a, b :: 0 <= a < b < |rows| ==> rows[a].freq <= rows[b].freq
    ensures rows == [rx, ry]
  {
    var c :| 0 <= c < |rows| && rows[c] == rx;
    var d :| 0 <= d < |rows| && rows[d] == ry;
    assert c < d;
    DistinctRowsBound(rows, {rx.note, ry.note});
    assert rows == [rows[c], rows[d]];
  }

  /** Rows with pairwise different names drawn from a set are no more than the set has names. */
  lemma {:induction false} DistinctRowsBound(rows: seq<Row>, names: set<string>)
    requires forall k :: 0 <= k < |rows| ==> rows[k].note in names
    requires forall a, b :: 0 <= a < b < |rows| ==> rows[a].note != rows[b].note
    ensures |rows| <= |names|
  {
    if rows != [] {
      var rest := names - {rows[0].note};
      forall k | 0 <= k < |rows[1..]| ensures rows[1..][k].note in rest {
        assert rows[1..][k] == rows[k + 1];
      }
      forall a, b | 0 <= a < b < |rows[1..]| ensures rows[1..][a].note != rows[1..][b].note {
        assert rows[1..][a] == rows[a + 1] && rows[1..][b] == rows[b + 1];
      }
      DistinctRowsBound(rows[1..], rest);
    }
  }

  function OctaveCandidates(): seq<Candidate> {
    [Candidate(261.6256, 60, "C", 261.6256), Candidate(0.0, 0, "", 0.0),
     Candidate(523.2511, 72, "C", 523.2511), Candidate(293.6648, 62, "D", 293.6648)]
  }

  lemma OctaveVoiced(cs: seq<Candidate>)
    requires cs == OctaveCandidates()
    ensures Voiced(cs) == [cs[0], cs[2], cs[3]]
  {
    assert Voiced(cs[3..]) == [cs[3]] by {
      assert cs[3..][1..] == [];
    }
    assert Voiced(cs[2..]) == [cs[2], cs[3]] by {
      assert cs[2..][1..] == cs[3..];
    }
    assert Voiced(cs[1..]) == [cs[2], cs[3]] by {
      assert cs[1..][1..] == cs[2..];
    }
  }

  lemma OctaveNotes(cs: seq<Candidate>)
    requires cs == OctaveCandidates()
    ensures NotesOf(cs) ==
              [Note("C", 60, 261.6256, 0.5, "Do"), Note("C", 72, 523.2511, 0.5, "Do"), Note("D", 62, 293.6648, 0.5, "Re")]
  {
    OctaveVoiced(cs);
    Solfege.LyricExamples();
    var notes := NotesOf(cs);
    assert |notes| == 3;
    assert notes[0] == Note("C", 60, 261.6256, 0.5, "Do");
    assert notes[1] == Note("C", 72, 523.2511, 0.5, "Do");
    assert notes[2] == Note("D", 62, 293.6648, 0.5, "Re");
  }

  lemma OctaveNames(notes: seq<Note>)
    requires notes == [Note("C", 60, 261.6256, 0.5, "Do"), Note("C", 72, 523.2511, 0.5, "Do"), Note("D", 62, 293.6648, 0.5, "Re")]
    ensures NameSet(notes) == {"C", "D"}
    ensures FirstIndex(notes, "C") == 0 && FirstIndex(notes, "D") == 2
  {
    assert notes[0].name == "C" && notes[2].name == "D";
  }

  /** The solfa table of the three notes: each row is the C row or the D row, and both occur. */
  lemma OctaveTable(rows: seq<Row>, notes: seq<Note>)
    requires notes == [Note("C", 60, 261.6256, 0.5, "Do"), Note("C", 72, 523.2511, 0.5, "Do"), Note("D", 62, 293.6648, 0.5, "Re")]
    requires IsSolfaTable(rows, notes)
    ensures rows == [Row("C", "Do", 261.6256), Row("D", "Re", 293.6648)]
  {
    OctaveNames(notes);
    var rx, ry := Row("C", "Do", 261.6256), Row("D", "Re", 293.6648);
    forall k | 0 <= k < |rows| ensures rows[k] == rx || rows[k] == ry {
      assert rows[k].note in NameSet(notes);
    }
    assert "C" in NameSet(notes) && "D" in NameSet(notes);
    var c :| 0 <= c < |rows| && rows[c].note == "C";
    var d :| 0 <= d < |rows| && rows[d].note == "D";
    assert rows[c] == rx && rows[d] == ry;
    TwoRows(rows, rx, ry);
  }

  lemma CBeforeD()
    ensures PyStrings.LexLe("C", "D") && !PyStrings.LexLe("D", "C")
  {
  }

  /**
   * C4, an unvoiced frame, C5 and D4, with music21's equal-tempered frequencies
   * rounded to four decimals: C4 and C5 share the group "C", which
   * keeps the frequency of C4; the table lists C before D.
   */
  method OctavesShareOneRow() returns (doc: Option<Report>)
    ensures doc.Some?
    ensures doc.value.totalNotes == 3 && doc.value.lowest == "C" && doc.value.highest == "D"
    ensures doc.value.rows == [Row("C", "Do", 261.6256), Row("D", "Re", 293.6648)]
  {
    var cs := OctaveCandidates();
    OctaveNotes(cs);
    var notes := NotesOf(cs);
    OctaveNames(notes);
    doc := ProcessAudio(Some(Analysis(cs, 120.0)), true, "", false, "/tmp");
    OctaveTable(doc.value.rows, notes);
    CBeforeD();
    var lo, hi := doc.value.lowest, doc.value.highest;
    assert lo in {"C", "D"} && hi in {"C", "D"};
    assert PyStrings.LexLe(lo, "C") && PyStrings.LexLe("D", hi);
  }

  /** Five unvoiced frames: no notes, so the pitch range fails and there is no document. */
  method SilenceGivesNoDocument() returns (doc: Option<Report>)
    ensures doc.None?
  {
    var silent := Candidate(0.0, 0, "", 0.0);
    var cs := [silent, silent, silent, silent, silent];
    NoVoicedNoNotes(cs);
    doc := ProcessAudio(Some(Analysis(cs, 90.0)), true, "key", true, "/tmp");
  }
}
