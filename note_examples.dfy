/**
 * Concrete transpositions: the cases the engine meets when it moves the
 * catalogue's chords, and the texts it leaves alone.
 */
module NoteExamples {
  import opened Options
  import opened JsText
  import opened Constants
  import opened MusicTheory
  import opened NoteProperties

  /** Chains the reading of `text` as a pitch, the pitch shift and the
      writing of the shifted pitch. */
  lemma TransposeVia(text: string, p: Pitch, semitones: int, q: Pitch, out: string)
    requires 0 <= p.index < |NOTES| && RenderPitch(p) == text
    requires ShiftPitch(p, semitones) == q && RenderPitch(q) == out
    ensures TransposeNote(text, semitones) == out
  {
    TransposeRendered(p, semitones);
  }

  /** A semitone up from B carries into the next octave. */
  lemma ExampleCarryUp()
    ensures TransposeNote("B3", 1) == "C4"
  {
    assert RenderPitch(Pitch(11, 3)) == "B3";
    assert RenderPitch(Pitch(0, 4)) == "C4";
    TransposeVia("B3", Pitch(11, 3), 1, Pitch(0, 4), "C4");
  }

  /** A semitone down from C borrows from the octave. */
  lemma ExampleCarryDown()
    ensures TransposeNote("C2", -1) == "B1"
  {
    assert RenderPitch(Pitch(0, 2)) == "C2";
    assert RenderPitch(Pitch(11, 1)) == "B1";
    TransposeVia("C2", Pitch(0, 2), -1, Pitch(11, 1), "B1");
  }

  /** The notes of the open E shape moved up to G: E2 B2 E3 become
      G2 D3 G3 (one lemma per note). */
  lemma ExampleEToGRoot()
    ensures TransposeNote("E2", 3) == "G2"
  {
    assert RenderPitch(Pitch(4, 2)) == "E2";
    assert RenderPitch(Pitch(7, 2)) == "G2";
    TransposeVia("E2", Pitch(4, 2), 3, Pitch(7, 2), "G2");
  }

  lemma ExampleEToGFifth()
    ensures TransposeNote("B2", 3) == "D3"
  {
    assert RenderPitch(Pitch(11, 2)) == "B2";
    assert RenderPitch(Pitch(2, 3)) == "D3";
    TransposeVia("B2", Pitch(11, 2), 3, Pitch(2, 3), "D3");
  }

  lemma ExampleEToGOctave()
    ensures TransposeNote("E3", 3) == "G3"
  {
    assert RenderPitch(Pitch(4, 3)) == "E3";
    assert RenderPitch(Pitch(7, 3)) == "G3";
    TransposeVia("E3", Pitch(4, 3), 3, Pitch(7, 3), "G3");
  }

  /** A shift of more than an octave downwards: F#3 down 30 semitones is
      C1. */
  lemma ExampleLargeShift()
    ensures TransposeNote("F#3", -30) == "C1"
  {
    assert RenderPitch(Pitch(6, 3)) == "F#3";
    assert RenderPitch(Pitch(0, 1)) == "C1";
    TransposeVia("F#3", Pitch(6, 3), -30, Pitch(0, 1), "C1");
  }

  /** Negative octaves are read and written with their sign. */
  lemma ExampleNegativeOctave()
    ensures TransposeNote("C0", -1) == "B-1"
  {
    assert RenderPitch(Pitch(0, 0)) == "C0";
    assert RenderPitch(Pitch(11, -1)) == "B-1";
    TransposeVia("C0", Pitch(0, 0), -1, Pitch(11, -1), "B-1");
  }

  /** A sharp the table does not contain: the pattern matches "E#2" but
      "E#" is not a table entry, so the note is kept. */
  lemma ExampleUnknownSharp()
    ensures TransposeNote("E#2", 3) == "E#2"
    ensures TransposeNote("B#3", 3) == "B#3"
  {
    assert "E#2"[..MatchNote("E#2")] == "E#";
    assert IndexOf(NOTES, "E#") == -1;
    TransposeNoteSoftFail("E#2", 3);
    assert "B#3"[..MatchNote("B#3")] == "B#";
    assert IndexOf(NOTES, "B#") == -1;
    TransposeNoteSoftFail("B#3", 3);
  }

  /** Flat spellings and lower-case letters do not match the pattern. */
  lemma ExampleNoMatch()
    ensures TransposeNote("Db3", 3) == "Db3"
    ensures TransposeNote("e2", 3) == "e2"
  {
    assert "Db3"[1..][0] == 'b';
    assert MatchNote("Db3") == 0;
    TransposeNoteSoftFail("Db3", 3);
    assert MatchNote("e2") == 0;
    TransposeNoteSoftFail("e2", 3);
  }

  /** "E02" reads as E2 but is not spelled canonically. */
  lemma ReadLeadingZero()
    ensures PitchOf("E02") == Some(Pitch(4, 2))
    ensures !CanonicalNote("E02")
  {
    assert MatchNote("E02") == 1;
    assert "E02"[..1] == "E" && "E02"[1..] == "02";
    IndexOfNote(4);
    ParseIntDigits("02");
  }

  /** "E02" is read as E2, so a shift and its reverse give "E2", not the
      original text: the round trip needs a canonically spelled octave. */
  lemma ExampleLeadingZero()
    ensures TransposeNote(TransposeNote("E02", 3), -3) == "E2"
  {
    ReadLeadingZero();
    TransposeReadable("E02", 3, Pitch(4, 2));
    assert ShiftPitch(Pitch(4, 2), 3) == Pitch(7, 2);
    assert RenderPitch(Pitch(7, 2)) == "G2";
    assert RenderPitch(Pitch(4, 2)) == "E2";
    TransposeVia("G2", Pitch(7, 2), -3, Pitch(4, 2), "E2");
  }
}
