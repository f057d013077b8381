/**
 * One chord of the catalogue, `The "Ghost" Chord` (m(add9) on E), moved to
 * G in STANDARD tuning, field by field and then as a whole record.
 */
module CatalogueExamples {
  import opened Options
  import opened JsText
  import opened Types
  import opened Constants
  import opened MusicTheory
  import opened NoteProperties
  import opened NoteExamples
  import opened TabProperties
  import opened ChordProperties

  const GHOST: Chord := Chord(
    "opeth", "The \"Ghost\" Chord", "m(add9)",
    ["E2", "B2", "F#3", "G3", "B3", "E4"],
    "The quintessential melancholy shape.",
    Some("0 2 4 0 0 0"), "E")

  lemma GhostThird()
    ensures TransposeNote("F#3", 3) == "A3"
  {
    assert RenderPitch(Pitch(6, 3)) == "F#3";
    assert RenderPitch(Pitch(9, 3)) == "A3";
    TransposeVia("F#3", Pitch(6, 3), 3, Pitch(9, 3), "A3");
  }

  lemma GhostFourth()
    ensures TransposeNote("G3", 3) == "A#3"
  {
    assert RenderPitch(Pitch(7, 3)) == "G3";
    assert RenderPitch(Pitch(10, 3)) == "A#3";
    TransposeVia("G3", Pitch(7, 3), 3, Pitch(10, 3), "A#3");
  }

  lemma GhostFifth()
    ensures TransposeNote("B3", 3) == "D4"
  {
    assert RenderPitch(Pitch(11, 3)) == "B3";
    assert RenderPitch(Pitch(2, 4)) == "D4";
    TransposeVia("B3", Pitch(11, 3), 3, Pitch(2, 4), "D4");
  }

  lemma GhostSixth()
    ensures TransposeNote("E4", 3) == "G4"
  {
    assert RenderPitch(Pitch(4, 4)) == "E4";
    assert RenderPitch(Pitch(7, 4)) == "G4";
    TransposeVia("E4", Pitch(4, 4), 3, Pitch(7, 4), "G4");
  }

  /** Six notes, each shifted by a distance that is not 0. */
  lemma NotesSix(n0: string, n1: string, n2: string, n3: string, n4: string, n5: string, distance: int)
    requires distance != 0
    ensures TransposeNotes([n0, n1, n2, n3, n4, n5], distance)
            == [TransposeNote(n0, distance), TransposeNote(n1, distance), TransposeNote(n2, distance),
                TransposeNote(n3, distance), TransposeNote(n4, distance), TransposeNote(n5, distance)]
  {
    var ns := [n0, n1, n2, n3, n4, n5];
    var r := TransposeNotes(ns, distance);
    NoteAt(ns, distance, 0);
    NoteAt(ns, distance, 1);
    NoteAt(ns, distance, 2);
    NoteAt(ns, distance, 3);
    NoteAt(ns, distance, 4);
    NoteAt(ns, distance, 5);
  }

  lemma NoteAt(notes: seq<string>, distance: int, k: int)
    requires distance != 0 && 0 <= k < |notes|
    ensures TransposeNotes(notes, distance)[k] == TransposeNote(notes[k], distance)
  {
  }

  /** The six notes of the chord, three semitones up. The literal is
      passed as a parameter fixed by the `requires`, so that the verifier
      does not unfold the functions on the literal text itself, which costs
      far more than the proof. */
  lemma GhostNotesToG(notes: seq<string>)
    requires notes == ["E2", "B2", "F#3", "G3", "B3", "E4"]
    ensures TransposeNotes(notes, 3) == ["G2", "D3", "A3", "A#3", "D4", "G4"]
  {
    ExampleEToGRoot();
    ExampleEToGFifth();
    GhostThird();
    GhostFourth();
    GhostFifth();
    GhostSixth();
    NotesSix("E2", "B2", "F#3", "G3", "B3", "E4", 3);
  }

  /** The tab tokens, three frets up. */
  lemma GhostTokensToG()
    ensures TransposeTokens(["0", "2", "4", "0", "0", "0"], 3, STANDARD) == ["3", "5", "7", "3", "3", "3"]
  {
    FretToken("0", 0, 3, STANDARD, 0, 3);
    FretToken("2", 1, 3, STANDARD, 2, 5);
    FretToken("4", 2, 3, STANDARD, 4, 7);
    FretToken("0", 3, 3, STANDARD, 0, 3);
    FretToken("0", 4, 3, STANDARD, 0, 3);
    FretToken("0", 5, 3, STANDARD, 0, 3);
    TokensSix("0", "2", "4", "0", "0", "0", 3, STANDARD);
  }

  lemma GhostTabTokens()
    ensures Join(["0", "2", "4", "0", "0", "0"]) == "0 2 4 0 0 0"
  {
  }

  lemma GhostTabSpaceFree()
    ensures AllSpaceFree(["0", "2", "4", "0", "0", "0"])
  {
  }

  lemma GhostTabTokensToG()
    ensures Join(["3", "5", "7", "3", "3", "3"]) == "3 5 7 3 3 3"
  {
  }

  /** The whole tab, with the literal passed as a parameter for the same
      reason. */
  lemma GhostTabToG(tabs: string)
    requires tabs == "0 2 4 0 0 0"
    ensures TransposedTabs(Some(tabs), 3, STANDARD) == "3 5 7 3 3 3"
  {
    GhostTabTokens();
    GhostTabSpaceFree();
    GhostTabTokensToG();
    GhostTokensToG();
    TabsVia(["0", "2", "4", "0", "0", "0"], tabs, 3, STANDARD, ["3", "5", "7", "3", "3", "3"]);
  }

  /** A chord whose fields are known to transpose to given values. */
  lemma ChordVia(chord: Chord, targetRoot: string, tuningMode: TuningMode, distance: int,
                 subtext: string, notes: seq<string>, tabs: string)
    requires SemitoneDistance(chord.baseRoot, targetRoot) == distance
    requires RewriteSubtext(chord.subtext, targetRoot) == subtext
    requires TransposeNotes(chord.notes, distance) == notes
    requires TransposedTabs(chord.fretboard, distance, tuningMode) == tabs
    ensures TransposeChord(chord, targetRoot, tuningMode)
            == chord.(subtext := subtext, notes := notes, fretboard := Some(tabs))
  {
  }

  /** The record: the subtext gets the new root, the notes and the tab move
      up a minor third, and everything else, `baseRoot` included, stays. As
      in the examples above, the chord is a parameter equal to `GHOST`. */
  lemma GhostToG(chord: Chord)
    requires chord == GHOST
    ensures TransposeChord(chord, "G", STANDARD)
            == chord.(subtext := "Gm(add9)",
                      notes := ["G2", "D3", "A3", "A#3", "D4", "G4"],
                      fretboard := Some("3 5 7 3 3 3"))
  {
    DistanceExampleThird();
    ExampleSubtexts();
    GhostNotesToG(chord.notes);
    GhostTabToG(chord.fretboard.value);
    ChordVia(chord, "G", STANDARD, 3, "Gm(add9)", ["G2", "D3", "A3", "A#3", "D4", "G4"], "3 5 7 3 3 3");
  }
}
