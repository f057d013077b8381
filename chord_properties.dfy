/**
 * Properties of chord transposition: which fields change, where the
 * notes go, what the subtext and the tab become.
 */
module ChordProperties {
  import opened Options
  import opened JsText
  import opened Types
  import opened Constants
  import opened MusicTheory
  import opened NoteProperties
  import opened TabProperties

  // ---------------------------------------------------------------------
  // Notes
  // ---------------------------------------------------------------------

  /** At distance 0 the notes are returned as they are; otherwise each is
      transposed on its own, in place. */
  lemma ChordNotesMapped(chord: Chord, targetRoot: string, tuningMode: TuningMode)
    ensures var r := TransposeChord(chord, targetRoot, tuningMode);
            var d := SemitoneDistance(chord.baseRoot, targetRoot);
            (d == 0 ==> r.notes == chord.notes)
            && (d != 0 ==> forall k | 0 <= k < |chord.notes| :: r.notes[k] == TransposeNote(chord.notes[k], d))
  {
  }

  /** Every readable note of the chord moves by exactly the distance from
      the chord's root to the target root; every other note is kept. */
  lemma ChordNotes(chord: Chord, targetRoot: string, tuningMode: TuningMode, k: int)
    requires 0 <= k < |chord.notes|
    ensures var r := TransposeChord(chord, targetRoot, tuningMode);
            var d := SemitoneDistance(chord.baseRoot, targetRoot);
            (PitchOf(chord.notes[k]).None? ==> r.notes[k] == chord.notes[k])
            && (PitchOf(chord.notes[k]).Some? ==>
                  PitchOf(r.notes[k]).Some?
                  && Semitone(PitchOf(r.notes[k]).value) == Semitone(PitchOf(chord.notes[k]).value) + d)
  {
    var d := SemitoneDistance(chord.baseRoot, targetRoot);
    if d != 0 {
      if PitchOf(chord.notes[k]).Some? {
        TransposeNoteArithmetic(chord.notes[k], d);
      } else {
        TransposeNoteSoftFail(chord.notes[k], d);
      }
    }
  }

  /** The result keeps `baseRoot`, so transposing it again to the same
      target shifts every readable note a second time. */
  lemma ChordTransposeTwice(chord: Chord, targetRoot: string, tuningMode: TuningMode, k: int)
    requires 0 <= k < |chord.notes| && PitchOf(chord.notes[k]).Some?
    ensures var r := TransposeChord(TransposeChord(chord, targetRoot, tuningMode), targetRoot, tuningMode);
            var d := SemitoneDistance(chord.baseRoot, targetRoot);
            PitchOf(r.notes[k]).Some?
            && Semitone(PitchOf(r.notes[k]).value) == Semitone(PitchOf(chord.notes[k]).value) + 2 * d
  {
    var once := TransposeChord(chord, targetRoot, tuningMode);
    ChordNotes(chord, targetRoot, tuningMode, k);
    ChordNotes(once, targetRoot, tuningMode, k);
  }

  /** A note on the chord's root lands on the target root. */
  lemma ChordReachesTarget(chord: Chord, targetRoot: string, tuningMode: TuningMode, k: int)
    requires chord.baseRoot in NOTES && targetRoot in NOTES
    requires 0 <= k < |chord.notes| && PitchOf(chord.notes[k]).Some?
    requires NOTES[PitchOf(chord.notes[k]).value.index] == chord.baseRoot
    ensures var r := TransposeChord(chord, targetRoot, tuningMode);
            PitchOf(r.notes[k]).Some? && NOTES[PitchOf(r.notes[k]).value.index] == targetRoot
  {
    var d := SemitoneDistance(chord.baseRoot, targetRoot);
    if d == 0 {
      DistanceZeroIff(chord.baseRoot, targetRoot);
    } else {
      DistanceMovesRoot(chord.notes[k], chord.baseRoot, targetRoot);
    }
  }

  /** Keeping the notes at distance 0 agrees with shifting each of them by
      0 exactly when every note is canonically spelled. */
  lemma NotesShortcut(notes: seq<string>)
    ensures (forall k | 0 <= k < |notes| :: TransposeNote(notes[k], 0) == notes[k])
            <==> (forall k | 0 <= k < |notes| :: CanonicalNote(notes[k]))
  {
    forall k | 0 <= k < |notes|
      ensures TransposeNote(notes[k], 0) == notes[k] <==> CanonicalNote(notes[k])
    {
      TransposeNoteZero(notes[k]);
    }
  }

  // ---------------------------------------------------------------------
  // Subtext
  // ---------------------------------------------------------------------

  /** Both branches of the subtext rewrite are one rule: the target root
      followed by whatever follows /^[A-G]#?/ (all of a generic subtext). */
  lemma RewriteSubtextSpec(subtext: string, targetRoot: string)
    ensures RewriteSubtext(subtext, targetRoot) == targetRoot + subtext[RootPrefixLength(subtext)..]
  {
    if RootPrefixLength(subtext) == 0 {
      assert subtext[0..] == subtext;
    }
  }

  /** The new subtext is the target root followed by whatever follows the
      old subtext's root prefix. */
  lemma ChordSubtext(chord: Chord, targetRoot: string, tuningMode: TuningMode)
    ensures TransposeChord(chord, targetRoot, tuningMode).subtext
            == targetRoot + chord.subtext[RootPrefixLength(chord.subtext)..]
  {
    RewriteSubtextSpec(chord.subtext, targetRoot);
  }

  /** Rewriting a rewritten subtext is rewriting the original, unless the
      text after a sharp-less root itself starts with '#'. */
  lemma RewriteSubtextTwice(subtext: string, r1: string, r2: string)
    requires IsRootName(r1)
    requires var rest := subtext[RootPrefixLength(subtext)..];
             |r1| == 2 || |rest| == 0 || rest[0] != '#'
    ensures RewriteSubtext(RewriteSubtext(subtext, r1), r2) == RewriteSubtext(subtext, r2)
  {
    var rest := subtext[RootPrefixLength(subtext)..];
    var once := RewriteSubtext(subtext, r1);
    RewriteSubtextSpec(subtext, r1);
    RewriteSubtextSpec(subtext, r2);
    RewriteSubtextSpec(once, r2);
    assert once == r1 + rest;
    assert RootPrefixLength(once) == |r1|;
    assert once[|r1|..] == rest;
  }

  // ---------------------------------------------------------------------
  // Tab
  // ---------------------------------------------------------------------

  /** The new tab: empty when there was none, the marker kept, and
      otherwise the old tab's tokens shifted by the distance, one for one. */
  lemma ChordTabs(chord: Chord, targetRoot: string, tuningMode: TuningMode)
    ensures var r := TransposeChord(chord, targetRoot, tuningMode);
            var d := SemitoneDistance(chord.baseRoot, targetRoot);
            (chord.fretboard.None? ==> r.fretboard == Some(""))
            && (chord.fretboard == Some("TRANSPOSED") ==> r.fretboard == chord.fretboard)
            && (chord.fretboard.Some? && chord.fretboard.value != "" && chord.fretboard.value != "TRANSPOSED" ==>
                  Split(r.fretboard.value) == TransposeTokens(Split(chord.fretboard.value), d, tuningMode))
  {
    if chord.fretboard.Some? && chord.fretboard.value != "" && chord.fretboard.value != "TRANSPOSED" {
      TabsShape(chord.fretboard.value, SemitoneDistance(chord.baseRoot, targetRoot), tuningMode);
    }
  }

  /** Moving a chord in STANDARD tuning to its own root keeps its notes,
      and keeps its tab exactly when it has one and every token of it is
      `KeptAtZero`. */
  lemma ChordSameRoot(chord: Chord)
    ensures var r := TransposeChord(chord, chord.baseRoot, STANDARD);
            r.notes == chord.notes
            && (r.fretboard == chord.fretboard
                <==> chord.fretboard.Some?
                     && forall k | 0 <= k < |Split(chord.fretboard.value)| :: KeptAtZero(Split(chord.fretboard.value)[k]))
  {
    DistanceZeroIff(chord.baseRoot, chord.baseRoot);
    if chord.fretboard.Some? {
      TabsZero(chord.fretboard.value);
    }
  }

  // ---------------------------------------------------------------------
  // Examples
  // ---------------------------------------------------------------------

  /** A generic subtext gets the root in front; a rooted one has its root
      replaced. */
  lemma ExampleSubtexts()
    ensures RewriteSubtext("m(add9)", "A") == "Am(add9)"
    ensures RewriteSubtext("m(add9)", "G") == "Gm(add9)"
  {
  }

  /** A subtext starting with a letter past G is generic too. */
  lemma ExampleSubtextNoRoot()
    ensures RewriteSubtext("Maj7(no5)", "G") == "GMaj7(no5)"
  {
  }

  /** A rooted subtext has its root, with its sharp, replaced. */
  lemma ExampleSubtextsRooted()
    ensures RewriteSubtext("E(VI)", "C") == "C(VI)"
    ensures RewriteSubtext("C#m7", "D") == "Dm7"
  {
  }

  /** The exception to `RewriteSubtextTwice`: a generic "#9" written after
      "C" reads as the root "C#". */
  lemma ExampleSubtextSharp()
    ensures RewriteSubtext(RewriteSubtext("#9", "C"), "D") == "D9"
    ensures RewriteSubtext("#9", "D") == "D#9"
  {
  }
}
