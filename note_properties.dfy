/**
 * What the distance and note operations promise: the distance moves one
 * root onto the other, a transposed note sounds exactly the requested
 * number of semitones away, and shifts compose and undo each other.
 */
module NoteProperties {
  import opened Options
  import opened JsText
  import opened Constants
  import opened MusicTheory

  // ---------------------------------------------------------------------
  // Distance
  // ---------------------------------------------------------------------

  /** The distance leads from the first root's position to the second
      root, and is 0 when either name is not in the table. */
  lemma DistanceSpec(fromNote: string, toNote: string)
    ensures fromNote !in NOTES || toNote !in NOTES ==> SemitoneDistance(fromNote, toNote) == 0
    ensures fromNote in NOTES && toNote in NOTES ==>
              var i := IndexOf(NOTES, fromNote) + SemitoneDistance(fromNote, toNote);
              0 <= i < |NOTES| && NOTES[i] == toNote
  {
    IndexOfSpec(NOTES, fromNote);
    IndexOfSpec(NOTES, toNote);
  }

  lemma DistanceAntisymmetric(a: string, b: string)
    ensures SemitoneDistance(b, a) == -SemitoneDistance(a, b)
  {
  }

  /** Distances between known roots add up along a path. */
  lemma DistanceAdditive(a: string, b: string, c: string)
    requires a in NOTES && b in NOTES && c in NOTES
    ensures SemitoneDistance(a, b) + SemitoneDistance(b, c) == SemitoneDistance(a, c)
  {
    IndexOfSpec(NOTES, a);
    IndexOfSpec(NOTES, b);
    IndexOfSpec(NOTES, c);
  }

  /** The distance is 0 exactly for equal roots or an unknown root. */
  lemma DistanceZeroIff(a: string, b: string)
    ensures SemitoneDistance(a, b) == 0 <==> a == b || a !in NOTES || b !in NOTES
  {
    DistanceSpec(a, b);
    IndexOfSpec(NOTES, a);
  }

  /** A minor third up from E is G, and back down is -3. */
  lemma DistanceExampleThird()
    ensures SemitoneDistance("E", "G") == 3 && SemitoneDistance("G", "E") == -3
  {
    IndexOfNote(4);
    IndexOfNote(7);
  }

  /** The distance never wraps: C to B is 11 up, B to C is 11 down. */
  lemma DistanceExampleNoWrap()
    ensures SemitoneDistance("C", "B") == 11 && SemitoneDistance("B", "C") == -11
  {
    IndexOfNote(0);
    IndexOfNote(11);
  }

  /** A flat spelling is not in the table: distance 0. */
  lemma DistanceExampleFlat()
    ensures SemitoneDistance("Db", "E") == 0
  {
    assert IndexOf(NOTES, "Db") == -1;
  }

  /** Nor is the empty name. */
  lemma DistanceExampleEmpty()
    ensures SemitoneDistance("E", "") == 0
  {
    assert IndexOf(NOTES, "") == -1;
  }

  // ---------------------------------------------------------------------
  // Reading and writing notes
  // ---------------------------------------------------------------------

  /** The note pattern accepts a root name followed by an integer, and
      splits it there. */
  lemma MatchNoteComplete(name: string, octaveText: string)
    requires IsRootName(name) && IsIntText(octaveText)
    ensures MatchNote(name + octaveText) == |name|
    ensures (name + octaveText)[..|name|] == name && (name + octaveText)[|name|..] == octaveText
  {
    var note := name + octaveText;
    assert note[..|name|] == name && note[|name|..] == octaveText;
    assert |name| == 1 ==> note[1] == octaveText[0];
  }

  /** What `TransposeNote` writes it reads back as the same pitch. */
  lemma PitchOfRender(p: Pitch)
    requires 0 <= p.index < |NOTES|
    ensures PitchOf(RenderPitch(p)).Some? && PitchOf(RenderPitch(p)).value == p
  {
    var name := NOTES[p.index];
    var t := FormatInt(p.octave);
    assert IsRootName(name) by {
      NotesShape(p.index);
    }
    assert IsIntText(t) by {
      FormatIntShape(p.octave);
    }
    MatchNoteComplete(name, t);
    assert ParseInt(t) == Some(p.octave) by {
      ParseFormatInt(p.octave);
    }
    assert IndexOf(NOTES, name) == p.index by {
      IndexOfNote(p.index);
    }
  }

  // ---------------------------------------------------------------------
  // Shifting pitches
  // ---------------------------------------------------------------------

  /** A pitch read back from its own height is itself. */
  lemma FromSemitoneOf(p: Pitch)
    requires 0 <= p.index < |NOTES|
    ensures FromSemitone(Semitone(p)) == p
  {
    DivMod12Unique(Semitone(p), p.octave, p.index);
  }

  /** The shifted name is the mathematical remainder of index plus shift,
      and the octave carries the floor quotient, for every sign and size
      of the shift. */
  lemma ShiftPitchArithmetic(p: Pitch, semitones: int)
    requires 0 <= p.index < |NOTES|
    ensures ShiftPitch(p, semitones).index == (p.index + semitones) % 12
    ensures ShiftPitch(p, semitones).octave == p.octave + (p.index + semitones) / 12
  {
    var k := Semitone(p) + semitones;
    DivMod12Unique(p.index + semitones, (p.index + semitones) / 12, (p.index + semitones) % 12);
    DivMod12Unique(k, p.octave + (p.index + semitones) / 12, (p.index + semitones) % 12);
  }

  /** Two shifts in a row are one shift by their sum. */
  lemma ShiftCompose(p: Pitch, a: int, b: int)
    requires 0 <= p.index < |NOTES|
    ensures ShiftPitch(ShiftPitch(p, a), b) == ShiftPitch(p, a + b)
  {
  }

  /** A shift is undone by the opposite shift. */
  lemma ShiftInverse(p: Pitch, s: int)
    requires 0 <= p.index < |NOTES|
    ensures ShiftPitch(ShiftPitch(p, s), -s) == p
  {
    ShiftCompose(p, s, -s);
    ShiftZero(p);
  }

  /** A zero shift leaves a pitch alone. */
  lemma ShiftZero(p: Pitch)
    requires 0 <= p.index < |NOTES|
    ensures ShiftPitch(p, 0) == p
  {
    FromSemitoneOf(p);
  }

  /** Twelve semitones up or down is the same name an octave away. */
  lemma ShiftOctave(p: Pitch)
    requires 0 <= p.index < |NOTES|
    ensures ShiftPitch(p, 12) == Pitch(p.index, p.octave + 1)
    ensures ShiftPitch(p, -12) == Pitch(p.index, p.octave - 1)
  {
    FromSemitoneOf(Pitch(p.index, p.octave + 1));
    FromSemitoneOf(Pitch(p.index, p.octave - 1));
  }

  // ---------------------------------------------------------------------
  // Transposing notes
  // ---------------------------------------------------------------------

  /** A note read as `p` is rewritten as `p` shifted. */
  lemma TransposeReadable(note: string, semitones: int, p: Pitch)
    requires PitchOf(note).Some? && PitchOf(note).value == p
    ensures TransposeNote(note, semitones) == RenderPitch(ShiftPitch(p, semitones))
  {
  }

  /** A note written by `RenderPitch` is rewritten as its pitch shifted. */
  lemma TransposeRendered(q: Pitch, semitones: int)
    requires 0 <= q.index < |NOTES|
    ensures TransposeNote(RenderPitch(q), semitones) == RenderPitch(ShiftPitch(q, semitones))
  {
    PitchOfRender(q);
    TransposeReadable(RenderPitch(q), semitones, q);
  }

  /** Soft failure: text the pattern rejects, and a matching name that is not
      in the table, come back unchanged. */
  lemma TransposeNoteSoftFail(note: string, semitones: int)
    requires MatchNote(note) == 0 || IndexOf(NOTES, note[..MatchNote(note)]) == -1
    ensures TransposeNote(note, semitones) == note
  {
  }

  /** A transposed note reads back as the pitch exactly `semitones` away. */
  lemma TransposeNoteArithmetic(note: string, semitones: int)
    requires PitchOf(note).Some?
    ensures PitchOf(TransposeNote(note, semitones)).Some?
    ensures PitchOf(TransposeNote(note, semitones)).value == ShiftPitch(PitchOf(note).value, semitones)
    ensures Semitone(PitchOf(TransposeNote(note, semitones)).value) == Semitone(PitchOf(note).value) + semitones
  {
    var p := PitchOf(note).value;
    TransposeReadable(note, semitones, p);
    PitchOfRender(ShiftPitch(p, semitones));
  }

  /** Whatever `TransposeNote` writes for a readable note is canonically
      spelled. */
  lemma TransposeNoteCanonical(note: string, semitones: int)
    ensures CanonicalNote(TransposeNote(note, semitones))
  {
    if PitchOf(note).Some? {
      var q := ShiftPitch(PitchOf(note).value, semitones);
      TransposeReadable(note, semitones, PitchOf(note).value);
      PitchOfRender(q);
      CanonicalNoteSpelling(RenderPitch(q));
    }
  }

  /** A shift by twelve keeps the name and moves the octave by one. */
  lemma TransposeNoteOctave(note: string)
    requires PitchOf(note).Some?
    ensures var p := PitchOf(note).value;
            TransposeNote(note, 12) == RenderPitch(Pitch(p.index, p.octave + 1))
            && TransposeNote(note, -12) == RenderPitch(Pitch(p.index, p.octave - 1))
  {
    var p := PitchOf(note).value;
    TransposeReadable(note, 12, p);
    TransposeReadable(note, -12, p);
    ShiftOctave(p);
  }

  /** Equal prefixes cancel. */
  lemma AppendCancel(x: string, a: string, b: string)
    ensures x + a == x + b <==> a == b
  {
    if x + a == x + b {
      assert a == (x + a)[|x|..];
    }
  }

  /** A readable note is canonically spelled exactly when writing its pitch
      gives the note back. */
  lemma CanonicalNoteSpelling(note: string)
    requires PitchOf(note).Some?
    ensures CanonicalNote(note) <==> RenderPitch(PitchOf(note).value) == note
  {
    var p := PitchOf(note).value;
    var n := MatchNote(note);
    var name, octaveText := note[..n], note[n..];
    MatchNoteSound(note);
    assert note == name + octaveText;
    FormatParseIntText(octaveText);
    IndexOfSpec(NOTES, name);
    AppendCancel(name, FormatInt(p.octave), octaveText);
  }

  /** A zero shift returns the note exactly when it is canonically spelled. */
  lemma TransposeNoteZero(note: string)
    ensures TransposeNote(note, 0) == note <==> CanonicalNote(note)
  {
    if PitchOf(note).Some? {
      var p := PitchOf(note).value;
      TransposeReadable(note, 0, p);
      ShiftZero(p);
      CanonicalNoteSpelling(note);
    }
  }

  /** A canonically spelled note is its own zero shift. */
  lemma CanonicalFixed(note: string, zero: int)
    requires CanonicalNote(note) && zero == 0
    ensures TransposeNote(note, zero) == note
  {
    TransposeNoteZero(note);
  }

  /** Two shifts in a row of a readable note. */
  lemma TransposeReadableTwice(note: string, a: int, b: int, p: Pitch)
    requires PitchOf(note).Some? && PitchOf(note).value == p
    ensures TransposeNote(TransposeNote(note, a), b) == TransposeNote(note, a + b)
  {
    TransposeReadable(note, a, p);
    TransposeRendered(ShiftPitch(p, a), b);
    ShiftCompose(p, a, b);
    TransposeReadable(note, a + b, p);
  }

  /** Two shifts in a row are one shift by their sum, for every text. */
  lemma TransposeNoteCompose(note: string, a: int, b: int)
    ensures TransposeNote(TransposeNote(note, a), b) == TransposeNote(note, a + b)
  {
    if PitchOf(note).Some? {
      TransposeReadableTwice(note, a, b, PitchOf(note).value);
    }
  }

  /** Shifting by `s` and then back by `t == -s` gives the note back when
      its octave is canonically spelled (and always when it cannot be
      read). */
  lemma TransposeNoteRoundTrip(note: string, s: int, t: int)
    requires CanonicalNote(note) && s + t == 0
    ensures TransposeNote(TransposeNote(note, s), t) == note
  {
    TransposeNoteCompose(note, s, t);
    CanonicalFixed(note, s + t);
  }

  /** A pitch on root `a` shifted by the distance from `a` to `b` is on
      root `b`. */
  lemma ShiftMovesRoot(p: Pitch, a: string, b: string)
    requires a in NOTES && b in NOTES
    requires 0 <= p.index < |NOTES| && NOTES[p.index] == a
    ensures NOTES[ShiftPitch(p, SemitoneDistance(a, b)).index] == b
  {
    var d := SemitoneDistance(a, b);
    ShiftPitchArithmetic(p, d);
    IndexOfNote(p.index);
    DistanceSpec(a, b);
    DivMod12Unique(p.index + d, 0, p.index + d);
  }

  /** A note on root `a` shifted by the distance from `a` to `b` is on
      root `b`. */
  lemma DistanceMovesRoot(note: string, a: string, b: string)
    requires a in NOTES && b in NOTES
    requires PitchOf(note).Some? && NOTES[PitchOf(note).value.index] == a
    ensures PitchOf(TransposeNote(note, SemitoneDistance(a, b))).Some?
    ensures NOTES[PitchOf(TransposeNote(note, SemitoneDistance(a, b))).value.index] == b
  {
    TransposeNoteArithmetic(note, SemitoneDistance(a, b));
    ShiftMovesRoot(PitchOf(note).value, a, b);
  }
}
