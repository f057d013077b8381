/**
 * The transposition engine: semitone distance between two roots, shifting
 * one note in scientific pitch notation, shifting a six-string tab, and
 * transposing a whole chord record.
 */
module MusicTheory {
  import opened Options
  import opened JsText
  import opened Types
  import opened Constants

  // ---------------------------------------------------------------------
  // getSemitoneDistance
  // ---------------------------------------------------------------------

  /** Signed distance from `fromNote` to `toNote` in the pitch-class table;
      0 when either name is not one of its twelve entries. */
  function SemitoneDistance(fromNote: string, toNote: string): (r: int)
    ensures -11 <= r <= 11
  {
    var fromIndex := IndexOf(NOTES, fromNote);
    var toIndex := IndexOf(NOTES, toNote);
    if fromIndex == -1 || toIndex == -1 then 0 else toIndex - fromIndex
  }

  // ---------------------------------------------------------------------
  // The root prefix /^[A-G]#?/
  // ---------------------------------------------------------------------

  predicate IsNoteLetter(c: char) {
    'A' <= c <= 'G'
  }

  /** Length of the text that /^[A-G]#?/ matches at the start of `s`,
      0 when it does not match. */
  function RootPrefixLength(s: string): (n: nat)
    ensures n <= |s| && n <= 2
  {
    if |s| == 0 || !IsNoteLetter(s[0]) then 0
    else if |s| >= 2 && s[1] == '#' then 2
    else 1
  }

  /** A name that /^[A-G]#?$/ accepts. */
  predicate IsRootName(name: string) {
    1 <= |name| <= 2 && IsNoteLetter(name[0]) && (|name| == 2 ==> name[1] == '#')
  }

  // ---------------------------------------------------------------------
  // transposeNote
  // ---------------------------------------------------------------------

  /** `note.match(/^([A-G]#?)(-?\d+)$/)`: the length of the first group,
      the root name, when the whole note matches, and 0 when it does not.
      The second group, the octave, is the rest of the note. */
  function MatchNote(note: string): (n: nat)
    ensures n <= 2 && n <= |note|
  {
    var n := RootPrefixLength(note);
    if n == 0 || !IsIntText(note[n..]) then 0 else n
  }

  /** A match splits the note into a root name and an integer text. */
  lemma MatchNoteSound(note: string)
    ensures MatchNote(note) > 0 ==>
              IsRootName(note[..MatchNote(note)]) && IsIntText(note[MatchNote(note)..])
  {
  }

  /** JavaScript's `a % 12`: the remainder takes the sign of the dividend. */
  function TruncRem12(a: int): (r: int)
    ensures -12 < r < 12
    ensures a >= 0 ==> r >= 0
    ensures a < 0 ==> r <= 0
    ensures (a - r) % 12 == 0
  {
    if a >= 0 then a % 12 else -((-a) % 12)
  }

  /** `Math.floor(a / 12)`. */
  function FloorDiv12(a: int): (q: int)
    ensures 12 * q <= a < 12 * q + 12
  {
    a / 12
  }

  /** A note read as a position in the pitch-class table and an octave. */
  datatype Pitch = Pitch(index: int, octave: int)

  /** The reading half of `transposeNote`: match the pattern, parse the
      octave, look the name up; `None` where `transposeNote` gives up and
      returns its input. */
  function PitchOf(note: string): (p: Option<Pitch>)
    ensures p.Some? ==> 0 <= p.value.index < |NOTES|
  {
    var n := MatchNote(note);
    if n == 0 then None
    else
      var name := note[..n];
      var octaveText := note[n..];
      MatchNoteSound(note);
      ParseIntText(octaveText);
      var octave := ParseInt(octaveText).value;
      var currentIndex := IndexOf(NOTES, name);
      if currentIndex == -1 then None else Some(Pitch(currentIndex, octave))
  }

  /** Scientific pitch notation for a pitch. */
  function RenderPitch(p: Pitch): string
    requires 0 <= p.index < |NOTES|
  {
    NOTES[p.index] + FormatInt(p.octave)
  }

  /** Division by twelve is determined by quotient and remainder. */
  lemma DivMod12Unique(k: int, q: int, r: int)
    requires k == 12 * q + r && 0 <= r < 12
    ensures k / 12 == q && k % 12 == r
  {
  }

  /** `((x % 12) + 12) % 12` with JavaScript's remainder is the
      mathematical remainder. */
  lemma TruncRemWrap(x: int)
    ensures TruncRem12(TruncRem12(x) + 12) == x % 12
  {
    if x < 0 {
      var a := -x;
      var q, r := a / 12, a % 12;
      DivMod12Unique(a, q, r);
      if r == 0 {
        DivMod12Unique(x, -q, 0);
      } else {
        DivMod12Unique(x, -q - 1, 12 - r);
        DivMod12Unique(12 - r, 0, 12 - r);
      }
    } else {
      DivMod12Unique(x % 12 + 12, 1, x % 12);
    }
  }

  /** The index and octave arithmetic of `transposeNote`: the index moves
      by `semitones`, the floor quotient by twelve carries into the octave
      and the doubly taken remainder wraps the index into the table. The
      result is exactly `semitones` away from `p`. */
  function ShiftPitch(p: Pitch, semitones: int): (q: Pitch)
    ensures q == FromSemitone(Semitone(p) + semitones)
  {
    var newIndex := p.index + semitones;
    var octaveShift := FloorDiv12(newIndex);
    var wrapped := TruncRem12(TruncRem12(newIndex) + 12);
    TruncRemWrap(newIndex);
    DivMod12Unique(newIndex, newIndex / 12, newIndex % 12);
    DivMod12Unique(Semitone(p) + semitones, p.octave + newIndex / 12, newIndex % 12);
    Pitch(wrapped, p.octave + octaveShift)
  }

  /** Shift a note in scientific pitch notation by `semitones`. Text that
      is not a letter, an optional sharp and an integer octave, or whose
      name is not in the table (such as "E#2"), is returned unchanged. */
  function TransposeNote(note: string, semitones: int): string
  {
    match PitchOf(note)
    case None => note
    case Some(p) => RenderPitch(ShiftPitch(p, semitones))
  }

  /** Absolute height in semitones (C0 is 0). */
  function Semitone(p: Pitch): int {
    12 * p.octave + p.index
  }

  /** The pitch at a given absolute height. */
  function FromSemitone(k: int): (p: Pitch)
    ensures 0 <= p.index < |NOTES| && Semitone(p) == k
  {
    Pitch(k % 12, k / 12)
  }

  /** A note spelled the way `TransposeNote` writes notes: one it cannot
      read, or one whose octave has no leading zero and is not "-0". */
  predicate CanonicalNote(note: string) {
    PitchOf(note).None? || CanonicalIntText(note[MatchNote(note)..])
  }

  // ---------------------------------------------------------------------
  // transposeTabs
  // ---------------------------------------------------------------------

  /** The extra frets DROP tuning needs on string index 0, which it tunes
      two semitones lower. */
  function DropOffset(tuningMode: TuningMode, index: int): (d: int)
    ensures d == 0 || d == 2
    ensures d == 2 <==> tuningMode == DROP && index == 0
  {
    if tuningMode == DROP && index == 0 then 2 else 0
  }

  /** Closed form of `while (newFret < 0) newFret += 12`: the fret itself
      when it is not negative, otherwise the first non-negative value
      reached by adding twelves. */
  function FretFloor(f: int): (r: int)
    ensures r >= 0
    ensures (r - f) % 12 == 0
    ensures f >= 0 ==> r == f
    ensures f < 0 ==> r < 12
  {
    if f >= 0 then f else f % 12
  }

  /** `FretFloor(f)` is the only value the raising loop can stop at. */
  lemma FretFloorUnique(f: int, steps: nat)
    requires 0 <= f + 12 * steps
    requires steps == 0 || f + 12 * steps < 12
    ensures f + 12 * steps == FretFloor(f)
  {
    if steps > 0 {
      assert (f + 12 * steps) % 12 == f % 12;
    }
  }

  /** One token of a tab at string `index`: a mute `x`/`X` becomes `x`, a
      token `parseInt` cannot read is kept, and a fret is shifted, offset
      for DROP tuning and raised until it is not negative. */
  function TransposeToken(val: string, index: int, semitones: int, tuningMode: TuningMode): (r: string)
    ensures r == "x" || r == val || CanonicalDigits(r)
  {
    if val == "x" || val == "X" then "x"
    else match ParseInt(val)
      case None => val
      case Some(fret) => FormatInt(FretFloor(fret + semitones + DropOffset(tuningMode, index)))
  }

  /** The tokens of a split tab, each transposed at its own index. */
  function TransposeTokens(strings: seq<string>, semitones: int, tuningMode: TuningMode): (r: seq<string>)
    ensures |r| == |strings|
  {
    seq(|strings|, k requires 0 <= k < |strings| => TransposeToken(strings[k], k, semitones, tuningMode))
  }

  /** `transposeTabs` as a value: an absent or empty tab gives "", the
      marker "TRANSPOSED" is kept, and otherwise every space-separated
      token is transposed. */
  function TransposedTabs(originalTabs: Option<string>, semitones: int, tuningMode: TuningMode): (r: string)
    ensures r == "" <==> originalTabs.None? || originalTabs.value == ""
  {
    if originalTabs.None? || originalTabs.value == "" then ""
    else if originalTabs.value == "TRANSPOSED" then originalTabs.value
    else Join(TransposeTokens(Split(originalTabs.value), semitones, tuningMode))
  }

  /** The callback `transposeTabs` maps over the tokens: the fret is a
      local variable that is shifted, offset and then raised by a loop. */
  method TransposeTokenAt(val: string, index: int, semitones: int, tuningMode: TuningMode)
    returns (out: string)
    ensures out == TransposeToken(val, index, semitones, tuningMode)
  {
    if val == "x" || val == "X" {
      return "x";
    }
    var fret := ParseInt(val);
    if fret.None? {
      assert TransposeToken(val, index, semitones, tuningMode) == val;
      return val;
    }
    assert TransposeToken(val, index, semitones, tuningMode)
        == FormatInt(FretFloor(fret.value + semitones + DropOffset(tuningMode, index)));
    var newFret := fret.value + semitones;
    if tuningMode == DROP && index == 0 {
      newFret := newFret + 2;
    }
    ghost var start, steps := newFret, 0;
    while newFret < 0
      invariant steps >= 0 && newFret == start + 12 * steps
      invariant steps == 0 || newFret < 12
      decreases -newFret
    {
      newFret, steps := newFret + 12, steps + 1;
    }
    FretFloorUnique(start, steps);
    out := FormatInt(newFret);
  }

  /** `transposeTabs` step by step: split, map the callback over the
      tokens with their indices, join. */
  method TransposeTabs(originalTabs: Option<string>, semitones: int, tuningMode: TuningMode)
    returns (r: string)
    ensures r == TransposedTabs(originalTabs, semitones, tuningMode)
  {
    if originalTabs.None? || originalTabs.value == "" {
      return "";
    }
    if originalTabs.value == "TRANSPOSED" {
      return originalTabs.value;
    }
    var strings := Split(originalTabs.value);
    var transposedStrings: seq<string> := [];
    var index := 0;
    while index < |strings|
      invariant 0 <= index <= |strings|
      invariant |transposedStrings| == index
      invariant forall k | 0 <= k < index ::
                  transposedStrings[k] == TransposeToken(strings[k], k, semitones, tuningMode)
    {
      var out := TransposeTokenAt(strings[index], index, semitones, tuningMode);
      transposedStrings := transposedStrings + [out];
      index := index + 1;
    }
    assert transposedStrings == TransposeTokens(strings, semitones, tuningMode);
    r := Join(transposedStrings);
  }

  // ---------------------------------------------------------------------
  // transposeChord
  // ---------------------------------------------------------------------

  /** The subtext for the new root: a subtext that does not start with a
      letter A..G is prefixed with the root; otherwise its leading
      letter and optional sharp are replaced by the root. */
  function RewriteSubtext(subtext: string, targetRoot: string): (r: string)
    ensures |r| == |targetRoot| + |subtext| - RootPrefixLength(subtext)
    ensures r[..|targetRoot|] == targetRoot
  {
    var isGenericSubtext := !(|subtext| > 0 && IsNoteLetter(subtext[0]));
    if isGenericSubtext then targetRoot + subtext
    else targetRoot + subtext[RootPrefixLength(subtext)..]
  }

  /** The notes shifted by `distance`, kept as they are when it is 0. */
  function TransposeNotes(notes: seq<string>, distance: int): (r: seq<string>)
    ensures |r| == |notes|
  {
    if distance == 0 then notes
    else seq(|notes|, k requires 0 <= k < |notes| => TransposeNote(notes[k], distance))
  }

  /** Transpose a chord record from its `baseRoot` to `targetRoot` under a
      tuning mode. */
  function TransposeChord(chord: Chord, targetRoot: string, tuningMode: TuningMode): (r: Chord)
    ensures r.id == chord.id && r.name == chord.name
    ensures r.description == chord.description && r.baseRoot == chord.baseRoot
    ensures |r.notes| == |chord.notes|
    ensures r.fretboard.Some?
    ensures r.subtext == RewriteSubtext(chord.subtext, targetRoot)
    ensures r.notes == TransposeNotes(chord.notes, SemitoneDistance(chord.baseRoot, targetRoot))
    ensures r.fretboard == Some(TransposedTabs(chord.fretboard, SemitoneDistance(chord.baseRoot, targetRoot), tuningMode))
  {
    var distance := SemitoneDistance(chord.baseRoot, targetRoot);
    var newNotes := TransposeNotes(chord.notes, distance);
    var newSubtext := RewriteSubtext(chord.subtext, targetRoot);
    var newTabs := TransposedTabs(chord.fretboard, distance, tuningMode);
    chord.(name := chord.name, subtext := newSubtext, notes := newNotes, fretboard := Some(newTabs))
  }
}
