/** The chromatic pitch-class table. */
module Constants {
  import opened JsText

  const NOTES: seq<string> := ["C", "C#", "D", "D#", "E", "F", "F#", "G", "G#", "A", "A#", "B"]

  /** Every entry is a letter A..G, optionally followed by a sharp. */
  lemma NotesShape(i: int)
    requires 0 <= i < |NOTES|
    ensures 1 <= |NOTES[i]| <= 2 && 'A' <= NOTES[i][0] <= 'G'
    ensures |NOTES[i]| == 2 ==> NOTES[i][1] == '#'
  {
  }

  /** No name appears twice. */
  lemma NotesDistinct()
    ensures forall i, j | 0 <= i < j < |NOTES| :: NOTES[i] != NOTES[j]
  {
  }

  /** Each name is found at its own position. */
  lemma IndexOfNote(k: int)
    requires 0 <= k < |NOTES|
    ensures IndexOf(NOTES, NOTES[k]) == k
  {
    NotesDistinct();
    IndexOfDistinct(NOTES, k);
  }
}
