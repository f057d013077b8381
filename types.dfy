/** The records the transposition engine consumes and produces. */
module Types {
  import opened Options

  /** The chord record: `fretboard` is optional; every other field is
      present. Notes are in scientific pitch notation ("F#3"), the
      fretboard is six space-separated tokens ("0 2 2 x x x") and
      `baseRoot` is the pitch class the voicing was written in. */
  datatype Chord = Chord(
    id: string,
    name: string,
    subtext: string,
    notes: seq<string>,
    description: string,
    fretboard: Option<string>,
    baseRoot: string)

  datatype TuningMode = STANDARD | DROP
}
