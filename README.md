# RiffForge transposition engine in Dafny

RiffForge shows guitar chord voicings and moves them to another root.
Its transposition engine is `utils/musicTheory.ts`. This project models all
four functions of that file:

- `getSemitoneDistance` measures the signed distance between two root names.
  It uses their positions in the twelve-entry pitch-class table `NOTES`.
- `transposeNote` reads a note in scientific pitch notation such as `"F#3"`.
  It shifts the note by a number of semitones and writes it back.
- `transposeTabs` rewrites a space-separated six-string tab. It handles
  mutes, DROP tuning and frets that fall below the nut.
- `transposeChord` combines the three and rewrites the chord's subtext.

The JavaScript built-ins the engine relies on are modelled explicitly in
`JsText`:

- `Array.prototype.indexOf`;
- `String.prototype.split(' ')` and `join(' ')`;
- `parseInt(_, 10)`, including leading whitespace, the sign and the longest
  digit prefix, so `"3a"` reads as 3;
- `Number.prototype.toString` of an integer.

JavaScript's truncating `%` and `Math.floor(x / 12)` are written out
(`TruncRem12`, `FloorDiv12`). Dafny's own `%` is Euclidean.

Modules:

- `Options`, `Types` (the `Chord` record and `TuningMode`) and `Constants` (`NOTES`).
- `JsText` holds the built-ins.
- `MusicTheory` holds the four operations.
- `NoteProperties`, `TabProperties` and `ChordProperties` hold the lemmas.
- `NoteExamples` and `CatalogueExamples` hold concrete cases. The catalogue
  case is `The "Ghost" Chord`, moved from E to G.

The per-token callback of `transposeTabs` mutates a local fret and runs
`while (newFret < 0) newFret += 12`. It is therefore a method with a loop
invariant: `MusicTheory.TransposeTokenAt`. `MusicTheory.TransposeTabs` is
the mapping loop over the tokens. Each method is proved equal to a function,
`TransposeToken` and `TransposedTabs` respectively. The lemmas are stated
about those functions.

Two things a reader might look for are not in the code, so they are not in
the model either:

- There is no fret-span or playability normaliser. After the loop that
  raises negative frets, nothing else happens to a fret.
- The `Chord` record has no related-chords field.

## Model

| member | source | states |
|---|---|---|
| MusicTheory.SemitoneDistance | utils/musicTheory.ts:5-10 | the distance between two roots lies in [-11, 11] |
| NoteProperties.DistanceSpec | utils/musicTheory.ts:5-10 | the distance is 0 when either name is not a table entry; otherwise, added to the first root's position, it lands on the second root |
| NoteProperties.DistanceZeroIff | utils/musicTheory.ts:5-10 | the distance is 0 exactly when the roots are equal or one is unknown |
| NoteProperties.DistanceAdditive | utils/musicTheory.ts:5-10 | distances between known roots add along a path |
| NoteProperties.DistanceAntisymmetric | utils/musicTheory.ts:5-10 | swapping the roots negates the distance |
| NoteProperties.DistanceExampleThird | utils/musicTheory.ts:5-10 | the distance from E to G is 3, and from G to E it is -3 |
| NoteProperties.DistanceExampleFlat | utils/musicTheory.ts:6-8 | "Db" is not in the table, so its distance to "E" is 0 |
| NoteProperties.DistanceExampleEmpty | utils/musicTheory.ts:6-8 | the empty name gives distance 0 |
| NoteProperties.DistanceExampleNoWrap | utils/musicTheory.ts:9 | the distance is a plain index difference: C to B is 11, B to C is -11 |
| JsText.IndexOf | utils/musicTheory.ts:6-7 | `indexOf` returns -1 or a position inside the array; `IndexOfSpec` says which one |
| JsText.IndexOfSpec | utils/musicTheory.ts:6-7 | `indexOf` gives the first position holding the value, or -1 exactly when the value is absent |
| JsText.IndexFromSpec | utils/musicTheory.ts:21 | the search from position k finds the first occurrence at or after k, or -1 when there is none |
| MusicTheory.RootPrefixLength | utils/musicTheory.ts:88 | the length `/^[A-G]#?/` matches is at most 2 and inside the text, 0 meaning no match; `RewriteSubtext`, `ChordProperties.ChordSubtext` and `ChordProperties.RewriteSubtextTwice` are stated with it |
| MusicTheory.MatchNote | utils/musicTheory.ts:15 | the length of the root-name group is at most 2 and inside the note, 0 meaning no match; `MatchNoteSound` and `NoteProperties.MatchNoteComplete` say exactly what matches |
| MusicTheory.MatchNoteSound | utils/musicTheory.ts:15-18 | a match of the note pattern splits the note into a root name `[A-G]#?` and an integer text `-?\d+` |
| NoteProperties.MatchNoteComplete | utils/musicTheory.ts:15-18 | every root name followed by an integer text matches, and is split at the end of the name |
| JsText.ParseInt | utils/musicTheory.ts:19 | `parseInt(_, 10)`, with no contract of its own: `ParseIntText`, `ParseFormatInt`, `DigitPrefixLongest` (it reads the longest digit prefix), `TabProperties.MuteUnreadable` and `TabProperties.ExampleTrailingText` state what it reads |
| JsText.DigitPrefixLongest | utils/musicTheory.ts:19 | the digits `parseInt` reads are a prefix of the text, and the character after them, if any, is not a digit |
| JsText.IsIntText | utils/musicTheory.ts:15 | the `-?\d+` group: digits, or a minus sign followed by digits |
| JsText.ParseIntText | utils/musicTheory.ts:19 | `parseInt` reads a signed digit text as its decimal value |
| JsText.FormatParseIntText | utils/musicTheory.ts:19 | writing back a parsed octave gives the same text exactly when that text has no leading zero and is not "-0" |
| JsText.ParseFormatInt | utils/musicTheory.ts:67 | `parseInt` reads back what `toString` writes for every integer |
| JsText.FormatInt | utils/musicTheory.ts:33 | `toString` writes the shortest spelling (no leading zero, never "-0"), with a minus sign exactly when the number is negative |
| JsText.FormatIntShape | utils/musicTheory.ts:33 | `toString` of an integer is a signed digit text with no space |
| JsText.NatToDigitsSpec | utils/musicTheory.ts:33 | the decimal spelling of a natural number is canonical and has that value |
| MusicTheory.TruncRem12 | utils/musicTheory.ts:28 | JavaScript's `%` by 12: the remainder takes the dividend's sign and differs from it by a multiple of 12 |
| MusicTheory.FloorDiv12 | utils/musicTheory.ts:25 | `Math.floor(a / 12)` is the q with 12q <= a < 12q + 12 |
| MusicTheory.TruncRemWrap | utils/musicTheory.ts:28 | `((x % 12) + 12) % 12` equals the mathematical remainder of x by 12 |
| MusicTheory.ShiftPitch | utils/musicTheory.ts:24-31 | the shifted pitch is the pitch exactly `semitones` higher in absolute height |
| MusicTheory.PitchOf | utils/musicTheory.ts:15-22 | a note that is read has a name index inside the table |
| NoteProperties.ShiftPitchArithmetic | utils/musicTheory.ts:24-31 | the new name index is (i + s) mod 12 and the new octave is octave + floor((i + s) / 12), for every sign and size of s |
| NoteProperties.ShiftCompose | utils/musicTheory.ts:24-31 | two shifts in a row are one shift by their sum |
| NoteProperties.ShiftInverse | utils/musicTheory.ts:24-31 | a shift by s is undone by a shift by -s |
| NoteProperties.ShiftOctave | utils/musicTheory.ts:24-31 | a shift by +12 or -12 keeps the name and moves the octave by one |
| MusicTheory.RenderPitch | utils/musicTheory.ts:30-33 | the note written as `${NOTES[newIndex]}${newOctave}`; it requires an index inside the table, and `PitchOfRender` and `CanonicalNoteSpelling` state what it writes |
| NoteProperties.PitchOfRender | utils/musicTheory.ts:15-22 | a note written as `${name}${octave}` reads back as the same pitch |
| MusicTheory.TransposeNote | utils/musicTheory.ts:13-34 | `transposeNote`, with no contract of its own: the `NoteProperties` lemmas from `TransposeNoteSoftFail` to `TransposeNoteRoundTrip` below state what it does |
| NoteProperties.TransposeNoteSoftFail | utils/musicTheory.ts:15-16 | a note the pattern rejects, or whose name is not in the table, is returned unchanged |
| NoteProperties.TransposeNoteArithmetic | utils/musicTheory.ts:13-34 | a readable note becomes a readable note exactly `semitones` higher in absolute height |
| NoteProperties.TransposeNoteCanonical | utils/musicTheory.ts:33 | every result of `transposeNote` is canonically spelled |
| NoteProperties.CanonicalNoteSpelling | utils/musicTheory.ts:15-33 | a readable note is canonically spelled exactly when writing its pitch gives the note back |
| NoteProperties.TransposeNoteOctave | utils/musicTheory.ts:24-33 | transposing by +12 or -12 gives the same name one octave up or down |
| NoteProperties.TransposeNoteZero | utils/musicTheory.ts:13-34 | a zero shift returns the note exactly when it is canonically spelled |
| NoteProperties.TransposeNoteCompose | utils/musicTheory.ts:13-34 | transposing by a and then by b is transposing by a + b |
| NoteProperties.TransposeNoteRoundTrip | utils/musicTheory.ts:13-34 | a canonically spelled note transposed by s and then by -s is the same note |
| NoteProperties.DistanceMovesRoot | utils/musicTheory.ts:5-34 | a note on root a, transposed by the distance from a to b, is on root b |
| NoteExamples.ExampleEToGRoot | utils/musicTheory.ts:13-34 | "E2" up three semitones is "G2" |
| NoteExamples.ExampleEToGFifth | utils/musicTheory.ts:13-34 | "B2" up three semitones is "D3", carrying into the next octave |
| NoteExamples.ExampleEToGOctave | utils/musicTheory.ts:13-34 | "E3" up three semitones is "G3" |
| NoteExamples.ExampleCarryUp | utils/musicTheory.ts:24-33 | "B3" up one semitone is "C4" |
| NoteExamples.ExampleCarryDown | utils/musicTheory.ts:24-33 | "C2" down one semitone is "B1" |
| NoteExamples.ExampleLargeShift | utils/musicTheory.ts:24-33 | "F#3" down 30 semitones is "C1" |
| NoteExamples.ExampleNegativeOctave | utils/musicTheory.ts:24-33 | "C0" down one is "B-1" |
| NoteExamples.ExampleUnknownSharp | utils/musicTheory.ts:21-22 | "E#2" and "B#3" match the pattern but are not in the table, so they are kept |
| NoteExamples.ExampleNoMatch | utils/musicTheory.ts:15-16 | "Db3" and "e2" do not match the pattern and are kept |
| NoteExamples.ReadLeadingZero | utils/musicTheory.ts:15-22 | "E02" reads as E2 but is not canonically spelled |
| NoteExamples.ExampleLeadingZero | utils/musicTheory.ts:13-34 | "E02" up 3 and down 3 is "E2": the round trip needs a canonical octave |
| MusicTheory.FretFloor | utils/musicTheory.ts:63-65 | the raised fret is not negative, is congruent to the fret mod 12, equals it when it is not negative and is below 12 otherwise |
| MusicTheory.FretFloorUnique | utils/musicTheory.ts:63-65 | the only value the raising loop can stop at is `FretFloor` of its start |
| MusicTheory.DropOffset | utils/musicTheory.ts:58-60 | DROP adds 2 on string index 0 and nothing anywhere else |
| MusicTheory.TransposeToken | utils/musicTheory.ts:44-68 | a token becomes "x", stays as it is, or becomes a fret spelled as digits without a leading zero; `TokenMuted`, `TokenUnreadable`, `TokenFret` and `TokenZero` say which |
| MusicTheory.TransposeTokens | utils/musicTheory.ts:44-68 | the map keeps the number of tokens; each is transposed at its own index |
| MusicTheory.TransposedTabs | utils/musicTheory.ts:38-71 | the new tab is empty exactly when there was no tab or an empty one; `TabsShape`, `TabsShortcuts` and `TabsZero` state the rest |
| JsText.Split | utils/musicTheory.ts:42 | `split(' ')` gives at least one piece, and a non-empty text gives two pieces or a non-empty first one |
| JsText.Join | utils/musicTheory.ts:70 | `join(' ')` puts one space between each two pieces, so it is at least as long as the number of pieces less one |
| JsText.SplitJoin | utils/musicTheory.ts:42-70 | splitting the join of space-free pieces gives the pieces back |
| JsText.JoinSplit | utils/musicTheory.ts:42-70 | joining the pieces of a split gives the text back |
| MusicTheory.TransposeTokenAt | utils/musicTheory.ts:44-68 | the callback, with its `while` loop, computes `TransposeToken` |
| MusicTheory.TransposeTabs | utils/musicTheory.ts:38-71 | the split–map–join computes `TransposedTabs` |
| TabProperties.TokenMuted | utils/musicTheory.ts:46 | "x" and "X" become "x" |
| TabProperties.TokenUnreadable | utils/musicTheory.ts:49-50 | a token other than "X" that `parseInt` cannot read, the empty token included, is kept |
| TabProperties.TokenFret | utils/musicTheory.ts:49-67 | a fret token becomes a fret that reads back as non-negative and congruent mod 12 to fret + shift + DROP offset; it equals that sum when the sum is not negative and is below 12 otherwise |
| TabProperties.TokenDrop | utils/musicTheory.ts:58-60 | DROP equals STANDARD on every string but index 0, where it equals STANDARD with two more semitones |
| TabProperties.TokenCompose | utils/musicTheory.ts:53-67 | in STANDARD tuning, two token shifts that never go below the nut are one shift by their sum |
| TabProperties.TokenSpaceFree | utils/musicTheory.ts:44-68 | a token without spaces stays without spaces |
| TabProperties.FretReadBack | utils/musicTheory.ts:63-67 | the raised fret is written so that `parseInt` reads it back, not negative and congruent mod 12 to the target |
| TabProperties.TokenZero | utils/musicTheory.ts:44-68 | at distance 0 in STANDARD a token is kept exactly when it is not "X" and is either unreadable or plain digits without a leading zero; so "X", "02", "-1", " 3" and "3a" change |
| TabProperties.TabsShape | utils/musicTheory.ts:42-70 | splitting the new tab gives the transposed tokens, one for each old token, in order |
| TabProperties.TabsDrop | utils/musicTheory.ts:58-60 | DROP and STANDARD tabs agree on every token but the first, which DROP frets as two more semitones |
| TabProperties.TabsShortcuts | utils/musicTheory.ts:39-40 | no tab or an empty tab gives "", and "TRANSPOSED" is kept |
| TabProperties.TabsZero | utils/musicTheory.ts:38-71 | at distance 0 in STANDARD a tab, empty or "TRANSPOSED" included, is kept exactly when each of its tokens is kept |
| TabProperties.ExampleEShapeTokensToG | utils/musicTheory.ts:44-68 | the tokens 0 2 2 x x x up three semitones in STANDARD tuning are 3 5 5 x x x |
| TabProperties.ExampleEShapeToG | utils/musicTheory.ts:38-71 | "0 2 2 x x x" up 3 in STANDARD tuning is "3 5 5 x x x" |
| TabProperties.ExampleEShapeTokensDrop | utils/musicTheory.ts:58-60 | the tokens of "0 2 2 x x x" at distance 0 in DROP tuning are "2 2 2 x x x" |
| TabProperties.ExampleZeroLeadingZero | utils/musicTheory.ts:49-67 | at distance 0, "02" is rewritten as "2" |
| TabProperties.ExampleZeroNegative | utils/musicTheory.ts:49-67 | at distance 0, "-1" is raised to "11" |
| TabProperties.ExampleTrailingText | utils/musicTheory.ts:49 | `parseInt` reads "3a" as 3, so up 2 it is "5" |
| TabProperties.ExampleEmptyToken | utils/musicTheory.ts:49-50 | the empty token left by a double space is kept |
| TabProperties.ExampleBelowNut | utils/musicTheory.ts:63-65 | fret 1 down 3 is raised to fret 10 |
| MusicTheory.TransposeChord | utils/musicTheory.ts:74-101 | `id`, `name`, `description` and `baseRoot` are unchanged; the subtext, the notes and the fretboard are the rewritten subtext, the notes moved by the root distance and the tab moved by it, which is always present |
| ChordProperties.ChordNotesMapped | utils/musicTheory.ts:80-82 | at distance 0 the notes are returned as they are; otherwise each note is transposed in place |
| ChordProperties.ChordNotes | utils/musicTheory.ts:76-82 | each readable note moves by exactly the root distance and every other note is kept |
| ChordProperties.ChordReachesTarget | utils/musicTheory.ts:76-82 | a note on the chord's root lands on the target root |
| ChordProperties.ChordTransposeTwice | utils/musicTheory.ts:94-99 | because `baseRoot` is kept, transposing the result again shifts each readable note a second time |
| ChordProperties.NotesShortcut | utils/musicTheory.ts:80-82 | keeping the notes at distance 0 agrees with shifting each by 0 exactly when every note is canonically spelled |
| MusicTheory.RewriteSubtext | utils/musicTheory.ts:85-88 | the new subtext starts with the target root and is as long as the root plus what follows the old `[A-G]#?` prefix; `RewriteSubtextSpec` gives its exact text |
| MusicTheory.TransposeNotes | utils/musicTheory.ts:80-82 | the notes keep their number; `ChordNotesMapped` and `ChordNotes` say where each goes |
| ChordProperties.RewriteSubtextSpec | utils/musicTheory.ts:85-88 | both branches of the subtext rule are "target root + what follows `[A-G]#?`" |
| ChordProperties.RewriteSubtextTwice | utils/musicTheory.ts:85-88 | rewriting twice is rewriting once with the second root, unless the text after a root without a sharp starts with '#' |
| ChordProperties.ChordSubtext | utils/musicTheory.ts:85-88 | the new subtext is the target root followed by what follows the old subtext's `[A-G]#?` prefix |
| ChordProperties.ChordSameRoot | utils/musicTheory.ts:74-101 | moving a chord to its own root in STANDARD keeps its notes, and keeps its tab exactly when it has one whose every token is kept at distance 0 |
| ChordProperties.ChordTabs | utils/musicTheory.ts:90-92 | a missing fretboard becomes "", "TRANSPOSED" is kept, and otherwise the new tab's tokens are the old ones shifted by the distance |
| ChordProperties.ExampleSubtexts | utils/musicTheory.ts:85-88 | m(add9) to A gives Am(add9), and to G gives Gm(add9) |
| ChordProperties.ExampleSubtextNoRoot | utils/musicTheory.ts:85-88 | Maj7(no5) starts with a letter past G, so to G it gives GMaj7(no5) |
| ChordProperties.ExampleSubtextsRooted | utils/musicTheory.ts:85-88 | E(VI) to C gives C(VI); C#m7 to D gives Dm7 |
| ChordProperties.ExampleSubtextSharp | utils/musicTheory.ts:85-88 | the generic "#9" written after C and rewritten to D gives "D9", not "D#9" |
| CatalogueExamples.GhostToG | utils/musicTheory.ts:74-101 | the catalogue chord `The "Ghost" Chord` moved from E to G has subtext Gm(add9), notes G2 D3 A3 A#3 D4 G4 and tab "3 5 7 3 3 3"; every other field is unchanged |

## Left out

- The rest of the repository is left out. That is the React components, `App.tsx`, the zustand store, the Tone.js audio engine and the DOM entry point. It is UI, asynchronous plumbing and foreign libraries.
- The chord catalogue in `constants.ts` is data. Only `NOTES` is part of the model. One catalogue entry appears as the constant `CatalogueExamples.GHOST`.
- Numbers are unbounded integers. JavaScript numbers are doubles, so `parseInt` of an octave or fret text with more than 15 significant digits loses precision, and `toString` writes exponent notation from 1e21 on. Neither is modelled. Below -2^57 consecutive doubles are more than 12 apart, so `newFret += 12` leaves the fret unchanged and the raising loop never ends (for the token "-200000000000000000", say). The `decreases -newFret` of `MusicTheory.TransposeTokenAt` holds only for the model's unbounded integers.
- A `-0` octave is not modelled separately. `parseInt("-0")` is -0 in JavaScript, but adding the integral octave shift gives +0, and a template literal writes -0 as "0". The written result is the same as the model's 0.
- `parseInt` is modelled for radix 10 only. That is the only radix the engine uses.
- `String.prototype.replace` treats `$` sequences in the replacement specially. The model inserts the target root literally, which matches every root in `NOTES`.
- `val.toLowerCase() === 'x'` is modelled as `val == "x" || val == "X"`. No other string lowercases to "x".
