# key-to-pitch, modelled in Dafny

A model of the two pieces of logic in the key-to-pitch piano app
(`src/App.tsx`):

- **transKey** turns a note name such as `"C#4"` into the frequency ratio a
  key press reports. It finds the pitch-class token with the regular
  expression `/[A-Z]#?/` and falls back to `"C"` when nothing matches. It
  looks the token up in the 12-name chromatic table C, C#, …, B, where
  `findIndex` gives -1 for a token the table lacks. It deletes the first
  occurrence of the token and reads the rest with `Number(...)`. The result
  is `2^((index + 12·octave − 53 − 1)/12)`. The model keeps that ratio as
  its exponent in twelfths of an octave, `Ratio.Pow2Twelfths(e)`, or `NaN`.
- **Piano** lays out one octave: seven white keys C..B named
  `${note}${octave}` (only C carries a label, its full name), then five black
  keys C#..A# whose `left` offset is `(whiteKeyIndex + 1) · 25` for
  `whiteKeyIndex` in `[0, 1, 3, 4, 5]`. Pressing a key reports
  `transKey(fullNote)`.

Modules:

| file | module | models |
|---|---|---|
| wrappers.dfy | `Wrappers` | `Option` |
| js_number.dfy | `JsNumber` | `Number(s)` and `String(n)` on integers |
| js_search.dfy | `JsSearch` | `String.prototype.replace` with a string pattern, `Array.prototype.findIndex` |
| pitch.dfy | `Pitch` | transKey: the regex scan, the table lookup, the octave, the exponent |
| piano.dfy | `Piano` | the key layout of one octave and what each key reports |

Three behaviours of the code are easy to misread; the model follows the code:

- `Number("")` is 0 in JavaScript. So a bare `"C"` is octave 0 (exponent
  −54), not NaN.
- The regular expression accepts any upper-case ASCII letter, not only the
  seven note letters. `H`, `E#` and `B#` are matched, missing from the table
  and computed with index −1. This is not an error.
- The exponent is `index + 12·octave − 54`. It is 0 at F#4 and 6 at C5.

## Model

| member | source | states |
|---|---|---|
| JsNumber.NatToString | src/App.tsx:106 | `String(n)` of a non-negative integer is a non-empty digit string whose first digit is `0` only for 0 |
| JsNumber.IntToString | src/App.tsx:106 | `String(i)` is a numeral; it starts with `-` exactly when `i` is negative |
| JsNumber.ParseNumber | src/App.tsx:31 | `Number(s)` is a number exactly for the empty string or a numeral; the empty string is 0; a negative value comes from a leading `-` |
| JsNumber.IntToStringRoundTrip | src/App.tsx:31 | `Number(String(i)) == i` for every integer |
| JsNumber.ParseNumberRoundTrip | src/App.tsx:31 | `String(Number(s)) == s` for every canonical numeral (no leading zero, no `-0`) |
| JsSearch.FirstOccurrence | src/App.tsx:31 | the position found is an occurrence of the pattern with none before it; absent means no occurrence at all |
| JsSearch.RemoveFirst | src/App.tsx:31 | `replace(p, "")` cuts out exactly the first occurrence of `p`, and leaves the string alone when `p` does not occur |
| JsSearch.FindIndex | src/App.tsx:30 | `findIndex` is −1 exactly when the value is absent; otherwise it is the first position holding it |
| JsSearch.FindIndexAt | src/App.tsx:30 | an entry different from all earlier entries is found at its own position |
| Pitch.Exec | src/App.tsx:28-29 | the scan returns a match of `/[A-Z]#?/` with no upper-case letter before it and the `#` taken when present; no result means no upper-case letter at all |
| Pitch.ExecIsLeftmostGreedy | src/App.tsx:28-29 | the scan returns `(i, tok)` if and only if `tok` at `i` is the leftmost, greedy match of `/[A-Z]#?/` |
| Pitch.ExecNone | src/App.tsx:28-29 | the scan finds nothing if and only if no position of the note matches |
| Pitch.RemoveMatchedToken | src/App.tsx:29-31 | the token `replace` deletes is the one `exec` matched, at the same position, so the octave is read from the note without that token |
| Pitch.NoUpperFallsBackToC | src/App.tsx:29-31 | a note with no upper-case letter gets token `"C"` (index 0), nothing is stripped, and the whole note is read as the octave |
| Pitch.MatchKey | src/App.tsx:28-29 | the token is a letter with an optional `#`; a note with no upper-case letter gets the fallback `"C"` |
| Pitch.PitchIndex | src/App.tsx:30 | the index lies in −1..11; it is −1 exactly when the token is not in the table, otherwise the table holds the token there; a note with no upper-case letter gets 0 |
| Pitch.Octave | src/App.tsx:31 | a note with no upper-case letter is read whole as the octave text |
| Pitch.NoUpperNoMatch | src/App.tsx:28-31 | a note with no upper-case letter has no regex match and contains no `"C"` to strip |
| Pitch.SpellingIsExecMatch | src/App.tsx:28-29 | a spelling at the start of a note is the leftmost greedy match, unless a one-letter spelling is followed by `#` |
| Pitch.ParseSpelling | src/App.tsx:28-31 | a letter with an optional `#` yields that token, its table index, and the following text as the octave text; a one-letter spelling must not be followed by `#`, which the regex would take too |
| Pitch.NoteListIndex | src/App.tsx:14-30 | the 12 table names are distinct, so `findIndex` gives each its own position |
| Pitch.TransKey | src/App.tsx:13-34 | the ratio is NaN exactly when the octave text is not a number; otherwise the exponent lies within `12·octave − 55 .. 12·octave − 43` |
| Pitch.ParseKeyName | src/App.tsx:28-31 | parse/print round trip: `${name}${String(o)}` for the k-th table name yields token `name`, index k and octave exactly `o` |
| Pitch.ParseTableName | src/App.tsx:28-31 | the same round trip stated by name: any table name followed by `String(o)` yields the name's table index and octave `o` |
| Pitch.Exponent | src/App.tsx:30-33 | the exponent of the k-th table name in octave `o` is `k + 12·o − 54` |
| Pitch.OctaveDoubles | src/App.tsx:31-33 | the same pitch class one octave up has its exponent raised by 12: the ratio doubles |
| Pitch.SemitoneStep | src/App.tsx:14-33 | the next name in the table, same octave, is one semitone higher |
| Pitch.OctaveBoundaryStep | src/App.tsx:14-33 | C of octave `o + 1` is one semitone above B of octave `o` |
| Pitch.NamesSemitoneApart | src/App.tsx:30-33 | two table names whose `index + 12·octave` differ by one are one semitone apart, across octaves too |
| Pitch.ChromaticOrder | src/App.tsx:14-33 | within an octave, table order is strictly increasing pitch |
| Pitch.UnknownSpelling | src/App.tsx:28-33 | a token the table lacks gets index −1 and still gives exponent `12·octave − 55`, not an error |
| Pitch.TableCoverage | src/App.tsx:14-28 | a token the regex can produce is in the table exactly when its letter is A..G and it is not E# or B# |
| Pitch.ExampleA4 | src/App.tsx:30-33 | `"A4"` gives exponent 3 |
| Pitch.ExampleC1 | src/App.tsx:30-33 | `"C1"` gives exponent −42 |
| Pitch.ExampleFSharp4 | src/App.tsx:30-33 | `"F#4"` gives exponent 0, ratio 1 |
| Pitch.ExampleC5 | src/App.tsx:30-33 | `"C5"` gives exponent 6 |
| Pitch.ExampleBareC | src/App.tsx:29-33 | `"C"` reads the empty remainder as octave 0: exponent −54 |
| Pitch.ExampleNoLetter | src/App.tsx:29-33 | `"4"` falls back to C in octave 4: exponent −6 |
| Pitch.ExampleH4 | src/App.tsx:28-33 | `"H4"` is matched, misses the table and gives exponent −7 |
| Pitch.ExampleFlat | src/App.tsx:28-33 | `"Cb4"` matches `C`, leaves `"b4"` as the octave text, and gives NaN |
| Piano.FullNoteRoundTrip | src/App.tsx:106 | a full name is the note name followed by an octave text that `Number` reads back as the octave; for a table name, transKey recovers the table index and the octave |
| Piano.WhiteKey | src/App.tsx:105-111 | a white key is white, has no `left` offset, and is labelled exactly when its note is C, with its full name |
| Piano.BlackKey | src/App.tsx:119-123 | the i-th black key is black, named C#..A#, has no label, and has a `left` offset that is a multiple of 25 between 25 and 150: an edge between two white keys |
| Piano.Layout | src/App.tsx:98-130 | the layout has twelve keys (their contents are in `Piano.LayoutContents`) |
| Piano.Press | src/App.tsx:112-126 | a press reports NaN exactly when the octave text of the key's full name is not a number |
| Piano.NamesInTable | src/App.tsx:97-98 | the white and black note names, in layout order, are the table entries at CHROMATIC_INDEX |
| Piano.LayoutContents | src/App.tsx:98-120 | 12 keys: seven white C..B, then five black C#..A#, each named note followed by `String(octave)` |
| Piano.DefaultOctaveLayout | src/App.tsx:96-124 | the default octave 4 gives names C4..B4, C#4..A#4 and black-key offsets 25, 50, 100, 125, 150 |
| Piano.BlackKeyOffsets | src/App.tsx:97-124 | in every octave the black-key offsets are 25, 50, 100, 125, 150, strictly increasing; white keys have none |
| Piano.OnlyCIsLabelled | src/App.tsx:105-110 | exactly the C key carries a label, and the label is its full name |
| Piano.KeyName | src/App.tsx:105-120 | key i of the layout is named by the table entry at its chromatic index |
| Piano.KeyPitch | src/App.tsx:105-126 | every key's name parses back to its chromatic index and the octave, so a press reports exponent `index + 12·octave − 54` |
| Piano.EveryIndexHasAKey | src/App.tsx:98-120 | every chromatic index 0..11 is the index of a key of the layout |
| Piano.KeysDistinct | src/App.tsx:98-120 | no two keys share a chromatic index, so their names are pairwise distinct |
| Piano.BlackKeyBetweenWhites | src/App.tsx:97-126 | a black key sits on the right edge of white key `p`, one semitone above it and one semitone below white key `p + 1` |
| Piano.KeyOctaveDoubles | src/App.tsx:105-126 | the same key one octave up reports twice the ratio |

## Left out

- `Math.pow` and the floating-point ratio (src/App.tsx:33) are not modelled. The ratio is kept as its exact exponent in twelfths of an octave.
- `note.toString()`, the `useState` holding the last value, and the clipboard control in `App` are not modelled. They are UI state.
- JsNumber.ParseNumber: reads only the empty string, digits and `-` followed by digits. JavaScript's `Number` also trims whitespace and accepts a leading `+`, decimals, hexadecimal, exponents and `Infinity`. Those texts give NaN (None) here, so for instance `"C4.5"` is NaN in the model but octave 4.5 in JavaScript. Octave texts are also read as exact integers: `Number` rounds integers above 2^53 to the nearest double and overflows to `Infinity` past about 1.8·10^308 (`"C"` followed by 400 nines gives `Infinity` in JavaScript and a finite octave here). The same holds for `octave * 12` and the exponent sum (src/App.tsx:31-33), which the model computes without rounding.
- JsNumber.IntToString: writes every integer in plain decimal. JavaScript writes integers of magnitude 10^21 and above in exponent form.
- The Piano `octave` prop is a JavaScript number. The model takes an integer, as every call site passes one.
- A general regular-expression engine is not modelled. Only the scan for `/[A-Z]#?/` is.
- The React and Chakra rendering is not modelled: `WhiteKey` and `BlackKey` styling, the `px` suffix on `left`, the flex row that places the white keys, and the ten `Piano` instances for octaves 1..10 in `App`. White keys have no `left` offset in the model because the flex row positions them.
