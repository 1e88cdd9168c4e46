/** The key layout of one octave of the Piano component: seven white keys
    C..B, five black keys C#..A# placed over the boundaries between white
    keys, and the full note name each key passes to transKey when pressed. */
module Piano {
  import opened Wrappers
  import opened JsNumber
  import opened JsSearch
  import Pitch

  const WHITE_KEY_WIDTH: nat := 25
  const WHITE_KEY_NOTES: seq<string> := ["C", "D", "E", "F", "G", "A", "B"]
  const BLACK_KEY_NOTES: seq<string> := ["C#", "D#", "F#", "G#", "A#"]
  /** For each black key, the index of the white key on whose right edge it sits. */
  const BLACK_KEY_POSITIONS: seq<nat> := [0, 1, 3, 4, 5]
  /** The octave Piano draws when none is given. */
  const DEFAULT_OCTAVE: int := 4

  /** The position in the chromatic table of each key of the layout, in
      layout order (white keys first), and its inverse. */
  const CHROMATIC_INDEX: seq<nat> := [0, 2, 4, 5, 7, 9, 11, 1, 3, 6, 8, 10]
  const SLOT_OF_INDEX: seq<nat> := [0, 7, 1, 8, 2, 3, 9, 4, 10, 5, 11, 6]

  datatype Kind = White | Black

  /** One rendered key: its pitch-class name, its full name (the React key
      and what a press hands to transKey), its kind, the `left` offset in
      pixels of a black key, and the name drawn on it (`noteName`). */
  datatype KeyDescriptor = Key(
    note: string,
    fullNote: string,
    kind: Kind,
    left: Option<nat>,
    noteName: Option<string>)

  /** `${note}${String(octave)}` */
  function FullNote(note: string, octave: int): string {
    note + IntToString(octave)
  }

  /** A full name is the note name followed by an octave text that reads
      back as the octave; for a name of the chromatic table, transKey's
      parse recovers both the table index and the octave. */
  lemma FullNoteRoundTrip(note: string, octave: int)
    ensures |FullNote(note, octave)| > |note| && FullNote(note, octave)[..|note|] == note
    ensures ParseNumber(FullNote(note, octave)[|note|..]) == Some(octave)
    ensures note in Pitch.NOTE_LIST ==>
      && Pitch.PitchIndex(FullNote(note, octave)) == FindIndex(Pitch.NOTE_LIST, note)
      && Pitch.Octave(FullNote(note, octave)) == Some(octave)
  {
    IntToStringRoundTrip(octave);
    assert FullNote(note, octave)[|note|..] == IntToString(octave);
    Pitch.ParseTableName(note, octave);
  }

  /** A white key; only C carries a label, its full name. */
  function WhiteKey(note: string, octave: int): (k: KeyDescriptor)
    ensures k.kind == White && k.left.None? && k.note == note
    ensures k.noteName.Some? <==> note == "C"
    ensures k.noteName.Some? ==> k.noteName.value == k.fullNote
  {
    var fullNote := FullNote(note, octave);
    Key(note, fullNote, White, None, if note == "C" then Some(fullNote) else None)
  }

  /** The i-th black key, `left` at (whiteKeyIndex + 1) * whiteKeyWidth. */
  function BlackKey(i: nat, octave: int): (k: KeyDescriptor)
    requires i < 5
    ensures k.kind == Black && k.noteName.None? && k.note == BLACK_KEY_NOTES[i]
    ensures k.left.Some? && OnWhiteBoundary(k.left.value)
  {
    var note := BLACK_KEY_NOTES[i];
    Key(note, FullNote(note, octave), Black, Some((BLACK_KEY_POSITIONS[i] + 1) * WHITE_KEY_WIDTH), None)
  }

  /** An offset on the edge between two of the seven white keys. */
  predicate OnWhiteBoundary(x: nat) {
    x % WHITE_KEY_WIDTH == 0 && WHITE_KEY_WIDTH <= x < 7 * WHITE_KEY_WIDTH
  }

  /** The keys Piano renders for an octave, in render order. */
  function Layout(octave: int): (keys: seq<KeyDescriptor>)
    ensures |keys| == 12
  {
    seq(7, i requires 0 <= i < 7 => WhiteKey(WHITE_KEY_NOTES[i], octave))
    + seq(5, i requires 0 <= i < 5 => BlackKey(i, octave))
  }

  /** What pressing a key reports: transKey of its full name. */
  function Press(key: KeyDescriptor): (r: Pitch.Ratio)
    ensures r.NaN? <==> Pitch.Octave(key.fullNote).None?
  {
    Pitch.TransKey(key.fullNote)
  }

  function FullNotes(keys: seq<KeyDescriptor>): seq<string> {
    seq(|keys|, i requires 0 <= i < |keys| => keys[i].fullNote)
  }

  function Lefts(keys: seq<KeyDescriptor>): seq<Option<nat>> {
    seq(|keys|, i requires 0 <= i < |keys| => keys[i].left)
  }

  /** Seven white keys C..B, then five black keys C#..A#, every name
      followed by the octave. */
  lemma LayoutContents(octave: int)
    ensures |Layout(octave)| == 12
    ensures forall i :: 0 <= i < 7 ==>
      Layout(octave)[i].kind == White && Layout(octave)[i].note == WHITE_KEY_NOTES[i]
    ensures forall i :: 7 <= i < 12 ==>
      Layout(octave)[i].kind == Black && Layout(octave)[i].note == BLACK_KEY_NOTES[i - 7]
    ensures forall i :: 0 <= i < 12 ==>
      Layout(octave)[i].fullNote == Layout(octave)[i].note + IntToString(octave)
  {
  }

  /** The default octave: names C4..B4 and C#4..A#4, black keys at 25, 50,
      100, 125 and 150 pixels. */
  lemma DefaultOctaveLayout()
    ensures FullNotes(Layout(DEFAULT_OCTAVE))
         == ["C4", "D4", "E4", "F4", "G4", "A4", "B4", "C#4", "D#4", "F#4", "G#4", "A#4"]
    ensures Lefts(Layout(DEFAULT_OCTAVE))
         == [None, None, None, None, None, None, None, Some(25), Some(50), Some(100), Some(125), Some(150)]
  {
    var names := ["C4", "D4", "E4", "F4", "G4", "A4", "B4", "C#4", "D#4", "F#4", "G#4", "A#4"];
    assert IntToString(4) == "4";
    LayoutContents(DEFAULT_OCTAVE);
    forall i | 0 <= i < 12 ensures FullNotes(Layout(DEFAULT_OCTAVE))[i] == names[i] {
      assert names[i] == (WHITE_KEY_NOTES + BLACK_KEY_NOTES)[i] + "4";
    }
    BlackKeyOffsets(DEFAULT_OCTAVE);
  }

  /** Black-key offsets are 25, 50, 100, 125, 150 in every octave, strictly
      increasing from left to right; white keys have none. */
  lemma BlackKeyOffsets(octave: int)
    ensures Lefts(Layout(octave))
         == [None, None, None, None, None, None, None, Some(25), Some(50), Some(100), Some(125), Some(150)]
    ensures forall i, j :: 7 <= i < j < 12 ==> Layout(octave)[i].left.value < Layout(octave)[j].left.value
  {
    var keys := Layout(octave);
    assert keys[7..] == seq(5, i requires 0 <= i < 5 => BlackKey(i, octave));
    assert Lefts(keys)[7..] == [Some(25), Some(50), Some(100), Some(125), Some(150)];
  }

  /** Only the C key is labelled, and its label is its full name. */
  lemma OnlyCIsLabelled(octave: int)
    ensures forall i :: 0 <= i < 12 ==> (Layout(octave)[i].noteName.Some? <==> i == 0)
    ensures forall i :: 0 <= i < 12 ==> (Layout(octave)[i].note == "C" <==> i == 0)
    ensures Layout(octave)[0].noteName == Some(Layout(octave)[0].fullNote)
  {
  }

  /** Key i of the layout is the table name at CHROMATIC_INDEX[i]. */
  lemma KeyName(octave: int, i: nat)
    requires i < 12
    ensures Layout(octave)[i].fullNote == Pitch.NOTE_LIST[CHROMATIC_INDEX[i]] + IntToString(octave)
  {
    NamesInTable(i);
    if i < 7 {
      assert Layout(octave)[i] == WhiteKey(WHITE_KEY_NOTES[i], octave);
    } else {
      assert Layout(octave)[i] == BlackKey(i - 7, octave);
    }
  }

  /** The key names, in layout order, are the table names at CHROMATIC_INDEX. */
  lemma NamesInTable(i: nat)
    requires i < 12
    ensures CHROMATIC_INDEX[i] < 12
    ensures i < 7 ==> WHITE_KEY_NOTES[i] == Pitch.NOTE_LIST[CHROMATIC_INDEX[i]]
    ensures i >= 7 ==> BLACK_KEY_NOTES[i - 7] == Pitch.NOTE_LIST[CHROMATIC_INDEX[i]]
  {
  }

  /** Each key's name parses back to its chromatic index and its octave, so
      a press reports 2^((index + 12 * octave - 54) / 12). */
  lemma KeyPitch(octave: int, i: nat)
    requires i < 12
    ensures Pitch.PitchIndex(Layout(octave)[i].fullNote) == CHROMATIC_INDEX[i]
    ensures Pitch.Octave(Layout(octave)[i].fullNote) == Some(octave)
    ensures Press(Layout(octave)[i]) == Pitch.Pow2Twelfths(CHROMATIC_INDEX[i] + 12 * octave - 54)
  {
    KeyName(octave, i);
    Pitch.ParseKeyName(CHROMATIC_INDEX[i], octave);
    Pitch.Exponent(CHROMATIC_INDEX[i], octave);
  }

  /** CHROMATIC_INDEX and SLOT_OF_INDEX are inverse permutations of 0..11. */
  lemma SlotsInverse()
    ensures forall c :: 0 <= c < 12 ==> SLOT_OF_INDEX[c] < 12 && CHROMATIC_INDEX[SLOT_OF_INDEX[c]] == c
    ensures forall i :: 0 <= i < 12 ==> CHROMATIC_INDEX[i] < 12 && SLOT_OF_INDEX[CHROMATIC_INDEX[i]] == i
  {
  }

  /** Every chromatic index is the index of some key of the layout: the key
      at SLOT_OF_INDEX[c]. */
  lemma EveryIndexHasAKey(octave: int)
    ensures forall c :: 0 <= c < 12 ==> Pitch.PitchIndex(Layout(octave)[SLOT_OF_INDEX[c]].fullNote) == c
  {
    SlotsInverse();
    forall c | 0 <= c < 12 ensures Pitch.PitchIndex(Layout(octave)[SLOT_OF_INDEX[c]].fullNote) == c {
      KeyPitch(octave, SLOT_OF_INDEX[c]);
    }
  }

  /** No two keys of the layout share a chromatic index, so their names are
      pairwise distinct. */
  lemma KeysDistinct(octave: int, i: nat, j: nat)
    requires i < j < 12
    ensures Pitch.PitchIndex(Layout(octave)[i].fullNote) != Pitch.PitchIndex(Layout(octave)[j].fullNote)
    ensures Layout(octave)[i].fullNote != Layout(octave)[j].fullNote
  {
    SlotsInverse();
    KeyPitch(octave, i);
    KeyPitch(octave, j);
  }

  /** Two keys one chromatic step apart are one semitone apart when pressed. */
  lemma SemitoneApart(octave: int, a: nat, b: nat)
    requires a < 12 && b < 12 && CHROMATIC_INDEX[b] == CHROMATIC_INDEX[a] + 1
    ensures Press(Layout(octave)[b]) == Pitch.Transposed(Press(Layout(octave)[a]), 1)
  {
    KeyPitch(octave, a);
    KeyPitch(octave, b);
  }

  /** In the chromatic table a black key lies between the white keys on
      either side of its boundary. */
  lemma BlackKeyNeighbours(i: nat)
    requires i < 5
    ensures BLACK_KEY_POSITIONS[i] < 6
    ensures CHROMATIC_INDEX[7 + i] == CHROMATIC_INDEX[BLACK_KEY_POSITIONS[i]] + 1
    ensures CHROMATIC_INDEX[BLACK_KEY_POSITIONS[i] + 1] == CHROMATIC_INDEX[7 + i] + 1
  {
  }

  /** A black key sits on the right edge of white key p, one semitone above
      it and one semitone below white key p + 1. */
  lemma BlackKeyBetweenWhites(octave: int, i: nat)
    requires i < 5
    ensures Layout(octave)[7 + i].left == Some((BLACK_KEY_POSITIONS[i] + 1) * WHITE_KEY_WIDTH)
    ensures Press(Layout(octave)[7 + i])
         == Pitch.Transposed(Press(Layout(octave)[BLACK_KEY_POSITIONS[i]]), 1)
    ensures Press(Layout(octave)[BLACK_KEY_POSITIONS[i] + 1])
         == Pitch.Transposed(Press(Layout(octave)[7 + i]), 1)
  {
    var p := BLACK_KEY_POSITIONS[i];
    BlackKeyNeighbours(i);
    SemitoneApart(octave, p, 7 + i);
    SemitoneApart(octave, 7 + i, p + 1);
  }

  /** The same key one octave up reports twice the ratio. */
  lemma KeyOctaveDoubles(octave: int, i: nat)
    requires i < 12
    ensures Press(Layout(octave + 1)[i]) == Pitch.Transposed(Press(Layout(octave)[i]), 12)
  {
    KeyPitch(octave, i);
    KeyPitch(octave + 1, i);
  }
}
