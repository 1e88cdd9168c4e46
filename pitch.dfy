/** transKey: a note name such as "C#4" to the frequency ratio the piano
    reports for it, 2^((index + 12 * octave - 53 - 1) / 12). The ratio is
    kept as its exponent in twelfths of an octave. */
module Pitch {
  import opened Wrappers
  import opened JsNumber
  import opened JsSearch

  /** The chromatic table, C = 0 up to B = 11. */
  const NOTE_LIST: seq<string> := ["C", "C#", "D", "D#", "E", "F", "F#", "G", "G#", "A", "A#", "B"]

  /** `base`: the reference semitone, 5 + 12 * 4. */
  const BASE: int := 5 + 12 * 4

  /** A frequency ratio 2^(e / 12), or NaN. */
  datatype Ratio = Pow2Twelfths(e: int) | NaN

  /** A ratio multiplied by 2^(n / 12): n semitones up. NaN stays NaN. */
  function Transposed(r: Ratio, n: int): Ratio {
    match r
    case Pow2Twelfths(e) => Pow2Twelfths(e + n)
    case NaN => NaN
  }

  /** a is a lower pitch than b. */
  predicate Below(a: Ratio, b: Ratio) {
    a.Pow2Twelfths? && b.Pow2Twelfths? && a.e < b.e
  }

  predicate IsUpper(c: char) { 'A' <= c <= 'Z' }

  /** The note holds no upper-case letter, so the regex cannot match. */
  predicate NoUpper(note: string) {
    forall j :: 0 <= j < |note| ==> !IsUpper(note[j])
  }

  /** tok is a match of /[A-Z]#?/ at position i of s. */
  predicate MatchesAt(s: string, i: nat, tok: string) {
    && (|tok| == 1 || |tok| == 2)
    && IsUpper(tok[0])
    && (|tok| == 2 ==> tok[1] == '#')
    && i + |tok| <= |s|
    && s[i..i + |tok|] == tok
  }

  /** tok at i is what `exec` returns: the leftmost match, with the optional
      '#' taken whenever it is there. */
  ghost predicate IsExecMatch(s: string, i: nat, tok: string) {
    && MatchesAt(s, i, tok)
    && (forall j: nat, t :: j < i ==> !MatchesAt(s, j, t))
    && (|tok| == 1 ==> !MatchesAt(s, i, tok + "#"))
  }

  datatype Match = Match(index: nat, token: string)

  /** The scan `/[A-Z]#?/.exec(s)` performs, from position `from` on. */
  function Exec(s: string, from: nat): (m: Option<Match>)
    requires from <= |s|
    ensures m.Some? ==> from <= m.value.index && MatchesAt(s, m.value.index, m.value.token)
    ensures m.Some? ==> |m.value.token| == 1 ==> !MatchesAt(s, m.value.index, m.value.token + "#")
    ensures m.Some? ==> forall j :: from <= j < m.value.index ==> !IsUpper(s[j])
    ensures m.None? ==> forall j :: from <= j < |s| ==> !IsUpper(s[j])
    decreases |s| - from
  {
    if from == |s| then None
    else if IsUpper(s[from]) then
      if from + 1 < |s| && s[from + 1] == '#' then Some(Match(from, s[from..from + 2]))
      else Some(Match(from, [s[from]]))
    else Exec(s, from + 1)
  }

  /** `(keyPattern.exec(note) ?? ["C"])[0]`. */
  function MatchKey(note: string): (tok: string)
    ensures IsSpelling(tok)
    ensures NoUpper(note) ==> tok == "C"
  {
    NoUpperNoMatch(note);
    match Exec(note, 0)
    case Some(m) => m.token
    case None => "C"
  }

  /** `noteList.findIndex((e) => e === matchKey)`: -1 for a token the table lacks. */
  function PitchIndex(note: string): (r: int)
    ensures -1 <= r < 12
    ensures r == -1 <==> MatchKey(note) !in NOTE_LIST
    ensures r >= 0 ==> NOTE_LIST[r] == MatchKey(note)
    ensures NoUpper(note) ==> r == 0
  {
    NoteListIndex(0);
    FindIndex(NOTE_LIST, MatchKey(note))
  }

  /** `Number(note.replace(matchKey, ""))`; None is NaN. */
  function Octave(note: string): (r: Option<int>)
    ensures NoUpper(note) ==> r == ParseNumber(note)
  {
    NoUpperNoMatch(note);
    ParseNumber(RemoveFirst(note, MatchKey(note)))
  }

  /** transKey, with the ratio given by its exponent. */
  function TransKey(note: string): (r: Ratio)
    ensures r.NaN? <==> Octave(note).None?
    ensures r.Pow2Twelfths? ==>
      12 * Octave(note).value - 55 <= r.e <= 12 * Octave(note).value - 43
  {
    match Octave(note)
    case None => NaN
    case Some(octave) => Pow2Twelfths(PitchIndex(note) + octave * 12 - BASE - 1)
  }

  /** A note without an upper-case letter has no regex match, and "C"
      does not occur in it. */
  lemma NoUpperNoMatch(note: string)
    ensures NoUpper(note) ==>
      Exec(note, 0).None? && forall k: nat :: !OccursAt(note, "C", k)
  {
    var m := Exec(note, 0);
    if m.Some? {
      MatchStartsUpper(note, m.value.index, m.value.token);
    }
    forall k: nat ensures OccursAt(note, "C", k) ==> k < |note| && IsUpper(note[k]) {
      OccurrenceStart(note, "C", k);
    }
  }

  /** Every match starts with an upper-case letter of the note. */
  lemma MatchStartsUpper(s: string, j: nat, t: string)
    ensures MatchesAt(s, j, t) ==> j < |s| && IsUpper(s[j])
  {
    assert MatchesAt(s, j, t) ==> s[j] == s[j..j + |t|][0];
  }

  /** At a given position the greedy match is unique: the letter there,
      with the '#' after it if one follows. */
  lemma GreedyMatchUnique(s: string, i: nat, t1: string, t2: string)
    requires MatchesAt(s, i, t1) && (|t1| == 1 ==> !MatchesAt(s, i, t1 + "#"))
    requires MatchesAt(s, i, t2) && (|t2| == 1 ==> !MatchesAt(s, i, t2 + "#"))
    ensures t1 == t2
  {
    assert |t1| == 1 ==> t1 == [s[i]] && t1 + "#" == [s[i], '#'];
    assert |t2| == 1 ==> t2 == [s[i]] && t2 + "#" == [s[i], '#'];
    assert |t1| == 2 ==> t1 == [s[i], '#'] && s[i..i + 2] == t1;
    assert |t2| == 2 ==> t2 == [s[i], '#'] && s[i..i + 2] == t2;
  }

  /** The scan finds exactly the match the regex semantics prescribe:
      leftmost, and greedy on the optional '#'. */
  lemma ExecIsLeftmostGreedy(s: string, i: nat, tok: string)
    ensures Exec(s, 0) == Some(Match(i, tok)) <==> IsExecMatch(s, i, tok)
  {
    var m := Exec(s, 0);
    if m == Some(Match(i, tok)) {
      forall j: nat, t | j < i ensures !MatchesAt(s, j, t) {
        MatchStartsUpper(s, j, t);
      }
    }
    if IsExecMatch(s, i, tok) {
      MatchStartsUpper(s, i, tok);
      var Match(i', tok') := m.value;
      assert MatchesAt(s, i', tok');
      assert i' == i;
      GreedyMatchUnique(s, i, tok, tok');
    }
  }

  /** The scan finds nothing exactly when the note has no match. */
  lemma ExecNone(s: string)
    ensures Exec(s, 0).None? <==> forall i: nat, tok :: !MatchesAt(s, i, tok)
  {
    if Exec(s, 0).None? {
      forall i: nat, tok ensures !MatchesAt(s, i, tok) {
        MatchStartsUpper(s, i, tok);
      }
    } else {
      assert MatchesAt(s, Exec(s, 0).value.index, Exec(s, 0).value.token);
    }
  }

  /** replace removes the token where exec found it: no earlier occurrence
      exists, because every occurrence starts with an upper-case letter. */
  lemma RemoveMatchedToken(s: string, i: nat, tok: string)
    requires IsExecMatch(s, i, tok)
    ensures MatchKey(s) == tok
    ensures RemoveFirst(s, tok) == s[..i] + s[i + |tok|..]
    ensures Octave(s) == ParseNumber(s[..i] + s[i + |tok|..])
  {
    ExecIsLeftmostGreedy(s, i, tok);
    forall j: nat | j < i ensures !OccursAt(s, tok, j) {
      assert OccursAt(s, tok, j) ==> MatchesAt(s, j, tok);
    }
    assert IsFirstOccurrence(s, tok, i);
  }

  /** Without an upper-case letter the token falls back to "C", which the
      note then cannot contain, so the whole note is read as the octave. */
  lemma NoUpperFallsBackToC(s: string)
    requires NoUpper(s)
    ensures MatchKey(s) == "C" && PitchIndex(s) == 0
    ensures RemoveFirst(s, "C") == s
    ensures Octave(s) == ParseNumber(s)
  {
    ExecNone(s);
    forall k: nat ensures !OccursAt(s, "C", k) {
      OccurrenceStart(s, "C", k);
    }
    FindIndexAt(NOTE_LIST, 0);
  }

  /** A spelling of a pitch class the regex can produce: a letter, optionally
      followed by '#'. */
  predicate IsSpelling(name: string) {
    (|name| == 1 || |name| == 2) && IsUpper(name[0]) && (|name| == 2 ==> name[1] == '#')
  }

  /** A spelling followed by the rest of a note parses back to that
      spelling, with the rest as the octave text; a one-letter spelling
      needs a rest that does not start with '#', or the '#' would join it. */
  lemma ParseSpelling(name: string, rest: string)
    requires IsSpelling(name)
    requires |name| == 1 && rest != [] ==> rest[0] != '#'
    ensures MatchKey(name + rest) == name
    ensures Octave(name + rest) == ParseNumber(rest)
    ensures PitchIndex(name + rest) == FindIndex(NOTE_LIST, name)
  {
    SpellingIsExecMatch(name, rest);
    SpellingRemoved(name, rest);
    RemoveMatchedToken(name + rest, 0, name);
  }

  /** Removing a leading spelling leaves the rest. */
  lemma SpellingRemoved(name: string, rest: string)
    ensures (name + rest)[..0] + (name + rest)[|name|..] == rest
  {
    assert (name + rest)[|name|..] == rest;
  }

  /** A spelling at the start of a note is the match exec finds there. */
  lemma SpellingIsExecMatch(name: string, rest: string)
    requires IsSpelling(name)
    requires |name| == 1 && rest != [] ==> rest[0] != '#'
    ensures IsExecMatch(name + rest, 0, name)
  {
    var s := name + rest;
    assert s[0..|name|] == name;
    assert |name| == 1 ==> !MatchesAt(s, 0, name + "#");
  }

  lemma NoteListSpellings(k: nat)
    requires k < 12
    ensures IsSpelling(NOTE_LIST[k])
  {
  }

  /** The 12 table names are distinct, so findIndex returns each one's own
      position. */
  lemma NoteListIndex(k: nat)
    requires k < 12
    ensures FindIndex(NOTE_LIST, NOTE_LIST[k]) == k
  {
    assert forall j :: 0 <= j < k ==> NOTE_LIST[j] != NOTE_LIST[k] by {
      assert NOTE_LIST[k] == NOTE_LIST[k][..|NOTE_LIST[k]|];
    }
    FindIndexAt(NOTE_LIST, k);
  }

  /** Parse/print round trip: the key name `${name}${String(octave)}` of the
      k-th table name parses to index k and exactly that octave. */
  lemma ParseKeyName(k: nat, octave: int)
    requires k < 12
    ensures MatchKey(NOTE_LIST[k] + IntToString(octave)) == NOTE_LIST[k]
    ensures PitchIndex(NOTE_LIST[k] + IntToString(octave)) == k
    ensures Octave(NOTE_LIST[k] + IntToString(octave)) == Some(octave)
  {
    NoteListSpellings(k);
    NoteListIndex(k);
    ParseSpelling(NOTE_LIST[k], IntToString(octave));
    IntToStringRoundTrip(octave);
  }

  /** The round trip for any name of the table, by value. */
  lemma ParseTableName(name: string, octave: int)
    ensures name in NOTE_LIST ==>
      && PitchIndex(name + IntToString(octave)) == FindIndex(NOTE_LIST, name)
      && Octave(name + IntToString(octave)) == Some(octave)
  {
    if name in NOTE_LIST {
      var k :| 0 <= k < |NOTE_LIST| && NOTE_LIST[k] == name;
      ParseKeyName(k, octave);
      NoteListIndex(k);
    }
  }

  /** The exponent of a key name is index + 12 * octave - 54. */
  lemma Exponent(k: nat, octave: int)
    requires k < 12
    ensures TransKey(NOTE_LIST[k] + IntToString(octave)) == Pow2Twelfths(k + 12 * octave - 54)
  {
    ParseKeyName(k, octave);
  }

  /** One octave up, same pitch class: the ratio doubles. */
  lemma OctaveDoubles(k: nat, octave: int)
    requires k < 12
    ensures TransKey(NOTE_LIST[k] + IntToString(octave + 1))
         == Transposed(TransKey(NOTE_LIST[k] + IntToString(octave)), 12)
  {
    Exponent(k, octave);
    Exponent(k, octave + 1);
  }

  /** The next name in the table is one semitone higher. */
  lemma SemitoneStep(k: nat, octave: int)
    requires k < 11
    ensures TransKey(NOTE_LIST[k + 1] + IntToString(octave))
         == Transposed(TransKey(NOTE_LIST[k] + IntToString(octave)), 1)
  {
    Exponent(k, octave);
    Exponent(k + 1, octave);
  }

  /** B of one octave is one semitone below C of the next. */
  lemma OctaveBoundaryStep(octave: int)
    ensures TransKey(NOTE_LIST[0] + IntToString(octave + 1))
         == Transposed(TransKey(NOTE_LIST[11] + IntToString(octave)), 1)
  {
    NamesSemitoneApart(11, octave, 0, octave + 1);
  }

  /** Two key names whose index + 12 * octave differ by one are a semitone
      apart, whatever their octaves. */
  lemma NamesSemitoneApart(i: nat, p: int, j: nat, q: int)
    requires i < 12 && j < 12 && j + 12 * q == i + 12 * p + 1
    ensures TransKey(NOTE_LIST[j] + IntToString(q))
         == Transposed(TransKey(NOTE_LIST[i] + IntToString(p)), 1)
  {
    Exponent(i, p);
    Exponent(j, q);
  }

  /** Within an octave, table order is strictly increasing pitch. */
  lemma ChromaticOrder(i: nat, j: nat, octave: int)
    requires i < j < 12
    ensures Below(TransKey(NOTE_LIST[i] + IntToString(octave)), TransKey(NOTE_LIST[j] + IntToString(octave)))
  {
    Exponent(i, octave);
    Exponent(j, octave);
  }

  /** A spelling the table lacks (H, E#, B#, ...) gets index -1, not an
      error, and the exponent is computed from it all the same. */
  lemma UnknownSpelling(name: string, rest: string)
    requires IsSpelling(name) && name !in NOTE_LIST
    requires |name| == 1 && rest != [] ==> rest[0] != '#'
    ensures PitchIndex(name + rest) == -1
    ensures ParseNumber(rest).Some? ==>
      TransKey(name + rest) == Pow2Twelfths(12 * ParseNumber(rest).value - 55)
  {
    ParseSpelling(name, rest);
    assert FindIndex(NOTE_LIST, name) == -1;
  }

  /** Which regex tokens the table knows: the letters A to G, sharpened
      except E and B. */
  lemma TableCoverage(name: string)
    requires IsSpelling(name)
    ensures name in NOTE_LIST <==>
      'A' <= name[0] <= 'G' && !(|name| == 2 && (name[0] == 'E' || name[0] == 'B'))
  {
    if |name| == 1 {
      assert name == [name[0]];
    } else {
      assert name == [name[0], '#'];
    }
  }

  /** Worked value: A4 is 3 semitones above the reference, ratio 2^(3/12). */
  lemma ExampleA4()
    ensures TransKey("A4") == Pow2Twelfths(3)
  {
    assert "A4" == NOTE_LIST[9] + IntToString(4);
    Exponent(9, 4);
  }

  /** Worked value: C1 is -42. */
  lemma ExampleC1()
    ensures TransKey("C1") == Pow2Twelfths(-42)
  {
    assert "C1" == NOTE_LIST[0] + IntToString(1);
    Exponent(0, 1);
  }

  /** Worked value: the exponent is 0 (ratio 1) at F#4. */
  lemma ExampleFSharp4()
    ensures TransKey("F#4") == Pow2Twelfths(0)
  {
    assert "F#4" == NOTE_LIST[6] + IntToString(4);
    Exponent(6, 4);
  }

  /** Worked value: C5 is 6, not 0. */
  lemma ExampleC5()
    ensures TransKey("C5") == Pow2Twelfths(6)
  {
    assert "C5" == NOTE_LIST[0] + IntToString(5);
    Exponent(0, 5);
  }

  /** Worked value: a bare "C" has the empty remainder, which Number reads
      as octave 0. */
  lemma ExampleBareC()
    ensures TransKey("C") == Pow2Twelfths(-54)
  {
    assert "C" == "C" + "";
    ParseSpelling("C", "");
    NoteListIndex(0);
  }

  lemma ParseFour()
    ensures ParseNumber("4") == Some(4)
  {
    assert IsDigits("4");
    assert "4"[..0] == [];
  }

  /** Worked value: a note without a letter is a C in the octave it spells. */
  lemma ExampleNoLetter()
    ensures TransKey("4") == Pow2Twelfths(-6)
  {
    NoUpperFallsBackToC("4");
    ParseFour();
  }

  /** Worked value: H4 matches the regex, misses the table and is computed
      with index -1. The note is written "H" + "4" (the same string as
      "H4") so that the verifier does not evaluate the failed table search
      on the literal. */
  lemma ExampleH4()
    ensures TransKey("H" + "4") == Pow2Twelfths(-7)
  {
    assert "H" !in NOTE_LIST by {
      assert forall k :: 0 <= k < |NOTE_LIST| ==> NOTE_LIST[k][0] != 'H';
    }
    ParseFour();
    UnknownSpelling("H", "4");
  }

  /** Worked value: a flat spelling is not read as a pitch class; its
      lower-case 'b' is left in the octave text, which is then not a number,
      so the ratio is NaN. */
  lemma ExampleFlat()
    ensures TransKey("Cb4") == NaN
  {
    assert "Cb4" == "C" + "b4";
    ParseSpelling("C", "b4");
    assert !IsNumeral("b4") by { assert !IsDigit("b4"[0]); }
  }
}
