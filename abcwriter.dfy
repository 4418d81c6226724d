/**
 * The key-aware ABC writer: each note of a part becomes a token spelled
 * against the song's key signature (and, for notes outside it, against
 * the key of the chord sounding at the note), set in its octave with its
 * duration in eighths; bar lines follow full measures.
 */
module AbcWriter {
  import opened JavaLang
  import opened Notes
  import opened Keys
  import opened Spelling
  import opened Chords
  import opened Scores
  import opened AbcNotation

  // ---------------------------------------------------------------------
  // Spelling a note

  /** The key of the chord sounding at a note, none when no chord sounds. */
  function ChordKey(currentChord: Option<Chord>): (r: Result<Option<Key>>)
    ensures r.Err? <==> currentChord.Some? && !(0 <= currentChord.value.root < 12)
  {
    if currentChord.None? then Ok(None) else GetKey(currentChord.value)
  }

  /** A spelling in a key, as the source computes it or corrected. */
  function SpellIn(note: Note, key: Key, forceNatural: bool, corrected: bool): Result<string> {
    if corrected then NoteNameInKey(note, key, forceNatural) else NoteNameInKeyAsWritten(note, key, forceNatural)
  }

  /**
   * The standard spelling of a note: a note of the song's key is its (base)
   * letter alone, since the signature supplies its accidental; a note of
   * the chord's key is spelled in that key with naturals marked; any other
   * note is spelled in the song's key. The last two use the key spelling
   * as written or, when `corrected`, the corrected one.
   */
  function StandardSpelling(note: Note, key: Key, chordKey: Option<Key>, corrected: bool): Result<string> {
    var p := note.RelativeNote();
    if p in key.notesInKey then NoteName(key.GetBaseNote(p))
    else if chordKey.Some? && p in chordKey.value.notesInKey then SpellIn(note, chordKey.value, true, corrected)
    else SpellIn(note, key, false, corrected)
  }

  /** The ABC prefix for an accidental sign of a standard spelling. */
  function AbcPrefix(mark: string): string {
    if mark == "#" then "^" else if mark == "b" then "_" else if mark == "@" then "=" else ""
  }

  /** A standard spelling in ABC: a trailing sharp, flat or natural sign
      becomes its prefix in front of the rest. */
  function AbcName(n: string): (r: string)
    requires |n| > 0
    ensures |r| == |n|
  {
    var sign := [n[|n| - 1]];
    if AbcPrefix(sign) == "" then n else AbcPrefix(sign) + n[..|n| - 1]
  }

  /** The spelled name of a note in ABC, or the exception its spelling
      raises: an unknown chord root, a missing song key, an accidental
      the key spelling cannot mark. */
  function WrittenName(note: Note, key: Option<Key>, currentChord: Option<Chord>, corrected: bool): (r: Result<string>)
    ensures r.Ok? ==> |r.value| > 0 && key.Some?
    ensures currentChord.Some? && !(0 <= currentChord.value.root < 12) ==> r.Err?
    ensures ChordKey(currentChord).Ok? && key.None? ==> r == Err(NullPointer)
  {
    var chordKey :- ChordKey(currentChord);
    if key.None? then Err(NullPointer)
    else
      var n :- StandardSpelling(note, key.value, chordKey, corrected);
      if |n| == 0 then Err(StringIndexOutOfBounds) else Ok(AbcName(n))
  }

  /** The token as the source writes it: the name as written, set in the
      octave of the sounding pitch, then the duration. */
  function AbcNoteTextAsWritten(note: Note, key: Option<Key>, currentChord: Option<Chord>): Result<string> {
    var name :- WrittenName(note, key, currentChord, false);
    Ok(WithOctave(name, note.Octave()) + IntToString(note.duration))
  }

  /** The octave of the written letter: the pitch without the accidental
      the name carries, in scientific octaves. */
  function LetterOctave(note: Note, name: string, key: Key): int
    requires |name| > 0
  {
    (note.midi - WrittenAccidental(name, key)) / 12 - 1
  }

  /** The corrected token: the corrected name set in the octave of its
      letter, so that Cb is written in the octave above the B it sounds as. */
  function AbcNoteText(note: Note, key: Option<Key>, currentChord: Option<Chord>): Result<string> {
    var name :- WrittenName(note, key, currentChord, true);
    Ok(WithOctave(name, LetterOctave(note, name, key.value)) + IntToString(note.duration))
  }

  /** `abcNote`: the spelling branches are the functions above; the octave
      marks for the note's own octave are appended one at a time. */
  method AbcNote(note: Note, key: Option<Key>, currentChord: Option<Chord>) returns (r: Result<string>)
    ensures r == AbcNoteTextAsWritten(note, key, currentChord)
  {
    var named := WrittenName(note, key, currentChord, false);
    if named.Err? {
      return Err(named.error);
    }
    var n := named.value;
    var octave := note.Octave();
    var buf: string;
    if octave >= 5 {
      buf := LowerCase(n);
      var i := 5;
      while i < octave
        invariant 5 <= i <= octave
        invariant buf == LowerCase(n) + Repeat('\'', i - 5)
      {
        RepeatSnoc('\'', i - 5);
        buf := buf + "'";
        i := i + 1;
      }
    } else {
      buf := UpperCase(n);
      var i := 4;
      while i > octave
        invariant octave <= i <= 4
        invariant buf == UpperCase(n) + Repeat(',', 4 - i)
      {
        RepeatSnoc(',', 4 - i);
        buf := buf + ",";
        i := i - 1;
      }
    }
    assert buf == WithOctave(n, octave);
    return Ok(buf + IntToString(note.duration));
  }

  // ---------------------------------------------------------------------
  // What the tokens say

  lemma RegisteredDirection(i: int)
    requires 0 <= i < |KeyTable|
    ensures KeyTable[i].direction == 1 || KeyTable[i].direction == -1
  {
    TableRowShapes();
  }

  /** A note of a registered key is written as the letter it is altered
      from, or its own letter, and the signature's accidental on that
      letter gives the note back. */
  lemma SongKeyLetter(i: int, p: int) returns (idx: int)
    requires 0 <= i < |KeyTable| && 0 <= p < 12 && p in KeyOf(KeyTable[i]).notesInKey
    ensures 0 <= idx < |BaseNotes|
    ensures NoteName(KeyOf(KeyTable[i]).GetBaseNote(p)) == Ok(BaseNotes[idx])
    ensures var a := KeyOf(KeyTable[i]).GetAccidentalForNote(BaseNotes[idx]);
            -1 <= a <= 1 && Wrap(NaturalPitchClasses[idx] + a) == p
  {
    var row := KeyTable[i];
    RegisteredDirection(i);
    RegisteredKeyLookup(i, p);
    var a := NaturalIndex(p);
    var j := NaturalIndex(Wrap(p - row.direction));
    if j >= 0 && BaseNotes[j] in row.notesWithAccidentals {
      idx := j;
      WrapStep(p, NaturalPitchClasses[j], row.direction);
    } else {
      idx := a;
    }
    LetterNoteId(idx);
    NaturalIndexOfLetter(idx);
    AccidentalOfLetter(row.direction, row.notesWithAccidentals, row.majorName, BaseNotes[idx]);
  }

  /** A spelling in a registered key is one letter with at most one sign,
      and it carries a sign whenever naturals are forced. */
  lemma SpelledLetter(i: int, n: Note, forceNatural: bool) returns (idx: int, mark: string)
    requires 0 <= i < |KeyTable| && n.midi >= 0
    ensures 0 <= idx < |BaseNotes|
    ensures mark == "" || mark == "@" || mark == "#" || mark == "b"
    ensures forceNatural ==> mark != ""
    ensures var r := NoteNameInKey(n, KeyOf(KeyTable[i]), forceNatural);
            r.Ok? && r.value == BaseNotes[idx] + mark
    ensures mark == "" ==> BaseNotes[idx] !in KeyTable[i].notesWithAccidentals
    ensures idx == 0 && mark == "b" ==> i == 12 && n.RelativeNote() == 11
    ensures !(idx == 6 && mark == "#")
  {
    var row := KeyTable[i];
    TableHasNoClash(i);
    RegisteredDirection(i);
    SpellingCases(row.direction, row.notesWithAccidentals, row.majorName, n, forceNatural);
    var p := n.RelativeNote();
    var a := NaturalIndex(p);
    var j := NaturalIndex(Wrap(p - row.direction));
    var sign := if row.direction == 1 then "#" else "b";
    if a >= 0 && BaseNotes[a] !in row.notesWithAccidentals {
      idx, mark := a, if forceNatural then "@" else "";
    } else if j >= 0 && BaseNotes[j] in row.notesWithAccidentals {
      idx, mark := j, sign;
      OnlyGbMajorFlatsC(i);
      NoSharpOnB(i);
      assert BaseNotes[0] == "C" && BaseNotes[6] == "B";
    } else if a >= 0 {
      idx, mark := a, "@";
    } else {
      BlackKeyNeighbours(p, row.direction);
      idx, mark := NaturalIndex(p - row.direction), sign;
    }
  }

  /** What a signed letter denotes, as the spelling reads it. */
  lemma SpelledLetterPitch(i: int, n: Note, forceNatural: bool, idx: int, mark: string)
    requires 0 <= i < |KeyTable| && n.midi >= 0 && 0 <= idx < |BaseNotes|
    requires mark == "" || mark == "@" || mark == "#" || mark == "b"
    requires var r := NoteNameInKey(n, KeyOf(KeyTable[i]), forceNatural); r.Ok? && r.value == BaseNotes[idx] + mark
    ensures mark == "" ==> Wrap(NaturalPitchClasses[idx] + KeyOf(KeyTable[i]).GetAccidentalForNote(BaseNotes[idx])) == n.RelativeNote()
    ensures mark == "@" ==> NaturalPitchClasses[idx] == n.RelativeNote()
    ensures mark == "#" ==> Wrap(NaturalPitchClasses[idx] + 1) == n.RelativeNote()
    ensures mark == "b" ==> Wrap(NaturalPitchClasses[idx] - 1) == n.RelativeNote()
  {
    RegisteredSpellingRoundTrip(i, n, forceNatural);
    Spelling.ReadLetter(KeyOf(KeyTable[i]), idx, mark);
  }

  /** A letter with a sign becomes the letter behind that sign's prefix,
      and the written accidental is the prefix's or, unsigned, the
      signature's. */
  lemma AbcLetter(idx: int, mark: string, key: Key)
    requires 0 <= idx < |BaseNotes|
    requires mark == "" || mark == "@" || mark == "#" || mark == "b"
    ensures AbcName(BaseNotes[idx] + mark) == AbcPrefix(mark) + BaseNotes[idx]
    ensures WrittenAccidental(AbcPrefix(mark) + BaseNotes[idx], key) ==
            if mark == "" then key.GetAccidentalForNote(BaseNotes[idx])
            else if mark == "#" then 1 else if mark == "b" then -1 else 0
  {
    NaturalIndexOfLetter(idx);
    LetterCases(idx);
    var name := BaseNotes[idx] + mark;
    if mark != "" {
      assert name[..|name| - 1] == BaseNotes[idx] && name[|name| - 1] == mark[0];
    } else {
      assert name == BaseNotes[idx];
    }
    var w := AbcPrefix(mark) + BaseNotes[idx];
    assert w[|w| - 1] == BaseNotes[idx][0] && [w[|w| - 1]] == BaseNotes[idx];
  }

  /** The accidental a signature gives a letter is none or its direction. */
  lemma RegisteredAccidental(i: int, idx: int)
    requires 0 <= i < |KeyTable| && 0 <= idx < |BaseNotes|
    ensures -1 <= KeyOf(KeyTable[i]).GetAccidentalForNote(BaseNotes[idx]) <= 1
  {
    var row := KeyTable[i];
    RegisteredDirection(i);
    AccidentalOfLetter(row.direction, row.notesWithAccidentals, row.majorName, BaseNotes[idx]);
  }

  /** A spelling in a registered key, put into ABC and read under a
      registered song key, denotes the note's pitch class; with naturals
      forced the song key plays no part. */
  lemma SpelledAbcLetter(si: int, i: int, n: Note, forceNatural: bool) returns (idx: int, pre: string)
    requires 0 <= si < |KeyTable| && 0 <= i < |KeyTable| && n.midi >= 0
    requires forceNatural || si == i
    ensures pre == "" || pre == "^" || pre == "_" || pre == "="
    ensures forceNatural ==> pre != ""
    ensures 0 <= idx < |BaseNotes|
    ensures var r := NoteNameInKey(n, KeyOf(KeyTable[si]), forceNatural);
            r.Ok? && |r.value| > 0 && AbcName(r.value) == pre + BaseNotes[idx]
    ensures var a := WrittenAccidental(pre + BaseNotes[idx], KeyOf(KeyTable[i]));
            -1 <= a <= 1 && Wrap(NaturalPitchClasses[idx] + a) == n.RelativeNote()
    ensures var a := WrittenAccidental(pre + BaseNotes[idx], KeyOf(KeyTable[i]));
            (si == 12 && n.RelativeNote() == 11) || 0 <= NaturalPitchClasses[idx] + a < 12
  {
    var mark;
    idx, mark := SpelledLetter(si, n, forceNatural);
    SpelledLetterPitch(si, n, forceNatural, idx, mark);
    AbcLetter(idx, mark, KeyOf(KeyTable[i]));
    LetterNoteId(idx);
    RegisteredAccidental(i, idx);
    pre := AbcPrefix(mark);
    var a := WrittenAccidental(pre + BaseNotes[idx], KeyOf(KeyTable[i]));
    if mark == "" {
      var row := KeyTable[i];
      AccidentalOfLetter(row.direction, row.notesWithAccidentals, row.majorName, BaseNotes[idx]);
    }
    if !(idx == 0 && mark == "b") {
      MarkInOctave(idx, mark, a);
    }
  }

  /** A letter whose mark does not take it across C stays within its octave. */
  lemma MarkInOctave(idx: int, mark: string, a: int)
    requires 0 <= idx < |BaseNotes|
    requires ((mark == "" || mark == "@") && a == 0) || (mark == "#" && a == 1) || (mark == "b" && a == -1)
    requires !(idx == 6 && mark == "#") && !(idx == 0 && mark == "b")
    ensures 0 <= NaturalPitchClasses[idx] + a < 12
  {
    LetterNoteId(idx);
  }

  lemma NoPrefix(s: string)
    ensures "" + s == s
  {
  }

  lemma AbcNameOfLetter(idx: int)
    requires 0 <= idx < |BaseNotes|
    ensures AbcName(BaseNotes[idx]) == BaseNotes[idx]
  {
    LetterCases(idx);
  }

  /** The chord key of a chord with a known root is a registered key or none. */
  lemma ChordKeyRegistered(c: Chord) returns (ci: int)
    requires 0 <= c.root < 12
    ensures ci == ChordKeyRow(c)
    ensures var k := ChordKey(Some(c));
            k.Ok? && (k.value.Some? ==> 0 <= ci < |KeyTable| && k.value.value == KeyOf(KeyTable[ci]))
  {
    ci := ChordKeyRow(c);
  }

  /** The table row of a chord's key, or -1 when no key has its name. */
  function ChordKeyRow(c: Chord): int
    requires 0 <= c.root < 12
  {
    RowIndex(NoteNames[c.root] + c.chordType.Mode())
  }

  /**
   * The notes whose token as written is the intended one: any song key but
   * Gb major, with no chord or one whose root is a pitch class, except a B
   * that the song key lacks under a chord with the key of Gb major (a Gb or
   * an Ebm chord).
   */
  predicate SpelledAsIntended(note: Note, i: int, currentChord: Option<Chord>)
    requires 0 <= i < |KeyTable|
  {
    i != 12 &&
    (currentChord.None? ||
     (0 <= currentChord.value.root < 12 &&
      (KeyTable[i].direction == 1 || ChordKeyRow(currentChord.value) != 12 || note.RelativeNote() != 11)))
  }

  /**
   * Under a registered song key, with no chord or one whose root is a
   * pitch class, every note from MIDI 0 up gets a corrected ABC name: one
   * letter after at most one accidental prefix, whose accidental (the
   * prefix's, or the signature's for a bare letter) takes the letter to the
   * note's pitch class. Where the source spells as intended, the letter and
   * its accidental stay within one octave: no Cb and no B#.
   */
  lemma WrittenNameShape(note: Note, i: int, currentChord: Option<Chord>) returns (idx: int, pre: string)
    requires 0 <= i < |KeyTable| && note.midi >= 0
    requires currentChord.None? || 0 <= currentChord.value.root < 12
    ensures pre == "" || pre == "^" || pre == "_" || pre == "="
    ensures 0 <= idx < |BaseNotes|
    ensures var w := WrittenName(note, Some(KeyOf(KeyTable[i])), currentChord, true);
            w.Ok? && w.value == pre + BaseNotes[idx]
    ensures var a := WrittenAccidental(pre + BaseNotes[idx], KeyOf(KeyTable[i]));
            -1 <= a <= 1 && Wrap(NaturalPitchClasses[idx] + a) == note.RelativeNote()
    ensures var a := WrittenAccidental(pre + BaseNotes[idx], KeyOf(KeyTable[i]));
            SpelledAsIntended(note, i, currentChord) ==> 0 <= NaturalPitchClasses[idx] + a < 12
  {
    var key := KeyOf(KeyTable[i]);
    var ck := ChordKey(currentChord).value;
    var ci := 0;
    if currentChord.Some? {
      ci := ChordKeyRegistered(currentChord.value);
    }
    if note.RelativeNote() in key.notesInKey {
      idx, pre := SongKeyName(note, i, currentChord);
    } else if ck.Some? && note.RelativeNote() in ck.value.notesInKey {
      idx, pre := ChordKeyName(note, i, currentChord, ci);
      if KeyTable[i].direction == 1 {
        SharpKeysHoldB(i);
      }
    } else {
      idx, pre := FallbackName(note, i, currentChord);
    }
  }

  lemma SongKeyName(note: Note, i: int, currentChord: Option<Chord>) returns (idx: int, pre: string)
    requires 0 <= i < |KeyTable| && note.midi >= 0 && ChordKey(currentChord).Ok?
    requires note.RelativeNote() in KeyOf(KeyTable[i]).notesInKey
    ensures pre == "" || pre == "^" || pre == "_" || pre == "="
    ensures 0 <= idx < |BaseNotes|
    ensures var w := WrittenName(note, Some(KeyOf(KeyTable[i])), currentChord, true);
            w.Ok? && w.value == pre + BaseNotes[idx]
    ensures var a := WrittenAccidental(pre + BaseNotes[idx], KeyOf(KeyTable[i]));
            -1 <= a <= 1 && Wrap(NaturalPitchClasses[idx] + a) == note.RelativeNote()
    ensures var a := WrittenAccidental(pre + BaseNotes[idx], KeyOf(KeyTable[i]));
            i != 12 ==> 0 <= NaturalPitchClasses[idx] + a < 12
  {
    idx := SongKeyLetter(i, note.RelativeNote());
    pre := "";
    BareLetterName(note, KeyOf(KeyTable[i]), currentChord, idx, true);
    BareLetterAccidental(idx, KeyOf(KeyTable[i]));
    var row := KeyTable[i];
    AccidentalOfLetter(row.direction, row.notesWithAccidentals, row.majorName, BaseNotes[idx]);
    OnlyGbMajorFlatsC(i);
    NoSharpOnB(i);
    LetterNoteId(idx);
    assert BaseNotes[0] == "C" && BaseNotes[6] == "B";
  }

  lemma ChordKeyName(note: Note, i: int, currentChord: Option<Chord>, ci: int) returns (idx: int, pre: string)
    requires 0 <= i < |KeyTable| && 0 <= ci < |KeyTable| && note.midi >= 0
    requires ChordKey(currentChord) == Ok(Some(KeyOf(KeyTable[ci])))
    requires note.RelativeNote() !in KeyOf(KeyTable[i]).notesInKey
    requires note.RelativeNote() in KeyOf(KeyTable[ci]).notesInKey
    ensures pre == "^" || pre == "_" || pre == "="
    ensures 0 <= idx < |BaseNotes|
    ensures var w := WrittenName(note, Some(KeyOf(KeyTable[i])), currentChord, true);
            w.Ok? && w.value == pre + BaseNotes[idx]
    ensures var a := WrittenAccidental(pre + BaseNotes[idx], KeyOf(KeyTable[i]));
            -1 <= a <= 1 && Wrap(NaturalPitchClasses[idx] + a) == note.RelativeNote()
    ensures var a := WrittenAccidental(pre + BaseNotes[idx], KeyOf(KeyTable[i]));
            (ci == 12 && note.RelativeNote() == 11) || 0 <= NaturalPitchClasses[idx] + a < 12
  {
    idx, pre := SpelledAbcLetter(ci, i, note, true);
    var n := NoteNameInKey(note, KeyOf(KeyTable[ci]), true).value;
    WrittenNameOfSpelling(note, KeyOf(KeyTable[i]), currentChord, n, pre + BaseNotes[idx], true);
  }

  lemma FallbackName(note: Note, i: int, currentChord: Option<Chord>) returns (idx: int, pre: string)
    requires 0 <= i < |KeyTable| && note.midi >= 0 && ChordKey(currentChord).Ok?
    requires note.RelativeNote() !in KeyOf(KeyTable[i]).notesInKey
    requires var ck := ChordKey(currentChord).value; !(ck.Some? && note.RelativeNote() in ck.value.notesInKey)
    ensures pre == "" || pre == "^" || pre == "_" || pre == "="
    ensures 0 <= idx < |BaseNotes|
    ensures var w := WrittenName(note, Some(KeyOf(KeyTable[i])), currentChord, true);
            w.Ok? && w.value == pre + BaseNotes[idx]
    ensures var a := WrittenAccidental(pre + BaseNotes[idx], KeyOf(KeyTable[i]));
            -1 <= a <= 1 && Wrap(NaturalPitchClasses[idx] + a) == note.RelativeNote()
    ensures var a := WrittenAccidental(pre + BaseNotes[idx], KeyOf(KeyTable[i]));
            i != 12 ==> 0 <= NaturalPitchClasses[idx] + a < 12
  {
    idx, pre := SpelledAbcLetter(i, i, note, false);
    var n := NoteNameInKey(note, KeyOf(KeyTable[i]), false).value;
    WrittenNameOfSpelling(note, KeyOf(KeyTable[i]), currentChord, n, pre + BaseNotes[idx], true);
  }

  lemma SongKeySpelling(note: Note, key: Key, chordKey: Option<Key>, n: string, corrected: bool)
    requires note.RelativeNote() in key.notesInKey && NoteName(key.GetBaseNote(note.RelativeNote())) == Ok(n)
    ensures StandardSpelling(note, key, chordKey, corrected) == Ok(n)
  {
  }

  lemma WrittenNameOfSpelling(note: Note, key: Key, currentChord: Option<Chord>, n: string, w: string, corrected: bool)
    requires ChordKey(currentChord).Ok? && |n| > 0
    requires StandardSpelling(note, key, ChordKey(currentChord).value, corrected) == Ok(n) && AbcName(n) == w
    ensures var r := WrittenName(note, Some(key), currentChord, corrected); r.Ok? && r.value == w
  {
  }

  /** Taking the accidental off leaves the letter's pitch, in the letter's
      octave. */
  lemma LetterOctaveArithmetic(midi: int, natural: int, accidental: int)
    requires midi >= 0 && 0 <= natural < 12 && -1 <= accidental <= 1
    requires Wrap(natural + accidental) == JavaRem(midi, 12)
    ensures 12 * ((midi - accidental) / 12 - 1 + 1) + natural + accidental == midi
  {
    var m := midi - accidental;
    var c := if natural + accidental < 0 then -1 else if natural + accidental >= 12 then 1 else 0;
    assert natural + accidental - 12 * c == midi % 12;
    assert m == 12 * (midi / 12 - c) + natural;
    ModUnique(m, midi / 12 - c, natural, 12);
  }

  /**
   * Round trip: under a registered song key, with no chord or one whose
   * root is a pitch class, every note from MIDI 0 up with a duration of no
   * less than zero is written as a token that reads back, under the same
   * key signature, as that very note.
   */
  lemma AbcNoteRoundTrip(note: Note, i: int, currentChord: Option<Chord>)
    requires 0 <= i < |KeyTable| && note.midi >= 0 && note.duration >= 0
    requires currentChord.None? || 0 <= currentChord.value.root < 12
    ensures var key := KeyOf(KeyTable[i]);
            var r := AbcNoteText(note, Some(key), currentChord);
            r.Ok? && var back := ReadAbcNote(r.value, key);
            back.Some? && back.value.midi == note.midi && back.value.duration == note.duration
  {
    var idx, pre := WrittenNameShape(note, i, currentChord);
    WrittenTokenReadsBack(note, KeyOf(KeyTable[i]), currentChord, idx, pre);
  }

  /** The round trip for any signature under which the note's name is a
      letter whose accidental gives the note's pitch class. */
  lemma WrittenTokenReadsBack(note: Note, key: Key, currentChord: Option<Chord>, idx: int, pre: string)
    requires note.midi >= 0 && note.duration >= 0
    requires pre == "" || pre == "^" || pre == "_" || pre == "="
    requires 0 <= idx < |BaseNotes|
    requires var w := WrittenName(note, Some(key), currentChord, true); w.Ok? && w.value == pre + BaseNotes[idx]
    requires var a := WrittenAccidental(pre + BaseNotes[idx], key);
             -1 <= a <= 1 && Wrap(NaturalPitchClasses[idx] + a) == note.RelativeNote()
    ensures var r := AbcNoteText(note, Some(key), currentChord);
            r.Ok? && var back := ReadAbcNote(r.value, key);
            back.Some? && back.value.midi == note.midi && back.value.duration == note.duration
  {
    var name := pre + BaseNotes[idx];
    TextOfName(note, key, currentChord, name);
    var octave := OctaveOfLetter(note, key, idx, pre);
    LetterTokenReadsBack(pre, idx, octave, note.midi, note.duration, key);
  }

  /** The octave of the letter, with its accidental, gives back the pitch. */
  lemma OctaveOfLetter(note: Note, key: Key, idx: int, pre: string) returns (octave: int)
    requires note.midi >= 0
    requires pre == "" || pre == "^" || pre == "_" || pre == "="
    requires 0 <= idx < |BaseNotes|
    requires var a := WrittenAccidental(pre + BaseNotes[idx], key);
             -1 <= a <= 1 && Wrap(NaturalPitchClasses[idx] + a) == note.RelativeNote()
    ensures octave == LetterOctave(note, pre + BaseNotes[idx], key)
    ensures 12 * (octave + 1) + NaturalPitchClasses[idx] + WrittenAccidental(pre + BaseNotes[idx], key) == note.midi
  {
    var name := pre + BaseNotes[idx];
    octave := LetterOctave(note, name, key);
    LetterNoteId(idx);
    LetterOctaveArithmetic(note.midi, NaturalPitchClasses[idx], WrittenAccidental(name, key));
  }

  /** A letter written in the octave that, with its accidental, makes the
      pitch reads back as the pitch. */
  lemma LetterTokenReadsBack(pre: string, idx: int, octave: int, midi: int, duration: nat, key: Key)
    requires pre == "" || pre == "^" || pre == "_" || pre == "="
    requires 0 <= idx < |BaseNotes|
    requires 12 * (octave + 1) + NaturalPitchClasses[idx] + WrittenAccidental(pre + BaseNotes[idx], key) == midi
    ensures var back := ReadAbcNote(WithOctave(pre + BaseNotes[idx], octave) + NatToString(duration), key);
            back.Some? && back.value.midi == midi && back.value.duration == duration
  {
    WrittenAccidentalOfLetter(pre, idx, key);
    ReadWrittenToken(pre, idx, octave, duration, key);
  }

  lemma TextOfName(note: Note, key: Key, currentChord: Option<Chord>, w: string)
    requires var n := WrittenName(note, Some(key), currentChord, true); n.Ok? && n.value == w
    ensures |w| > 0
    ensures AbcNoteText(note, Some(key), currentChord) == Ok(WithOctave(w, LetterOctave(note, w, key)) + IntToString(note.duration))
  {
  }

  // ---------------------------------------------------------------------
  // Where the source's token is the corrected one

  /** Where the source spells as intended, the spelling as written and the
      corrected spelling give the same name. */
  lemma NamesAgree(note: Note, i: int, currentChord: Option<Chord>)
    requires 0 <= i < |KeyTable| && note.midi >= 0 && SpelledAsIntended(note, i, currentChord)
    ensures WrittenName(note, Some(KeyOf(KeyTable[i])), currentChord, false) ==
            WrittenName(note, Some(KeyOf(KeyTable[i])), currentChord, true)
  {
    var key := KeyOf(KeyTable[i]);
    var p := note.RelativeNote();
    var ck := ChordKey(currentChord).value;
    if p in key.notesInKey {
    } else if ck.Some? && p in ck.value.notesInKey {
      var ci := ChordKeyRegistered(currentChord.value);
      if ci != 12 {
        RegisteredAsWrittenAgrees(ci, note, true);
      } else {
        if KeyTable[i].direction == 1 {
          SharpKeysHoldB(i);
        }
        GbKeyNoteAgrees(note, true);
      }
      assert SpellIn(note, ck.value, true, false) == SpellIn(note, ck.value, true, true);
    } else {
      RegisteredAsWrittenAgrees(i, note, false);
    }
    assert StandardSpelling(note, key, ck, false) == StandardSpelling(note, key, ck, true);
  }

  /** A letter whose accidental keeps it within its octave is in the
      octave of the note itself. */
  lemma LetterOctaveIsOctave(note: Note, name: string, key: Key, natural: int)
    requires note.midi >= 0 && |name| > 0 && 0 <= natural < 12
    requires var a := WrittenAccidental(name, key);
             0 <= natural + a < 12 && Wrap(natural + a) == note.RelativeNote()
    ensures LetterOctave(note, name, key) == note.Octave()
  {
    var a := WrittenAccidental(name, key);
    JavaRemOfNatural(note.midi, 12);
    var q := note.midi / 12;
    assert note.midi == 12 * q + natural + a;
    ModUnique(note.midi - a, q, natural, 12);
  }

  /**
   * Where the source spells as intended, its token for the note is the
   * corrected token: the names agree, and the letter is in the note's own
   * octave.
   */
  lemma TokensAgree(note: Note, i: int, currentChord: Option<Chord>)
    requires 0 <= i < |KeyTable| && note.midi >= 0 && SpelledAsIntended(note, i, currentChord)
    ensures AbcNoteTextAsWritten(note, Some(KeyOf(KeyTable[i])), currentChord) ==
            AbcNoteText(note, Some(KeyOf(KeyTable[i])), currentChord)
  {
    var key := KeyOf(KeyTable[i]);
    var idx, pre := WrittenNameShape(note, i, currentChord);
    NamesAgree(note, i, currentChord);
    LetterNoteId(idx);
    LetterOctaveIsOctave(note, pre + BaseNotes[idx], key, NaturalPitchClasses[idx]);
    TextOfName(note, key, currentChord, pre + BaseNotes[idx]);
  }

  /**
   * The source's round trip: in every registered key but Gb major, every
   * note from MIDI 0 up that is spelled as intended is written, and its
   * token reads back under the key as the same pitch and duration.
   */
  lemma AbcNoteAsWrittenRoundTrip(note: Note, i: int, currentChord: Option<Chord>)
    requires 0 <= i < |KeyTable| && note.midi >= 0 && note.duration >= 0
    requires SpelledAsIntended(note, i, currentChord)
    ensures var key := KeyOf(KeyTable[i]);
            var r := AbcNoteTextAsWritten(note, Some(key), currentChord);
            r.Ok? && var back := ReadAbcNote(r.value, key);
            back.Some? && back.value.midi == note.midi && back.value.duration == note.duration
  {
    TokensAgree(note, i, currentChord);
    AbcNoteRoundTrip(note, i, currentChord);
  }

  // ---------------------------------------------------------------------
  // Parts

  /**
   * The first `k` notes of a part in ABC: a space before each token, the
   * token spelled with the chord sounding at the note's onset, and " |"
   * after each note that fills the measure counter; the first exception
   * any token raises is the result.
   */
  function PartBody(notes: seq<Note>, chords: seq<ChordChange>, eighthsPerMeasure: int, key: Option<Key>, k: nat): Result<string>
    requires k <= |notes|
  {
    Gather(NotePieces(notes, chords, eighthsPerMeasure, key), k)
  }

  /** What note `i` adds to its part: a space, its token, and a bar line
      when it fills the measure. */
  function NotePiece(notes: seq<Note>, chords: seq<ChordChange>, eighthsPerMeasure: int, key: Option<Key>, i: nat): Result<string>
    requires i < |notes|
  {
    var token :- AbcNoteTextAsWritten(notes[i], key, OnsetChord(notes, chords, i));
    Ok(" " + token + if BarAfter(notes, i, eighthsPerMeasure) then " |" else "")
  }

  function NotePieces(notes: seq<Note>, chords: seq<ChordChange>, eighthsPerMeasure: int, key: Option<Key>): nat -> Result<string> {
    (i: nat) => if i < |notes| then NotePiece(notes, chords, eighthsPerMeasure, key, i) else Ok("")
  }

  /** A whole part in ABC, closed by "]". */
  function PartLine(notes: seq<Note>, chords: seq<ChordChange>, eighthsPerMeasure: int, key: Option<Key>): Result<string> {
    var body :- PartBody(notes, chords, eighthsPerMeasure, key, |notes|);
    Ok(body + "]")
  }

  /** The loop's state after `k` notes: the text so far, the onset of note
      `k` and the measure counter. */
  predicate PartWritten(notes: seq<Note>, chords: seq<ChordChange>, e: int, key: Option<Key>,
                        k: nat, buf: string, timeSinceStart: int, timeInMeasure: int)
  {
    k <= |notes| && timeSinceStart == Onset(notes, k) && timeInMeasure == MeasureCount(notes, k, e) &&
    PartBody(notes, chords, e, key, k) == Ok(buf)
  }

  /** One note more: its token after a space, and a bar line when the
      counter fills the measure. */
  lemma PartStep(notes: seq<Note>, chords: seq<ChordChange>, e: int, key: Option<Key>,
                 k: nat, buf: string, timeSinceStart: int, timeInMeasure: int, token: string,
                 buf': string, timeSinceStart': int, timeInMeasure': int)
    requires k < |notes| && PartWritten(notes, chords, e, key, k, buf, timeSinceStart, timeInMeasure)
    requires AbcNoteTextAsWritten(notes[k], key, ChordAtTime(chords, timeSinceStart)) == Ok(token)
    requires var t := timeInMeasure + notes[k].duration;
             buf' == buf + " " + token + (if t >= e then " |" else "") &&
             timeSinceStart' == timeSinceStart + notes[k].duration && timeInMeasure' == if t >= e then 0 else t
    ensures PartWritten(notes, chords, e, key, k + 1, buf', timeSinceStart', timeInMeasure')
  {
    var bar := if timeInMeasure + notes[k].duration >= e then " |" else "";
    assert OnsetChord(notes, chords, k) == ChordAtTime(chords, timeSinceStart);
    assert BarAfter(notes, k, e) == (timeInMeasure + notes[k].duration >= e);
    assert NotePiece(notes, chords, e, key, k) == Ok(" " + token + bar);
    GatherStep(NotePieces(notes, chords, e, key), k, buf, " " + token + bar);
    AppendThree(buf, " ", token, bar);
    OnsetStep(notes, k);
  }

  /** A token that throws ends the part with its exception. */
  lemma PartFails(notes: seq<Note>, chords: seq<ChordChange>, e: int, key: Option<Key>,
                  k: nat, buf: string, timeSinceStart: int, timeInMeasure: int, error: JavaException)
    requires k < |notes| && PartWritten(notes, chords, e, key, k, buf, timeSinceStart, timeInMeasure)
    requires NotePieces(notes, chords, e, key)(k) == Err(error)
    ensures PartLine(notes, chords, e, key) == Err(error)
  {
    GatherFailsFrom(NotePieces(notes, chords, e, key), k + 1, |notes|);
  }

  /** The note's piece throws what its token throws. */
  lemma NoteFails(notes: seq<Note>, chords: seq<ChordChange>, e: int, key: Option<Key>, k: nat, time: int, error: JavaException)
    requires k < |notes| && time == Onset(notes, k)
    requires AbcNoteTextAsWritten(notes[k], key, ChordAtTime(chords, time)) == Err(error)
    ensures NotePieces(notes, chords, e, key)(k) == Err(error)
  {
    assert OnsetChord(notes, chords, k) == ChordAtTime(chords, time);
  }

  /** `write`, for one part: the loop appends a token per note, keeps the
      onset and the measure counter, and closes the part. */
  method WritePart(score: Score, key: Option<Key>, part: int) returns (r: Result<string>)
    requires score.Valid() && 0 <= part < 4
    ensures r == PartLine(score.parts[part], score.chords, score.quartersPerMeasure * 2, key)
  {
    var notes := score.parts[part];
    var chords := score.chords;
    var e := score.quartersPerMeasure * 2;
    var buf := "";
    var timeSinceStart := 0;
    var timeInMeasure := 0;
    var k := 0;
    while k < |notes|
      invariant PartWritten(notes, chords, e, key, k, buf, timeSinceStart, timeInMeasure)
      invariant score.chords == chords
    {
      var note := notes[k];
      var currentChord := score.GetChordAtTime(timeSinceStart);
      var token := AbcNote(note, key, currentChord);
      if token.Err? {
        NoteFails(notes, chords, e, key, k, timeSinceStart, token.error);
        PartFails(notes, chords, e, key, k, buf, timeSinceStart, timeInMeasure, token.error);
        return Err(token.error);
      }
      var buf0, time0, measure0 := buf, timeSinceStart, timeInMeasure;
      buf := buf + " " + token.value;
      timeSinceStart := timeSinceStart + note.duration;
      timeInMeasure := timeInMeasure + note.duration;
      if timeInMeasure >= e {
        buf := buf + " |";
        timeInMeasure := 0;
      }
      PartStep(notes, chords, e, key, k, buf0, time0, measure0, token.value, buf, timeSinceStart, timeInMeasure);
      k := k + 1;
    }
    return Ok(buf + "]");
  }

  /** A song key other than Gb major, and chords whose roots are pitch
      classes and, unless the song key holds B, whose key is not Gb major. */
  predicate ChordsSpelledAsIntended(chords: seq<ChordChange>, i: int)
    requires 0 <= i < |KeyTable|
  {
    i != 12 &&
    forall j :: 0 <= j < |chords| ==>
      0 <= chords[j].chord.root < 12 && (KeyTable[i].direction == 1 || ChordKeyRow(chords[j].chord) != 12)
  }

  /** Every note of a part lies from MIDI 0 up and lasts no less than zero. */
  predicate Writable(notes: seq<Note>) {
    forall i :: 0 <= i < |notes| ==> notes[i].midi >= 0 && notes[i].duration >= 0
  }

  lemma SoundingChordSpelled(chords: seq<ChordChange>, i: int, time: int, note: Note)
    requires 0 <= i < |KeyTable| && ChordsSpelledAsIntended(chords, i)
    ensures SpelledAsIntended(note, i, ChordAtTime(chords, time))
  {
  }

  /**
   * Under a registered song key other than Gb major, with chords that are
   * spelled as intended, a part of notes from MIDI 0 up is written without
   * an exception.
   */
  lemma PartBodyOk(notes: seq<Note>, chords: seq<ChordChange>, e: int, i: int, k: nat)
    requires 0 <= i < |KeyTable| && k <= |notes| && Writable(notes) && ChordsSpelledAsIntended(chords, i)
    ensures PartBody(notes, chords, e, Some(KeyOf(KeyTable[i])), k).Ok?
  {
    var pieces := NotePieces(notes, chords, e, Some(KeyOf(KeyTable[i])));
    forall j: nat | j < k
      ensures pieces(j).Ok?
    {
      SoundingChordSpelled(chords, i, Onset(notes, j), notes[j]);
      AbcNoteWritten(notes[j], i, OnsetChord(notes, chords, j));
    }
    GatherOk(pieces, k);
  }

  /** The source's round trip's first half: the token is written. */
  lemma AbcNoteWritten(note: Note, i: int, currentChord: Option<Chord>)
    requires 0 <= i < |KeyTable| && note.midi >= 0 && note.duration >= 0
    requires SpelledAsIntended(note, i, currentChord)
    ensures AbcNoteTextAsWritten(note, Some(KeyOf(KeyTable[i])), currentChord).Ok?
  {
    AbcNoteAsWrittenRoundTrip(note, i, currentChord);
  }

  lemma PartLineOk(notes: seq<Note>, chords: seq<ChordChange>, e: int, i: int)
    requires 0 <= i < |KeyTable| && Writable(notes) && ChordsSpelledAsIntended(chords, i)
    ensures var r := PartLine(notes, chords, e, Some(KeyOf(KeyTable[i])));
            r.Ok? && |r.value| > 0 && r.value[|r.value| - 1] == ']'
  {
    PartBodyOk(notes, chords, e, i, |notes|);
  }

  // ---------------------------------------------------------------------
  // The score

  /** The first `k` part lines, or the first exception. */
  function PartLines(parts: seq<seq<Note>>, chords: seq<ChordChange>, e: int, key: Option<Key>, k: nat): Result<seq<string>>
    requires k <= |parts|
  {
    Gather(LinePieces(parts, chords, e, key), k)
  }

  /** What part `p` adds to the lines: its line. */
  function LinePiece(parts: seq<seq<Note>>, chords: seq<ChordChange>, e: int, key: Option<Key>, p: nat): Result<seq<string>>
    requires p < |parts|
  {
    var line :- PartLine(parts[p], chords, e, key);
    Ok([line])
  }

  function LinePieces(parts: seq<seq<Note>>, chords: seq<ChordChange>, e: int, key: Option<Key>): nat -> Result<seq<string>> {
    (p: nat) => if p < |parts| then LinePiece(parts, chords, e, key, p) else Ok([])
  }

  /** The bindings of a score with these fields; the song key is looked up
      by name. */
  function ScoreBindings(title: string, composer: string, keyName: string, quartersPerMeasure: int,
                         parts: seq<seq<Note>>, chords: seq<ChordChange>): Result<AbcBindings>
    requires |parts| == 4
  {
    var lines :- PartLines(parts, chords, quartersPerMeasure * 2, Lookup(keyName), 4);
    Ok(AbcBindings(title, composer, keyName, IntToString(quartersPerMeasure) + "/4", lines))
  }

  /** One part line more. */
  lemma LineStep(parts: seq<seq<Note>>, chords: seq<ChordChange>, e: int, key: Option<Key>, i: nat, lines: seq<string>, line: string)
    requires i < |parts| && PartLines(parts, chords, e, key, i) == Ok(lines) && PartLine(parts[i], chords, e, key) == Ok(line)
    ensures PartLines(parts, chords, e, key, i + 1) == Ok(lines + [line])
  {
    GatherStep(LinePieces(parts, chords, e, key), i, lines, [line]);
  }

  /** A part that throws ends the score with its exception. */
  lemma LineFails(parts: seq<seq<Note>>, chords: seq<ChordChange>, e: int, key: Option<Key>, i: nat, lines: seq<string>, error: JavaException)
    requires i < |parts| && PartLines(parts, chords, e, key, i) == Ok(lines) && PartLine(parts[i], chords, e, key) == Err(error)
    ensures PartLines(parts, chords, e, key, |parts|) == Err(error)
  {
    assert LinePieces(parts, chords, e, key)(i) == Err(error);
    GatherFails(LinePieces(parts, chords, e, key), i, |parts|, lines, error);
  }

  /** `write`, without the template: the bindings of the score. */
  method Write(score: Score) returns (r: Result<AbcBindings>)
    requires score.Valid()
    ensures r == ScoreBindings(score.title, score.composer, score.key, score.quartersPerMeasure, score.parts, score.chords)
  {
    var key := Lookup(score.key);
    var lines: seq<string> := [];
    for i := 0 to 4
      invariant PartLines(score.parts, score.chords, score.quartersPerMeasure * 2, key, i) == Ok(lines)
    {
      var line := WritePart(score, key, i);
      if line.Err? {
        LineFails(score.parts, score.chords, score.quartersPerMeasure * 2, key, i, lines, line.error);
        return Err(line.error);
      }
      LineStep(score.parts, score.chords, score.quartersPerMeasure * 2, key, i, lines, line.value);
      lines := lines + [line.value];
    }
    return Ok(AbcBindings(score.title, score.composer, score.key, IntToString(score.quartersPerMeasure) + "/4", lines));
  }

  /** A score in a registered key other than Gb major whose parts are
      writable and whose chords are spelled as intended is written: one
      line per part, each the part's line. */
  lemma PartLinesOk(parts: seq<seq<Note>>, chords: seq<ChordChange>, e: int, i: int, k: nat)
    requires 0 <= i < |KeyTable| && k <= |parts| && ChordsSpelledAsIntended(chords, i)
    requires forall p :: 0 <= p < |parts| ==> Writable(parts[p])
    ensures var r := PartLines(parts, chords, e, Some(KeyOf(KeyTable[i])), k);
            r.Ok? && |r.value| == k &&
            forall p :: 0 <= p < k ==> PartLine(parts[p], chords, e, Some(KeyOf(KeyTable[i]))) == Ok(r.value[p])
  {
    var key := Some(KeyOf(KeyTable[i]));
    var pieces := LinePieces(parts, chords, e, key);
    forall p: nat | p < k
      ensures pieces(p).Ok? && |pieces(p).value| == 1 && PartLine(parts[p], chords, e, key) == Ok(pieces(p).value[0])
    {
      PartLineOk(parts[p], chords, e, i);
    }
    GatherSingles(pieces, k);
  }

  // ---------------------------------------------------------------------
  // Which names carry a prefix

  /** A note of the song key is written as a bare letter, the signature
      supplying its accidental. */
  lemma SongKeyNoteIsBare(note: Note, i: int, currentChord: Option<Chord>, corrected: bool)
    requires 0 <= i < |KeyTable| && note.midi >= 0 && ChordKey(currentChord).Ok?
    requires note.RelativeNote() in KeyOf(KeyTable[i]).notesInKey
    ensures var w := WrittenName(note, Some(KeyOf(KeyTable[i])), currentChord, corrected);
            w.Ok? && w.value in BaseNotes
  {
    var idx := SongKeyLetter(i, note.RelativeNote());
    BareLetterName(note, KeyOf(KeyTable[i]), currentChord, idx, corrected);
  }

  lemma BareLetterName(note: Note, key: Key, currentChord: Option<Chord>, idx: int, corrected: bool)
    requires ChordKey(currentChord).Ok? && 0 <= idx < |BaseNotes|
    requires note.RelativeNote() in key.notesInKey && NoteName(key.GetBaseNote(note.RelativeNote())) == Ok(BaseNotes[idx])
    ensures WrittenName(note, Some(key), currentChord, corrected) == Ok(BaseNotes[idx])
  {
    AbcNameOfLetter(idx);
    SongKeySpelling(note, key, ChordKey(currentChord).value, BaseNotes[idx], corrected);
    WrittenNameOfSpelling(note, key, currentChord, BaseNotes[idx], BaseNotes[idx], corrected);
  }

  lemma BareLetterAccidental(idx: int, key: Key)
    requires 0 <= idx < |BaseNotes|
    ensures "" + BaseNotes[idx] == BaseNotes[idx]
    ensures WrittenAccidental("" + BaseNotes[idx], key) == key.GetAccidentalForNote(BaseNotes[idx])
  {
    NoPrefix(BaseNotes[idx]);
    WrittenAccidentalOfLetter("", idx, key);
  }

  /** A note outside the song key that the chord's key holds is written
      with an explicit prefix, naturals included, so the signature plays no
      part in reading it. */
  lemma ChordKeyNoteIsMarked(note: Note, i: int, c: Chord)
    requires 0 <= i < |KeyTable| && note.midi >= 0 && 0 <= c.root < 12
    requires note.RelativeNote() !in KeyOf(KeyTable[i]).notesInKey
    requires var ck := ChordKey(Some(c)); ck.Ok? && ck.value.Some? && note.RelativeNote() in ck.value.value.notesInKey
    ensures var w := WrittenName(note, Some(KeyOf(KeyTable[i])), Some(c), true);
            w.Ok? && |w.value| == 2 && (w.value[0] == '^' || w.value[0] == '_' || w.value[0] == '=')
  {
    var ci := ChordKeyRegistered(c);
    var idx, pre := ChordKeyName(note, i, Some(c), ci);
    LetterCases(idx);
  }

  // ---------------------------------------------------------------------
  // The octave of a letter whose accidental crosses C

  /** B4 (MIDI 71) under G flat major with no chord: the song key spells
      it as the letter C, which the signature flattens. */
  lemma GbB4Name(corrected: bool)
    ensures var key := KeyOf(KeyTable[12]);
            WrittenName(Note(71, 2), Some(key), None, corrected) == Ok("C") && key.GetAccidentalForNote("C") == -1
  {
    RegisteredKeyLookup(12, 11);
    assert NaturalIndex(Wrap(11 + 1)) == 0;
    BareLetterName(Note(71, 2), KeyOf(KeyTable[12]), None, 0, corrected);
    AccidentalOfLetter(-1, KeyTable[12].notesWithAccidentals, "Gb", "C");
  }

  /** The two octaves of a C of length 2 around middle C. */
  lemma CTokens()
    ensures WithOctave("C", 4) + IntToString(2) == "C2"
    ensures WithOctave("C", 5) + IntToString(2) == "c2"
  {
    assert IntToString(2) == "2";
    assert Repeat(',', 0) == [] && Repeat('\'', 0) == [];
    assert UpperCase("C") == "C" && LowerCase("C") == "c";
  }

  /** Under a signature that flattens C, the two tokens read as B3 and B4. */
  lemma ReadCTokens(key: Key)
    requires key.GetAccidentalForNote("C") == -1
    ensures var back := ReadAbcNote("C2", key); back.Some? && back.value.midi == 59
    ensures var back := ReadAbcNote("c2", key); back.Some? && back.value.midi == 71
  {
    NoPrefix(BaseNotes[0]);
    assert NatToString(2) == IntToString(2);
    CTokens();
    ReadWrittenToken("", 0, 4, 2, key);
    ReadWrittenToken("", 0, 5, 2, key);
  }

  /** The written name C of a note, and the octaves the two versions give it. */
  lemma CNameTokens(note: Note, key: Key)
    requires WrittenName(note, Some(key), None, false) == Ok("C") && WrittenName(note, Some(key), None, true) == Ok("C")
    requires key.GetAccidentalForNote("C") == -1
    ensures AbcNoteTextAsWritten(note, Some(key), None) == Ok(WithOctave("C", note.Octave()) + IntToString(note.duration))
    ensures AbcNoteText(note, Some(key), None) == Ok(WithOctave("C", (note.midi + 1) / 12 - 1) + IntToString(note.duration))
  {
    TextOfName(note, key, None, "C");
    NoPrefix(BaseNotes[0]);
    WrittenAccidentalOfLetter("", 0, key);
  }

  /** As written, B4 under G flat major becomes "C2", in the octave of the
      sounding pitch, and reads back an octave low, as B3. */
  lemma OctaveOfCFlatAsWritten()
    ensures var key := KeyOf(KeyTable[12]);
            AbcNoteTextAsWritten(Note(71, 2), Some(key), None) == Ok("C2") &&
            var back := ReadAbcNote("C2", key); back.Some? && back.value.midi == 59
  {
    var key := KeyOf(KeyTable[12]);
    GbB4Name(false);
    GbB4Name(true);
    CNameTokens(Note(71, 2), key);
    assert Note(71, 2).Octave() == 4;
    CTokens();
    ReadCTokens(key);
  }

  /** Corrected, the letter's own octave is used: "c2", which reads back
      as B4. */
  lemma OctaveOfCFlatCorrected()
    ensures var key := KeyOf(KeyTable[12]);
            AbcNoteText(Note(71, 2), Some(key), None) == Ok("c2") &&
            var back := ReadAbcNote("c2", key); back.Some? && back.value.midi == 71
  {
    var key := KeyOf(KeyTable[12]);
    GbB4Name(false);
    GbB4Name(true);
    CNameTokens(Note(71, 2), key);
    CTokens();
    ReadCTokens(key);
  }

  // ---------------------------------------------------------------------
  // Where the source's token is not the corrected one

  /** The marked tokens of the two examples below. */
  lemma MarkedTokens()
    ensures WithOctave("_Db", 4) + IntToString(2) == "_DB2"
    ensures WithOctave("=C", 4) + IntToString(2) == "=C2"
    ensures WithOctave("_C", 5) + IntToString(2) == "_c2"
  {
    assert IntToString(2) == "2";
    assert Repeat(',', 0) == [] && Repeat('\'', 0) == [];
    assert UpperCase("_Db") == "_DB" && UpperCase("=C") == "=C" && LowerCase("_C") == "_c";
  }

  /** In a flat key with a flat on C, a C with no chord is written "_Db"
      as written and "=C" corrected. */
  lemma FlatKeyCNames(notesWithAccidentals: seq<string>, majorName: string, n: Note)
    requires NoEnharmonicClash(-1, notesWithAccidentals) && "C" in notesWithAccidentals
    requires n.RelativeNote() == 0
    ensures var k := KeyFrom(-1, notesWithAccidentals, majorName);
            WrittenName(n, Some(k), None, false) == Ok("_Db") && WrittenName(n, Some(k), None, true) == Ok("=C") &&
            WrittenAccidental("=C", k) == 0
  {
    KeyLookup(-1, notesWithAccidentals, majorName, 0);
    assert NaturalIndex(Wrap(0 + 1)) == -1 && BaseNotes[0] == "C";
    FlatOnCMiddleC(notesWithAccidentals, majorName, n, false);
    assert AbcName("Dbb") == "_Db";
    assert AbcName("C@") == "=C";
  }

  /** Middle C under G flat major with no chord: the source spells it
      "Dbb" and writes "_DB2"; corrected it is "=C2". */
  lemma GbMiddleCTokens(i: int, n: Note)
    requires i == 12 && n == Note(60, 2)
    ensures AbcNoteTextAsWritten(n, Some(KeyOf(KeyTable[i])), None) == Ok("_DB2")
    ensures AbcNoteText(n, Some(KeyOf(KeyTable[i])), None) == Ok("=C2")
  {
    var row := KeyTable[i];
    TableHasNoClash(i);
    assert row.direction == -1;
    assert "C" in row.notesWithAccidentals by { assert row.notesWithAccidentals[5] == "C"; }
    assert n.RelativeNote() == 0 && n.Octave() == 4;
    FlatKeyCNames(row.notesWithAccidentals, row.majorName, n);
    MarkedTokens();
  }

  /** A B that the song key lacks and a chord key holds as Cb: the source
      throws, the corrected writer marks it "_C". */
  lemma ChordKeyCFlatNames(key: Key, chordKey: Key, n: Note, c: Chord)
    requires ChordKey(Some(c)) == Ok(Some(chordKey))
    requires n.RelativeNote() !in key.notesInKey && n.RelativeNote() in chordKey.notesInKey
    requires NoteNameInKeyAsWritten(n, chordKey, true) == Err(IllegalArgument) && NoteNameInKey(n, chordKey, true) == Ok("Cb")
    ensures WrittenName(n, Some(key), Some(c), false) == Err(IllegalArgument)
    ensures WrittenName(n, Some(key), Some(c), true) == Ok("_C")
  {
    assert AbcName("Cb") == "_C";
  }

  /** The key of a G flat seventh chord is G flat major. */
  lemma GbSeventhKey(c: Chord)
    requires c == Chord(6, Seventh)
    ensures ChordKey(Some(c)) == Ok(Some(KeyOf(KeyTable[12])))
  {
    var ci := ChordKeyRegistered(c);
    assert NoteNames[6] == "Gb" && Seventh.Mode() == "" && "Gb" + "" == "Gb";
    assert ci == 12;
  }

  /** F major lacks B, which G flat major holds as Cb. */
  lemma BInFAndGb(n: Note)
    requires n.midi >= 0 && n.RelativeNote() == 11
    ensures n.RelativeNote() !in KeyOf(KeyTable[7]).notesInKey
    ensures n.RelativeNote() in KeyOf(KeyTable[12]).notesInKey
    ensures NoteNameInKeyAsWritten(n, KeyOf(KeyTable[12]), true) == Err(IllegalArgument)
    ensures NoteNameInKey(n, KeyOf(KeyTable[12]), true) == Ok("Cb")
  {
    var gb := KeyTable[12];
    TableHasNoClash(12);
    assert "C" in gb.notesWithAccidentals by { assert gb.notesWithAccidentals[5] == "C"; }
    RegisteredKeyLookup(7, 11);
    RegisteredKeyLookup(12, 11);
    assert NaturalIndex(11) == 6 && BaseNotes[6] == "B" && NaturalIndex(Wrap(11 + 1)) == 0 && BaseNotes[0] == "C";
    assert KeyTable[7].notesWithAccidentals == ["B"];
    FlatOnCCFlat(gb.notesWithAccidentals, gb.majorName, n, true);
  }

  /** B4 in F major under a G flat seventh chord: the chord's key holds B
      as Cb, so the source throws where the corrected writer gives "_c2". */
  lemma GbChordBTokens(i: int, n: Note, c: Chord)
    requires i == 7 && n == Note(71, 2) && c == Chord(6, Seventh)
    ensures AbcNoteTextAsWritten(n, Some(KeyOf(KeyTable[i])), Some(c)) == Err(IllegalArgument)
    ensures AbcNoteText(n, Some(KeyOf(KeyTable[i])), Some(c)) == Ok("_c2")
  {
    var key := KeyOf(KeyTable[i]);
    assert n.RelativeNote() == 11;
    GbSeventhKey(c);
    BInFAndGb(n);
    ChordKeyCFlatNames(key, KeyOf(KeyTable[12]), n, c);
    assert WrittenAccidental("_C", key) == -1;
    assert LetterOctave(n, "_C", key) == 5;
    MarkedTokens();
  }

  /** So a part in F major holding B4 under a G flat seventh chord throws
      IllegalArgumentException. */
  lemma GbChordPartThrows(e: int)
    ensures PartLine([Note(71, 2)], [ChordChange(0, Chord(6, Seventh))], e, Some(KeyOf(KeyTable[7]))) == Err(IllegalArgument)
  {
    var notes := [Note(71, 2)];
    var chords := [ChordChange(0, Chord(6, Seventh))];
    var key := Some(KeyOf(KeyTable[7]));
    ChordOnInterval(chords, 0, 0);
    GbChordBTokens(7, Note(71, 2), Chord(6, Seventh));
    assert PartBody(notes, chords, e, key, 0) == Ok("");
    NoteFails(notes, chords, e, key, 0, 0, IllegalArgument);
    PartFails(notes, chords, e, key, 0, "", 0, 0, IllegalArgument);
  }
}
