/**
 * Key-aware spelling of a note: the letter name and accidental mark a
 * pitch class gets in a key signature. Marks are "#" (sharp), "b" (flat)
 * and "@" (natural). The spelling is given as written, with Java's
 * remainder and the accidental taken as a plain difference, and
 * corrected, with the remainder and the difference reduced around the
 * octave; the two disagree only in Gb major.
 */
module Spelling {
  import opened JavaLang
  import opened Notes
  import opened Keys

  /** The mark for a one-semitone accidental: in sharp keys a raise is a sharp
      and a lowering a natural, in flat keys a raise is a natural and a
      lowering a flat. Any other accidental throws. */
  function AccidentalString(accidental: int, key: Key): (r: Result<string>)
    ensures r.Ok? <==> accidental == 1 || accidental == -1
    ensures r.Ok? ==> r.value in ["#", "@", "b"]
    ensures r.Ok? && key.direction == 1 ==> (r.value == "#" <==> accidental == 1)
    ensures r.Ok? && key.direction != 1 ==> (r.value == "b" <==> accidental == -1)
    ensures r.Ok? && key.direction != 1 ==> r.value != "#"
    ensures r.Ok? && key.direction == 1 ==> r.value != "b"
  {
    if key.direction == 1 then
      if accidental == 1 then Ok("#") else if accidental == -1 then Ok("@") else Err(IllegalArgument)
    else
      if accidental == 1 then Ok("@") else if accidental == -1 then Ok("b") else Err(IllegalArgument)
  }

  /**
   * The name of a note in a key exactly as the source computes it: a key
   * note keeps its canonical name (with "@" when forced) unless it is
   * altered, when it is its base letter with the difference as accidental;
   * a foreign note is a natural when raising (in sharp keys) or lowering (in
   * flat keys) it gives an altered key note, and otherwise the note below
   * (above) with the key's accidental. Both reductions use Java's `%`.
   */
  function NoteNameInKeyAsWritten(n: Note, key: Key, forceNatural: bool): Result<string> {
    var p := n.RelativeNote();
    if p in key.notesInKey then
      if p !in key.accidentalNoteToBaseNote then
        var name :- NoteName(p);
        Ok(name + (if forceNatural then "@" else ""))
      else
        var baseNote := key.accidentalNoteToBaseNote[p];
        var name :- NoteName(baseNote);
        var mark :- AccidentalString(p - baseNote, key);
        Ok(name + mark)
    else
      var noteWithAccidental := JavaRem(p + key.direction, 12);
      if noteWithAccidental in key.accidentalNoteToBaseNote then
        var name :- NoteName(p);
        Ok(name + "@")
      else
        var baseNote := JavaRem(p - key.direction, 12);
        var name :- NoteName(baseNote);
        var mark :- AccidentalString(key.direction, key);
        Ok(name + mark)
  }

  /** The accidental that takes a base letter to a pitch class, the short way
      round the octave: Cb is a flat on C although 11 - 0 = 11. */
  function Accidental(relativeNote: int, baseNote: int): (a: int)
    ensures -6 < a <= 6 && (a - (relativeNote - baseNote)) % 12 == 0
  {
    var diff := (relativeNote - baseNote) % 12;
    if diff > 6 then diff - 12 else diff
  }

  /** The spelling with both reductions taken modulo 12 and the accidental of
      an altered key note taken round the octave. */
  function NoteNameInKey(n: Note, key: Key, forceNatural: bool): Result<string> {
    var p := n.RelativeNote();
    if p in key.notesInKey then
      if p !in key.accidentalNoteToBaseNote then
        var name :- NoteName(p);
        Ok(name + (if forceNatural then "@" else ""))
      else
        var baseNote := key.accidentalNoteToBaseNote[p];
        var name :- NoteName(baseNote);
        var mark :- AccidentalString(Accidental(p, baseNote), key);
        Ok(name + mark)
    else
      var noteWithAccidental := (p + key.direction) % 12;
      if noteWithAccidental in key.accidentalNoteToBaseNote then
        var name :- NoteName(p);
        Ok(name + "@")
      else
        var baseNote := (p - key.direction) % 12;
        var name :- NoteName(baseNote);
        var mark :- AccidentalString(key.direction, key);
        Ok(name + mark)
  }

  // ---------------------------------------------------------------------
  // Reading a spelling back

  /** The position of a natural letter in C..B, or -1. */
  function LetterIndex(c: char): (r: int)
    ensures -1 <= r < |BaseNotes|
    ensures r >= 0 ==> BaseNotes[r] == [c]
  {
    match c
    case 'C' => 0
    case 'D' => 1
    case 'E' => 2
    case 'F' => 3
    case 'G' => 4
    case 'A' => 5
    case 'B' => 6
    case _ => -1
  }

  /** The letter whose natural pitch class is `p`, or -1 for the black keys. */
  function NaturalIndex(p: int): (r: int)
    ensures -1 <= r < |BaseNotes|
    ensures r >= 0 ==> NaturalPitchClasses[r] == p
  {
    match p
    case 0 => 0
    case 2 => 1
    case 4 => 2
    case 5 => 3
    case 7 => 4
    case 9 => 5
    case 11 => 6
    case _ => -1
  }

  /**
   * The pitch class a spelled name denotes in a key, read as ABC notation
   * reads a note under a key signature: a bare letter takes the key's
   * accidental, a marked letter takes its mark. Names that are not a letter
   * with at most one mark denote nothing.
   */
  function SpelledPitchClass(name: string, key: Key): Option<int> {
    if |name| == 0 || |name| > 2 then None
    else
      var i := LetterIndex(name[0]);
      if i < 0 then None
      else if |name| == 1 then Some(Wrap(NaturalPitchClasses[i] + key.GetAccidentalForNote(BaseNotes[i])))
      else if name[1] == '@' then Some(NaturalPitchClasses[i])
      else if name[1] == '#' then Some(Wrap(NaturalPitchClasses[i] + 1))
      else if name[1] == 'b' then Some(Wrap(NaturalPitchClasses[i] - 1))
      else None
  }

  // ---------------------------------------------------------------------
  // Facts about letters and keys

  lemma NaturalIndexOfLetter(i: int)
    requires 0 <= i < |BaseNotes|
    ensures NaturalIndex(NaturalPitchClasses[i]) == i
    ensures NoteNames[NaturalPitchClasses[i]] == BaseNotes[i]
    ensures LetterIndex(BaseNotes[i][0]) == i && |BaseNotes[i]| == 1
  {
    if i == 0 {} else if i == 1 {} else if i == 2 {} else if i == 3 {} else if i == 4 {} else if i == 5 {} else {}
  }

  /** A pitch class that is no natural one is a black key, one semitone
      from a natural on either side. */
  lemma BlackKeyNeighbours(p: int, d: int)
    requires 0 <= p < 12 && NaturalIndex(p) == -1 && (d == 1 || d == -1)
    ensures NaturalIndex(p - d) >= 0 && NaturalIndex(p + d) >= 0
  {
  }

  /** A letter's pitch class in a key, and whether the key alters it. */
  lemma LetterInKey(direction: int, notesWithAccidentals: seq<string>, i: int)
    requires direction == 1 || direction == -1
    requires 0 <= i < |BaseNotes|
    ensures var shifted := LetterPitchClasses(AccidentalsOf(direction, notesWithAccidentals));
            (BaseNotes[i] !in notesWithAccidentals ==> shifted[i] == NaturalPitchClasses[i]) &&
            (BaseNotes[i] in notesWithAccidentals ==>
               shifted[i] == Wrap(NaturalPitchClasses[i] + direction) && shifted[i] != NaturalPitchClasses[i] &&
               Wrap(shifted[i] - direction) == NaturalPitchClasses[i])
  {
    assert 0 <= NaturalPitchClasses[i] < 12 by { LetterNoteId(i); }
  }

  /**
   * Membership in a key by pitch class: `p` is a key note exactly when it is
   * an unaltered natural letter or the alteration of a listed letter, and it
   * is an altered key note exactly in the second case, sent to that letter.
   */
  lemma KeyLookup(direction: int, notesWithAccidentals: seq<string>, majorName: string, p: int)
    requires direction == 1 || direction == -1
    requires NoEnharmonicClash(direction, notesWithAccidentals)
    requires 0 <= p < 12
    ensures var k := KeyFrom(direction, notesWithAccidentals, majorName);
            var i := NaturalIndex(p);
            var j := NaturalIndex(Wrap(p - direction));
            var altered := j >= 0 && BaseNotes[j] in notesWithAccidentals;
            (p in k.notesInKey <==> (i >= 0 && BaseNotes[i] !in notesWithAccidentals) || altered) &&
            (p in k.accidentalNoteToBaseNote <==> altered) &&
            (altered ==> k.accidentalNoteToBaseNote[p] == NaturalPitchClasses[j])
  {
    var k := KeyFrom(direction, notesWithAccidentals, majorName);
    var shifted := LetterPitchClasses(AccidentalsOf(direction, notesWithAccidentals));
    var i := NaturalIndex(p);
    var j := NaturalIndex(Wrap(p - direction));
    var altered := j >= 0 && BaseNotes[j] in notesWithAccidentals;
    // Key notes.
    if p in k.notesInKey {
      var a :| 0 <= a < |shifted| && shifted[a] == p;
      LetterInKey(direction, notesWithAccidentals, a);
      NaturalIndexOfLetter(a);
    }
    if i >= 0 && BaseNotes[i] !in notesWithAccidentals {
      LetterInKey(direction, notesWithAccidentals, i);
      assert shifted[i] == p;
    }
    if altered {
      LetterInKey(direction, notesWithAccidentals, j);
      assert shifted[j] == p;
    }
    // Altered key notes.
    AlteredFoldDomain(shifted, NaturalPitchClasses, p);
    if p in k.accidentalNoteToBaseNote {
      var a :| 0 <= a < |shifted| && shifted[a] != NaturalPitchClasses[a] && p == shifted[a];
      LetterInKey(direction, notesWithAccidentals, a);
      NaturalIndexOfLetter(a);
    }
    if altered {
      forall a, b | 0 <= a < b < |BaseNotes| ensures shifted[a] != shifted[b] {
        LetterPitchClassesDistinct(direction, notesWithAccidentals, a, b);
      }
      AlteredFoldValue(shifted, NaturalPitchClasses, j);
    }
  }

  /** A letter, optionally marked, reads back as the letter under the key's
      signature, or as the marked letter. */
  lemma ReadLetter(key: Key, i: int, mark: string)
    requires 0 <= i < |BaseNotes|
    requires mark == "" || mark == "@" || mark == "#" || mark == "b"
    ensures SpelledPitchClass(BaseNotes[i] + mark, key) ==
            if mark == "" then Some(Wrap(NaturalPitchClasses[i] + key.GetAccidentalForNote(BaseNotes[i])))
            else if mark == "@" then Some(NaturalPitchClasses[i])
            else if mark == "#" then Some(Wrap(NaturalPitchClasses[i] + 1))
            else Some(Wrap(NaturalPitchClasses[i] - 1))
  {
    NaturalIndexOfLetter(i);
    var name := BaseNotes[i] + mark;
    assert name[0] == BaseNotes[i][0];
    assert |mark| == 1 ==> name[1] == mark[0];
  }

  /** Wrapping undoes a one-semitone step around the octave. */
  lemma WrapStep(p: int, b: int, d: int)
    requires 0 <= p < 12 && 0 <= b < 12 && (d == 1 || d == -1)
    ensures Wrap(p - d) == b <==> Wrap(b + d) == p
    ensures Wrap(p - d) == b ==> Accidental(p, b) == d
    ensures Wrap(p + d) == (p + d) % 12 && Wrap(p - d) == (p - d) % 12
  {
  }

  /** An altered key note is spelled as its letter with the key's mark. */
  lemma SpellAltered(direction: int, notesWithAccidentals: seq<string>, majorName: string, n: Note, forceNatural: bool)
    requires direction == 1 || direction == -1
    requires NoEnharmonicClash(direction, notesWithAccidentals)
    requires 0 <= n.RelativeNote() < 12
    requires n.RelativeNote() in KeyFrom(direction, notesWithAccidentals, majorName).accidentalNoteToBaseNote
    ensures var k := KeyFrom(direction, notesWithAccidentals, majorName);
            var j := NaturalIndex(Wrap(n.RelativeNote() - direction));
            j >= 0 && BaseNotes[j] in notesWithAccidentals &&
            NoteNameInKey(n, k, forceNatural) == Ok(BaseNotes[j] + if direction == 1 then "#" else "b")
  {
    var p := n.RelativeNote();
    KeyLookup(direction, notesWithAccidentals, majorName, p);
    var j := NaturalIndex(Wrap(p - direction));
    NaturalIndexOfLetter(j);
    LetterNoteId(j);
    WrapStep(p, NaturalPitchClasses[j], direction);
  }

  /** A foreign note one step against the key's direction from an altered
      key note is its natural letter, marked natural. */
  lemma SpellNatural(direction: int, notesWithAccidentals: seq<string>, majorName: string, n: Note, forceNatural: bool)
    requires direction == 1 || direction == -1
    requires NoEnharmonicClash(direction, notesWithAccidentals)
    requires 0 <= n.RelativeNote() < 12
    requires n.RelativeNote() !in KeyFrom(direction, notesWithAccidentals, majorName).notesInKey
    ensures var k := KeyFrom(direction, notesWithAccidentals, majorName);
            var i := NaturalIndex(n.RelativeNote());
            ((n.RelativeNote() + direction) % 12 in k.accidentalNoteToBaseNote <==>
               i >= 0 && BaseNotes[i] in notesWithAccidentals) &&
            (i >= 0 ==> BaseNotes[i] in notesWithAccidentals &&
                        NoteNameInKey(n, k, forceNatural) == Ok(BaseNotes[i] + "@"))
  {
    var p := n.RelativeNote();
    var q := (p + direction) % 12;
    WrapStep(p, 0, direction);
    KeyLookup(direction, notesWithAccidentals, majorName, p);
    KeyLookup(direction, notesWithAccidentals, majorName, q);
    assert Wrap(q - direction) == p;
    var i := NaturalIndex(p);
    if i >= 0 {
      NaturalIndexOfLetter(i);
    }
  }

  /** Any other foreign note is a black key, spelled from the letter a step
      against the key's direction with the key's mark. */
  lemma SpellFromNeighbour(direction: int, notesWithAccidentals: seq<string>, majorName: string, n: Note, forceNatural: bool)
    requires direction == 1 || direction == -1
    requires NoEnharmonicClash(direction, notesWithAccidentals)
    requires 0 <= n.RelativeNote() < 12
    requires n.RelativeNote() !in KeyFrom(direction, notesWithAccidentals, majorName).notesInKey
    requires NaturalIndex(n.RelativeNote()) < 0
    ensures var k := KeyFrom(direction, notesWithAccidentals, majorName);
            var b := NaturalIndex(n.RelativeNote() - direction);
            b >= 0 && Wrap(NaturalPitchClasses[b] + direction) == n.RelativeNote() &&
            NoteNameInKey(n, k, forceNatural) == Ok(BaseNotes[b] + if direction == 1 then "#" else "b")
  {
    var p := n.RelativeNote();
    SpellNatural(direction, notesWithAccidentals, majorName, n, forceNatural);
    BlackKeyNeighbours(p, direction);
    var b := NaturalIndex(p - direction);
    NaturalIndexOfLetter(b);
    WrapStep(p, NaturalPitchClasses[b], direction);
  }

  /**
   * The spelling rules in order of precedence: an unaltered key note is its
   * letter, natural-marked when forced; an altered key note is its letter
   * with the key's mark; a foreign natural whose altered form is a key note
   * is marked natural; any other pitch class is the letter a step against
   * the key's direction with the key's mark.
   */
  lemma SpellingCases(direction: int, notesWithAccidentals: seq<string>, majorName: string, n: Note, forceNatural: bool)
    requires direction == 1 || direction == -1
    requires NoEnharmonicClash(direction, notesWithAccidentals)
    requires n.midi >= 0
    ensures var k := KeyFrom(direction, notesWithAccidentals, majorName);
            var p := n.RelativeNote();
            var a := NaturalIndex(p);
            var j := NaturalIndex(Wrap(p - direction));
            var mark := if direction == 1 then "#" else "b";
            NoteNameInKey(n, k, forceNatural) ==
              if a >= 0 && BaseNotes[a] !in notesWithAccidentals then Ok(BaseNotes[a] + if forceNatural then "@" else "")
              else if j >= 0 && BaseNotes[j] in notesWithAccidentals then Ok(BaseNotes[j] + mark)
              else if a >= 0 then Ok(BaseNotes[a] + "@")
              else Ok(BaseNotes[NaturalIndex(p - direction)] + mark)
  {
    var k := KeyFrom(direction, notesWithAccidentals, majorName);
    var p := n.RelativeNote();
    KeyLookup(direction, notesWithAccidentals, majorName, p);
    var a := NaturalIndex(p);
    if p in k.notesInKey && p !in k.accidentalNoteToBaseNote {
      NaturalIndexOfLetter(a);
    } else if p in k.accidentalNoteToBaseNote {
      SpellAltered(direction, notesWithAccidentals, majorName, n, forceNatural);
    } else if a >= 0 {
      SpellNatural(direction, notesWithAccidentals, majorName, n, forceNatural);
    } else {
      SpellFromNeighbour(direction, notesWithAccidentals, majorName, n, forceNatural);
    }
  }

  /**
   * In a signature without a clash, every note from MIDI 0 up gets a
   * spelling, and reading that spelling under the same signature gives the
   * note's pitch class back.
   */
  lemma SpellingRoundTrip(direction: int, notesWithAccidentals: seq<string>, majorName: string, n: Note, forceNatural: bool)
    requires direction == 1 || direction == -1
    requires NoEnharmonicClash(direction, notesWithAccidentals)
    requires n.midi >= 0
    ensures var k := KeyFrom(direction, notesWithAccidentals, majorName);
            var r := NoteNameInKey(n, k, forceNatural);
            r.Ok? && SpelledPitchClass(r.value, k) == Some(n.RelativeNote())
  {
    var k := KeyFrom(direction, notesWithAccidentals, majorName);
    var p := n.RelativeNote();
    var sharpOrFlat := if direction == 1 then "#" else "b";
    KeyLookup(direction, notesWithAccidentals, majorName, p);
    var i := NaturalIndex(p);
    if p in k.notesInKey && p !in k.accidentalNoteToBaseNote {
      NaturalIndexOfLetter(i);
      AccidentalOfLetter(direction, notesWithAccidentals, majorName, BaseNotes[i]);
      ReadLetter(k, i, if forceNatural then "@" else "");
    } else if p in k.accidentalNoteToBaseNote {
      SpellAltered(direction, notesWithAccidentals, majorName, n, forceNatural);
      var j := NaturalIndex(Wrap(p - direction));
      LetterNoteId(j);
      WrapStep(p, NaturalPitchClasses[j], direction);
      ReadLetter(k, j, sharpOrFlat);
    } else if i >= 0 {
      SpellNatural(direction, notesWithAccidentals, majorName, n, forceNatural);
      ReadLetter(k, i, "@");
    } else {
      SpellFromNeighbour(direction, notesWithAccidentals, majorName, n, forceNatural);
      ReadLetter(k, NaturalIndex(p - direction), sharpOrFlat);
    }
  }

  /** Key notes and altered key notes are pitch classes 0..11. */
  lemma KeyNotesInOctave(direction: int, notesWithAccidentals: seq<string>, majorName: string)
    requires direction == 1 || direction == -1
    ensures var k := KeyFrom(direction, notesWithAccidentals, majorName);
            (forall p :: p in k.notesInKey ==> 0 <= p < 12) &&
            (forall p :: p in k.accidentalNoteToBaseNote ==> 0 <= p < 12)
  {
    var k := KeyFrom(direction, notesWithAccidentals, majorName);
    var shifted := LetterPitchClasses(AccidentalsOf(direction, notesWithAccidentals));
    forall p | p in k.notesInKey ensures 0 <= p < 12 {
      var a :| 0 <= a < |shifted| && shifted[a] == p;
      LetterInKey(direction, notesWithAccidentals, a);
      LetterNoteId(a);
    }
    forall p | p in k.accidentalNoteToBaseNote ensures 0 <= p < 12 {
      AlteredFoldDomain(shifted, NaturalPitchClasses, p);
      var a :| 0 <= a < |shifted| && shifted[a] != NaturalPitchClasses[a] && p == shifted[a];
      LetterInKey(direction, notesWithAccidentals, a);
      LetterNoteId(a);
    }
  }

  /**
   * The spelling as written agrees with the corrected one in every key
   * without a clash that has no flat on C: only there can Java's remainder
   * go negative on a reached path, or a key note lie eleven semitones from
   * its letter.
   */
  lemma AsWrittenAgrees(direction: int, notesWithAccidentals: seq<string>, majorName: string, n: Note, forceNatural: bool)
    requires direction == 1 || direction == -1
    requires NoEnharmonicClash(direction, notesWithAccidentals)
    requires !(direction == -1 && "C" in notesWithAccidentals)
    requires n.midi >= 0
    ensures var k := KeyFrom(direction, notesWithAccidentals, majorName);
            NoteNameInKeyAsWritten(n, k, forceNatural) == NoteNameInKey(n, k, forceNatural)
  {
    var k := KeyFrom(direction, notesWithAccidentals, majorName);
    var p := n.RelativeNote();
    KeyLookup(direction, notesWithAccidentals, majorName, p);
    if p + direction >= 0 {
      JavaRemOfNatural(p + direction, 12);
    }
    if p - direction >= 0 {
      JavaRemOfNatural(p - direction, 12);
    }
    if p == 0 {
      assert BaseNotes[0] == "C";
      KeyLookup(direction, notesWithAccidentals, majorName, 1);
    }
    if p in k.accidentalNoteToBaseNote {
      var j := NaturalIndex(Wrap(p - direction));
      LetterNoteId(j);
      WrapStep(p, NaturalPitchClasses[j], direction);
      if p == 11 {
        assert Wrap(p - direction) == 10 || j == 0;
      }
      if p == 0 {
        assert Wrap(p - direction) == 1 || j == 6;
      }
      assert p - NaturalPitchClasses[j] == direction;
    }
  }

  // ---------------------------------------------------------------------
  // Gb major, the one registered key where the two spellings part

  /**
   * In a flat key with a flat on C, middle C is spelled "Dbb" as written:
   * Java's remainder of 0 - 1 by 12 is -1, no altered key note, so the note
   * is spelled from pitch class 1 with a flat, and "Dbb" reads as nothing.
   * The corrected spelling finds Cb = 11 and marks C natural.
   */
  lemma FlatOnCMiddleC(notesWithAccidentals: seq<string>, majorName: string, n: Note, forceNatural: bool)
    requires NoEnharmonicClash(-1, notesWithAccidentals) && "C" in notesWithAccidentals
    requires n.RelativeNote() == 0
    ensures var k := KeyFrom(-1, notesWithAccidentals, majorName);
            NoteNameInKeyAsWritten(n, k, forceNatural) == Ok("Dbb") &&
            SpelledPitchClass("Dbb", k) == None &&
            NoteNameInKey(n, k, forceNatural) == Ok("C@")
  {
    assert BaseNotes[0] == "C";
    KeyNotesInOctave(-1, notesWithAccidentals, majorName);
    KeyLookup(-1, notesWithAccidentals, majorName, 0);
    KeyLookup(-1, notesWithAccidentals, majorName, 11);
    assert JavaRem(-1, 12) == -1 && JavaRem(1, 12) == 1;
    assert "Db" + "b" == "Dbb" && "C" + "@" == "C@";
  }

  /**
   * In such a key Cb (B4, pitch class 11) throws as written: its base
   * letter is C = 0 and the difference 11 is no accidental. Taken round the
   * octave the difference is -1, a flat.
   */
  lemma FlatOnCCFlat(notesWithAccidentals: seq<string>, majorName: string, n: Note, forceNatural: bool)
    requires NoEnharmonicClash(-1, notesWithAccidentals) && "C" in notesWithAccidentals
    requires n.RelativeNote() == 11
    ensures var k := KeyFrom(-1, notesWithAccidentals, majorName);
            NoteNameInKeyAsWritten(n, k, forceNatural) == Err(IllegalArgument) &&
            NoteNameInKey(n, k, forceNatural) == Ok("Cb")
  {
    assert BaseNotes[0] == "C";
    KeyLookup(-1, notesWithAccidentals, majorName, 11);
    assert Accidental(11, 0) == -1;
    assert "C" + "b" == "Cb";
  }

  /** Gb major is the only registered key with a flat on C. */
  lemma OnlyGbMajorFlatsC(i: int)
    requires 0 <= i < |KeyTable|
    ensures KeyTable[i].direction == -1 && "C" in KeyTable[i].notesWithAccidentals <==> i == 12
  {
    var row := KeyTable[i];
    if i < 7 {
      assert row.direction == 1;
    } else if i < 12 {
      assert row.notesWithAccidentals == FlatOrder[..i - 6];
      assert forall k :: 0 <= k < i - 6 ==> FlatOrder[k] != "C";
    } else {
      assert row.notesWithAccidentals[5] == "C";
    }
  }

  /** Gb major is such a key. */
  lemma GbMajorSpellings()
    ensures KeyTable[12].majorName == "Gb"
    ensures NoteNameInKeyAsWritten(Note(60, 0), KeyOf(KeyTable[12]), false) == Ok("Dbb")
    ensures NoteNameInKey(Note(60, 0), KeyOf(KeyTable[12]), false) == Ok("C@")
    ensures NoteNameInKeyAsWritten(Note(71, 0), KeyOf(KeyTable[12]), false) == Err(IllegalArgument)
    ensures NoteNameInKey(Note(71, 0), KeyOf(KeyTable[12]), false) == Ok("Cb")
  {
    var row := KeyTable[12];
    TableHasNoClash(12);
    assert "C" in row.notesWithAccidentals by { assert row.notesWithAccidentals[5] == "C"; }
    FlatOnCMiddleC(row.notesWithAccidentals, row.majorName, Note(60, 0), false);
    FlatOnCCFlat(row.notesWithAccidentals, row.majorName, Note(71, 0), false);
  }

  /** No registered key has a sharp on B. */
  lemma NoSharpOnB(i: int)
    requires 0 <= i < |KeyTable|
    ensures KeyTable[i].direction == 1 ==> "B" !in KeyTable[i].notesWithAccidentals
  {
    TableRowShapes();
    var row := KeyTable[i];
    if row.direction == 1 {
      assert row.notesWithAccidentals == SharpOrder[..|row.notesWithAccidentals|];
      assert forall k :: 0 <= k < |SharpOrder| ==> SharpOrder[k] != "B";
    }
  }

  /** Every sharp key holds B natural. */
  lemma SharpKeysHoldB(i: int)
    requires 0 <= i < |KeyTable| && KeyTable[i].direction == 1
    ensures 11 in KeyOf(KeyTable[i]).notesInKey
  {
    NoSharpOnB(i);
    RegisteredKeyLookup(i, 11);
    assert NaturalIndex(11) == 6 && BaseNotes[6] == "B";
  }

  /**
   * A key note is spelled alike as written and corrected unless its letter
   * lies across C from it: Cb in flat keys, B# in sharp keys.
   */
  lemma KeyNoteAgrees(direction: int, notesWithAccidentals: seq<string>, majorName: string, n: Note, forceNatural: bool)
    requires direction == 1 || direction == -1
    requires NoEnharmonicClash(direction, notesWithAccidentals)
    requires n.midi >= 0 && n.RelativeNote() in KeyFrom(direction, notesWithAccidentals, majorName).notesInKey
    requires !(direction == -1 && n.RelativeNote() == 11) && !(direction == 1 && n.RelativeNote() == 0)
    ensures var k := KeyFrom(direction, notesWithAccidentals, majorName);
            NoteNameInKeyAsWritten(n, k, forceNatural) == NoteNameInKey(n, k, forceNatural)
  {
    var k := KeyFrom(direction, notesWithAccidentals, majorName);
    var p := n.RelativeNote();
    KeyLookup(direction, notesWithAccidentals, majorName, p);
    if p in k.accidentalNoteToBaseNote {
      var j := NaturalIndex(Wrap(p - direction));
      LetterNoteId(j);
      WrapStep(p, NaturalPitchClasses[j], direction);
      assert p - NaturalPitchClasses[j] == direction;
    }
  }

  /** In Gb major every key note but Cb is spelled alike as written and
      corrected. */
  lemma GbKeyNoteAgrees(n: Note, forceNatural: bool)
    requires n.midi >= 0 && n.RelativeNote() in KeyOf(KeyTable[12]).notesInKey && n.RelativeNote() != 11
    ensures NoteNameInKeyAsWritten(n, KeyOf(KeyTable[12]), forceNatural) == NoteNameInKey(n, KeyOf(KeyTable[12]), forceNatural)
  {
    var row := KeyTable[12];
    TableHasNoClash(12);
    KeyNoteAgrees(row.direction, row.notesWithAccidentals, row.majorName, n, forceNatural);
  }

  // ---------------------------------------------------------------------
  // The registered keys

  /** Every note from MIDI 0 up is spelled in every registered key, and the
      spelling reads back as its pitch class. */
  lemma RegisteredSpellingRoundTrip(i: int, n: Note, forceNatural: bool)
    requires 0 <= i < |KeyTable| && n.midi >= 0
    ensures var r := NoteNameInKey(n, KeyOf(KeyTable[i]), forceNatural);
            r.Ok? && SpelledPitchClass(r.value, KeyOf(KeyTable[i])) == Some(n.RelativeNote())
  {
    var row := KeyTable[i];
    TableHasNoClash(i);
    SpellingRoundTrip(row.direction, row.notesWithAccidentals, row.majorName, n, forceNatural);
  }

  /** In every registered key but Gb major the spelling as written is the corrected one. */
  lemma RegisteredAsWrittenAgrees(i: int, n: Note, forceNatural: bool)
    requires 0 <= i < |KeyTable| && i != 12 && n.midi >= 0
    ensures NoteNameInKeyAsWritten(n, KeyOf(KeyTable[i]), forceNatural) == NoteNameInKey(n, KeyOf(KeyTable[i]), forceNatural)
  {
    var row := KeyTable[i];
    TableHasNoClash(i);
    OnlyGbMajorFlatsC(i);
    AsWrittenAgrees(row.direction, row.notesWithAccidentals, row.majorName, n, forceNatural);
  }

  /** Membership of a pitch class in a registered key, as `KeyLookup` states it. */
  lemma RegisteredKeyLookup(i: int, p: int)
    requires 0 <= i < |KeyTable| && 0 <= p < 12
    ensures var row := KeyTable[i];
            var k := KeyOf(row);
            var a := NaturalIndex(p);
            var j := NaturalIndex(Wrap(p - row.direction));
            var altered := j >= 0 && BaseNotes[j] in row.notesWithAccidentals;
            (p in k.notesInKey <==> (a >= 0 && BaseNotes[a] !in row.notesWithAccidentals) || altered) &&
            (p in k.accidentalNoteToBaseNote <==> altered) &&
            (altered ==> k.accidentalNoteToBaseNote[p] == NaturalPitchClasses[j])
  {
    var row := KeyTable[i];
    TableHasNoClash(i);
    KeyLookup(row.direction, row.notesWithAccidentals, row.majorName, p);
  }

  /** The spelling rules for a registered key other than Gb major, as written. */
  lemma RegisteredSpellingCases(i: int, n: Note, forceNatural: bool)
    requires 0 <= i < |KeyTable| && i != 12 && n.midi >= 0
    ensures var row := KeyTable[i];
            var p := n.RelativeNote();
            var a := NaturalIndex(p);
            var j := NaturalIndex(Wrap(p - row.direction));
            var mark := if row.direction == 1 then "#" else "b";
            NoteNameInKeyAsWritten(n, KeyOf(row), forceNatural) ==
              if a >= 0 && BaseNotes[a] !in row.notesWithAccidentals then Ok(BaseNotes[a] + if forceNatural then "@" else "")
              else if j >= 0 && BaseNotes[j] in row.notesWithAccidentals then Ok(BaseNotes[j] + mark)
              else if a >= 0 then Ok(BaseNotes[a] + "@")
              else Ok(BaseNotes[NaturalIndex(p - row.direction)] + mark)
  {
    var row := KeyTable[i];
    TableHasNoClash(i);
    RegisteredAsWrittenAgrees(i, n, forceNatural);
    SpellingCases(row.direction, row.notesWithAccidentals, row.majorName, n, forceNatural);
  }

  /** Spellings in C major, of the notes C4, Gb4 and B4 (MIDI 60, 66, 71):
      "C", "F#" and "B". */
  lemma CMajorSpellings()
    ensures NoteNameInKeyAsWritten(Note(60, 0), KeyOf(KeyTable[0]), false) == Ok("C")
    ensures NoteNameInKeyAsWritten(Note(66, 0), KeyOf(KeyTable[0]), false) == Ok("F#")
    ensures NoteNameInKeyAsWritten(Note(71, 0), KeyOf(KeyTable[0]), false) == Ok("B")
  {
    var row := KeyTable[0];
    assert row.notesWithAccidentals == [] && row.direction == 1;
    RegisteredSpellingCases(0, Note(60, 0), false);
    RegisteredSpellingCases(0, Note(66, 0), false);
    RegisteredSpellingCases(0, Note(71, 0), false);
    assert NaturalIndex(6) == -1 && NaturalIndex(5) == 3;
    assert "F" + "#" == "F#" && "C" + "" == "C" && "B" + "" == "B";
  }

  /** B4 (MIDI 71) in F major, whose B is flat, is "B@". */
  lemma FMajorSpellings()
    ensures NoteNameInKeyAsWritten(Note(71, 0), KeyOf(KeyTable[7]), false) == Ok("B@")
  {
    var row := KeyTable[7];
    assert row.notesWithAccidentals == ["B"] && row.direction == -1;
    RegisteredSpellingCases(7, Note(71, 0), false);
    assert NaturalIndex(11) == 6 && BaseNotes[6] == "B" && "B" in row.notesWithAccidentals;
    assert "B" + "@" == "B@";
  }

  /** Eb4 (MIDI 63) is "D#" in B major. */
  lemma BMajorSpellings()
    ensures NoteNameInKeyAsWritten(Note(63, 0), KeyOf(KeyTable[5]), false) == Ok("D#")
  {
    var row := KeyTable[5];
    assert row.direction == 1 && row.notesWithAccidentals[3] == "D";
    RegisteredSpellingCases(5, Note(63, 0), false);
    assert NaturalIndex(3) == -1 && NaturalIndex(2) == 1 && BaseNotes[1] == "D";
    assert "D" + "#" == "D#";
  }

  /** Eb4 (MIDI 63) is "Eb" in Bb major. */
  lemma BFlatMajorSpellings()
    ensures NoteNameInKeyAsWritten(Note(63, 0), KeyOf(KeyTable[8]), false) == Ok("Eb")
  {
    var row := KeyTable[8];
    assert row.direction == -1 && row.notesWithAccidentals[1] == "E";
    RegisteredSpellingCases(8, Note(63, 0), false);
    assert NaturalIndex(3) == -1 && NaturalIndex(4) == 2 && BaseNotes[2] == "E";
    assert "E" + "b" == "Eb";
  }

  /** In G major, whose F is sharp, F4 (MIDI 65) is "F@" and Bb4 (MIDI 70) is "A#". */
  lemma GMajorSpellings()
    ensures NoteNameInKeyAsWritten(Note(65, 0), KeyOf(KeyTable[1]), false) == Ok("F@")
    ensures NoteNameInKeyAsWritten(Note(70, 0), KeyOf(KeyTable[1]), false) == Ok("A#")
  {
    var row := KeyTable[1];
    assert row.notesWithAccidentals == ["F"] && row.direction == 1;
    RegisteredSpellingCases(1, Note(65, 0), false);
    RegisteredSpellingCases(1, Note(70, 0), false);
    assert NaturalIndex(5) == 3 && BaseNotes[3] == "F" && NaturalIndex(4) == 2;
    assert NaturalIndex(10) == -1 && NaturalIndex(9) == 5 && BaseNotes[5] == "A";
    assert "A" !in row.notesWithAccidentals;
    assert "F" + "@" == "F@" && "A" + "#" == "A#";
  }
}
