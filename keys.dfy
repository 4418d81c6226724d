/**
 * Key signatures: which letters carry an accidental, the seven pitch
 * classes of the key, and the map from each altered pitch class back to
 * its natural letter. Thirteen signatures are registered, each under its
 * major name and its relative minor name.
 */
module Keys {
  import opened JavaLang
  import opened Notes

  /** A key signature. `direction` is +1 for sharp keys and -1 for flat keys. */
  datatype Key = Key(
    accidentals: map<string, int>,
    notesInKey: set<int>,
    accidentalNoteToBaseNote: map<int, int>,
    direction: int,
    majorName: string)
  {
    /** The accidental the key puts on a letter: its direction if listed, else 0. */
    function GetAccidentalForNote(note: string): (r: int)
      ensures note in accidentals ==> r == accidentals[note]
      ensures note !in accidentals ==> r == 0
    {
      AccidentalFor(accidentals, note)
    }

    /** The natural letter a key note was altered from; other pitch classes map to themselves. */
    function GetBaseNote(relativeNote: int): (r: int)
      ensures relativeNote in accidentalNoteToBaseNote ==> r == accidentalNoteToBaseNote[relativeNote]
      ensures relativeNote !in accidentalNoteToBaseNote ==> r == relativeNote
    {
      if relativeNote in accidentalNoteToBaseNote then accidentalNoteToBaseNote[relativeNote] else relativeNote
    }

    /** `Key.toString`: the name of the major key. */
    function ToString(): string {
      majorName
    }
  }

  /** The seven natural letters, in scale order. */
  const BaseNotes: seq<string> := ["C", "D", "E", "F", "G", "A", "B"]

  /** Their pitch classes. */
  const NaturalPitchClasses: seq<int> := [0, 2, 4, 5, 7, 9, 11]

  function AccidentalFor(accidentals: map<string, int>, note: string): int {
    if note in accidentals then accidentals[note] else 0
  }

  /** Every letter in `notes` carries the accidental `direction`. */
  function AccidentalsOf(direction: int, notes: seq<string>): map<string, int> {
    map n | n in notes :: direction
  }

  /** A pitch at most an octave below or two octaves above C, brought into 0..11. */
  function Wrap(x: int): int {
    if x < 0 then x + 12 else if x >= 12 then x - 12 else x
  }

  /** The pitch class of each letter C..B once the key's accidental is applied. */
  function LetterPitchClasses(accidentals: map<string, int>): (r: seq<int>)
    ensures |r| == |BaseNotes|
  {
    seq(|BaseNotes|, i requires 0 <= i < |BaseNotes| => Wrap(NaturalPitchClasses[i] + AccidentalFor(accidentals, BaseNotes[i])))
  }

  /** The values occurring in `s`. */
  function ImageSet(s: seq<int>): set<int> {
    set i | 0 <= i < |s| :: s[i]
  }

  /**
   * The altered-note map after visiting the letters in order: each letter
   * whose pitch class the accidental changes enters its shifted pitch
   * class, sent to its natural one; a later letter overwrites.
   */
  function AlteredFold(shifted: seq<int>, natural: seq<int>): map<int, int>
    requires |shifted| == |natural|
    decreases |shifted|
  {
    if |shifted| == 0 then map[]
    else
      var k := |shifted| - 1;
      var m := AlteredFold(shifted[..k], natural[..k]);
      if shifted[k] != natural[k] then m[shifted[k] := natural[k]] else m
  }

  /**
   * The key the private constructor builds from a direction and the
   * letters it alters, named `majorName` as registration does right after.
   */
  function KeyFrom(direction: int, notesWithAccidentals: seq<string>, majorName: string): Key {
    var accidentals := AccidentalsOf(direction, notesWithAccidentals);
    var shifted := LetterPitchClasses(accidentals);
    Key(accidentals, ImageSet(shifted), AlteredFold(shifted, NaturalPitchClasses), direction, majorName)
  }

  /**
   * The constructor: it records the accidentals, then walks the letters
   * C..B, creating each in octave 0, raising or lowering it by its
   * accidental, and collecting the key's pitch classes and the altered
   * ones.
   */
  method NewKey(direction: int, notesWithAccidentals: seq<string>, majorName: string) returns (key: Key)
    requires direction == 1 || direction == -1
    ensures key == KeyFrom(direction, notesWithAccidentals, majorName)
  {
    var accidentals: map<string, int> := map[];
    for i := 0 to |notesWithAccidentals|
      invariant accidentals == AccidentalsOf(direction, notesWithAccidentals[..i])
    {
      assert notesWithAccidentals[..i + 1] == notesWithAccidentals[..i] + [notesWithAccidentals[i]];
      accidentals := accidentals[notesWithAccidentals[i] := direction];
    }
    assert notesWithAccidentals[..|notesWithAccidentals|] == notesWithAccidentals;
    assert accidentals == AccidentalsOf(direction, notesWithAccidentals);
    var notesInKey, accidentalNoteToBaseNote := CollectKeyNotes(accidentals);
    key := Key(accidentals, notesInKey, accidentalNoteToBaseNote, direction, majorName);
  }

  /** The constructor's walk over the letters C..B with the accidentals in place. */
  method CollectKeyNotes(accidentals: map<string, int>) returns (notesInKey: set<int>, accidentalNoteToBaseNote: map<int, int>)
    requires forall note :: note in accidentals ==> accidentals[note] == 1 || accidentals[note] == -1
    ensures notesInKey == ImageSet(LetterPitchClasses(accidentals))
    ensures accidentalNoteToBaseNote == AlteredFold(LetterPitchClasses(accidentals), NaturalPitchClasses)
  {
    ghost var shifted := LetterPitchClasses(accidentals);
    notesInKey := {};
    accidentalNoteToBaseNote := map[];
    for j := 0 to |BaseNotes|
      invariant notesInKey == ImageSet(shifted[..j])
      invariant accidentalNoteToBaseNote == AlteredFold(shifted[..j], NaturalPitchClasses[..j])
    {
      var note := BaseNotes[j];
      var n := CreateNamed(note, 0, 0);
      var accidental := AccidentalFor(accidentals, note);
      var nWithAccidental := n.Add(accidental);
      LetterInOctaveZero(j, accidental);
      LetterPitchClassAt(accidentals, j);
      notesInKey := notesInKey + {JavaRem(nWithAccidental.midi, 12)};
      ImageSetStep(shifted, j);
      AlteredFoldStep(shifted, NaturalPitchClasses, j);
      if nWithAccidental.RelativeNote() != n.RelativeNote() {
        accidentalNoteToBaseNote := accidentalNoteToBaseNote[nWithAccidental.RelativeNote() := n.RelativeNote()];
      }
    }
    assert shifted[..|BaseNotes|] == shifted && NaturalPitchClasses[..|BaseNotes|] == NaturalPitchClasses;
  }

  /** The canonical names of the letters C..B are found at 0 2 4 5 7 9 11. */
  lemma LetterNoteId(i: int)
    requires 0 <= i < |BaseNotes|
    ensures NoteId(BaseNotes[i]) == NaturalPitchClasses[i] && 0 <= NaturalPitchClasses[i] < 12
  {
    if i == 0 {} else if i == 1 {} else if i == 2 {} else if i == 3 {} else if i == 4 {} else if i == 5 {} else {}
  }

  /** A letter in octave 0 has its natural pitch class, and raised or
      lowered by a semitone it has the wrapped one. */
  lemma LetterInOctaveZero(i: int, accidental: int)
    requires 0 <= i < |BaseNotes| && -1 <= accidental <= 1
    ensures CreateNamed(BaseNotes[i], 0, 0).RelativeNote() == NaturalPitchClasses[i]
    ensures CreateNamed(BaseNotes[i], 0, 0).Add(accidental).RelativeNote() == Wrap(NaturalPitchClasses[i] + accidental)
  {
    LetterNote(i);
    ShiftedPitchClass(NaturalPitchClasses[i], accidental);
  }

  /** The pitch class a key gives a letter. */
  lemma LetterPitchClassAt(accidentals: map<string, int>, i: int)
    requires 0 <= i < |BaseNotes|
    ensures LetterPitchClasses(accidentals)[i] == Wrap(NaturalPitchClasses[i] + AccidentalFor(accidentals, BaseNotes[i]))
  {
  }

  /** A letter created in octave 0 sits at its natural pitch class. */
  lemma LetterNote(i: int)
    requires 0 <= i < |BaseNotes|
    ensures CreateNamed(BaseNotes[i], 0, 0) == Note(12 + NaturalPitchClasses[i], 0)
    ensures 0 <= NaturalPitchClasses[i] < 12
  {
    LetterNoteId(i);
  }

  /** Raised or lowered by a semitone, a note of octave 0 has the wrapped pitch class. */
  lemma ShiftedPitchClass(pc: int, a: int)
    requires 0 <= pc < 12 && -1 <= a <= 1
    ensures Note(12 + pc, 0).RelativeNote() == pc
    ensures Note(12 + pc, 0).Add(a).RelativeNote() == Wrap(pc + a)
  {
    JavaRemOfNatural(12 + pc + a, 12);
    WrapIsModulo(12 + pc + a);
    JavaRemOfNatural(12 + pc, 12);
    WrapIsModulo(12 + pc);
  }

  /** On the range it is used for, `Wrap` is reduction modulo 12. */
  lemma WrapIsModulo(x: int)
    requires -12 <= x < 36
    ensures x < 24 ==> Wrap(x) == x % 12
    ensures 12 <= x ==> Wrap(x - 12) == x % 12
  {
    if x < 0 { assert x == -1 * 12 + (x + 12); }
    else if x >= 24 { assert x == 2 * 12 + (x - 24); }
    else if x >= 12 { assert x == 1 * 12 + (x - 12); }
  }

  lemma AlteredFoldStep(shifted: seq<int>, natural: seq<int>, count: int)
    requires |shifted| == |natural| && 0 <= count < |shifted|
    ensures AlteredFold(shifted[..count + 1], natural[..count + 1]) ==
            if shifted[count] != natural[count] then
              AlteredFold(shifted[..count], natural[..count])[shifted[count] := natural[count]]
            else AlteredFold(shifted[..count], natural[..count])
  {
    assert shifted[..count + 1][..count] == shifted[..count];
    assert natural[..count + 1][..count] == natural[..count];
  }

  lemma ImageSetStep(s: seq<int>, count: int)
    requires 0 <= count < |s|
    ensures ImageSet(s[..count + 1]) == ImageSet(s[..count]) + {s[count]}
  {
    var a := s[..count + 1];
    assert forall i :: 0 <= i < count ==> a[i] == s[..count][i];
  }

  // ---------------------------------------------------------------------
  // The table of registered keys

  /** One registration: major name, relative minor name, direction and altered letters. */
  datatype KeyRow = KeyRow(majorName: string, minorName: string, direction: int, notesWithAccidentals: seq<string>)

  const KeyTable: seq<KeyRow> := [
    KeyRow("C", "Am", 1, []),
    KeyRow("G", "Em", 1, ["F"]),
    KeyRow("D", "Bm", 1, ["F", "C"]),
    KeyRow("A", "F#m", 1, ["F", "C", "G"]),
    KeyRow("E", "C#m", 1, ["F", "C", "G", "D"]),
    KeyRow("B", "G#m", 1, ["F", "C", "G", "D", "A"]),
    KeyRow("F#", "D#m", 1, ["F", "C", "G", "D", "A", "E"]),
    KeyRow("F", "Dm", -1, ["B"]),
    KeyRow("Bb", "Gm", -1, ["B", "E"]),
    KeyRow("Eb", "Cm", -1, ["B", "E", "A"]),
    KeyRow("Ab", "Fm", -1, ["B", "E", "A", "D"]),
    KeyRow("Db", "Bbm", -1, ["B", "E", "A", "D", "G"]),
    KeyRow("Gb", "Ebm", -1, ["B", "E", "A", "D", "G", "C"])
  ]

  /** The order in which sharps and flats are added to a signature. */
  const SharpOrder: seq<string> := ["F", "C", "G", "D", "A", "E"]
  const FlatOrder: seq<string> := ["B", "E", "A", "D", "G", "C"]

  /** The table row registered under a name, or -1. */
  function RowIndex(name: string): (r: int)
    ensures -1 <= r < |KeyTable|
    ensures r >= 0 ==> name == KeyTable[r].majorName || name == KeyTable[r].minorName
  {
    match name
    case "C" | "Am" => 0
    case "G" | "Em" => 1
    case "D" | "Bm" => 2
    case "A" | "F#m" => 3
    case "E" | "C#m" => 4
    case "B" | "G#m" => 5
    case "F#" | "D#m" => 6
    case "F" | "Dm" => 7
    case "Bb" | "Gm" => 8
    case "Eb" | "Cm" => 9
    case "Ab" | "Fm" => 10
    case "Db" | "Bbm" => 11
    case "Gb" | "Ebm" => 12
    case _ => -1
  }

  function KeyOf(row: KeyRow): Key
    requires row in KeyTable
  {
    KeyFrom(row.direction, row.notesWithAccidentals, row.majorName)
  }

  /** `Key.lookup`: the key registered under a name, or null. */
  function Lookup(name: string): (r: Option<Key>)
    ensures r.Some? <==> RowIndex(name) >= 0
  {
    var i := RowIndex(name);
    if i < 0 then None else Some(KeyOf(KeyTable[i]))
  }

  // ---------------------------------------------------------------------
  // Properties

  /** The shape of the table: sharp keys add sharps in the order F C G D A E,
      flat keys add flats in the order B E A D G C, and C has neither. */
  lemma TableRowShapes()
    ensures KeyTable[0] == KeyRow("C", "Am", 1, [])
    ensures forall i :: 0 <= i < |KeyTable| ==>
              var row := KeyTable[i];
              (row.direction == 1 && row.notesWithAccidentals == SharpOrder[..|row.notesWithAccidentals|]) ||
              (row.direction == -1 && 1 <= |row.notesWithAccidentals| &&
               row.notesWithAccidentals == FlatOrder[..|row.notesWithAccidentals|])
  {
  }

  /** A major name and its relative minor name find the same key, which prints as the major name. */
  lemma MajorAndMinorShareKey(i: int)
    requires 0 <= i < |KeyTable|
    ensures Lookup(KeyTable[i].majorName) == Lookup(KeyTable[i].minorName) == Some(KeyOf(KeyTable[i]))
    ensures KeyOf(KeyTable[i]).ToString() == KeyTable[i].majorName
  {
    RowIndexOfOwnNames(i);
  }

  /** Each row is found under both of its names. */
  lemma RowIndexOfOwnNames(i: int)
    requires 0 <= i < |KeyTable|
    ensures RowIndex(KeyTable[i].majorName) == i && RowIndex(KeyTable[i].minorName) == i
  {
    if i < 4 {
      assert i == 0 || i == 1 || i == 2 || i == 3;
    } else if i < 8 {
      assert i == 4 || i == 5 || i == 6 || i == 7;
    } else {
      assert i == 8 || i == 9 || i == 10 || i == 11 || i == 12;
    }
  }

  /** Names outside the 26 registered ones find no key. */
  lemma LookupUnregistered(name: string)
    requires forall i :: 0 <= i < |KeyTable| ==> name != KeyTable[i].majorName && name != KeyTable[i].minorName
    ensures Lookup(name) == None
  {
  }

  /** The accidental of a letter is the key's direction if the key lists it, else 0. */
  lemma AccidentalOfLetter(direction: int, notesWithAccidentals: seq<string>, majorName: string, note: string)
    ensures KeyFrom(direction, notesWithAccidentals, majorName).GetAccidentalForNote(note) ==
            if note in notesWithAccidentals then direction else 0
  {
  }

  /**
   * The letters a signature alters never collide with its natural letters:
   * no sharp on B, and E sharp only after F; no flat on F, and C flat only
   * after B.
   */
  predicate NoEnharmonicClash(direction: int, notesWithAccidentals: seq<string>) {
    if direction == 1 then
      "B" !in notesWithAccidentals && ("E" in notesWithAccidentals ==> "F" in notesWithAccidentals)
    else
      "F" !in notesWithAccidentals && ("C" in notesWithAccidentals ==> "B" in notesWithAccidentals)
  }

  lemma TableHasNoClash(i: int)
    requires 0 <= i < |KeyTable|
    ensures NoEnharmonicClash(KeyTable[i].direction, KeyTable[i].notesWithAccidentals)
  {
  }

  /** The pitch class of a letter in a signature, and whether the signature alters it. */
  lemma KeyLetterPitchClass(direction: int, notesWithAccidentals: seq<string>, i: int)
    requires direction == 1 || direction == -1
    requires 0 <= i < |BaseNotes|
    ensures var shifted := LetterPitchClasses(AccidentalsOf(direction, notesWithAccidentals));
            var a := if BaseNotes[i] in notesWithAccidentals then direction else 0;
            shifted[i] == (NaturalPitchClasses[i] + a) % 12 &&
            (shifted[i] != NaturalPitchClasses[i] <==> BaseNotes[i] in notesWithAccidentals)
  {
    var a := if BaseNotes[i] in notesWithAccidentals then direction else 0;
    assert 0 <= NaturalPitchClasses[i] < 12 by { LetterNoteId(i); }
    WrapIsModulo(NaturalPitchClasses[i] + a);
  }

  /** Shifting two pitch classes by at most a semitone in the same direction
      keeps them apart, unless the lower moves onto the upper or around the octave. */
  lemma WrapApart(ni: int, nj: int, ai: int, aj: int, d: int)
    requires 0 <= ni < nj <= 11 && (d == 1 || d == -1)
    requires (ai == 0 || ai == d) && (aj == 0 || aj == d)
    requires nj == ni + 1 ==> !(d == 1 && ai == 1 && aj == 0) && !(d == -1 && ai == 0 && aj == -1)
    requires ni == 0 && nj == 11 ==> !(d == 1 && ai == 0 && aj == 1) && !(d == -1 && ai == -1 && aj == 0)
    ensures Wrap(ni + ai) != Wrap(nj + aj)
  {
  }

  /** Without a clash, two different letters have different pitch classes in the key. */
  lemma LetterPitchClassesDistinct(direction: int, notesWithAccidentals: seq<string>, i: int, j: int)
    requires direction == 1 || direction == -1
    requires NoEnharmonicClash(direction, notesWithAccidentals)
    requires 0 <= i < j < |BaseNotes|
    ensures var shifted := LetterPitchClasses(AccidentalsOf(direction, notesWithAccidentals));
            shifted[i] != shifted[j]
  {
    var ai := if BaseNotes[i] in notesWithAccidentals then direction else 0;
    var aj := if BaseNotes[j] in notesWithAccidentals then direction else 0;
    var ni := NaturalPitchClasses[i];
    var nj := NaturalPitchClasses[j];
    assert 0 <= ni < nj <= 11 by { assert NaturalPitchClasses == [0, 2, 4, 5, 7, 9, 11]; }
    if nj == ni + 1 {
      assert i == 2 && j == 3;
      assert BaseNotes[2] == "E" && BaseNotes[3] == "F";
    }
    if ni == 0 && nj == 11 {
      assert i == 0 && j == 6;
      assert BaseNotes[0] == "C" && BaseNotes[6] == "B";
    }
    WrapApart(ni, nj, ai, aj, direction);
  }

  /** A list without repetitions has as many distinct elements as entries. */
  lemma {:induction false} DistinctImageSize(s: seq<int>)
    requires forall a, b :: 0 <= a < b < |s| ==> s[a] != s[b]
    ensures |ImageSet(s)| == |s|
    decreases |s|
  {
    if |s| > 0 {
      var k := |s| - 1;
      DistinctImageSize(s[..k]);
      ImageSetStep(s, k);
      assert s[..k + 1] == s;
      assert s[k] !in ImageSet(s[..k]);
    }
  }

  /** A key of a signature without a clash holds seven pitch classes: each
      letter moved by its accidental. */
  lemma SevenPitchClasses(direction: int, notesWithAccidentals: seq<string>, majorName: string)
    requires direction == 1 || direction == -1
    requires NoEnharmonicClash(direction, notesWithAccidentals)
    ensures var k := KeyFrom(direction, notesWithAccidentals, majorName);
            |k.notesInKey| == 7 &&
            k.notesInKey == set i | 0 <= i < |BaseNotes| ::
                              (NaturalPitchClasses[i] + k.GetAccidentalForNote(BaseNotes[i])) % 12
  {
    var acc := AccidentalsOf(direction, notesWithAccidentals);
    var shifted := LetterPitchClasses(acc);
    forall a, b | 0 <= a < b < |BaseNotes| ensures shifted[a] != shifted[b] {
      LetterPitchClassesDistinct(direction, notesWithAccidentals, a, b);
    }
    DistinctImageSize(shifted);
    forall i | 0 <= i < |BaseNotes|
      ensures shifted[i] == (NaturalPitchClasses[i] + AccidentalFor(acc, BaseNotes[i])) % 12
    {
      KeyLetterPitchClass(direction, notesWithAccidentals, i);
    }
  }

  /** The key notes of every registered key: seven pitch classes. */
  lemma RegisteredKeysHaveSevenNotes(i: int)
    requires 0 <= i < |KeyTable|
    ensures |KeyOf(KeyTable[i]).notesInKey| == 7
  {
    TableHasNoClash(i);
    SevenPitchClasses(KeyTable[i].direction, KeyTable[i].notesWithAccidentals, KeyTable[i].majorName);
  }

  /** The keys of the altered-note map are the shifted values that differ from the natural ones. */
  lemma {:induction false} AlteredFoldDomain(shifted: seq<int>, natural: seq<int>, p: int)
    requires |shifted| == |natural|
    ensures p in AlteredFold(shifted, natural) <==>
            exists i :: 0 <= i < |shifted| && shifted[i] != natural[i] && p == shifted[i]
    decreases |shifted|
  {
    if |shifted| > 0 {
      var k := |shifted| - 1;
      AlteredFoldDomain(shifted[..k], natural[..k], p);
      if p in AlteredFold(shifted[..k], natural[..k]) {
        var i :| 0 <= i < k && shifted[..k][i] != natural[..k][i] && p == shifted[..k][i];
        assert shifted[i] != natural[i] && p == shifted[i];
      }
      if exists i :: 0 <= i < |shifted| && shifted[i] != natural[i] && p == shifted[i] {
        var i :| 0 <= i < |shifted| && shifted[i] != natural[i] && p == shifted[i];
        if i < k {
          assert shifted[..k][i] != natural[..k][i] && p == shifted[..k][i];
        }
      }
    }
  }

  /** When the shifted values are distinct, each altered one maps to its own natural value. */
  lemma {:induction false} AlteredFoldValue(shifted: seq<int>, natural: seq<int>, i: int)
    requires |shifted| == |natural| && 0 <= i < |shifted|
    requires forall a, b :: 0 <= a < b < |shifted| ==> shifted[a] != shifted[b]
    requires shifted[i] != natural[i]
    ensures shifted[i] in AlteredFold(shifted, natural)
    ensures AlteredFold(shifted, natural)[shifted[i]] == natural[i]
    decreases |shifted|
  {
    var k := |shifted| - 1;
    if i < k {
      var s', n' := shifted[..k], natural[..k];
      assert s'[i] == shifted[i] && n'[i] == natural[i];
      assert forall a, b :: 0 <= a < b < |s'| ==> s'[a] != s'[b] by {
        assert forall a :: 0 <= a < |s'| ==> s'[a] == shifted[a];
      }
      AlteredFoldValue(s', n', i);
      assert shifted[i] != shifted[k];
    }
  }

  /**
   * The altered-note map of a signature without a clash sends each listed
   * letter's shifted pitch class to the letter's natural one, and has no
   * other entries.
   */
  lemma AlteredMapExact(direction: int, notesWithAccidentals: seq<string>, majorName: string)
    requires direction == 1 || direction == -1
    requires NoEnharmonicClash(direction, notesWithAccidentals)
    ensures var k := KeyFrom(direction, notesWithAccidentals, majorName);
            (forall i :: 0 <= i < |BaseNotes| && BaseNotes[i] in notesWithAccidentals ==>
               var p := (NaturalPitchClasses[i] + direction) % 12;
               p in k.accidentalNoteToBaseNote && k.accidentalNoteToBaseNote[p] == NaturalPitchClasses[i]) &&
            (forall p :: p in k.accidentalNoteToBaseNote ==>
               exists i :: 0 <= i < |BaseNotes| && BaseNotes[i] in notesWithAccidentals &&
                           p == (NaturalPitchClasses[i] + direction) % 12)
  {
    var acc := AccidentalsOf(direction, notesWithAccidentals);
    var shifted := LetterPitchClasses(acc);
    var k := KeyFrom(direction, notesWithAccidentals, majorName);
    forall a, b | 0 <= a < b < |BaseNotes| ensures shifted[a] != shifted[b] {
      LetterPitchClassesDistinct(direction, notesWithAccidentals, a, b);
    }
    forall i | 0 <= i < |BaseNotes| && BaseNotes[i] in notesWithAccidentals
      ensures var p := (NaturalPitchClasses[i] + direction) % 12;
              p in k.accidentalNoteToBaseNote && k.accidentalNoteToBaseNote[p] == NaturalPitchClasses[i]
    {
      KeyLetterPitchClass(direction, notesWithAccidentals, i);
      AlteredFoldValue(shifted, NaturalPitchClasses, i);
    }
    forall p | p in k.accidentalNoteToBaseNote
      ensures exists i :: 0 <= i < |BaseNotes| && BaseNotes[i] in notesWithAccidentals &&
                          p == (NaturalPitchClasses[i] + direction) % 12
    {
      AlteredFoldDomain(shifted, NaturalPitchClasses, p);
      var i :| 0 <= i < |BaseNotes| && shifted[i] != NaturalPitchClasses[i] && p == shifted[i];
      KeyLetterPitchClass(direction, notesWithAccidentals, i);
    }
  }

  /** In a key without a clash, the base note of each letter's key pitch class is the letter. */
  lemma BaseNoteOfKeyNote(direction: int, notesWithAccidentals: seq<string>, majorName: string, i: int)
    requires direction == 1 || direction == -1
    requires NoEnharmonicClash(direction, notesWithAccidentals)
    requires 0 <= i < |BaseNotes|
    ensures var k := KeyFrom(direction, notesWithAccidentals, majorName);
            k.GetBaseNote((NaturalPitchClasses[i] + k.GetAccidentalForNote(BaseNotes[i])) % 12) == NaturalPitchClasses[i]
  {
    var acc := AccidentalsOf(direction, notesWithAccidentals);
    var shifted := LetterPitchClasses(acc);
    forall a, b | 0 <= a < b < |BaseNotes| ensures shifted[a] != shifted[b] {
      LetterPitchClassesDistinct(direction, notesWithAccidentals, a, b);
    }
    KeyLetterPitchClass(direction, notesWithAccidentals, i);
    if shifted[i] != NaturalPitchClasses[i] {
      AlteredFoldValue(shifted, NaturalPitchClasses, i);
    } else {
      AlteredFoldDomain(shifted, NaturalPitchClasses, shifted[i]);
      if shifted[i] in AlteredFold(shifted, NaturalPitchClasses) {
        var j :| 0 <= j < |shifted| && shifted[j] != NaturalPitchClasses[j] && shifted[i] == shifted[j];
        if j < i {
          LetterPitchClassesDistinct(direction, notesWithAccidentals, j, i);
        } else if i < j {
          LetterPitchClassesDistinct(direction, notesWithAccidentals, i, j);
        }
      }
    }
  }
}
