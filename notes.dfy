/**
 * Notes: an absolute (MIDI) pitch with a duration in eighth notes, the
 * canonical flat-spelled pitch-class names, and the ways a note is built
 * from a relative note and an octave or from a scientific name like "C4".
 */
module Notes {
  import opened JavaLang

  /** A note. Two notes are equal exactly when pitch and duration agree. */
  datatype Note = Note(midi: int, duration: int)
  {
    /** The pitch class, with Java's remainder (negative below MIDI 0). */
    function RelativeNote(): int {
      JavaRem(midi, 12)
    }

    /** The octave in scientific notation, so that C4 is middle C (MIDI 60). */
    function Octave(): int {
      JavaDiv(midi, 12) - 1
    }

    /** The note `offset` semitones higher (lower when negative), same duration. */
    function Add(offset: int): Note {
      Note(midi + offset, duration)
    }

    /** The distance to another note in semitones, ignoring direction. */
    function AbsoluteDistance(other: Note): (r: int)
      ensures r >= 0
      ensures r == 0 <==> midi == other.midi
      ensures r == midi - other.midi || r == other.midi - midi
    {
      if midi >= other.midi then midi - other.midi else other.midi - midi
    }
  }

  /** The twelve pitch-class names, spelled with flats. */
  const NoteNames: seq<string> := ["C", "Db", "D", "Eb", "E", "F", "Gb", "G", "Ab", "A", "Bb", "B"]

  /** The canonical name of a pitch class; a list index out of range throws. */
  function NoteName(relativeNote: int): (r: Result<string>)
    ensures r.Ok? <==> 0 <= relativeNote < 12
    ensures r.Ok? ==> r.value == NoteNames[relativeNote]
  {
    if 0 <= relativeNote < |NoteNames| then Ok(NoteNames[relativeNote]) else Err(IndexOutOfBounds)
  }

  /** The pitch class of a canonical name (its position in the list
      of names), or -1 for any other string. */
  function NoteId(noteName: string): (r: int)
    ensures -1 <= r < 12
    ensures r >= 0 ==> NoteNames[r] == noteName
    ensures r == -1 <==> noteName !in NoteNames
  {
    if |noteName| == 1 then
      match noteName[0]
      case 'C' => 0
      case 'D' => 2
      case 'E' => 4
      case 'F' => 5
      case 'G' => 7
      case 'A' => 9
      case 'B' => 11
      case _ => -1
    else if |noteName| == 2 && noteName[1] == 'b' then
      match noteName[0]
      case 'D' => 1
      case 'E' => 3
      case 'G' => 6
      case 'A' => 8
      case 'B' => 10
      case _ => -1
    else -1
  }

  /** The note in the given octave whose relative note is `relativeNote`. */
  function CreateInOctave(relativeNote: int, octave: int, duration: int): (r: Note)
    ensures r.duration == duration
  {
    Note(12 * (octave + 1) + relativeNote, duration)
  }

  /** A relative note and an octave in range are the ones the note has. */
  lemma CreateInOctaveParts(relativeNote: int, octave: int, duration: int)
    requires 0 <= relativeNote < 12 && octave >= -1
    ensures var r := CreateInOctave(relativeNote, octave, duration);
            r.RelativeNote() == relativeNote && r.Octave() == octave
  {
    var m := 12 * (octave + 1) + relativeNote;
    assert m / 12 == octave + 1 && m % 12 == relativeNote;
  }

  /** As above, with the relative note given by its canonical name;
      an unknown name counts as relative note -1. */
  function CreateNamed(relativeNote: string, octave: int, duration: int): (r: Note)
    ensures r.duration == duration
  {
    CreateInOctave(NoteId(relativeNote), octave, duration)
  }

  /** A known name in an octave from -1 up gives a note with that relative
      note and octave; an unknown name gives the B below the octave. */
  lemma CreateNamedParts(relativeNote: string, octave: int, duration: int)
    ensures var r := CreateNamed(relativeNote, octave, duration);
            NoteId(relativeNote) >= 0 && octave >= -1 ==> r.RelativeNote() == NoteId(relativeNote) && r.Octave() == octave
    ensures NoteId(relativeNote) == -1 ==> CreateNamed(relativeNote, octave, duration).midi == 12 * (octave + 1) - 1
  {
    if NoteId(relativeNote) >= 0 && octave >= -1 {
      CreateInOctaveParts(NoteId(relativeNote), octave, duration);
    }
  }

  /** The number of ASCII letters at the start of `s`. */
  function LeadingLetters(s: string): (k: nat)
    ensures k <= |s| && AllLetters(s[..k])
    ensures k < |s| ==> !IsAsciiLetter(s[k])
    decreases |s|
  {
    if |s| > 0 && IsAsciiLetter(s[0]) then
      var k := LeadingLetters(s[1..]);
      assert s[..k + 1] == [s[0]] + s[1..][..k];
      k + 1
    else 0
  }

  /** `s` matches `([A-Za-z]+)([0-9]+)` with the groups split at `k`. */
  predicate MatchesAt(s: string, k: int) {
    0 < k < |s| && AllLetters(s[..k]) && AllDigits(s[k..])
  }

  /**
   * A note from its scientific name such as "G3": a run of letters naming
   * the relative note, then the octave in decimal digits. Any other string
   * yields no note (null).
   */
  function FromScientific(noteWithOctave: string, duration: int): (r: Option<Note>)
    ensures r.Some? <==> exists k :: MatchesAt(noteWithOctave, k)
  {
    var k := LeadingLetters(noteWithOctave);
    if MatchesAt(noteWithOctave, k) then
      Some(CreateNamed(noteWithOctave[..k], DigitsValue(noteWithOctave[k..]), duration))
    else
      assert forall j :: MatchesAt(noteWithOctave, j) ==> j == k by {
        forall j | MatchesAt(noteWithOctave, j) ensures j == k {
          MatchSplitIsLetterRun(noteWithOctave, j);
        }
      }
      None
  }

  /** A match determines the note: the letters name the relative note and
      the digits give the octave. */
  lemma FromScientificGroups(noteWithOctave: string, k: int, duration: int)
    requires MatchesAt(noteWithOctave, k)
    ensures FromScientific(noteWithOctave, duration) ==
            Some(CreateNamed(noteWithOctave[..k], DigitsValue(noteWithOctave[k..]), duration))
  {
    MatchSplitIsLetterRun(noteWithOctave, k);
  }

  /** Letters and digits are disjoint, so a match can only split after the
      leading run of letters. */
  lemma MatchSplitIsLetterRun(s: string, j: int)
    requires MatchesAt(s, j)
    ensures j == LeadingLetters(s)
  {
    LeadingLettersExact(s, j);
  }

  lemma {:induction false} LeadingLettersExact(s: string, j: int)
    requires 0 <= j <= |s| && AllLetters(s[..j])
    requires j < |s| ==> !IsAsciiLetter(s[j])
    ensures LeadingLetters(s) == j
    decreases j
  {
    if j > 0 {
      assert IsAsciiLetter(s[0]) by { assert s[..j][0] == s[0]; }
      assert s[1..][..j - 1] == s[..j][1..];
      LeadingLettersExact(s[1..], j - 1);
    }
  }

  /** `Note.toString`: canonical name, octave, a colon and the duration;
      the name lookup throws for a negative relative note. */
  function NoteToString(n: Note): (r: Result<string>)
    ensures r.Ok? <==> n.RelativeNote() >= 0
  {
    var name :- NoteName(n.RelativeNote());
    Ok(name + IntToString(n.Octave()) + ":" + IntToString(n.duration))
  }

  // ---------------------------------------------------------------------
  // Properties

  /** Every canonical name is found again at its own position. */
  lemma NoteIdOfNoteName(i: int)
    requires 0 <= i < 12
    ensures NoteId(NoteNames[i]) == i
  {
    var s := NoteNames;
    assert s[0] != s[1] && s[0] != s[2] && s[0] != s[3] && s[0] != s[4] && s[0] != s[5];
    assert forall a, b :: 0 <= a < b < 12 ==> s[a] != s[b];
  }

  /** Sharp spellings are not canonical names. */
  lemma SharpNamesUnknown()
    ensures NoteId("C#") == -1 && NoteId("F#") == -1 && NoteId("") == -1
  {
    assert "C#" !in NoteNames && "F#" !in NoteNames && "" !in NoteNames;
  }

  /** Relative note and octave recover the parts a note was built from. */
  lemma CreateInOctaveRoundTrip(n: Note)
    requires n.midi >= 0
    ensures CreateInOctave(n.RelativeNote(), n.Octave(), n.duration) == n
  {
  }

  /** Distance is symmetric and shifting both notes keeps it. */
  lemma AbsoluteDistanceSymmetric(a: Note, b: Note, k: int)
    ensures a.AbsoluteDistance(b) == b.AbsoluteDistance(a)
    ensures a.Add(k).AbsoluteDistance(b.Add(k)) == a.AbsoluteDistance(b)
  {
  }

  /** Shifting composes, and a shift by whole octaves moves only the octave. */
  lemma {:induction false} AddOctaves(n: Note, octaves: nat)
    requires n.midi >= 0
    ensures n.Add(12 * octaves).RelativeNote() == n.RelativeNote()
    ensures n.Add(12 * octaves).Octave() == n.Octave() + octaves
    ensures n.Add(12 * octaves).Add(-12 * octaves) == n
  {
    var m := n.midi;
    assert (m + 12 * octaves) / 12 == m / 12 + octaves;
    assert (m + 12 * octaves) % 12 == m % 12;
  }

  /** Each canonical name is one or two letters. */
  lemma NoteNameShape(i: int)
    requires 0 <= i < 12
    ensures 1 <= |NoteNames[i]| <= 2 && AllLetters(NoteNames[i])
  {
  }

  /** The scientific name of every note from octave 0 up reads back as that note. */
  lemma ScientificRoundTrip(n: Note)
    requires n.midi >= 12
    ensures var name := NoteNames[n.RelativeNote()] + NatToString(n.Octave());
            FromScientific(name, n.duration) == Some(n)
  {
    var pc := n.RelativeNote();
    var letters := NoteNames[pc];
    var digits := NatToString(n.Octave());
    var s := letters + digits;
    NoteNameShape(pc);
    assert s[..|letters|] == letters && s[|letters|..] == digits;
    assert MatchesAt(s, |letters|);
    FromScientificGroups(s, |letters|, n.duration);
    NatToStringRoundTrip(n.Octave());
    NoteIdOfNoteName(pc);
    CreateNamedOfOwnName(n);
  }

  lemma CreateNamedOfOwnName(n: Note)
    requires n.midi >= 0
    ensures CreateNamed(NoteNames[n.RelativeNote()], n.Octave(), n.duration) == n
  {
    NoteIdOfNoteName(n.RelativeNote());
    JavaRemOfNatural(n.midi, 12);
  }

  /** A name of one letter and one octave digit denotes the note it spells. */
  lemma OneDigitScientific(i: int, octave: int)
    requires 0 <= i < 12 && 0 <= octave <= 9
    ensures FromScientific(NoteNames[i] + [DigitChar(octave)], 0) == Some(Note(12 * (octave + 1) + i, 0))
  {
    var n := Note(12 * (octave + 1) + i, 0);
    assert n.RelativeNote() == i && n.Octave() == octave;
    NatToStringOneDigit(octave);
    ScientificRoundTrip(n);
  }

  /** Strings that are not letters followed by digits give no note. */
  lemma MalformedScientificNames()
    ensures FromScientific("C", 0).None?
    ensures FromScientific("4", 0).None?
    ensures FromScientific("C#4", 0).None?
  {
    assert !IsAsciiLetter("4"[0]);
    assert !IsAsciiDigit("C#4"[1..][0]);
  }
}
