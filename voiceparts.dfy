/**
 * The four barbershop voice parts with their singing ranges, and the
 * candidate notes a part can sing for a given set of pitch classes.
 */
module VoiceParts {
  import opened JavaLang
  import opened Notes

  /** A voice part: its name and its lowest and highest singable notes. */
  datatype VoicePart = VoicePart(name: string, lowLimit: Note, highLimit: Note)

  /** Part indices: tenor, lead, baritone and bass. */
  const Tenor := 0
  const Lead := 1
  const Bari := 2
  const Bass := 3

  /** The parts in index order: G3-B4, C3-G4, C3-G4 and F2-C4. */
  const VoicePartTable: seq<VoicePart> := [
    VoicePart("Tenor", Note(55, 0), Note(71, 0)),
    VoicePart("Lead", Note(48, 0), Note(67, 0)),
    VoicePart("Baritone", Note(48, 0), Note(67, 0)),
    VoicePart("Bass", Note(41, 0), Note(60, 0))
  ]

  /** The abbreviations under which the parts are printed. */
  const PartNames: seq<string> := ["Tn", "Ld", "Br", "Bs"]

  /** The absolute pitches of a list of notes. */
  function Pitches(notes: seq<Note>): set<int> {
    set i | 0 <= i < |notes| :: notes[i].midi
  }

  /** The pitches within the part's range whose pitch class is one of `relativeNotes`. */
  function PitchesInRange(part: VoicePart, relativeNotes: set<int>): set<int> {
    set p | part.lowLimit.midi <= p <= part.highLimit.midi && JavaRem(p, 12) in relativeNotes
  }

  predicate StrictlyAscending(notes: seq<Note>) {
    forall i, j :: 0 <= i < j < |notes| ==> notes[i].midi < notes[j].midi
  }

  /**
   * All notes in the part's range whose pitch class is in `relativeNotes`,
   * from low to high, each with the given duration.
   */
  method GetNotesInRange(part: VoicePart, relativeNotes: set<int>, duration: int)
    returns (notesForPart: seq<Note>)
    ensures Pitches(notesForPart) == PitchesInRange(part, relativeNotes)
    ensures StrictlyAscending(notesForPart)
    ensures forall i :: 0 <= i < |notesForPart| ==> notesForPart[i].duration == duration
  {
    var low, high := part.lowLimit.midi, part.highLimit.midi;
    notesForPart := [];
    var absoluteNote := low;
    while absoluteNote <= high
      invariant absoluteNote == low || low <= absoluteNote <= high + 1
      invariant Pitches(notesForPart) == set p | low <= p < absoluteNote && JavaRem(p, 12) in relativeNotes
      invariant forall i :: 0 <= i < |notesForPart| ==>
                  notesForPart[i].midi < absoluteNote && notesForPart[i].duration == duration
      invariant StrictlyAscending(notesForPart)
      decreases high - absoluteNote
    {
      if JavaRem(absoluteNote, 12) in relativeNotes {
        var n := Note(absoluteNote, duration);
        assert Pitches(notesForPart + [n]) == Pitches(notesForPart) + {absoluteNote} by {
          var ns := notesForPart + [n];
          forall x | x in Pitches(ns) ensures x in Pitches(notesForPart) + {absoluteNote} {
            var i :| 0 <= i < |ns| && ns[i].midi == x;
            if i < |notesForPart| { assert notesForPart[i].midi == x; }
          }
          forall x | x in Pitches(notesForPart) ensures x in Pitches(ns) {
            var i :| 0 <= i < |notesForPart| && notesForPart[i].midi == x;
            assert ns[i].midi == x;
          }
          assert ns[|notesForPart|].midi == absoluteNote;
        }
        notesForPart := notesForPart + [n];
      }
      absoluteNote := absoluteNote + 1;
    }
  }

  /** Every part's range is non-empty, and the lead and baritone share one. */
  lemma RangesOrdered()
    ensures forall p :: 0 <= p < 4 ==>
              VoicePartTable[p].lowLimit.midi < VoicePartTable[p].highLimit.midi
    ensures VoicePartTable[Lead].lowLimit == VoicePartTable[Bari].lowLimit
    ensures VoicePartTable[Lead].highLimit == VoicePartTable[Bari].highLimit
  {
  }

  /** A part's pitches for a pitch-class set are contained in its pitches for a larger set. */
  lemma PitchesInRangeMonotone(part: VoicePart, small: set<int>, large: set<int>)
    requires small <= large
    ensures PitchesInRange(part, small) <= PitchesInRange(part, large)
  {
  }

  /** Within a range of at least an octave, every requested pitch class of 0..11 occurs. */
  lemma EveryPitchClassInOctaveRange(part: VoicePart, relativeNotes: set<int>, pc: int)
    requires 0 <= part.lowLimit.midi && part.highLimit.midi - part.lowLimit.midi >= 11
    requires 0 <= pc < 12 && pc in relativeNotes
    ensures exists p :: p in PitchesInRange(part, relativeNotes) && p % 12 == pc
  {
    var low := part.lowLimit.midi;
    var p := low + (pc - low % 12 + 12) % 12;
    assert p % 12 == pc;
    assert p in PitchesInRange(part, relativeNotes);
  }

  /** The scientific names of each part's lowest and highest note. */
  const LowNames: seq<string> := ["G3", "C3", "C3", "F2"]
  const HighNames: seq<string> := ["B4", "G4", "G4", "C4"]

  /** A two-character name whose letter is the canonical name `NoteNames[i]`. */
  lemma TwoCharacterName(name: string, i: int, octave: int)
    requires 0 <= i < 12 && 0 <= octave <= 9 && name == NoteNames[i] + [DigitChar(octave)]
    ensures FromScientific(name, 0) == Some(Note(12 * (octave + 1) + i, 0))
  {
    OneDigitScientific(i, octave);
  }

  /** Each part's range limits are the notes their scientific names denote. */
  lemma LimitNamesDenoteLimits(p: int)
    requires 0 <= p < 4
    ensures FromScientific(LowNames[p], 0) == Some(VoicePartTable[p].lowLimit)
    ensures FromScientific(HighNames[p], 0) == Some(VoicePartTable[p].highLimit)
  {
    LowNameDenotesLimit(p);
    HighNameDenotesLimit(p);
  }

  lemma LowNameDenotesLimit(p: int)
    requires 0 <= p < 4
    ensures FromScientific(LowNames[p], 0) == Some(VoicePartTable[p].lowLimit)
  {
    if p == Tenor {
      TwoCharacterName(LowNames[p], 7, 3);
    } else if p == Lead || p == Bari {
      TwoCharacterName(LowNames[p], 0, 3);
    } else {
      TwoCharacterName(LowNames[p], 5, 2);
    }
  }

  lemma HighNameDenotesLimit(p: int)
    requires 0 <= p < 4
    ensures FromScientific(HighNames[p], 0) == Some(VoicePartTable[p].highLimit)
  {
    if p == Tenor {
      TwoCharacterName(HighNames[p], 11, 4);
    } else if p == Lead || p == Bari {
      TwoCharacterName(HighNames[p], 7, 4);
    } else {
      TwoCharacterName(HighNames[p], 0, 4);
    }
  }
}
