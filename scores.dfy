/**
 * A four-part score: one list of notes per voice part, the song's metadata
 * and a timeline of chord changes. Parts and chords only ever grow at the
 * end; the chord sounding at a time is the last change at or before it.
 */
module Scores {
  import opened JavaLang
  import opened Notes
  import opened Chords
  import opened VoiceParts

  /** A chord change: the onset in eighth notes and the chord from then on. */
  datatype ChordChange = ChordChange(startTime: int, chord: Chord)

  // ---------------------------------------------------------------------
  // The chord timeline

  /** Position `i` is the change sounding at `time`: it has started, and
      it is the last change or the next one starts after `time`. */
  predicate IsChordIndex(chords: seq<ChordChange>, time: int, i: int) {
    0 <= i < |chords| && chords[i].startTime <= time &&
    (i + 1 == |chords| || chords[i + 1].startTime > time)
  }

  /** The first position from `k` on that is the change sounding at `time`. */
  function ChordIndexFrom(chords: seq<ChordChange>, time: int, k: nat): (r: Option<nat>)
    requires k <= |chords|
    ensures r.Some? ==> k <= r.value < |chords|
    decreases |chords| - k
  {
    if k == |chords| then None
    else if IsChordIndex(chords, time, k) then Some(k)
    else ChordIndexFrom(chords, time, k + 1)
  }

  /** The chord sounding at `time`, or none (null). */
  function ChordAtTime(chords: seq<ChordChange>, time: int): Option<Chord> {
    match ChordIndexFrom(chords, time, 0)
    case None => None
    case Some(i) => Some(chords[i].chord)
  }

  /** The onset of melody note `pos`, in eighths: the durations before it. */
  function Onset(melody: seq<Note>, pos: nat): int
    requires pos <= |melody|
  {
    if pos == 0 then 0 else Onset(melody, pos - 1) + melody[pos - 1].duration
  }

  /** The chord sounding when melody note `pos` starts. */
  function OnsetChord(melody: seq<Note>, chords: seq<ChordChange>, pos: nat): Option<Chord>
    requires pos <= |melody|
  {
    ChordAtTime(chords, Onset(melody, pos))
  }

  lemma OnsetStep(melody: seq<Note>, pos: nat)
    requires pos < |melody|
    ensures Onset(melody, pos + 1) == Onset(melody, pos) + melody[pos].duration
  {
  }

  /** Onsets never decrease along the timeline. */
  predicate OnsetsSorted(chords: seq<ChordChange>) {
    forall i, j :: 0 <= i < j < |chords| ==> chords[i].startTime <= chords[j].startTime
  }

  /** The search from `k` finds the first sounding position at or after `k`. */
  lemma {:induction false} ChordIndexFromFirst(chords: seq<ChordChange>, time: int, k: nat)
    requires k <= |chords|
    ensures ChordIndexFrom(chords, time, k).Some? ==>
              IsChordIndex(chords, time, ChordIndexFrom(chords, time, k).value)
    ensures forall j :: k <= j < |chords| && IsChordIndex(chords, time, j) ==>
              ChordIndexFrom(chords, time, k).Some? && ChordIndexFrom(chords, time, k).value <= j
    decreases |chords| - k
  {
    if k < |chords| && !IsChordIndex(chords, time, k) {
      ChordIndexFromFirst(chords, time, k + 1);
    }
  }

  /** There is a chord at `time` exactly when some position is sounding
      then, and the chord is that of the first such position. */
  lemma ChordAtTimeMeaning(chords: seq<ChordChange>, time: int)
    ensures ChordAtTime(chords, time).Some? <==> exists i :: IsChordIndex(chords, time, i)
    ensures ChordAtTime(chords, time).Some? ==>
              exists i :: IsChordIndex(chords, time, i) &&
                (forall j :: 0 <= j < i ==> !IsChordIndex(chords, time, j)) &&
                ChordAtTime(chords, time).value == chords[i].chord
  {
    ChordIndexFromFirst(chords, time, 0);
    var r := ChordIndexFrom(chords, time, 0);
    if r.Some? {
      assert IsChordIndex(chords, time, r.value);
    }
  }

  /** With sorted onsets, every change after a sounding one starts later. */
  lemma LaterChangesStartLater(chords: seq<ChordChange>, time: int, j: int, k: int)
    requires OnsetsSorted(chords) && IsChordIndex(chords, time, j)
    requires j < k < |chords|
    ensures chords[k].startTime > time
  {
    assert chords[j + 1].startTime <= chords[k].startTime;
  }

  /** With sorted onsets, the chord is the same throughout each interval from
      one onset up to the next (the last change lasts for ever). */
  lemma ChordOnInterval(chords: seq<ChordChange>, i: int, time: int)
    requires OnsetsSorted(chords)
    requires 0 <= i < |chords| && chords[i].startTime <= time
    requires i + 1 == |chords| || time < chords[i + 1].startTime
    ensures ChordAtTime(chords, time) == Some(chords[i].chord)
  {
    ChordIndexFromFirst(chords, time, 0);
    assert IsChordIndex(chords, time, i);
    var j := ChordIndexFrom(chords, time, 0).value;
    forall k | j < k < |chords|
      ensures chords[k].startTime > time
    {
      LaterChangesStartLater(chords, time, j, k);
    }
  }

  /** With sorted onsets there is no chord before the first onset, and none
      at all without chords. */
  lemma NoChordBeforeFirstOnset(chords: seq<ChordChange>, time: int)
    requires OnsetsSorted(chords)
    requires |chords| == 0 || time < chords[0].startTime
    ensures ChordAtTime(chords, time).None?
  {
    ChordIndexFromFirst(chords, time, 0);
    forall k | 0 < k < |chords|
      ensures chords[k].startTime > time
    {
      assert chords[0].startTime <= chords[k].startTime;
    }
  }

  // ---------------------------------------------------------------------
  // Printing

  /** A note can be printed when its relative note names a pitch class,
      that is, when `NoteToString` does not throw. */
  predicate Printable(n: Note) {
    n.RelativeNote() >= 0
  }

  /** The notes of one part, each preceded by a space; the first note that
      cannot be printed throws. */
  function PartText(notes: seq<Note>): (r: Result<string>)
    ensures r.Err? ==> r.error == IndexOutOfBounds
    decreases |notes|
  {
    if |notes| == 0 then Ok("")
    else
      var init :- PartText(notes[..|notes| - 1]);
      var last :- NoteToString(notes[|notes| - 1]);
      Ok(init + " " + last)
  }

  /** The first `k` part lines: abbreviation, colon, notes, newline. */
  function PartLines(parts: seq<seq<Note>>, k: nat): (r: Result<string>)
    requires k <= |parts| <= 4
    ensures r.Err? ==> r.error == IndexOutOfBounds
  {
    if k == 0 then Ok("")
    else
      var init :- PartLines(parts, k - 1);
      var line :- PartText(parts[k - 1]);
      Ok(init + PartNames[k - 1] + ":" + line + "\n")
  }

  /** `toString` of a score: its four part lines. */
  function ScoreText(parts: seq<seq<Note>>): Result<string>
    requires |parts| == 4
  {
    PartLines(parts, 4)
  }

  predicate AllPrintable(notes: seq<Note>) {
    forall i :: 0 <= i < |notes| ==> Printable(notes[i])
  }

  /** A part prints exactly when each of its notes does. */
  lemma {:induction false} PartTextOk(notes: seq<Note>)
    ensures PartText(notes).Ok? <==> AllPrintable(notes)
    decreases |notes|
  {
    if |notes| > 0 {
      PartTextOk(notes[..|notes| - 1]);
      PartTextSnoc(notes);
      AllPrintableSnoc(notes);
    }
  }

  lemma PartTextSnoc(notes: seq<Note>)
    requires |notes| > 0
    ensures PartText(notes).Ok? <==> PartText(notes[..|notes| - 1]).Ok? && Printable(notes[|notes| - 1])
  {
  }

  lemma AllPrintableSnoc(notes: seq<Note>)
    requires |notes| > 0
    ensures AllPrintable(notes) <==> AllPrintable(notes[..|notes| - 1]) && Printable(notes[|notes| - 1])
  {
    assert forall i :: 0 <= i < |notes| - 1 ==> notes[..|notes| - 1][i] == notes[i];
  }

  /** A note that cannot be printed makes its whole part throw. */
  lemma {:induction false} PartTextFailsFrom(notes: seq<Note>, i: nat)
    requires i < |notes| && PartText(notes[..i + 1]).Err?
    ensures PartText(notes).Err?
    decreases |notes|
  {
    if i + 1 < |notes| {
      assert notes[..|notes| - 1][..i + 1] == notes[..i + 1];
      PartTextFailsFrom(notes[..|notes| - 1], i);
    } else {
      assert notes[..i + 1] == notes;
    }
  }

  /** A part that throws makes all later line prefixes throw. */
  lemma {:induction false} PartLinesFailFrom(parts: seq<seq<Note>>, p: nat, k: nat)
    requires p < k <= |parts| <= 4 && PartText(parts[p]).Err?
    ensures PartLines(parts, k).Err?
    decreases k
  {
    if p + 1 < k {
      PartLinesFailFrom(parts, p, k - 1);
    }
  }

  lemma PartLinesStep(parts: seq<seq<Note>>, k: nat)
    requires 0 < k <= |parts| <= 4
    ensures PartLines(parts, k).Ok? <==> PartLines(parts, k - 1).Ok? && PartText(parts[k - 1]).Ok?
  {
  }

  /** A score prints exactly when every part does, that is (by `PartTextOk`)
      when every note of every part does. */
  lemma ScoreTextOk(parts: seq<seq<Note>>)
    requires |parts| == 4
    ensures ScoreText(parts).Ok? <==>
              PartText(parts[0]).Ok? && PartText(parts[1]).Ok? && PartText(parts[2]).Ok? && PartText(parts[3]).Ok?
  {
    PartLinesStep(parts, 1);
    PartLinesStep(parts, 2);
    PartLinesStep(parts, 3);
    PartLinesStep(parts, 4);
  }

  // ---------------------------------------------------------------------
  // The score

  class Score {
    /** The notes of tenor, lead, baritone and bass, in time order. */
    var parts: seq<seq<Note>>
    var key: string
    var title: string
    var composer: string
    var quartersPerMeasure: int
    /** The chord changes in the order they were added. */
    var chords: seq<ChordChange>

    /** There are always exactly four parts. */
    predicate Valid()
      reads this
    {
      |parts| == 4
    }

    /** A score with the given metadata, four empty parts and no chords. */
    constructor (title: string, composer: string, key: string, quartersPerMeasure: int)
      ensures Valid()
      ensures parts == [[], [], [], []] && chords == []
      ensures this.title == title && this.composer == composer && this.key == key
      ensures this.quartersPerMeasure == quartersPerMeasure
    {
      this.title := title;
      this.composer := composer;
      this.key := key;
      this.quartersPerMeasure := quartersPerMeasure;
      parts := [[], [], [], []];
      chords := [];
    }

    /** Append a note to one part; a part index outside 0..3 throws and
        changes nothing. */
    method AddNote(part: int, note: Note) returns (r: Result<()>)
      requires Valid()
      modifies this
      ensures Valid()
      ensures r.Ok? <==> 0 <= part < 4
      ensures r.Ok? ==> parts == old(parts)[part := old(parts)[part] + [note]]
      ensures r.Err? ==> parts == old(parts)
      ensures chords == old(chords) && key == old(key) && title == old(title)
      ensures composer == old(composer) && quartersPerMeasure == old(quartersPerMeasure)
    {
      if 0 <= part < 4 {
        parts := parts[part := parts[part] + [note]];
        r := Ok(());
      } else {
        r := Err(IndexOutOfBounds);
      }
    }

    /** The notes of one part; an index outside 0..3 throws. */
    function GetPart(part: int): (r: Result<seq<Note>>)
      reads this
      requires Valid()
      ensures r.Ok? <==> 0 <= part < 4
      ensures r.Ok? ==> r.value == parts[part]
    {
      if 0 <= part < 4 then Ok(parts[part]) else Err(IndexOutOfBounds)
    }

    method SetKey(key: string)
      modifies this
      ensures this.key == key
      ensures parts == old(parts) && chords == old(chords) && title == old(title)
      ensures composer == old(composer) && quartersPerMeasure == old(quartersPerMeasure)
    {
      this.key := key;
    }

    method SetTitle(title: string)
      modifies this
      ensures this.title == title
      ensures parts == old(parts) && chords == old(chords) && key == old(key)
      ensures composer == old(composer) && quartersPerMeasure == old(quartersPerMeasure)
    {
      this.title := title;
    }

    method SetComposer(composer: string)
      modifies this
      ensures this.composer == composer
      ensures parts == old(parts) && chords == old(chords) && key == old(key)
      ensures title == old(title) && quartersPerMeasure == old(quartersPerMeasure)
    {
      this.composer := composer;
    }

    method SetQuartersPerMeasure(quartersPerMeasure: int)
      modifies this
      ensures this.quartersPerMeasure == quartersPerMeasure
      ensures parts == old(parts) && chords == old(chords) && key == old(key)
      ensures title == old(title) && composer == old(composer)
    {
      this.quartersPerMeasure := quartersPerMeasure;
    }

    /** Append a chord change at the end of the timeline. */
    method AddChord(startTime: int, chord: Chord)
      modifies this
      ensures chords == old(chords) + [ChordChange(startTime, chord)]
      ensures parts == old(parts) && key == old(key) && title == old(title)
      ensures composer == old(composer) && quartersPerMeasure == old(quartersPerMeasure)
    {
      chords := chords + [ChordChange(startTime, chord)];
    }

    /** The chord sounding at `time`: the first change that has started and
        is not yet followed by a started one. */
    method GetChordAtTime(time: int) returns (r: Option<Chord>)
      ensures r == ChordAtTime(chords, time)
    {
      var i := 0;
      while i < |chords|
        invariant 0 <= i <= |chords|
        invariant ChordIndexFrom(chords, time, 0) == ChordIndexFrom(chords, time, i)
      {
        if chords[i].startTime <= time && (i + 1 == |chords| || chords[i + 1].startTime > time) {
          return Some(chords[i].chord);
        }
        i := i + 1;
      }
      return None;
    }

    /** The four part lines "Tn:", "Ld:", "Br:", "Bs:", each note preceded
        by a space and printed by `NoteToString`. */
    method ToString() returns (r: Result<string>)
      requires Valid()
      ensures r == ScoreText(parts)
    {
      var buf := "";
      for p := 0 to 4
        invariant PartLines(parts, p) == Ok(buf)
      {
        var line := PartNotes(parts[p]);
        if line.Err? {
          PartLinesFailFrom(parts, p, 4);
          return Err(IndexOutOfBounds);
        }
        buf := buf + PartNames[p] + ":" + line.value + "\n";
      }
      return Ok(buf);
    }
  }

  /** The notes of one part, each preceded by a space. */
  method PartNotes(notes: seq<Note>) returns (r: Result<string>)
    ensures r == PartText(notes)
  {
    var line := "";
    for i := 0 to |notes|
      invariant PartText(notes[..i]) == Ok(line)
    {
      var s := NoteToString(notes[i]);
      assert notes[..i + 1][..i] == notes[..i];
      if s.Err? {
        PartTextFailsFrom(notes, i);
        return Err(IndexOutOfBounds);
      }
      line := line + " " + s.value;
    }
    assert notes[..|notes|] == notes;
    return Ok(line);
  }

  // ---------------------------------------------------------------------
  // Examples

  /** A chord every four eighths: C from 0 and G7 from 4. */
  lemma TwoChordTimeline()
    ensures var tl := [ChordChange(0, Chord(0, Major)), ChordChange(4, Chord(7, Seventh))];
            ChordAtTime(tl, 0) == Some(Chord(0, Major)) && ChordAtTime(tl, 1) == Some(Chord(0, Major)) &&
            ChordAtTime(tl, 4) == Some(Chord(7, Seventh)) && ChordAtTime(tl, 7) == Some(Chord(7, Seventh)) &&
            ChordAtTime(tl, -1) == None
  {
    var tl := [ChordChange(0, Chord(0, Major)), ChordChange(4, Chord(7, Seventh))];
    ChordOnInterval(tl, 0, 0);
    ChordOnInterval(tl, 0, 1);
    ChordOnInterval(tl, 1, 4);
    ChordOnInterval(tl, 1, 7);
    NoChordBeforeFirstOnset(tl, -1);
  }

  /** The notes of the example, printed one by one. */
  lemma PrintedNotes()
    ensures NoteToString(Note(76, 2)) == Ok("E5:2") && NoteToString(Note(72, 2)) == Ok("C5:2")
    ensures NoteToString(Note(67, 2)) == Ok("G4:2") && NoteToString(Note(60, 2)) == Ok("C4:2")
  {
    assert IntToString(2) == "2" && IntToString(4) == "4" && IntToString(5) == "5" by {
      assert DigitChar(2) == '2' && DigitChar(4) == '4' && DigitChar(5) == '5';
    }
    assert Note(76, 2).RelativeNote() == 4 && Note(76, 2).Octave() == 5;
    assert Note(72, 2).RelativeNote() == 0 && Note(72, 2).Octave() == 5;
    assert Note(67, 2).RelativeNote() == 7 && Note(67, 2).Octave() == 4;
    assert Note(60, 2).RelativeNote() == 0 && Note(60, 2).Octave() == 4;
    assert "E" + "5" + ":" + "2" == "E5:2" && "C" + "5" + ":" + "2" == "C5:2";
    assert "G" + "4" + ":" + "2" == "G4:2" && "C" + "4" + ":" + "2" == "C4:2";
  }

  /** A part of one note prints as a space and that note. */
  lemma SingleNotePart(n: Note, text: string)
    requires NoteToString(n) == Ok(text)
    ensures PartText([n]) == Ok(" " + text)
  {
    assert [n][..0] == [] && [n][|[n]| - 1] == n;
    assert PartText([]) == Ok("");
    assert "" + " " + text == " " + text;
  }

  /** A printed part appends its line to the lines before it. */
  lemma PartLinesAppend(parts: seq<seq<Note>>, k: nat, init: string, line: string)
    requires 0 < k <= |parts| <= 4
    requires PartLines(parts, k - 1) == Ok(init) && PartText(parts[k - 1]) == Ok(line)
    ensures PartLines(parts, k) == Ok(init + PartNames[k - 1] + ":" + line + "\n")
  {
  }

  /** The example's parts, printed one by one. */
  lemma ExampleParts()
    ensures PartText([Note(76, 2)]) == Ok(" E5:2") && PartText([Note(72, 2)]) == Ok(" C5:2")
    ensures PartText([Note(67, 2)]) == Ok(" G4:2") && PartText([Note(60, 2)]) == Ok(" C4:2")
  {
    PrintedNotes();
    SingleNotePart(Note(76, 2), "E5:2");
    SingleNotePart(Note(72, 2), "C5:2");
    SingleNotePart(Note(67, 2), "G4:2");
    SingleNotePart(Note(60, 2), "C4:2");
    assert " " + "E5:2" == " E5:2" && " " + "C5:2" == " C5:2";
    assert " " + "G4:2" == " G4:2" && " " + "C4:2" == " C4:2";
  }

  /** One quarter note per part: E5, C5, G4 and C4. */
  lemma OneChordScoreText()
    ensures ScoreText([[Note(76, 2)], [Note(72, 2)], [Note(67, 2)], [Note(60, 2)]]) ==
            Ok("Tn: E5:2\nLd: C5:2\nBr: G4:2\nBs: C4:2\n")
  {
    var parts := [[Note(76, 2)], [Note(72, 2)], [Note(67, 2)], [Note(60, 2)]];
    ExampleParts();
    assert PartLines(parts, 0) == Ok("");
    PartLinesAppend(parts, 1, "", " E5:2");
    assert "" + "Tn" + ":" + " E5:2" + "\n" == "Tn: E5:2\n";
    PartLinesAppend(parts, 2, "Tn: E5:2\n", " C5:2");
    assert "Tn: E5:2\n" + "Ld" + ":" + " C5:2" + "\n" == "Tn: E5:2\nLd: C5:2\n";
    PartLinesAppend(parts, 3, "Tn: E5:2\nLd: C5:2\n", " G4:2");
    assert "Tn: E5:2\nLd: C5:2\n" + "Br" + ":" + " G4:2" + "\n" == "Tn: E5:2\nLd: C5:2\nBr: G4:2\n";
    PartLinesAppend(parts, 4, "Tn: E5:2\nLd: C5:2\nBr: G4:2\n", " C4:2");
    assert "Tn: E5:2\nLd: C5:2\nBr: G4:2\n" + "Bs" + ":" + " C4:2" + "\n" ==
           "Tn: E5:2\nLd: C5:2\nBr: G4:2\nBs: C4:2\n";
  }
}
