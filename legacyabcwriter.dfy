/**
 * The first ABC writer, which knows no key signature: every note is
 * spelled with the flat name of its pitch class, a flat becoming the ABC
 * prefix '_', and set in the octave of its sounding pitch. Bar lines
 * follow full measures as in the key-aware writer.
 */
module LegacyAbcWriter {
  import opened JavaLang
  import opened Notes
  import opened Scores
  import opened AbcNotation

  /** `abcNote`'s rewrite of a two-character name: "Xb" becomes "_X" and
      "X#" becomes "^X"; any other name stays. */
  function FlatAbcName(n: string): (r: string)
    ensures |r| == |n|
  {
    if |n| == 2 then
      match n[1]
      case 'b' => "_" + n[..1]
      case '#' => "^" + n[..1]
      case _ => n
    else n
  }

  /** The ABC name of a note's pitch class; a note below MIDI 0 whose pitch
      class comes out negative has no name and throws. */
  function LegacyName(note: Note): Result<string> {
    var n :- NoteName(note.RelativeNote());
    Ok(FlatAbcName(n))
  }

  /** The token: the name in the octave of the sounding pitch, then the
      duration in eighths. */
  function NoteText(note: Note): Result<string> {
    var n :- LegacyName(note);
    Ok(WithOctave(n, note.Octave()) + IntToString(note.duration))
  }

  /** `abcNote`, with the octave marks appended one at a time. */
  method AbcNote(note: Note) returns (r: Result<string>)
    ensures r == NoteText(note)
  {
    var named := LegacyName(note);
    if named.Err? {
      return Err(named.error);
    }
    var n := named.value;
    var octave := note.Octave();
    var buf: string;
    if octave >= 5 {
      buf := LowerCase(n);
      var i := 5;
      while i < octave
        invariant 5 <= i <= octave
        invariant buf == LowerCase(n) + Repeat('\'', i - 5)
      {
        RepeatSnoc('\'', i - 5);
        buf := buf + "'";
        i := i + 1;
      }
    } else {
      buf := UpperCase(n);
      var i := 4;
      while i > octave
        invariant octave <= i <= 4
        invariant buf == UpperCase(n) + Repeat(',', 4 - i)
      {
        RepeatSnoc(',', 4 - i);
        buf := buf + ",";
        i := i - 1;
      }
    }
    assert buf == WithOctave(n, octave);
    return Ok(buf + IntToString(note.duration));
  }

  // ---------------------------------------------------------------------
  // What the names are

  /** The flat table holds no sharp, so the '#' case of the rewrite is
      never taken: every name is a natural letter or "_" before one. */
  lemma NamesAreLetterOrFlat(note: Note)
    requires note.midi >= 0
    ensures var r := LegacyName(note);
            r.Ok? && (|r.value| == 1 || (|r.value| == 2 && r.value[0] == '_'))
    ensures var r := LegacyName(note);
            r.Ok? && r.value[|r.value| - 1] in {'C', 'D', 'E', 'F', 'G', 'A', 'B'}
  {
    var p := note.RelativeNote();
    assert 0 <= p < 12;
    FlatNameShape(p);
  }

  lemma FlatNameShape(p: int)
    requires 0 <= p < 12
    ensures var n := FlatAbcName(NoteNames[p]);
            (|n| == 1 || (|n| == 2 && n[0] == '_')) && n[|n| - 1] in {'C', 'D', 'E', 'F', 'G', 'A', 'B'}
  {
    if p < 6 {
      assert p == 0 || p == 1 || p == 2 || p == 3 || p == 4 || p == 5;
    } else {
      assert p == 6 || p == 7 || p == 8 || p == 9 || p == 10 || p == 11;
    }
  }

  /** The sharp branch, applied to a name with a sharp, gives the caret
      form; no name of the table reaches it. */
  lemma SharpBranchUnreachable(p: int)
    requires 0 <= p < 12
    ensures '#' !in NoteNames[p]
    ensures FlatAbcName("C#") == "^C"
  {
    if p < 6 {
      assert p == 0 || p == 1 || p == 2 || p == 3 || p == 4 || p == 5;
    } else {
      assert p == 6 || p == 7 || p == 8 || p == 9 || p == 10 || p == 11;
    }
  }

  /** A note below MIDI 0 has a name exactly when it is a C. */
  lemma NegativeNotesThrow(note: Note)
    requires note.midi < 0
    ensures LegacyName(note).Ok? <==> note.midi % 12 == 0
  {
  }

  // ---------------------------------------------------------------------
  // Parts

  /** The first `k` notes of a part: a space before each token and " |"
      after each note that fills the measure counter; the first exception
      is the result. */
  function PartBody(notes: seq<Note>, eighthsPerMeasure: int, k: nat): Result<string>
    requires k <= |notes|
  {
    Gather(NotePieces(notes, eighthsPerMeasure), k)
  }

  /** What note `i` adds to its part: a space, its token, and a bar line
      when it fills the measure. */
  function NotePiece(notes: seq<Note>, eighthsPerMeasure: int, i: nat): Result<string>
    requires i < |notes|
  {
    var token :- NoteText(notes[i]);
    Ok(" " + token + if BarAfter(notes, i, eighthsPerMeasure) then " |" else "")
  }

  function NotePieces(notes: seq<Note>, eighthsPerMeasure: int): nat -> Result<string> {
    (i: nat) => if i < |notes| then NotePiece(notes, eighthsPerMeasure, i) else Ok("")
  }

  /** A whole part, closed by "]". */
  function PartLine(notes: seq<Note>, eighthsPerMeasure: int): Result<string> {
    var body :- PartBody(notes, eighthsPerMeasure, |notes|);
    Ok(body + "]")
  }

  /** The loop's state after `k` notes: the text so far and the counter. */
  predicate PartWritten(notes: seq<Note>, e: int, k: nat, buf: string, eightsInMeasure: int) {
    k <= |notes| && eightsInMeasure == MeasureCount(notes, k, e) && PartBody(notes, e, k) == Ok(buf)
  }

  lemma PartStep(notes: seq<Note>, e: int, k: nat, buf: string, eightsInMeasure: int, token: string,
                 buf': string, eightsInMeasure': int)
    requires k < |notes| && PartWritten(notes, e, k, buf, eightsInMeasure)
    requires NoteText(notes[k]) == Ok(token)
    requires var t := eightsInMeasure + notes[k].duration;
             buf' == buf + " " + token + (if t >= e then " |" else "") && eightsInMeasure' == if t >= e then 0 else t
    ensures PartWritten(notes, e, k + 1, buf', eightsInMeasure')
  {
    var bar := if eightsInMeasure + notes[k].duration >= e then " |" else "";
    assert BarAfter(notes, k, e) == (eightsInMeasure + notes[k].duration >= e);
    assert NotePiece(notes, e, k) == Ok(" " + token + bar);
    GatherStep(NotePieces(notes, e), k, buf, " " + token + bar);
    AppendThree(buf, " ", token, bar);
  }

  /** A token that throws ends the part with its exception. */
  lemma PartFails(notes: seq<Note>, e: int, k: nat, buf: string, eightsInMeasure: int, error: JavaException)
    requires k < |notes| && PartWritten(notes, e, k, buf, eightsInMeasure)
    requires NoteText(notes[k]) == Err(error)
    ensures PartLine(notes, e) == Err(error)
  {
    var pieces := NotePieces(notes, e);
    assert pieces(k) == Err(error);
    GatherFailsFrom(pieces, k + 1, |notes|);
  }

  /** `write`, for one part. */
  method WritePart(score: Score, part: int) returns (r: Result<string>)
    requires score.Valid() && 0 <= part < 4
    ensures r == PartLine(score.parts[part], score.quartersPerMeasure * 2)
  {
    var notes := score.parts[part];
    var e := score.quartersPerMeasure * 2;
    var buf := "";
    var eightsInMeasure := 0;
    var k := 0;
    while k < |notes|
      invariant PartWritten(notes, e, k, buf, eightsInMeasure)
    {
      var note := notes[k];
      var token := AbcNote(note);
      if token.Err? {
        PartFails(notes, e, k, buf, eightsInMeasure, token.error);
        return Err(token.error);
      }
      var buf0, measure0 := buf, eightsInMeasure;
      buf := buf + " " + token.value;
      eightsInMeasure := eightsInMeasure + note.duration;
      if eightsInMeasure >= e {
        buf := buf + " |";
        eightsInMeasure := 0;
      }
      PartStep(notes, e, k, buf0, measure0, token.value, buf, eightsInMeasure);
      k := k + 1;
    }
    return Ok(buf + "]");
  }

  /** Every note from MIDI 0 up is written. */
  lemma PartBodyOk(notes: seq<Note>, e: int, k: nat)
    requires k <= |notes| && forall j :: 0 <= j < |notes| ==> notes[j].midi >= 0
    ensures PartBody(notes, e, k).Ok?
  {
    var pieces := NotePieces(notes, e);
    forall j: nat | j < k
      ensures pieces(j).Ok?
    {
      NamesAreLetterOrFlat(notes[j]);
    }
    GatherOk(pieces, k);
  }

  // ---------------------------------------------------------------------
  // The score

  function PartLines(parts: seq<seq<Note>>, e: int, k: nat): Result<seq<string>>
    requires k <= |parts|
  {
    Gather(LinePieces(parts, e), k)
  }

  /** What part `p` adds to the lines: its line. */
  function LinePiece(parts: seq<seq<Note>>, e: int, p: nat): Result<seq<string>>
    requires p < |parts|
  {
    var line :- PartLine(parts[p], e);
    Ok([line])
  }

  function LinePieces(parts: seq<seq<Note>>, e: int): nat -> Result<seq<string>> {
    (p: nat) => if p < |parts| then LinePiece(parts, e, p) else Ok([])
  }

  /** The bindings of a score with these fields; the key is passed on by
      name. */
  function ScoreBindings(title: string, composer: string, keyName: string, quartersPerMeasure: int,
                         parts: seq<seq<Note>>): Result<AbcBindings>
    requires |parts| == 4
  {
    var lines :- PartLines(parts, quartersPerMeasure * 2, 4);
    Ok(AbcBindings(title, composer, keyName, IntToString(quartersPerMeasure) + "/4", lines))
  }

  /** One part line more. */
  lemma LineStep(parts: seq<seq<Note>>, e: int, i: nat, lines: seq<string>, line: string)
    requires i < |parts| && PartLines(parts, e, i) == Ok(lines) && PartLine(parts[i], e) == Ok(line)
    ensures PartLines(parts, e, i + 1) == Ok(lines + [line])
  {
    GatherStep(LinePieces(parts, e), i, lines, [line]);
  }

  /** A part that throws ends the score with its exception. */
  lemma LineFails(parts: seq<seq<Note>>, e: int, i: nat, lines: seq<string>, error: JavaException)
    requires i < |parts| && PartLines(parts, e, i) == Ok(lines) && PartLine(parts[i], e) == Err(error)
    ensures PartLines(parts, e, |parts|) == Err(error)
  {
    assert LinePieces(parts, e)(i) == Err(error);
    GatherFails(LinePieces(parts, e), i, |parts|, lines, error);
  }

  /** `write`, without the template. */
  method Write(score: Score) returns (r: Result<AbcBindings>)
    requires score.Valid()
    ensures r == ScoreBindings(score.title, score.composer, score.key, score.quartersPerMeasure, score.parts)
  {
    var lines: seq<string> := [];
    for i := 0 to 4
      invariant PartLines(score.parts, score.quartersPerMeasure * 2, i) == Ok(lines)
    {
      var line := WritePart(score, i);
      if line.Err? {
        LineFails(score.parts, score.quartersPerMeasure * 2, i, lines, line.error);
        return Err(line.error);
      }
      LineStep(score.parts, score.quartersPerMeasure * 2, i, lines, line.value);
      lines := lines + [line.value];
    }
    return Ok(AbcBindings(score.title, score.composer, score.key, IntToString(score.quartersPerMeasure) + "/4", lines));
  }

  /** A score whose notes all lie from MIDI 0 up is written: four lines,
      each the line of its part. */
  lemma PartLinesOk(parts: seq<seq<Note>>, e: int, k: nat)
    requires k <= |parts|
    requires forall p, j :: 0 <= p < |parts| && 0 <= j < |parts[p]| ==> parts[p][j].midi >= 0
    ensures var r := PartLines(parts, e, k);
            r.Ok? && |r.value| == k && forall p :: 0 <= p < k ==> PartLine(parts[p], e) == Ok(r.value[p])
  {
    var pieces := LinePieces(parts, e);
    forall p: nat | p < k
      ensures pieces(p).Ok? && |pieces(p).value| == 1 && PartLine(parts[p], e) == Ok(pieces(p).value[0])
    {
      PartBodyOk(parts[p], e, |parts[p]|);
    }
    GatherSingles(pieces, k);
  }
}
