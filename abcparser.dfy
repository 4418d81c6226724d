/**
 * The hand-written reader of a limited ABC dialect: header lines set the
 * title, composer, key and meter; every other line is music, whose
 * whitespace-separated tokens are bar lines (skipped), quoted chord names
 * (added to the chord timeline at the current time) and notes (appended
 * to the lead part, advancing the time by their duration). The reader
 * knows no key signature: a bare letter is always natural.
 */
module AbcParser {
  import opened JavaLang
  import opened Notes
  import opened Keys
  import opened Chords
  import opened Scores
  import opened AbcNotation
  import AbcWriter
  import LegacyAbcWriter

  // ---------------------------------------------------------------------
  // Notes

  /** The offset a leading accidental mark gives: '^' and '_' a semitone
      up and down, '=' none; `pos` is where the letter is. */
  function MarkOffset(token: string): (r: (int, int))
    requires |token| > 0
    ensures r.1 == 0 || r.1 == 1
  {
    match token[0]
    case '^' => (1, 1)
    case '_' => (-1, 1)
    case '=' => (0, 1)
    case _ => (0, 0)
  }

  /**
   * `parseAbcNote`: an optional mark, a letter (upper case: octave 4 less
   * a comma each; anything else: octave 5 plus an apostrophe each), then
   * exactly one digit for the duration; what follows the digit is ignored.
   * Running off the end of the token throws; a non-digit where the
   * duration belongs is a parsing error.
   */
  function NoteToken(token: string): (r: Result<Note>)
    ensures r.Ok? ==> 0 <= r.value.duration <= 9
  {
    if |token| == 0 then Err(StringIndexOutOfBounds)
    else
      var (offset, pos) := MarkOffset(token);
      if pos >= |token| then Err(StringIndexOutOfBounds) else LetterToken(token[pos..], offset)
  }

  /** The letter, octave marks and duration digit, with the mark's offset.
      Letter case and digits are tested on ASCII. */
  function LetterToken(body: string, offset: int): (r: Result<Note>)
    requires |body| > 0
    ensures r.Ok? ==> 0 <= r.value.duration <= 9
  {
    var letter := body[0];
    var upper := IsAsciiUpper(letter);
    var marks := RunLength(body[1..], if upper then ',' else '\'');
    var at := 1 + marks;
    if at >= |body| then Err(StringIndexOutOfBounds)
    else if !IsAsciiDigit(body[at]) then Err(AbcParsing)
    else
      var octave := if upper then 4 - marks else 5 + marks;
      Ok(CreateNamed([ToUpper(letter)], octave, DigitValue(body[at])).Add(offset))
  }

  /** `parseAbcNote` in the source's steps: a cursor moves over the mark,
      the letter and the octave marks. */
  method ParseAbcNote(token: string) returns (r: Result<Note>)
    ensures r == NoteToken(token)
  {
    if |token| == 0 {
      return Err(StringIndexOutOfBounds);
    }
    var pos := 0;
    var offset := 0;
    if token[pos] == '^' {
      offset := 1;
      pos := pos + 1;
    } else if token[pos] == '_' {
      offset := -1;
      pos := pos + 1;
    } else if token[pos] == '=' {
      offset := 0;
      pos := pos + 1;
    }
    assert (offset, pos) == MarkOffset(token);
    if pos >= |token| {
      return Err(StringIndexOutOfBounds);
    }
    ghost var body := token[pos..];
    var letter := token[pos];
    pos := pos + 1;
    var start := pos;
    assert body[1..] == token[start..];
    var mark := if IsAsciiUpper(letter) then ',' else '\'';
    var octave := if IsAsciiUpper(letter) then 4 else 5;
    while pos < |token| && token[pos] == mark
      invariant start <= pos <= |token|
      invariant RunLength(token[start..], mark) == (pos - start) + RunLength(token[pos..], mark)
      invariant octave == if IsAsciiUpper(letter) then 4 - (pos - start) else 5 + (pos - start)
    {
      RunLengthStep(token, pos, mark);
      octave := if IsAsciiUpper(letter) then octave - 1 else octave + 1;
      pos := pos + 1;
    }
    assert RunLength(token[pos..], mark) == 0;
    assert NoteToken(token) == LetterToken(body, offset);
    LetterTokenRead(body, offset, pos - start);
    if pos >= |token| {
      return Err(StringIndexOutOfBounds);
    }
    assert body[1 + (pos - start)] == token[pos];
    if !IsAsciiDigit(token[pos]) {
      return Err(AbcParsing);
    }
    var duration := DigitValue(token[pos]);
    return Ok(CreateNamed([ToUpper(letter)], octave, duration).Add(offset));
  }

  /** The three outcomes of reading a letter whose octave marks are counted. */
  lemma LetterTokenRead(body: string, offset: int, marks: nat)
    requires |body| > 0 && marks == RunLength(body[1..], if IsAsciiUpper(body[0]) then ',' else '\'')
    ensures 1 + marks >= |body| ==> LetterToken(body, offset) == Err(StringIndexOutOfBounds)
    ensures 1 + marks < |body| && !IsAsciiDigit(body[1 + marks]) ==> LetterToken(body, offset) == Err(AbcParsing)
    ensures 1 + marks < |body| && IsAsciiDigit(body[1 + marks]) ==>
              var octave := if IsAsciiUpper(body[0]) then 4 - marks else 5 + marks;
              LetterToken(body, offset) == Ok(CreateNamed([ToUpper(body[0])], octave, DigitValue(body[1 + marks])).Add(offset))
  {
  }

  lemma RunLengthStep(s: string, pos: int, c: char)
    requires 0 <= pos < |s| && s[pos] == c
    ensures RunLength(s[pos..], c) == 1 + RunLength(s[pos + 1..], c)
  {
    assert s[pos..][1..] == s[pos + 1..];
  }

  // ---------------------------------------------------------------------
  // Chords

  /** `parseAbcChord`: the name between the first and the last character,
      looked up as a chord; a lone quote throws. */
  function ChordToken(token: string): (r: Result<Chord>)
    ensures r.Ok? <==> |token| >= 2
  {
    if |token| < 2 then Err(StringIndexOutOfBounds) else Ok(ChordNamed(token[1..|token| - 1]))
  }

  /** A chord's own name in quotes reads back as the chord. */
  lemma ChordTokenRoundTrip(c: Chord)
    requires 0 <= c.root < 12
    ensures var name := Chords.ToString(c);
            name.Ok? && ChordToken("\"" + name.value + "\"") == Ok(c)
  {
    ChordNameRoundTrip(c.root, c.chordType);
    var q := "\"" + Chords.ToString(c).value + "\"";
    assert q[1..|q| - 1] == Chords.ToString(c).value;
  }

  // ---------------------------------------------------------------------
  // Lines

  /** What has been read so far: the header fields, the lead part, the
      chord timeline and the time in eighths. */
  datatype Reading = Reading(
    title: string,
    composer: string,
    key: string,
    quartersPerMeasure: int,
    lead: seq<Note>,
    chords: seq<ChordChange>,
    timeInEighths: int)

  /** The state of a new score: empty metadata, four quarters per measure. */
  const Start: Reading := Reading("", "", "", 4, [], [], 0)

  /** One token of a music line. */
  function ReadToken(st: Reading, token: string): Result<Reading> {
    if |token| > 0 && token[0] == '|' then Ok(st)
    else if |token| > 0 && token[0] == '"' then
      var chord :- ChordToken(token);
      Ok(st.(chords := st.chords + [ChordChange(st.timeInEighths, chord)]))
    else
      var note :- NoteToken(token);
      Ok(st.(lead := st.lead + [note], timeInEighths := st.timeInEighths + note.duration))
  }

  /** The state after `step` has taken the first `k` items in turn, or the
      first exception, after which nothing more is read. */
  function Fold<T>(step: (Reading, T) -> Result<Reading>, st: Reading, items: seq<T>, k: nat): Result<Reading>
    requires k <= |items|
  {
    if k == 0 then Ok(st)
    else
      var st' :- Fold(step, st, items, k - 1);
      step(st', items[k - 1])
  }

  /** The first `k` tokens of a music line, or the first exception. */
  function ReadTokens(st: Reading, tokens: seq<string>, k: nat): Result<Reading>
    requires k <= |tokens|
  {
    Fold(ReadToken, st, tokens, k)
  }

  /** The characters the regular-expression `.` does not match. */
  predicate IsLineTerminator(c: char) {
    c == '\n' || c == '\r' || c == '\U{85}' || c == '\U{2028}' || c == '\U{2029}'
  }

  /** No character of `g` is a line terminator. */
  predicate NoTerminator(g: string)
    decreases |g|
  {
    |g| == 0 || (!IsLineTerminator(g[0]) && NoTerminator(g[1..]))
  }

  /** What `\s*(.+)` leaves for the group after the colon: the text after
      the leading spaces, or the last space when nothing else is left;
      none when the group would have to hold a line terminator. */
  function ValueGroup(rest: string): (r: Option<string>)
    ensures r.Some? ==> 0 < |r.value| <= |rest|
    decreases |rest|
  {
    if |rest| == 0 then None
    else if IsRegexSpace(rest[0]) && |rest| > 1 then ValueGroup(rest[1..])
    else if NoTerminator(rest) then Some(rest)
    else None
  }

  /** `(\S+):` can end at position `j` of the line after its leading
      spaces, with a value group after the colon. */
  predicate SplitsAt(s: string, j: int) {
    0 < j < |s| && s[j] == ':' && NoRegexSpace(s[..j]) && ValueGroup(s[j + 1..]).Some?
  }

  /** The last split position from `j` down, -1 for none: the greedy
      `\S+` tries the longest field name first. */
  function LastSplit(s: string, j: int): (r: int)
    ensures r == -1 || (0 < r <= j && SplitsAt(s, r))
    decreases j
  {
    if j <= 0 then -1 else if SplitsAt(s, j) then j else LastSplit(s, j - 1)
  }

  /** No later position splits. */
  lemma {:induction false} LastSplitIsLast(s: string, j: int, k: int)
    requires LastSplit(s, j) < k <= j
    ensures !SplitsAt(s, k)
    decreases j
  {
    if j > 0 && !SplitsAt(s, j) && k < j {
      LastSplitIsLast(s, j - 1, k);
    }
  }

  /** The field name before the colon at `j` and the value group after it. */
  function FieldAt(s: string, j: int): (string, string)
    requires SplitsAt(s, j)
  {
    (s[..j], ValueGroup(s[j + 1..]).value)
  }

  /** `LINE_PATTERN` on a whole line: the field name and the value group,
      or none when the line is no header. */
  function Header(line: string): (r: Option<(string, string)>)
  {
    var s := DropSpaces(line);
    var j := LastSplit(s, |s| - 1);
    if j < 0 then None else Some(FieldAt(s, j))
  }

  /** `Integer.parseInt` on one character, for ASCII digits only. */
  function DigitToken(s: string): (r: Result<int>)
    requires |s| == 1
    ensures r.Ok? <==> IsAsciiDigit(s[0])
  {
    if IsAsciiDigit(s[0]) then Ok(DigitValue(s[0])) else Err(NumberFormat)
  }

  /** A header field: T, C and K set the title, composer and key; M sets
      the quarters per measure from the first character of its value;
      any other field is ignored. */
  function ReadField(st: Reading, field: string, group: string): Result<Reading> {
    var value := Trim(group);
    if field == "T" then Ok(st.(title := value))
    else if field == "C" then Ok(st.(composer := value))
    else if field == "K" then Ok(st.(key := value))
    else if field == "M" then
      if |value| == 0 then Err(StringIndexOutOfBounds)
      else
        var q :- DigitToken(value[..1]);
        Ok(st.(quartersPerMeasure := q))
    else Ok(st)
  }

  /** A line: a comment starting with '%' is skipped; a header sets its
      field; anything else is a music line, split at runs of spaces. */
  function ReadLine(st: Reading, line: string): Result<Reading> {
    if |line| > 0 && line[0] == '%' then Ok(st)
    else
      match Header(line)
      case Some((field, group)) => ReadField(st, field, group)
      case None =>
        var tokens := SplitOnSpaces(line);
        ReadTokens(st, tokens, |tokens|)
  }

  /** The first `k` lines, or the first exception. */
  function ReadLines(lines: seq<string>, k: nat): Result<Reading>
    requires k <= |lines|
  {
    Fold(ReadLine, Start, lines, k)
  }

  // ---------------------------------------------------------------------
  // Tokens the writers produce

  /** The semitones an ABC prefix stands for, 0 with none. */
  function PrefixOffset(pre: string): int
    requires pre == "" || pre == "^" || pre == "_" || pre == "="
  {
    if pre == "" then 0 else MarkAccidental(pre[0]).value
  }

  /** A prefix is read as its offset, and a written letter is no prefix. */
  lemma NoteTokenOfBody(pre: string, body: string)
    requires pre == "" || pre == "^" || pre == "_" || pre == "="
    requires |body| > 0 && body[0] != '^' && body[0] != '_' && body[0] != '='
    ensures NoteToken(pre + body) == LetterToken(body, PrefixOffset(pre))
  {
    var t := pre + body;
    if pre != "" {
      assert t[0] == pre[0] && t[1..] == body;
    } else {
      assert t == body;
    }
  }

  /** A letter, then `count` copies of a mark, then a digit. */
  predicate MarkedLetter(body: string, letter: char, mark: char, count: nat, digit: char) {
    |body| == count + 2 && body[0] == letter && body[count + 1] == digit &&
    forall i :: 1 <= i <= count ==> body[i] == mark
  }

  /** A run of `count` marks ended by anything else has length `count`. */
  lemma {:induction false} RunOfMarks(s: string, c: char, count: nat)
    requires count < |s| && s[count] != c
    requires forall i :: 0 <= i < count ==> s[i] == c
    ensures RunLength(s, c) == count
    decreases count
  {
    if count > 0 {
      RunOfMarks(s[1..], c, count - 1);
    }
  }

  /** A written letter with its octave marks and a duration digit. */
  lemma LetterTokenOfWritten(body: string, idx: int, octave: int, d: int, offset: int)
    requires 0 <= idx < |BaseNotes| && 0 <= d <= 9
    requires var upper := octave < 5;
             MarkedLetter(body, WrittenLetter(idx, upper), OctaveMark(upper), if upper then 4 - octave else octave - 5, DigitChar(d))
    ensures LetterToken(body, offset) == Ok(Note(12 * (octave + 1) + NaturalPitchClasses[idx] + offset, d))
  {
    var upper := octave < 5;
    var count: nat := if upper then 4 - octave else octave - 5;
    LetterCases(idx);
    assert IsAsciiUpper(body[0]) == upper && [ToUpper(body[0])] == BaseNotes[idx];
    var rest := body[1..];
    forall i | 0 <= i < count
      ensures rest[i] == OctaveMark(upper)
    {
      assert rest[i] == body[i + 1];
    }
    assert rest[count] == DigitChar(d);
    RunOfMarks(rest, OctaveMark(upper), count);
    LetterTokenRead(body, offset, count);
    assert DigitValue(body[1 + count]) == d;
    NamedLetterNote(idx, octave, d, offset);
  }

  /** A natural letter in an octave is the pitch of its class there. */
  lemma NamedLetterNote(idx: int, octave: int, d: int, offset: int)
    requires 0 <= idx < |BaseNotes|
    ensures CreateNamed(BaseNotes[idx], octave, d).Add(offset) == Note(12 * (octave + 1) + NaturalPitchClasses[idx] + offset, d)
  {
    LetterNoteId(idx);
  }

  /**
   * A token written from a letter with at most one prefix, in any octave,
   * with a duration of one digit is parsed as the letter's pitch in that
   * octave moved by the prefix, with that duration.
   */
  lemma NoteTokenOfWritten(pre: string, idx: int, octave: int, d: int)
    requires pre == "" || pre == "^" || pre == "_" || pre == "="
    requires 0 <= idx < |BaseNotes| && 0 <= d <= 9
    ensures NoteToken(WithOctave(pre + BaseNotes[idx], octave) + IntToString(d)) ==
            Ok(Note(12 * (octave + 1) + NaturalPitchClasses[idx] + PrefixOffset(pre), d))
  {
    var body := WrittenSplit(pre, idx, octave, d);
    MarkedTokenReads(pre, body, idx, octave, d);
  }

  /** A prefix before a written letter, its marks and its digit is read as
      the letter's pitch moved by the prefix. */
  lemma MarkedTokenReads(pre: string, body: string, idx: int, octave: int, d: int)
    requires pre == "" || pre == "^" || pre == "_" || pre == "="
    requires 0 <= idx < |BaseNotes| && 0 <= d <= 9
    requires var upper := octave < 5;
             MarkedLetter(body, WrittenLetter(idx, upper), OctaveMark(upper), if upper then 4 - octave else octave - 5, DigitChar(d))
    ensures NoteToken(pre + body) == Ok(Note(12 * (octave + 1) + NaturalPitchClasses[idx] + PrefixOffset(pre), d))
  {
    LetterTokenOfWritten(body, idx, octave, d, PrefixOffset(pre));
    WrittenLetterIsNoMark(idx, octave < 5);
    NoteTokenOfBody(pre, body);
  }

  /** No written letter is an accidental mark. */
  lemma WrittenLetterIsNoMark(idx: int, upper: bool)
    requires 0 <= idx < |BaseNotes|
    ensures var l := WrittenLetter(idx, upper); l != '^' && l != '_' && l != '='
  {
    LetterCases(idx);
  }

  /** A written token is its prefix, its letter, its octave marks and its
      digit. */
  lemma WrittenSplit(pre: string, idx: int, octave: int, d: int) returns (body: string)
    requires pre == "" || pre == "^" || pre == "_" || pre == "="
    requires 0 <= idx < |BaseNotes| && 0 <= d <= 9
    ensures var upper := octave < 5;
            MarkedLetter(body, WrittenLetter(idx, upper), OctaveMark(upper), if upper then 4 - octave else octave - 5, DigitChar(d))
    ensures WithOctave(pre + BaseNotes[idx], octave) + IntToString(d) == pre + body
  {
    NatToStringOneDigit(d);
    var upper := octave < 5;
    var count: nat := if upper then 4 - octave else octave - 5;
    WithOctaveOfLetter(pre, idx, octave);
    var marks := Repeat(OctaveMark(upper), count);
    body := [WrittenLetter(idx, upper)] + (marks + [DigitChar(d)]);
    Regroup(pre, [WrittenLetter(idx, upper)], marks, [DigitChar(d)]);
    forall i | 1 <= i <= count
      ensures body[i] == OctaveMark(upper)
    {
      assert body[i] == marks[i - 1];
    }
  }

  /** The flat name of each pitch class: a natural letter, or "_" before
      the letter a semitone above. */
  lemma FlatNameLetter(p: int) returns (idx: int, pre: string)
    requires 0 <= p < 12
    ensures pre == "" || pre == "_"
    ensures 0 <= idx < |BaseNotes|
    ensures LegacyAbcWriter.FlatAbcName(NoteNames[p]) == pre + BaseNotes[idx]
    ensures NaturalPitchClasses[idx] + PrefixOffset(pre) == p
  {
    if p == 0 { idx, pre := 0, ""; }
    else if p == 1 { idx, pre := 1, "_"; }
    else if p == 2 { idx, pre := 1, ""; }
    else if p == 3 { idx, pre := 2, "_"; }
    else if p == 4 { idx, pre := 2, ""; }
    else if p == 5 { idx, pre := 3, ""; }
    else if p == 6 { idx, pre := 4, "_"; }
    else if p == 7 { idx, pre := 4, ""; }
    else if p == 8 { idx, pre := 5, "_"; }
    else if p == 9 { idx, pre := 5, ""; }
    else if p == 10 { idx, pre := 6, "_"; }
    else { idx, pre := 6, ""; }
  }

  /**
   * The first writer and this reader agree: every note from MIDI 0 up
   * with a duration of one digit is parsed back from its token. (No flat
   * name is a C flat, so the sounding octave is the letter's octave.)
   */
  lemma LegacyTokenRoundTrip(note: Note)
    requires note.midi >= 0 && 0 <= note.duration <= 9
    ensures var t := LegacyAbcWriter.NoteText(note); t.Ok? && NoteToken(t.value) == Ok(note)
  {
    var idx, pre := LegacyTextShape(note);
    WrittenTokenReadsBack(pre, idx, note.Octave(), note);
  }

  /** A written token whose letter and octave add up to the note's pitch
      is parsed as that note. */
  lemma WrittenTokenReadsBack(pre: string, idx: int, octave: int, note: Note)
    requires pre == "" || pre == "^" || pre == "_" || pre == "="
    requires 0 <= idx < |BaseNotes| && 0 <= note.duration <= 9
    requires 12 * (octave + 1) + NaturalPitchClasses[idx] + PrefixOffset(pre) == note.midi
    ensures NoteToken(WithOctave(pre + BaseNotes[idx], octave) + IntToString(note.duration)) == Ok(note)
  {
    assert Note(12 * (octave + 1) + NaturalPitchClasses[idx] + PrefixOffset(pre), note.duration) == note;
    NoteTokenOfWritten(pre, idx, octave, note.duration);
  }

  /** The first writer's token, seen as a prefix, a letter, an octave and a
      duration. */
  lemma LegacyTextShape(note: Note) returns (idx: int, pre: string)
    requires note.midi >= 0
    ensures pre == "" || pre == "_"
    ensures 0 <= idx < |BaseNotes|
    ensures LegacyAbcWriter.NoteText(note) == Ok(WithOctave(pre + BaseNotes[idx], note.Octave()) + IntToString(note.duration))
    ensures 12 * (note.Octave() + 1) + NaturalPitchClasses[idx] + PrefixOffset(pre) == note.midi
  {
    JavaRemOfNatural(note.midi, 12);
    idx, pre := FlatNameLetter(note.RelativeNote());
  }

  /** Under C major the signature adds nothing, so a bare letter is as
      natural as this reader takes it. */
  lemma CMajorAccidental(pre: string, idx: int)
    requires pre == "" || pre == "^" || pre == "_" || pre == "="
    requires 0 <= idx < |BaseNotes|
    ensures WrittenAccidental(pre + BaseNotes[idx], KeyOf(KeyTable[0])) == PrefixOffset(pre)
  {
    WrittenAccidentalOfLetter(pre, idx, KeyOf(KeyTable[0]));
    AccidentalOfLetter(1, [], "C", BaseNotes[idx]);
  }

  /**
   * The key-aware writer and this reader agree under C major: with no
   * chord or one whose root is a pitch class, every note from MIDI 0 up
   * with a duration of one digit is parsed back from the token the writer
   * writes for it (which there is the corrected token).
   */
  lemma CMajorTokenRoundTrip(note: Note, currentChord: Option<Chord>)
    requires note.midi >= 0 && 0 <= note.duration <= 9
    requires currentChord.None? || 0 <= currentChord.value.root < 12
    ensures var t := AbcWriter.AbcNoteTextAsWritten(note, Some(KeyOf(KeyTable[0])), currentChord);
            t.Ok? && NoteToken(t.value) == Ok(note)
  {
    assert KeyTable[0].direction == 1;
    AbcWriter.TokensAgree(note, 0, currentChord);
    var idx, pre := AbcWriter.WrittenNameShape(note, 0, currentChord);
    CMajorAccidental(pre, idx);
    WrittenTokenParses(note, KeyOf(KeyTable[0]), currentChord, idx, pre);
  }

  /** The same for any signature that puts no accidental on the letter. */
  lemma WrittenTokenParses(note: Note, key: Key, currentChord: Option<Chord>, idx: int, pre: string)
    requires note.midi >= 0 && 0 <= note.duration <= 9
    requires pre == "" || pre == "^" || pre == "_" || pre == "="
    requires 0 <= idx < |BaseNotes|
    requires var w := AbcWriter.WrittenName(note, Some(key), currentChord, true); w.Ok? && w.value == pre + BaseNotes[idx]
    requires WrittenAccidental(pre + BaseNotes[idx], key) == PrefixOffset(pre)
    requires var a := PrefixOffset(pre); -1 <= a <= 1 && Wrap(NaturalPitchClasses[idx] + a) == note.RelativeNote()
    ensures var t := AbcWriter.AbcNoteText(note, Some(key), currentChord);
            t.Ok? && NoteToken(t.value) == Ok(note)
  {
    var name := pre + BaseNotes[idx];
    AbcWriter.TextOfName(note, key, currentChord, name);
    OctaveOfLetter(note, key, idx, pre);
    WrittenTokenReadsBack(pre, idx, AbcWriter.LetterOctave(note, name, key), note);
  }

  /** The octave of the written letter and the letter's pitch class add
      up to the note's pitch. */
  lemma OctaveOfLetter(note: Note, key: Key, idx: int, pre: string)
    requires note.midi >= 0
    requires pre == "" || pre == "^" || pre == "_" || pre == "="
    requires 0 <= idx < |BaseNotes|
    requires WrittenAccidental(pre + BaseNotes[idx], key) == PrefixOffset(pre)
    requires var a := PrefixOffset(pre); -1 <= a <= 1 && Wrap(NaturalPitchClasses[idx] + a) == note.RelativeNote()
    ensures 12 * (AbcWriter.LetterOctave(note, pre + BaseNotes[idx], key) + 1) + NaturalPitchClasses[idx] + PrefixOffset(pre) == note.midi
  {
    LetterNoteId(idx);
    AbcWriter.LetterOctaveArithmetic(note.midi, NaturalPitchClasses[idx], PrefixOffset(pre));
  }

  /** Only the first digit is the duration: a note of sixteen eighths is
      written "C16" and read as one eighth. */
  lemma OneDigitDuration()
    ensures LegacyAbcWriter.NoteText(Note(60, 16)) == Ok("C16")
    ensures NoteToken("C16") == Ok(Note(60, 1))
  {
    var note := Note(60, 16);
    assert note.RelativeNote() == 0 && note.Octave() == 4;
    LetterCases(0);
    assert NoteNames[0] == "C" && LegacyAbcWriter.FlatAbcName("C") == "C";
    assert LegacyAbcWriter.LegacyName(note) == Ok("C");
    assert WithOctave("C", 4) == "C";
    assert IntToString(16) == "16";
    assert "C" + "16" == "C16";
    assert "C16"[0..] == "C16";
    assert LetterToken("C16", 0) == Ok(Note(60, 1)) by {
      assert "C16"[1..] == "16";
      LetterNoteId(0);
    }
  }

  /** The note tokens of the arranger's test song: "C,2" is C3, "d''2" is
      D7, "_E2" is E flat 4, "^F2" is F sharp 4, and "C2" and "D2" lie in
      the octave of middle C. */
  lemma TestTokenCLow()
    ensures NoteToken("C,2") == Ok(Note(48, 2))
  {
    TestToken("C,2", 0, [','], 1, 0);
  }

  lemma TestTokenDHigh()
    ensures NoteToken("d''2") == Ok(Note(98, 2))
  {
    TestToken("d''2", 1, ['\'', '\''], 2, 0);
  }

  lemma TestTokenEFlat()
    ensures NoteToken("_E2") == Ok(Note(63, 2))
  {
    TestToken("_E2", 2, [], 0, -1);
  }

  lemma TestTokenFSharp()
    ensures NoteToken("^F2") == Ok(Note(66, 2))
  {
    TestToken("^F2", 3, [], 0, 1);
  }

  lemma TestTokenCMiddle()
    ensures NoteToken("C2") == Ok(Note(60, 2))
  {
    TestToken("C2", 0, [], 0, 0);
  }

  lemma TestTokenDMiddle()
    ensures NoteToken("D2") == Ok(Note(62, 2))
  {
    TestToken("D2", 1, [], 0, 0);
  }

  /** A token of the test song: a prefix, a letter, its marks and the
      digit 2. */
  lemma TestToken(token: string, idx: int, marks: string, count: nat, offset: int)
    requires 0 <= idx < |BaseNotes| && |token| == |marks| + 3 - (if offset == 0 then 1 else 0)
    requires (offset == 0 && token[0] != '^' && token[0] != '_' && token[0] != '=') ||
             (offset == 1 && token[0] == '^') || (offset == -1 && token[0] == '_')
    requires var body := if offset == 0 then token else token[1..];
             var upper := body[0] == BaseNotes[idx][0];
             (upper || body[0] == ToLower(BaseNotes[idx][0])) &&
             body[1..] == marks + "2" && marks == Repeat(OctaveMark(upper), count)
    ensures var upper := (if offset == 0 then token else token[1..])[0] == BaseNotes[idx][0];
            var octave := if upper then 4 - count else 5 + count;
            NoteToken(token) == Ok(Note(12 * (octave + 1) + NaturalPitchClasses[idx] + offset, 2))
  {
    var body := if offset == 0 then token else token[1..];
    var upper := body[0] == BaseNotes[idx][0];
    LetterCases(idx);
    RunLengthOfRepeat(OctaveMark(upper), count, "2");
    assert body[1 + count] == '2';
    LetterTokenRead(body, offset, count);
    NamedLetterNote(idx, if upper then 4 - count else 5 + count, 2, offset);
  }

  // ---------------------------------------------------------------------
  // Headers

  /** A line is a header exactly when, after its leading spaces, some
      colon ends a field name and has a value group after it; the field
      name runs to the last such colon. */
  lemma HeaderMeaning(line: string, k: int) returns (j: int)
    ensures var s := DropSpaces(line);
            Header(line).Some? ==> SplitsAt(s, j) && Header(line) == Some(FieldAt(s, j)) && |Header(line).value.0| == j
    ensures var s := DropSpaces(line);
            j < k < |s| ==> !SplitsAt(s, k)
  {
    var s := DropSpaces(line);
    j := LastSplit(s, |s| - 1);
    if j < k < |s| {
      LastSplitIsLast(s, |s| - 1, k);
    }
  }

  /** A line is no header only when no colon splits it. */
  lemma NoHeader(line: string)
    requires Header(line).None?
    ensures forall k :: !SplitsAt(DropSpaces(line), k)
  {
    NoSplit(DropSpaces(line));
  }

  lemma NoSplit(s: string)
    requires LastSplit(s, |s| - 1) < 0
    ensures forall k :: !SplitsAt(s, k)
  {
    forall k | 0 < k < |s|
      ensures !SplitsAt(s, k)
    {
      LastSplitIsLast(s, |s| - 1, k);
    }
  }

  lemma {:induction false} NoTerminatorOf(g: string)
    requires forall i :: 0 <= i < |g| ==> !IsLineTerminator(g[i])
    ensures NoTerminator(g)
    decreases |g|
  {
    if |g| > 0 {
      NoTerminatorOf(g[1..]);
    }
  }

  /** Positions without a colon are passed over. */
  lemma {:induction false} LastSplitSkips(s: string, j: int, i: int)
    requires 0 <= i <= j < |s|
    requires forall k :: i < k <= j ==> s[k] != ':'
    ensures LastSplit(s, j) == LastSplit(s, i)
    decreases j
  {
    if j > i {
      LastSplitSkips(s, j - 1, i);
    }
  }

  /**
   * A line of a one-character field name, a colon and a value without a
   * colon, which starts with no space, sets that field to that value.
   */
  lemma OneLetterHeader(field: char, value: string)
    requires !IsRegexSpace(field) && field != ':'
    requires |value| > 0 && !IsRegexSpace(value[0])
    requires forall i :: 0 <= i < |value| ==> value[i] != ':' && !IsLineTerminator(value[i])
    ensures Header([field, ':'] + value) == Some(([field], value))
  {
    var s := [field, ':'] + value;
    assert DropSpaces(s) == s;
    OneLetterSplit(field, value);
    assert s[..1] == [field];
  }

  /** The only split of such a line is after the field name. */
  lemma OneLetterSplit(field: char, value: string)
    requires !IsRegexSpace(field) && field != ':'
    requires |value| > 0 && !IsRegexSpace(value[0])
    requires forall i :: 0 <= i < |value| ==> value[i] != ':' && !IsLineTerminator(value[i])
    ensures var s := [field, ':'] + value;
            SplitsAt(s, 1) && LastSplit(s, |s| - 1) == 1 && ValueGroup(s[2..]) == Some(value)
  {
    var s := [field, ':'] + value;
    assert s[2..] == value;
    UnspacedValue(value);
    assert s[..1] == [field];
    assert SplitsAt(s, 1);
    forall k | 1 < k <= |s| - 1
      ensures s[k] != ':'
    {
      assert s[k] == value[k - 2];
    }
    LastSplitSkips(s, |s| - 1, 1);
  }

  /** A value that starts with no space and holds no line terminator is the
      value group itself. */
  lemma UnspacedValue(value: string)
    requires |value| > 0 && !IsRegexSpace(value[0])
    requires forall i :: 0 <= i < |value| ==> !IsLineTerminator(value[i])
    ensures ValueGroup(value) == Some(value)
  {
    NoTerminatorOf(value);
  }

  /** The title line of a song. */
  lemma TitleHeader()
    ensures Header("T:Test Song") == Some(("T", "Test Song"))
  {
    var v := "Test Song";
    assert forall i :: 0 <= i < |v| ==> v[i] != ':' && !IsLineTerminator(v[i]);
    assert "T:Test Song" == ['T', ':'] + v;
    OneLetterHeader('T', v);
  }

  /** The meter line of a song. */
  lemma MeterHeader()
    ensures Header("M:4/4") == Some(("M", "4/4"))
  {
    var v := "4/4";
    assert "M:4/4" == ['M', ':'] + v;
    OneLetterHeader('M', v);
  }

  /** The field name is as long as it can be: "a:b:c" sets field "a:b". */
  lemma GreedyFieldName()
    ensures Header("a:b:c") == Some(("a:b", "c"))
  {
    var s := "a:b:c";
    assert DropSpaces(s) == s;
    assert s[4..] == "c";
    assert ValueGroup("c") == Some("c");
    assert !SplitsAt(s, 4);
    assert LastSplit(s, 4) == LastSplit(s, 3);
    assert s[..3] == "a:b" && NoRegexSpace("a:b");
    assert SplitsAt(s, 3);
    assert FieldAt(s, 3) == ("a:b", "c");
  }

  // ---------------------------------------------------------------------
  // Failing lines

  /** Once a step throws, the exception is the result. */
  lemma {:induction false} FoldFailFrom<T>(step: (Reading, T) -> Result<Reading>, st: Reading, items: seq<T>, k: nat, j: nat)
    requires k <= j <= |items| && Fold(step, st, items, k).Err?
    ensures Fold(step, st, items, j) == Fold(step, st, items, k)
    decreases j
  {
    if j > k {
      FoldFailFrom(step, st, items, k, j - 1);
    }
  }

  /** An empty token is taken for a note and throws. */
  lemma EmptyTokenThrows(st: Reading, tokens: seq<string>)
    requires |tokens| > 0 && tokens[0] == ""
    ensures ReadTokens(st, tokens, |tokens|) == Err(StringIndexOutOfBounds)
  {
    assert Fold(ReadToken, st, tokens, 1) == ReadToken(st, "");
    FoldFailFrom(ReadToken, st, tokens, 1, |tokens|);
  }

  /** A blank line splits into one empty token, which throws. */
  lemma BlankLineThrows(st: Reading)
    ensures ReadLine(st, "") == Err(StringIndexOutOfBounds)
  {
    assert Header("") == None;
    assert SplitOnSpaces("") == [""];
    EmptyTokenThrows(st, [""]);
  }

  /** A music line that starts with a space splits into an empty first
      token, which throws. */
  lemma LeadingSpaceThrows(st: Reading, line: string)
    requires |line| > 0 && IsRegexSpace(line[0]) && |DropSpaces(line)| > 0
    requires Header(line).None?
    ensures ReadLine(st, line) == Err(StringIndexOutOfBounds)
  {
    var d := DropSpaces(line);
    PiecesSpace(line);
    PiecesNonSpace(d);
    var ps := Pieces(line);
    assert ps[0] == "" && ps[1] != "";
    assert !NoRegexSpace(line);
    var tokens := SplitOnSpaces(line);
    assert tokens == DropTrailingEmpty(ps);
    assert |tokens| > 1;
    assert tokens[0] == ps[0];
    EmptyTokenThrows(st, tokens);
  }

  // ---------------------------------------------------------------------
  // What reading keeps

  /** The reading is coherent: the time reached is the total duration of
      the lead, every duration is one digit, and the chord changes come in
      time order, none after the time reached. */
  predicate Timed(st: Reading) {
    st.timeInEighths == Onset(st.lead, |st.lead|) &&
    (forall i :: 0 <= i < |st.lead| ==> 0 <= st.lead[i].duration <= 9) &&
    OnsetsSorted(st.chords) &&
    (forall i :: 0 <= i < |st.chords| ==> st.chords[i].startTime <= st.timeInEighths)
  }

  /** Every chord change starts where some lead note starts, or at the end
      of the lead. */
  predicate ChordsAtOnsets(st: Reading) {
    forall i :: 0 <= i < |st.chords| ==> AtOnset(st.lead, st.chords[i].startTime)
  }

  /** Some note of the melody, or its end, starts at `time`. */
  predicate AtOnset(melody: seq<Note>, time: int) {
    exists p :: 0 <= p <= |melody| && Onset(melody, p) == time
  }

  /** Appending a note leaves the onsets before it alone. */
  lemma {:induction false} OnsetOfPrefix(melody: seq<Note>, note: Note, pos: nat)
    requires pos <= |melody|
    ensures Onset(melody + [note], pos) == Onset(melody, pos)
    decreases pos
  {
    if pos > 0 {
      OnsetOfPrefix(melody, note, pos - 1);
      assert (melody + [note])[pos - 1] == melody[pos - 1];
    }
  }

  /** A token changes only the lead, the chords and the time, and keeps the
      reading coherent. */
  lemma ReadTokenTimed(st: Reading, token: string)
    requires Timed(st)
    ensures var r := ReadToken(st, token);
            r.Ok? ==> Timed(r.value) &&
                      r.value.(lead := st.lead, chords := st.chords, timeInEighths := st.timeInEighths) == st
  {
    var r := ReadToken(st, token);
    if r.Ok? && r.value.lead != st.lead {
      var n := r.value.lead[|st.lead|];
      assert r.value.lead == st.lead + [n];
      OnsetOfPrefix(st.lead, n, |st.lead|);
      OnsetStep(st.lead + [n], |st.lead|);
    }
  }

  /** A token keeps every chord change at a note onset. */
  lemma ReadTokenAtOnsets(st: Reading, token: string)
    requires Timed(st) && ChordsAtOnsets(st)
    ensures var r := ReadToken(st, token); r.Ok? ==> ChordsAtOnsets(r.value)
  {
    if |token| > 0 && token[0] == '|' {
    } else if |token| > 0 && token[0] == '"' {
      if |token| >= 2 {
        ChordAddedAtOnset(st, ChordNamed(token[1..|token| - 1]));
      }
    } else {
      var note := NoteToken(token);
      if note.Ok? {
        NoteAddedKeepsOnsets(st, note.value, st.timeInEighths + note.value.duration);
      }
    }
  }

  /** A chord change added at the time reached starts at the end of the
      lead. */
  lemma ChordAddedAtOnset(st: Reading, c: Chord)
    requires Timed(st) && ChordsAtOnsets(st)
    ensures ChordsAtOnsets(st.(chords := st.chords + [ChordChange(st.timeInEighths, c)]))
  {
    var t := st.(chords := st.chords + [ChordChange(st.timeInEighths, c)]);
    forall i | 0 <= i < |t.chords|
      ensures AtOnset(t.lead, t.chords[i].startTime)
    {
      if i == |st.chords| {
        assert Onset(t.lead, |t.lead|) == t.chords[i].startTime;
      } else {
        assert t.chords[i] == st.chords[i];
      }
    }
  }

  /** A note appended to the lead moves no onset before it. */
  lemma NoteAddedKeepsOnsets(st: Reading, note: Note, time: int)
    requires ChordsAtOnsets(st)
    ensures ChordsAtOnsets(st.(lead := st.lead + [note], timeInEighths := time))
  {
    var t := st.(lead := st.lead + [note], timeInEighths := time);
    forall i | 0 <= i < |t.chords|
      ensures AtOnset(t.lead, t.chords[i].startTime)
    {
      assert AtOnset(st.lead, st.chords[i].startTime);
      var p :| 0 <= p <= |st.lead| && Onset(st.lead, p) == st.chords[i].startTime;
      OnsetOfPrefix(st.lead, note, p);
      assert Onset(t.lead, p) == t.chords[i].startTime;
    }
    assert ChordsAtOnsets(t);
  }

  /** Everything reading keeps. */
  predicate Consistent(st: Reading) {
    Timed(st) && ChordsAtOnsets(st)
  }

  /** A token keeps the reading consistent and changes only the lead, the
      chords and the time. */
  lemma ReadTokenConsistent(st: Reading, token: string)
    requires Consistent(st)
    ensures var r := ReadToken(st, token);
            r.Ok? ==> Consistent(r.value) &&
                      r.value.(lead := st.lead, chords := st.chords, timeInEighths := st.timeInEighths) == st
  {
    ReadTokenTimed(st, token);
    ReadTokenAtOnsets(st, token);
  }

  /** The tokens of a music line keep the reading consistent and change only
      the lead, the chords and the time. */
  lemma {:induction false} ReadTokensConsistent(st: Reading, tokens: seq<string>, k: nat)
    requires k <= |tokens| && Consistent(st)
    ensures var r := ReadTokens(st, tokens, k);
            r.Ok? ==> Consistent(r.value) &&
                      r.value.(lead := st.lead, chords := st.chords, timeInEighths := st.timeInEighths) == st
    decreases k
  {
    if k > 0 {
      ReadTokensConsistent(st, tokens, k - 1);
      var prev := Fold(ReadToken, st, tokens, k - 1);
      if prev.Ok? {
        ReadTokenConsistent(prev.value, tokens[k - 1]);
      }
    }
  }

  /** A header field changes only the metadata. */
  lemma ReadFieldKeeps(st: Reading, field: string, group: string)
    ensures var r := ReadField(st, field, group);
            r.Ok? ==> r.value.lead == st.lead && r.value.chords == st.chords && r.value.timeInEighths == st.timeInEighths
  {
    var value := Trim(group);
    if field == "T" {
      assert ReadField(st, field, group) == Ok(st.(title := value));
    } else if field == "C" {
      assert ReadField(st, field, group) == Ok(st.(composer := value));
    } else if field == "K" {
      assert ReadField(st, field, group) == Ok(st.(key := value));
    } else if field == "M" {
    } else {
      assert ReadField(st, field, group) == Ok(st);
    }
  }

  /** Every line keeps the reading consistent. */
  lemma ReadLineConsistent(st: Reading, line: string)
    requires Consistent(st)
    ensures var r := ReadLine(st, line); r.Ok? ==> Consistent(r.value)
  {
    if !(|line| > 0 && line[0] == '%') {
      match Header(line)
      case Some((field, group)) =>
        ReadFieldKeeps(st, field, group);
      case None =>
        var tokens := SplitOnSpaces(line);
        ReadTokensConsistent(st, tokens, |tokens|);
    }
  }

  /**
   * Whatever a score reads as is consistent: the time reached is the total
   * duration of the lead, every duration is one digit, and the chord
   * changes come in time order, each where a lead note starts or at the
   * end of the lead.
   */
  lemma {:induction false} ReadLinesConsistent(lines: seq<string>, k: nat)
    requires k <= |lines|
    ensures var r := ReadLines(lines, k); r.Ok? ==> Consistent(r.value)
    decreases k
  {
    if k == 0 {
      assert AtOnset([], 0) by {
        assert Onset([], 0) == 0;
      }
    } else {
      ReadLinesConsistent(lines, k - 1);
      var prev := Fold(ReadLine, Start, lines, k - 1);
      if prev.Ok? {
        ReadLineConsistent(prev.value, lines[k - 1]);
      }
    }
  }

  // ---------------------------------------------------------------------
  // Reading into a score

  /** The score holds what has been read: the metadata, the lead as its
      second part, the chord timeline, and `time` is the time reached. */
  predicate Holds(score: Score, st: Reading, time: int)
    reads score
  {
    score.parts == [[], st.lead, [], []] && score.chords == st.chords &&
    score.title == st.title && score.composer == st.composer && score.key == st.key &&
    score.quartersPerMeasure == st.quartersPerMeasure && time == st.timeInEighths
  }

  /** The header branch of `read`. */
  method ReadHeader(score: Score, field: string, group: string, ghost st: Reading, time: int) returns (r: Result<()>)
    requires Holds(score, st, time)
    modifies score
    ensures var spec := ReadField(st, field, group);
            (r.Err? <==> spec.Err?) && (r.Err? ==> r.error == spec.error) && (r.Ok? ==> Holds(score, spec.value, time))
  {
    var value := Trim(group);
    if field == "T" {
      score.SetTitle(value);
    } else if field == "C" {
      score.SetComposer(value);
    } else if field == "K" {
      score.SetKey(value);
    } else if field == "M" {
      if |value| == 0 {
        return Err(StringIndexOutOfBounds);
      }
      var q := DigitToken(value[..1]);
      if q.Err? {
        return Err(q.error);
      }
      score.SetQuartersPerMeasure(q.value);
    }
    return Ok(());
  }

  /** One more token read: a bar line changes nothing, a chord is added at
      the time reached, a note is appended and moves the time on, and a
      failing token is the end. */
  lemma TokenStep(st: Reading, tokens: seq<string>, k: nat, cur: Reading)
    requires k < |tokens| && Fold(ReadToken, st, tokens, k) == Ok(cur)
    ensures Fold(ReadToken, st, tokens, k + 1) == ReadToken(cur, tokens[k])
  {
  }

  lemma ChordStep(st: Reading, tokens: seq<string>, k: nat, cur: Reading, chord: Chord)
    requires k < |tokens| && Fold(ReadToken, st, tokens, k) == Ok(cur)
    requires var pn := tokens[k]; |pn| >= 2 && pn[0] == '"' && chord == ChordNamed(pn[1..|pn| - 1])
    ensures Fold(ReadToken, st, tokens, k + 1) == Ok(cur.(chords := cur.chords + [ChordChange(cur.timeInEighths, chord)]))
  {
    TokenStep(st, tokens, k, cur);
  }

  lemma NoteStep(st: Reading, tokens: seq<string>, k: nat, cur: Reading, note: Note)
    requires k < |tokens| && Fold(ReadToken, st, tokens, k) == Ok(cur)
    requires var pn := tokens[k]; !(|pn| > 0 && (pn[0] == '|' || pn[0] == '"')) && NoteToken(pn) == Ok(note)
    ensures Fold(ReadToken, st, tokens, k + 1) == Ok(cur.(lead := cur.lead + [note], timeInEighths := cur.timeInEighths + note.duration))
  {
    TokenStep(st, tokens, k, cur);
  }

  lemma TokenFails(st: Reading, tokens: seq<string>, k: nat, cur: Reading, e: JavaException)
    requires k < |tokens| && Fold(ReadToken, st, tokens, k) == Ok(cur)
    requires ReadToken(cur, tokens[k]) == Err(e)
    ensures ReadTokens(st, tokens, |tokens|) == Err(e)
  {
    TokenStep(st, tokens, k, cur);
    FoldFailFrom(ReadToken, st, tokens, k + 1, |tokens|);
  }

  /** The music line of the arranger's test song, split into its tokens. */
  const TestSongTokens: seq<string> :=
    ["\"C\"", "C,2", "d''2", "_E2", "^F2", "|", "\"G7\"", "C2", "D2", "|]"]

  /** The test song's chord tokens: "C" is C major and "G7" the seventh
      chord on G. */
  lemma TestChordC()
    ensures ChordToken("\"C\"") == Ok(Chord(0, Major))
  {
    ChordNameRoundTrip(0, Major);
    assert NoteNames[0] + Major.Name() == "C";
    assert "\"C\""[1..2] == "C";
  }

  lemma TestChordG7()
    ensures ChordToken("\"G7\"") == Ok(Chord(7, Seventh))
  {
    ChordNameRoundTrip(7, Seventh);
    assert NoteNames[7] + Seventh.Name() == "G7";
    assert "\"G7\""[1..3] == "G7";
  }

  /** The test song's lead notes and chord changes. */
  const TestSongNotes: seq<Note> := [Note(48, 2), Note(98, 2), Note(63, 2), Note(66, 2), Note(60, 2), Note(62, 2)]
  const TestSongChanges: seq<ChordChange> := [ChordChange(0, Chord(0, Major)), ChordChange(8, Chord(7, Seventh))]

  /** How many of the first `i` tokens of the test song's line are notes,
      and how many are chords. */
  function SongNotesBefore(i: nat): nat {
    if i <= 1 then 0 else if i <= 5 then i - 1 else if i <= 7 then 4 else if i == 8 then 5 else 6
  }

  function SongChordsBefore(i: nat): nat {
    if i == 0 then 0 else if i <= 6 then 1 else 2
  }

  /** The reading after the first `i` tokens of the test song's line. */
  function SongReadingAt(i: nat): Reading
    requires i <= 10
  {
    Start.(lead := TestSongNotes[..SongNotesBefore(i)],
           chords := TestSongChanges[..SongChordsBefore(i)],
           timeInEighths := 2 * SongNotesBefore(i))
  }

  /** After a note token of the test song the reading holds the next lead
      note and the time two eighths later. */
  lemma SongAfterNote(i: nat)
    requires i < 10 && SongNotesBefore(i + 1) == SongNotesBefore(i) + 1 && SongChordsBefore(i + 1) == SongChordsBefore(i)
    ensures var st := SongReadingAt(i);
            st.(lead := st.lead + [TestSongNotes[SongNotesBefore(i)]], timeInEighths := st.timeInEighths + 2) == SongReadingAt(i + 1)
  {
    SongLeadStep(SongNotesBefore(i));
  }

  /** A note token appends its note to the lead and advances the time. */
  lemma NoteTokenRead(st: Reading, token: string, note: Note)
    requires |token| > 0 && token[0] != '|' && token[0] != '"' && NoteToken(token) == Ok(note)
    ensures ReadToken(st, token) == Ok(st.(lead := st.lead + [note], timeInEighths := st.timeInEighths + note.duration))
  {
  }

  /** Each lead note of the test song lasts two eighths. */
  lemma SongLeadStep(k: nat)
    requires k < 6
    ensures TestSongNotes[..k + 1] == TestSongNotes[..k] + [TestSongNotes[k]]
    ensures TestSongNotes[k].duration == 2
  {
  }

  /** A chord token of the test song adds the next chord change. */
  lemma SongChordStep(i: nat)
    requires i < 10 && SongNotesBefore(i + 1) == SongNotesBefore(i) && SongChordsBefore(i + 1) == SongChordsBefore(i) + 1
    requires TestSongChanges[SongChordsBefore(i)].startTime == 2 * SongNotesBefore(i)
    requires var token := TestSongTokens[i];
             |token| > 0 && token[0] == '"' && ChordToken(token) == Ok(TestSongChanges[SongChordsBefore(i)].chord)
    ensures ReadToken(SongReadingAt(i), TestSongTokens[i]) == Ok(SongReadingAt(i + 1))
  {
    var c := SongChordsBefore(i);
    assert TestSongChanges[..c + 1] == TestSongChanges[..c] + [TestSongChanges[c]];
  }

  /** A note token of the test song, given as text, takes one reading to
      the next. */
  lemma SongNote(i: nat, token: string)
    requires i < 10 && SongNotesBefore(i + 1) == SongNotesBefore(i) + 1 && SongChordsBefore(i + 1) == SongChordsBefore(i)
    requires TestSongTokens[i] == token && |token| > 0 && token[0] != '|' && token[0] != '"'
    requires NoteToken(token) == Ok(TestSongNotes[SongNotesBefore(i)])
    ensures ReadToken(SongReadingAt(i), TestSongTokens[i]) == Ok(SongReadingAt(i + 1))
  {
    var note := TestSongNotes[SongNotesBefore(i)];
    NoteTokenRead(SongReadingAt(i), token, note);
    SongLeadStep(SongNotesBefore(i));
    SongAfterNote(i);
  }

  /** Each token of the test song's line takes one reading to the next. */
  lemma SongStep(i: nat)
    requires i < 10
    ensures ReadToken(SongReadingAt(i), TestSongTokens[i]) == Ok(SongReadingAt(i + 1))
  {
    if i == 0 {
      SongReadsChordC(i);
    } else if i == 1 {
      SongReadsCLow(i);
    } else if i == 2 {
      SongReadsDHigh(i);
    } else if i == 3 {
      SongReadsEFlat(i);
    } else if i == 4 {
      SongReadsFSharp(i);
    } else if i == 6 {
      SongReadsChordG7(i);
    } else if i == 7 {
      SongReadsCMiddle(i);
    } else if i == 8 {
      SongReadsDMiddle(i);
    }
  }

  /** The steps of the test song's line for its chord and note tokens. */
  lemma SongReadsChordC(i: nat)
    requires i == 0
    ensures ReadToken(SongReadingAt(i), TestSongTokens[i]) == Ok(SongReadingAt(i + 1))
  {
    TestChordC();
    SongChordStep(0);
  }

  lemma SongReadsCLow(i: nat)
    requires i == 1
    ensures ReadToken(SongReadingAt(i), TestSongTokens[i]) == Ok(SongReadingAt(i + 1))
  {
    TestTokenCLow();
    SongNote(1, "C,2");
  }

  lemma SongReadsDHigh(i: nat)
    requires i == 2
    ensures ReadToken(SongReadingAt(i), TestSongTokens[i]) == Ok(SongReadingAt(i + 1))
  {
    TestTokenDHigh();
    SongNote(2, "d''2");
  }

  lemma SongReadsEFlat(i: nat)
    requires i == 3
    ensures ReadToken(SongReadingAt(i), TestSongTokens[i]) == Ok(SongReadingAt(i + 1))
  {
    TestTokenEFlat();
    SongNote(3, "_E2");
  }

  lemma SongReadsFSharp(i: nat)
    requires i == 4
    ensures ReadToken(SongReadingAt(i), TestSongTokens[i]) == Ok(SongReadingAt(i + 1))
  {
    TestTokenFSharp();
    SongNote(4, "^F2");
  }

  lemma SongReadsChordG7(i: nat)
    requires i == 6
    ensures ReadToken(SongReadingAt(i), TestSongTokens[i]) == Ok(SongReadingAt(i + 1))
  {
    TestChordG7();
    SongChordStep(6);
  }

  lemma SongReadsCMiddle(i: nat)
    requires i == 7
    ensures ReadToken(SongReadingAt(i), TestSongTokens[i]) == Ok(SongReadingAt(i + 1))
  {
    TestTokenCMiddle();
    SongNote(7, "C2");
  }

  lemma SongReadsDMiddle(i: nat)
    requires i == 8
    ensures ReadToken(SongReadingAt(i), TestSongTokens[i]) == Ok(SongReadingAt(i + 1))
  {
    TestTokenDMiddle();
    SongNote(8, "D2");
  }

  /** Reading items one by one through a chain of states ends in the last. */
  lemma {:induction false} FoldChain<T>(step: (Reading, T) -> Result<Reading>, states: seq<Reading>, items: seq<T>, k: nat)
    requires |states| == |items| + 1 && k <= |items|
    requires forall i :: 0 <= i < |items| ==> step(states[i], items[i]) == Ok(states[i + 1])
    ensures Fold(step, states[0], items, k) == Ok(states[k])
  {
    if k > 0 {
      FoldChain(step, states, items, k - 1);
    }
  }

  /** The test song's music line: six lead notes of two eighths each
      (C3, D7, E flat 4, F sharp 4, C4, D4), C major from time 0 and G7
      from time 8, where the fifth note starts; the bar lines are skipped. */
  lemma TestSongLine()
    ensures ReadTokens(Start, TestSongTokens, |TestSongTokens|) ==
            Ok(Start.(lead := TestSongNotes, chords := TestSongChanges, timeInEighths := 12))
  {
    var states := seq(11, (i: nat) requires i <= 10 => SongReadingAt(i));
    forall i | 0 <= i < 10
      ensures ReadToken(states[i], TestSongTokens[i]) == Ok(states[i + 1])
    {
      SongStep(i);
    }
    FoldChain(ReadToken, states, TestSongTokens, 10);
    assert states[0] == Start;
    assert TestSongNotes[..6] == TestSongNotes && TestSongChanges[..2] == TestSongChanges;
  }

  /** In the test song's timeline C major sounds from time 0 to 7 and G7
      from time 8 on. */
  lemma TestSongChords(time: int)
    requires time >= 0
    ensures ChordAtTime(TestSongChanges, time) == Some(if time < 8 then Chord(0, Major) else Chord(7, Seventh))
  {
    if time < 8 {
      ChordOnInterval(TestSongChanges, 0, time);
    } else {
      ChordOnInterval(TestSongChanges, 1, time);
    }
  }

  /** The token loop of `read` over one music line; the result is the time
      reached. */
  method ReadMusicLine(score: Score, tokens: seq<string>, time: int, ghost st: Reading) returns (r: Result<int>)
    requires Holds(score, st, time)
    modifies score
    ensures var spec := ReadTokens(st, tokens, |tokens|);
            (r.Err? <==> spec.Err?) && (r.Err? ==> r.error == spec.error) && (r.Ok? ==> Holds(score, spec.value, r.value))
  {
    var t := time;
    ghost var cur := st;
    for k := 0 to |tokens|
      invariant Fold(ReadToken, st, tokens, k) == Ok(cur) && Holds(score, cur, t)
    {
      var pn := tokens[k];
      if |pn| > 0 && pn[0] == '|' {
        TokenStep(st, tokens, k, cur);
      } else if |pn| > 0 && pn[0] == '"' {
        if |pn| < 2 {
          TokenFails(st, tokens, k, cur, StringIndexOutOfBounds);
          return Err(StringIndexOutOfBounds);
        }
        var chord := LookupName(pn[1..|pn| - 1]);
        ChordStep(st, tokens, k, cur, chord);
        score.AddChord(t, chord);
        cur := cur.(chords := cur.chords + [ChordChange(cur.timeInEighths, chord)]);
      } else {
        var note := ParseAbcNote(pn);
        if note.Err? {
          TokenFails(st, tokens, k, cur, note.error);
          return Err(note.error);
        }
        NoteStep(st, tokens, k, cur, note.value);
        var added := score.AddNote(1, note.value);
        t := t + note.value.duration;
        cur := cur.(lead := cur.lead + [note.value], timeInEighths := cur.timeInEighths + note.value.duration);
      }
    }
    return Ok(t);
  }

  /** One more line read: a comment changes nothing, a header sets its
      field and any other line is music. */
  lemma LineStep(lines: seq<string>, i: nat, st: Reading)
    requires i < |lines| && Fold(ReadLine, Start, lines, i) == Ok(st)
    ensures Fold(ReadLine, Start, lines, i + 1) == ReadLine(st, lines[i])
  {
  }

  lemma LineFails(lines: seq<string>, i: nat, st: Reading, e: JavaException)
    requires i < |lines| && Fold(ReadLine, Start, lines, i) == Ok(st)
    requires ReadLine(st, lines[i]) == Err(e)
    ensures ReadLines(lines, |lines|) == Err(e)
  {
    LineStep(lines, i, st);
    FoldFailFrom(ReadLine, Start, lines, i + 1, |lines|);
  }

  /**
   * `read`, on the lines the reader delivers: one new score, each line
   * read in turn; the first exception ends the reading.
   */
  method Read(lines: seq<string>) returns (r: Result<Score>)
    ensures var spec := ReadLines(lines, |lines|);
            (r.Err? <==> spec.Err?) && (r.Err? ==> r.error == spec.error) &&
            (r.Ok? ==> Holds(r.value, spec.value, spec.value.timeInEighths))
  {
    var score := new Score("", "", "", 4);
    var timeInEighths := 0;
    ghost var st := Start;
    for i := 0 to |lines|
      invariant Fold(ReadLine, Start, lines, i) == Ok(st) && Holds(score, st, timeInEighths)
    {
      var line := lines[i];
      LineStep(lines, i, st);
      if |line| > 0 && line[0] == '%' {
      } else {
        var m := Header(line);
        if m.Some? {
          var done := ReadHeader(score, m.value.0, m.value.1, st, timeInEighths);
          if done.Err? {
            LineFails(lines, i, st, done.error);
            return Err(done.error);
          }
          st := ReadField(st, m.value.0, m.value.1).value;
        } else {
          var tokens := SplitOnSpaces(line);
          var t := ReadMusicLine(score, tokens, timeInEighths, st);
          if t.Err? {
            LineFails(lines, i, st, t.error);
            return Err(t.error);
          }
          timeInEighths := t.value;
          st := ReadTokens(st, tokens, |tokens|).value;
        }
      }
    }
    return Ok(score);
  }
}
