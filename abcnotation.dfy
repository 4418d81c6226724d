/**
 * ABC note tokens as sections 4.1 (pitch) and 4.2 (accidentals) of the ABC
 * notation standard v2.1 read them, and the measure counter with which
 * both writers place bar lines. The reader here is the reference the
 * writers and the parser are held against; it covers the tokens made of
 * an optional accidental mark, one letter, octave marks and a duration.
 */
module AbcNotation {
  import opened JavaLang
  import opened Notes
  import opened Keys
  import opened Spelling
  import opened Scores

  // ---------------------------------------------------------------------
  // Writing a letter in an octave

  /** `count` copies of a character; none when `count` is not positive. */
  function Repeat(c: char, count: int): (s: string)
    ensures |s| == if count > 0 then count else 0
    ensures forall k :: 0 <= k < |s| ==> s[k] == c
  {
    seq(if count > 0 then count else 0, _ => c)
  }

  /** One more copy of a character goes at the end. */
  lemma RepeatSnoc(c: char, k: int)
    requires k >= 0
    ensures Repeat(c, k + 1) == Repeat(c, k) + [c]
  {
  }

  /** `String.toLowerCase` on ASCII letters. */
  function LowerCase(s: string): (r: string)
    ensures |r| == |s| && forall k :: 0 <= k < |s| ==> r[k] == ToLower(s[k])
  {
    seq(|s|, k requires 0 <= k < |s| => ToLower(s[k]))
  }

  /** `String.toUpperCase` on ASCII letters. */
  function UpperCase(s: string): (r: string)
    ensures |r| == |s| && forall k :: 0 <= k < |s| ==> r[k] == ToUpper(s[k])
  {
    seq(|s|, k requires 0 <= k < |s| => ToUpper(s[k]))
  }

  /** A note name set in an octave as both writers do it: from octave 5 up
      the name in lower case with an apostrophe per octave above 5, below
      that in upper case with a comma per octave below 4. */
  function WithOctave(name: string, octave: int): string {
    if octave >= 5 then LowerCase(name) + Repeat('\'', octave - 5)
    else UpperCase(name) + Repeat(',', 4 - octave)
  }

  // ---------------------------------------------------------------------
  // Reading a token

  /** The accidental an ABC mark stands for: sharp, flat or natural. */
  function MarkAccidental(c: char): (r: Option<int>)
    ensures r.Some? <==> c == '^' || c == '_' || c == '='
  {
    match c
    case '^' => Some(1)
    case '_' => Some(-1)
    case '=' => Some(0)
    case _ => None
  }

  /** The number of copies of `c` that `s` starts with. */
  function RunLength(s: string, c: char): (k: nat)
    ensures k <= |s|
    decreases |s|
  {
    if |s| > 0 && s[0] == c then 1 + RunLength(s[1..], c) else 0
  }

  /**
   * The note an ABC token denotes under a key signature. Upper-case
   * letters lie in the octave starting at middle C (C4, MIDI 60),
   * lower-case ones an octave higher; each ',' after an upper-case letter
   * lowers and each apostrophe after a lower-case one raises by an octave.
   * A marked letter takes the accidental of its mark, an unmarked one the
   * accidental the signature gives its letter. The digits that follow are
   * the duration in eighths. Any other token denotes nothing.
   */
  function ReadAbcNote(token: string, key: Key): Option<Note> {
    if |token| > 0 && MarkAccidental(token[0]).Some? then ReadLetter(token[1..], MarkAccidental(token[0]), key)
    else ReadLetter(token, None, key)
  }

  /** The letter, octave marks and duration of a token whose accidental
      mark, if any, has been read. */
  function ReadLetter(body: string, explicit: Option<int>, key: Key): Option<Note> {
    if |body| == 0 then None
    else
      var letter := body[0];
      var idx := LetterIndex(ToUpper(letter));
      if idx < 0 then None
      else
        var upper := IsAsciiUpper(letter);
        var rest := body[1..];
        var marks := RunLength(rest, if upper then ',' else '\'');
        var digits := rest[marks..];
        if |digits| == 0 || !AllDigits(digits) then None
        else
          var octave := if upper then 4 - marks else 5 + marks;
          var accidental := if explicit.Some? then explicit.value else key.GetAccidentalForNote(BaseNotes[idx]);
          Some(Note(12 * (octave + 1) + NaturalPitchClasses[idx] + accidental, DigitsValue(digits)))
  }

  /** The accidental a written name carries under a key: its mark if it
      has one, else the signature's accidental on its (last) letter. */
  function WrittenAccidental(abcName: string, key: Key): int
    requires |abcName| > 0
  {
    var explicit := MarkAccidental(abcName[0]);
    if explicit.Some? then explicit.value else key.GetAccidentalForNote([abcName[|abcName| - 1]])
  }

  /** The accidental of a letter after at most one mark. */
  lemma WrittenAccidentalOfLetter(pre: string, idx: int, key: Key)
    requires pre == "" || pre == "^" || pre == "_" || pre == "="
    requires 0 <= idx < |BaseNotes|
    ensures WrittenAccidental(pre + BaseNotes[idx], key) ==
            if pre == "" then key.GetAccidentalForNote(BaseNotes[idx]) else MarkAccidental(pre[0]).value
  {
    LetterCases(idx);
    var w := pre + BaseNotes[idx];
    assert w[0] == if pre == "" then BaseNotes[idx][0] else pre[0];
    assert [w[|w| - 1]] == BaseNotes[idx];
  }

  lemma {:induction false} RunLengthOfRepeat(c: char, m: int, s: string)
    requires |s| > 0 && s[0] != c
    ensures RunLength(Repeat(c, m) + s, c) == if m > 0 then m else 0
    decreases if m > 0 then m else 0
  {
    if m > 0 {
      var t := Repeat(c, m) + s;
      assert t == [c] + (Repeat(c, m - 1) + s);
      assert t[1..] == Repeat(c, m - 1) + s;
      RunLengthOfRepeat(c, m - 1, s);
    } else {
      assert Repeat(c, m) + s == s;
    }
  }

  /** The letters, marks and digits the writers use reach the reader case
      by case unchanged. */
  lemma LetterCases(idx: int)
    requires 0 <= idx < |BaseNotes|
    ensures var l := BaseNotes[idx][0];
            |BaseNotes[idx]| == 1 && IsAsciiUpper(l) && ToUpper(l) == l && LetterIndex(l) == idx &&
            ToUpper(ToLower(l)) == l && !IsAsciiUpper(ToLower(l)) && MarkAccidental(l).None? &&
            MarkAccidental(ToLower(l)).None?
  {
    NaturalIndexOfLetter(idx);
  }

  /** The letter a one-letter name is written with: upper case below
      octave 5, lower case from there. */
  function WrittenLetter(idx: int, upper: bool): char
    requires 0 <= idx < |BaseNotes|
  {
    if upper then BaseNotes[idx][0] else ToLower(BaseNotes[idx][0])
  }

  /** The octave mark written after a letter of that case. */
  function OctaveMark(upper: bool): char {
    if upper then ',' else '\''
  }

  /** Changing the case of a name of one letter after an accidental mark
      changes only the letter. */
  lemma CaseOfMarkedLetter(pre: string, idx: int)
    requires pre == "" || pre == "^" || pre == "_" || pre == "="
    requires 0 <= idx < |BaseNotes|
    ensures LowerCase(pre + BaseNotes[idx]) == pre + [WrittenLetter(idx, false)]
    ensures UpperCase(pre + BaseNotes[idx]) == pre + [WrittenLetter(idx, true)]
  {
    LetterCases(idx);
  }

  /** A name of one letter after an accidental mark, set in an octave: the
      mark, the letter in its case, then the octave marks. */
  lemma WithOctaveOfLetter(pre: string, idx: int, octave: int)
    requires pre == "" || pre == "^" || pre == "_" || pre == "="
    requires 0 <= idx < |BaseNotes|
    ensures var upper := octave < 5;
            WithOctave(pre + BaseNotes[idx], octave) ==
            pre + [WrittenLetter(idx, upper)] + Repeat(OctaveMark(upper), if upper then 4 - octave else octave - 5)
  {
    CaseOfMarkedLetter(pre, idx);
  }

  /**
   * A token written from a letter with an optional mark, an octave and a
   * duration reads back as that letter, with the mark's accidental or, when
   * unmarked, the signature's, in that octave, with that duration.
   */
  lemma ReadWrittenToken(pre: string, idx: int, octave: int, duration: nat, key: Key)
    requires pre == "" || pre == "^" || pre == "_" || pre == "="
    requires 0 <= idx < |BaseNotes|
    ensures var accidental := if pre == "" then key.GetAccidentalForNote(BaseNotes[idx]) else MarkAccidental(pre[0]).value;
            var r := ReadAbcNote(WithOctave(pre + BaseNotes[idx], octave) + NatToString(duration), key);
            r.Some? && r.value.midi == 12 * (octave + 1) + NaturalPitchClasses[idx] + accidental &&
            r.value.duration == duration
  {
    var digits := NatToString(duration);
    NatToStringRoundTrip(duration);
    var upper := octave < 5;
    var count: nat := if upper then 4 - octave else octave - 5;
    WithOctaveOfLetter(pre, idx, octave);
    var body := [WrittenLetter(idx, upper)] + (Repeat(OctaveMark(upper), count) + digits);
    var explicit := if pre == "" then None else MarkAccidental(pre[0]);
    ReadWrittenLetter(idx, upper, count, digits, explicit, key);
    TokenOfBody(pre, body, idx, upper, key);
    Regroup(pre, [WrittenLetter(idx, upper)], Repeat(OctaveMark(upper), count), digits);
  }

  lemma Regroup(a: string, b: string, c: string, d: string)
    ensures a + b + c + d == a + (b + (c + d))
  {
  }

  /** An accidental mark in front of a written letter is read as such, and
      an unmarked letter is not taken for a mark. */
  lemma TokenOfBody(pre: string, body: string, idx: int, upper: bool, key: Key)
    requires pre == "" || pre == "^" || pre == "_" || pre == "="
    requires 0 <= idx < |BaseNotes| && |body| > 0 && body[0] == WrittenLetter(idx, upper)
    ensures ReadAbcNote(pre + body, key) == ReadLetter(body, if pre == "" then None else MarkAccidental(pre[0]), key)
  {
    LetterCases(idx);
    if pre != "" {
      assert (pre + body)[0] == pre[0] && (pre + body)[1..] == body;
    } else {
      assert pre + body == body;
    }
  }

  /** The letter part of a written token reads back. */
  lemma ReadWrittenLetter(idx: int, upper: bool, count: nat, digits: string, explicit: Option<int>, key: Key)
    requires 0 <= idx < |BaseNotes| && |digits| > 0 && AllDigits(digits)
    ensures var accidental := if explicit.Some? then explicit.value else key.GetAccidentalForNote(BaseNotes[idx]);
            var octave := if upper then 4 - count else 5 + count;
            var r := ReadLetter([WrittenLetter(idx, upper)] + (Repeat(OctaveMark(upper), count) + digits), explicit, key);
            r.Some? && r.value.midi == 12 * (octave + 1) + NaturalPitchClasses[idx] + accidental &&
            r.value.duration == DigitsValue(digits)
  {
    LetterCases(idx);
    var rest := Repeat(OctaveMark(upper), count) + digits;
    var body := [WrittenLetter(idx, upper)] + rest;
    assert body[1..] == rest;
    RunLengthOfRepeat(OctaveMark(upper), count, digits);
    assert rest[count..] == digits;
  }

  // ---------------------------------------------------------------------
  // Bar lines

  /** The measure counter after the first `i` notes: the durations add up,
      and the counter drops back to 0 whenever it reaches a full measure. */
  function MeasureCount(notes: seq<Note>, i: nat, eighthsPerMeasure: int): int
    requires i <= |notes|
  {
    if i == 0 then 0
    else
      var t := MeasureCount(notes, i - 1, eighthsPerMeasure) + notes[i - 1].duration;
      if t >= eighthsPerMeasure then 0 else t
  }

  /** A bar line follows note `i`: with it the counter reaches a full
      measure. A note of no length at the start of a measure gets none. */
  predicate BarAfter(notes: seq<Note>, i: nat, eighthsPerMeasure: int)
    requires i < |notes|
  {
    MeasureCount(notes, i, eighthsPerMeasure) + notes[i].duration >= eighthsPerMeasure
  }

  /** No note is negative or runs past the end of its measure. */
  predicate FitsMeasures(notes: seq<Note>, eighthsPerMeasure: int)
    requires eighthsPerMeasure > 0
  {
    forall i :: 0 <= i < |notes| ==>
      notes[i].duration >= 0 && Onset(notes, i) % eighthsPerMeasure + notes[i].duration <= eighthsPerMeasure
  }

  /**
   * When no note crosses a measure boundary, the counter is the position
   * within the current measure, and a bar line follows a note of some
   * length exactly when the next onset starts a measure.
   */
  lemma {:induction false} BarsAtMeasureEnds(notes: seq<Note>, eighthsPerMeasure: int, i: nat)
    requires eighthsPerMeasure > 0 && FitsMeasures(notes, eighthsPerMeasure) && i <= |notes|
    ensures MeasureCount(notes, i, eighthsPerMeasure) == Onset(notes, i) % eighthsPerMeasure
    ensures i < |notes| ==>
              (BarAfter(notes, i, eighthsPerMeasure) <==> notes[i].duration > 0 && Onset(notes, i + 1) % eighthsPerMeasure == 0)
    decreases i
  {
    if i > 0 {
      BarsAtMeasureEnds(notes, eighthsPerMeasure, i - 1);
      CountStep(notes, eighthsPerMeasure, i - 1);
    }
    if i < |notes| {
      CountStep(notes, eighthsPerMeasure, i);
    }
  }

  /** One note on from a counter that is the position in the measure. */
  lemma CountStep(notes: seq<Note>, e: int, i: nat)
    requires e > 0 && FitsMeasures(notes, e) && i < |notes|
    requires MeasureCount(notes, i, e) == Onset(notes, i) % e
    ensures MeasureCount(notes, i + 1, e) == Onset(notes, i + 1) % e
    ensures BarAfter(notes, i, e) <==> notes[i].duration > 0 && Onset(notes, i + 1) % e == 0
  {
    var t := Onset(notes, i);
    var d := notes[i].duration;
    assert 0 <= d && t % e + d <= e;
    OnsetStep(notes, i);
    ModStep(t, d, e);
    var m := t % e;
    assert MeasureCount(notes, i + 1, e) == if m + d >= e then 0 else m + d;
    assert BarAfter(notes, i, e) <==> m + d >= e;
  }

  /** Adding what fits in the rest of a measure moves the position within
      it, and filling it exactly lands on the next measure. */
  lemma ModStep(t: int, d: int, e: int)
    requires e > 0 && 0 <= d && t % e + d <= e
    ensures t % e + d == e ==> (t + d) % e == 0
    ensures t % e + d < e ==> (t + d) % e == t % e + d
  {
    var q := t / e;
    assert t == q * e + t % e;
    if t % e + d == e {
      assert t + d == (q + 1) * e;
      ModUnique(t + d, q + 1, 0, e);
    } else {
      ModUnique(t + d, q, t % e + d, e);
    }
  }

  /** Quotient and remainder are unique. */
  lemma ModUnique(x: int, q: int, r: int, e: int)
    requires e > 0 && 0 <= r < e && x == q * e + r
    ensures x % e == r && x / e == q
  {
    var k := q - x / e;
    assert x == (x / e) * e + x % e;
    assert k * e == x % e - r by { assert k * e == q * e - (x / e) * e; }
    if k >= 1 {
      MulAtLeast(k, e);
    } else if k <= -1 {
      MulAtLeast(-k, e);
    }
  }

  lemma {:induction false} MulAtLeast(k: int, e: int)
    requires k >= 1 && e > 0
    ensures k * e >= e
    decreases k
  {
    if k > 1 {
      MulAtLeast(k - 1, e);
      assert k * e == (k - 1) * e + e;
    }
  }

  // ---------------------------------------------------------------------
  // The template's inputs

  /** What a writer's `write` hands to the template: the metadata, the
      time signature and the four part lines. */
  datatype AbcBindings = AbcBindings(title: string, composer: string, key: string, timesig: string, parts: seq<string>)
}
