/**
 * The scoring rules. Voicing rules judge one four-note chord (tenor, lead,
 * baritone, bass) against the chord symbol; voice-leading rules judge the
 * motion from one voicing to the next. A voicing rule may reject, which
 * the Java code signals with Integer.MIN_VALUE.
 */
module Rules {
  import opened JavaLang
  import opened Notes
  import opened Chords
  import opened VoiceParts

  /** The five penalty weights of the configuration's `scores` section. */
  datatype Weights = Weights(
    harmonyLeaps: int,
    parallelOctaves: int,
    tenorCrossing: int,
    unisonNotes: int,
    wideSpread: int)

  /** What a voicing rule says about a voicing: reject it, or add a score. */
  datatype Verdict = Reject | Penalty(score: int)

  /** The int the Java rule returns: Integer.MIN_VALUE stands for a rejection. */
  function JavaScore(v: Verdict): int {
    if v.Reject? then MinInt else v.score
  }

  /** Reading a Java rule result back. */
  function VerdictOf(x: int): Verdict {
    if x == MinInt then Reject else Penalty(x)
  }

  /** The sentinel is faithful: a score that is not itself MIN_VALUE reads
      back unchanged, and the engine's test `score > MIN_VALUE` accepts
      exactly the penalties. */
  lemma SentinelMatches(v: Verdict)
    requires v.Penalty? ==> MinInt < v.score
    ensures VerdictOf(JavaScore(v)) == v
    ensures JavaScore(v) > MinInt <==> v.Penalty?
  {
  }

  // ---------------------------------------------------------------------
  // Sets of notes

  /** The pitch classes occurring in a voicing. */
  function RelativeNotes(voicing: seq<Note>): set<int> {
    set i | 0 <= i < |voicing| :: voicing[i].RelativeNote()
  }

  /** `getDifferentAbsoluteNotes`: add the absolute pitch of each voice to a set. */
  method GetDifferentAbsoluteNotes(voicing: seq<Note>) returns (differentAbsoluteNotes: set<int>)
    ensures differentAbsoluteNotes == Pitches(voicing)
  {
    differentAbsoluteNotes := {};
    for i := 0 to |voicing|
      invariant differentAbsoluteNotes == Pitches(voicing[..i])
    {
      PitchesSnoc(voicing, i);
      differentAbsoluteNotes := differentAbsoluteNotes + {voicing[i].midi};
    }
    assert voicing[..|voicing|] == voicing;
  }

  lemma PitchesSnoc(notes: seq<Note>, i: int)
    requires 0 <= i < |notes|
    ensures Pitches(notes[..i + 1]) == Pitches(notes[..i]) + {notes[i].midi}
  {
    var a := notes[..i + 1];
    assert forall k :: 0 <= k < i ==> a[k] == notes[..i][k];
  }

  lemma RelativeNotesSnoc(notes: seq<Note>, i: int)
    requires 0 <= i < |notes|
    ensures RelativeNotes(notes[..i + 1]) == RelativeNotes(notes[..i]) + {notes[i].RelativeNote()}
  {
    var a := notes[..i + 1];
    assert forall k :: 0 <= k < i ==> a[k] == notes[..i][k];
  }

  /** The four pitches of a voicing, as a set display. */
  lemma PitchesOfFour(v: seq<Note>)
    requires |v| == 4
    ensures Pitches(v) == {v[0].midi, v[1].midi, v[2].midi, v[3].midi}
  {
    assert forall x :: x in Pitches(v) ==> x in {v[0].midi, v[1].midi, v[2].midi, v[3].midi};
    assert v[0].midi in Pitches(v) && v[1].midi in Pitches(v);
    assert v[2].midi in Pitches(v) && v[3].midi in Pitches(v);
  }

  /** Four voices sing between one and four different pitches, and four
      exactly when no two of them share a pitch. */
  lemma DifferentPitchesOfFour(v: seq<Note>)
    requires |v| == 4
    ensures 1 <= |Pitches(v)| <= 4
    ensures |Pitches(v)| == 4 <==> forall i, j :: 0 <= i < j < 4 ==> v[i].midi != v[j].midi
  {
    PitchesOfFour(v);
    var a, b, c, d := v[0].midi, v[1].midi, v[2].midi, v[3].midi;
    assert |{a}| == 1;
    assert |{a, b}| == if b == a then 1 else 2;
    assert |{a, b, c}| == |{a, b}| + if c in {a, b} then 0 else 1;
    assert |{a, b, c, d}| == |{a, b, c}| + if d in {a, b, c} then 0 else 1;
  }

  /** The pitch classes do not depend on the order of the voices. */
  lemma RelativeNotesOrderFree(v: seq<Note>, w: seq<Note>)
    requires multiset(v) == multiset(w)
    ensures RelativeNotes(v) == RelativeNotes(w)
  {
    forall x | x in RelativeNotes(v) ensures x in RelativeNotes(w) {
      var i :| 0 <= i < |v| && v[i].RelativeNote() == x;
      assert v[i] in multiset(w);
      var j :| 0 <= j < |w| && w[j] == v[i];
    }
    forall x | x in RelativeNotes(w) ensures x in RelativeNotes(v) {
      var j :| 0 <= j < |w| && w[j].RelativeNote() == x;
      assert w[j] in multiset(v);
      var i :| 0 <= i < |v| && v[i] == w[j];
    }
  }

  /** `Collections.max` and `Collections.min` of a non-empty set. */
  function SetMax(s: set<int>): (m: int)
    requires s != {}
    ensures m in s && forall x :: x in s ==> x <= m
  {
    SetHasMax(s);
    var m :| m in s && forall x :: x in s ==> x <= m;
    m
  }

  function SetMin(s: set<int>): (m: int)
    requires s != {}
    ensures m in s && forall x :: x in s ==> m <= x
  {
    SetHasMin(s);
    var m :| m in s && forall x :: x in s ==> m <= x;
    m
  }

  lemma SetHasMax(s: set<int>)
    requires s != {}
    ensures exists m :: m in s && forall x :: x in s ==> x <= m
  {
    var m := MaxWitness(s);
  }

  lemma SetHasMin(s: set<int>)
    requires s != {}
    ensures exists m :: m in s && forall x :: x in s ==> m <= x
  {
    var m := MinWitness(s);
  }

  lemma NonEmptyHasElement(s: set<int>)
    requires s != {}
    ensures exists y :: y in s
  {
    if forall y :: y !in s {
      assert false;
    }
  }

  /** A non-empty finite set has a largest element: take one out and
      compare it with the largest of the rest. */
  lemma {:induction false} MaxWitness(s: set<int>) returns (m: int)
    requires s != {}
    ensures m in s && forall x :: x in s ==> x <= m
    decreases |s|
  {
    NonEmptyHasElement(s);
    var y :| y in s;
    if s == {y} {
      m := y;
    } else {
      var rest := MaxWitness(s - {y});
      assert forall x :: x in s ==> x == y || x in s - {y};
      m := if y > rest then y else rest;
    }
  }

  lemma {:induction false} MinWitness(s: set<int>) returns (m: int)
    requires s != {}
    ensures m in s && forall x :: x in s ==> m <= x
    decreases |s|
  {
    NonEmptyHasElement(s);
    var y :| y in s;
    if s == {y} {
      m := y;
    } else {
      var rest := MinWitness(s - {y});
      assert forall x :: x in s ==> x == y || x in s - {y};
      m := if y < rest then y else rest;
    }
  }

  /** The highest and lowest of the voices' pitches. */
  function HighestVoice(v: seq<Note>): int
    requires |v| == 4
  {
    var a := if v[0].midi >= v[1].midi then v[0].midi else v[1].midi;
    var b := if v[2].midi >= v[3].midi then v[2].midi else v[3].midi;
    if a >= b then a else b
  }

  function LowestVoice(v: seq<Note>): int
    requires |v| == 4
  {
    var a := if v[0].midi <= v[1].midi then v[0].midi else v[1].midi;
    var b := if v[2].midi <= v[3].midi then v[2].midi else v[3].midi;
    if a <= b then a else b
  }

  /** The maximum and minimum over the set of different pitches are the
      highest and lowest voice. */
  lemma ExtremesOfDifferentNotes(v: seq<Note>)
    requires |v| == 4
    ensures Pitches(v) != {}
    ensures SetMax(Pitches(v)) == HighestVoice(v)
    ensures SetMin(Pitches(v)) == LowestVoice(v)
  {
    PitchesOfFour(v);
    var s := Pitches(v);
    var hi, lo := HighestVoice(v), LowestVoice(v);
    assert hi in s && lo in s;
    assert forall x :: x in s ==> lo <= x <= hi;
  }

  // ---------------------------------------------------------------------
  // Voicing rules

  /** `VoUseAllChordNotes`: reject a voicing with fewer different pitch
      classes than the chord has notes. It only counts: which pitch classes
      they are does not matter. */
  function UseAllChordNotes(voicing: seq<Note>, chord: Chord): Verdict {
    if |RelativeNotes(voicing)| < |ChordPitchClasses(chord)| then Reject else Penalty(0)
  }

  /** The rule's own steps: a set of the voices' relative notes, compared in
      size with the chord's notes. */
  method VoUseAllChordNotes(voicing: seq<Note>, chord: Chord) returns (r: Verdict)
    ensures r == UseAllChordNotes(voicing, chord)
  {
    var differentRelativeNotes: set<int> := {};
    for i := 0 to |voicing|
      invariant differentRelativeNotes == RelativeNotes(voicing[..i])
    {
      RelativeNotesSnoc(voicing, i);
      differentRelativeNotes := differentRelativeNotes + {voicing[i].RelativeNote()};
    }
    assert voicing[..|voicing|] == voicing;
    var chordNotes := GetNotes(chord);
    if |differentRelativeNotes| < |chordNotes| {
      r := Reject;
    } else {
      r := Penalty(0);
    }
  }

  /** A voicing that sounds every chord tone passes, and so does any
      voicing with as many pitch classes as the chord, chord tones or not;
      reordering the voices never changes the verdict. */
  lemma UseAllChordNotesMeaning(voicing: seq<Note>, other: seq<Note>, chord: Chord)
    requires multiset(voicing) == multiset(other)
    ensures ChordPitchClasses(chord) <= RelativeNotes(voicing) ==> UseAllChordNotes(voicing, chord) == Penalty(0)
    ensures UseAllChordNotes(voicing, chord) == UseAllChordNotes(other, chord)
    ensures UseAllChordNotes(voicing, chord) == Reject || UseAllChordNotes(voicing, chord) == Penalty(0)
  {
    RelativeNotesOrderFree(voicing, other);
    if ChordPitchClasses(chord) <= RelativeNotes(voicing) {
      SubsetSize(ChordPitchClasses(chord), RelativeNotes(voicing));
    }
  }

  lemma SubsetSize(a: set<int>, b: set<int>)
    requires a <= b
    ensures |a| <= |b|
  {
    assert b == (b - a) + a;
  }

  /** C, E, G and a C-sharp pass for C major even though C-sharp is no chord
      tone, while C, E and two Gs are rejected for C seventh. */
  lemma UseAllChordNotesExamples()
    ensures UseAllChordNotes([Note(64, 2), Note(60, 2), Note(55, 2), Note(49, 2)], Chord(0, Major)) == Penalty(0)
    ensures UseAllChordNotes([Note(67, 2), Note(60, 2), Note(55, 2), Note(52, 2)], Chord(0, Seventh)) == Reject
  {
    var v := [Note(64, 2), Note(60, 2), Note(55, 2), Note(49, 2)];
    assert RelativeNotes(v) == {4, 0, 7, 1} by {
      assert v[0].RelativeNote() == 4 && v[1].RelativeNote() == 0;
      assert v[2].RelativeNote() == 7 && v[3].RelativeNote() == 1;
    }
    ChordPitchClassCount(Chord(0, Major));
    var w := [Note(67, 2), Note(60, 2), Note(55, 2), Note(52, 2)];
    assert RelativeNotes(w) == {7, 0, 4} by {
      assert w[0].RelativeNote() == 7 && w[1].RelativeNote() == 0;
      assert w[2].RelativeNote() == 7 && w[3].RelativeNote() == 4;
    }
    ChordPitchClassCount(Chord(0, Seventh));
  }

  /** `VoBassLowest`: reject a voicing whose bass is above any other voice. */
  function BassLowest(voicing: seq<Note>): Verdict
    requires |voicing| == 4
  {
    var bassNote := voicing[Bass].midi;
    if bassNote > voicing[Bari].midi || bassNote > voicing[Lead].midi || bassNote > voicing[Tenor].midi then
      Reject
    else
      Penalty(0)
  }

  /** The bass passes exactly when it sings the lowest pitch of the voicing,
      sharing it with another voice allowed. */
  lemma BassLowestMeaning(voicing: seq<Note>)
    requires |voicing| == 4
    ensures BassLowest(voicing).Penalty? <==> voicing[Bass].midi == LowestVoice(voicing)
    ensures BassLowest(voicing).Penalty? ==> BassLowest(voicing).score == 0
    ensures voicing[Bass].midi == voicing[Bari].midi == LowestVoice(voicing) ==> BassLowest(voicing) == Penalty(0)
  {
  }

  /** `VoTenorCrossing`: the tenorCrossing weight when the tenor is below
      the lead or the baritone. */
  function TenorCrossing(voicing: seq<Note>, w: Weights): int
    requires |voicing| == 4
  {
    var tn := voicing[Tenor].midi;
    if tn < voicing[Lead].midi || tn < voicing[Bari].midi then w.tenorCrossing else 0
  }

  /** The tenor is penalised unless it is at least as high as lead and
      baritone, whatever the bass sings. */
  lemma TenorCrossingMeaning(voicing: seq<Note>, w: Weights, bass: Note)
    requires |voicing| == 4
    ensures voicing[Tenor].midi >= voicing[Lead].midi && voicing[Tenor].midi >= voicing[Bari].midi ==>
              TenorCrossing(voicing, w) == 0
    ensures voicing[Tenor].midi < voicing[Lead].midi || voicing[Tenor].midi < voicing[Bari].midi ==>
              TenorCrossing(voicing, w) == w.tenorCrossing
    ensures TenorCrossing(voicing[Bass := bass], w) == TenorCrossing(voicing, w)
  {
  }

  /** `VoUnisonNotes`: the unisonNotes weight when fewer than four
      different absolute pitches sound. */
  function UnisonNotes(voicing: seq<Note>, w: Weights): int {
    if |Pitches(voicing)| < 4 then w.unisonNotes else 0
  }

  /** A four-voice voicing is penalised exactly when two voices sing the
      same pitch; an octave doubling is not a unison. */
  lemma UnisonNotesMeaning(voicing: seq<Note>, w: Weights)
    requires |voicing| == 4
    ensures (exists i, j :: 0 <= i < j < 4 && voicing[i].midi == voicing[j].midi) ==>
              UnisonNotes(voicing, w) == w.unisonNotes
    ensures (forall i, j :: 0 <= i < j < 4 ==> voicing[i].midi != voicing[j].midi) ==>
              UnisonNotes(voicing, w) == 0
  {
    DifferentPitchesOfFour(voicing);
  }

  /** C4 and C5 in two voices is an octave doubling, not a unison. */
  lemma OctaveDoublingIsNoUnison(w: Weights)
    ensures UnisonNotes([Note(72, 2), Note(67, 2), Note(64, 2), Note(60, 2)], w) == 0
    ensures UnisonNotes([Note(67, 2), Note(64, 2), Note(64, 2), Note(60, 2)], w) == w.unisonNotes
  {
    UnisonNotesMeaning([Note(72, 2), Note(67, 2), Note(64, 2), Note(60, 2)], w);
    var v := [Note(67, 2), Note(64, 2), Note(64, 2), Note(60, 2)];
    assert v[1].midi == v[2].midi;
    UnisonNotesMeaning(v, w);
  }

  /** `VoWideSpread`: the wideSpread weight when the highest and lowest of
      the different pitches are more than an octave and a fifth apart. */
  function WideSpread(voicing: seq<Note>, w: Weights): int
    requires |voicing| == 4
  {
    PitchesOfFour(voicing);
    var differentAbsoluteNotes := Pitches(voicing);
    var highest := SetMax(differentAbsoluteNotes);
    var lowest := SetMin(differentAbsoluteNotes);
    if highest - lowest > 19 then w.wideSpread else 0
  }

  /** The spread is that of the outer voices; 19 semitones is still fine. */
  lemma WideSpreadMeaning(voicing: seq<Note>, w: Weights)
    requires |voicing| == 4
    ensures HighestVoice(voicing) - LowestVoice(voicing) > 19 ==> WideSpread(voicing, w) == w.wideSpread
    ensures HighestVoice(voicing) - LowestVoice(voicing) <= 19 ==> WideSpread(voicing, w) == 0
  {
    ExtremesOfDifferentNotes(voicing);
  }

  lemma WideSpreadExamples(w: Weights)
    ensures WideSpread([Note(67, 2), Note(64, 2), Note(60, 2), Note(48, 2)], w) == 0
    ensures WideSpread([Note(68, 2), Note(64, 2), Note(60, 2), Note(48, 2)], w) == w.wideSpread
  {
    WideSpreadMeaning([Note(67, 2), Note(64, 2), Note(60, 2), Note(48, 2)], w);
    WideSpreadMeaning([Note(68, 2), Note(64, 2), Note(60, 2), Note(48, 2)], w);
  }

  // ---------------------------------------------------------------------
  // Voice-leading rules

  /** A part that moves by more than a minor third. */
  predicate Leaps(from: seq<Note>, to: seq<Note>, part: int)
    requires |from| == 4 && |to| == 4 && 0 <= part < 4
  {
    from[part].AbsoluteDistance(to[part]) > 3
  }

  /** The tenor and baritone parts below `bound` that leap. */
  function LeapingPartsBelow(from: seq<Note>, to: seq<Note>, bound: int): set<int>
    requires |from| == 4 && |to| == 4
  {
    set part | 0 <= part < bound && part < 4 && (part == Tenor || part == Bari) && Leaps(from, to, part)
  }

  function LeapingParts(from: seq<Note>, to: seq<Note>): set<int>
    requires |from| == 4 && |to| == 4
  {
    LeapingPartsBelow(from, to, 4)
  }

  /** `LdHarmonyLeaps`: the harmonyLeaps weight once for every harmony part
      (tenor, baritone) that leaps. */
  function HarmonyLeaps(from: seq<Note>, to: seq<Note>, w: Weights): int
    requires |from| == 4 && |to| == 4
  {
    w.harmonyLeaps * |LeapingParts(from, to)|
  }

  /** The rule's loop over the parts. */
  method LdHarmonyLeaps(from: seq<Note>, to: seq<Note>, w: Weights) returns (score: int)
    requires |from| == 4 && |to| == 4
    ensures score == HarmonyLeaps(from, to, w)
  {
    score := 0;
    ghost var count := 0;
    for part := 0 to 4
      invariant count == |LeapingPartsBelow(from, to, part)|
      invariant score == w.harmonyLeaps * count
    {
      LeapingPartsStep(from, to, part);
      if part == Tenor || part == Bari {
        if from[part].AbsoluteDistance(to[part]) > 3 {
          MulSucc(w.harmonyLeaps, count);
          score := score + w.harmonyLeaps;
          count := count + 1;
        }
      }
    }
  }

  lemma LeapingPartsStep(from: seq<Note>, to: seq<Note>, part: int)
    requires |from| == 4 && |to| == 4 && 0 <= part < 4
    ensures LeapingPartsBelow(from, to, part + 1) ==
            LeapingPartsBelow(from, to, part) +
            (if (part == Tenor || part == Bari) && Leaps(from, to, part) then {part} else {})
    ensures |LeapingPartsBelow(from, to, part + 1)| ==
            |LeapingPartsBelow(from, to, part)| +
            (if (part == Tenor || part == Bari) && Leaps(from, to, part) then 1 else 0)
  {
    assert part !in LeapingPartsBelow(from, to, part);
  }

  /** The penalty is 0, once or twice the weight; only tenor and baritone
      count, a move of three semitones is free, and the rule reads the same
      backwards. */
  lemma HarmonyLeapsMeaning(from: seq<Note>, to: seq<Note>, w: Weights)
    requires |from| == 4 && |to| == 4
    ensures var k := |LeapingParts(from, to)|;
            0 <= k <= 2 && HarmonyLeaps(from, to, w) == k * w.harmonyLeaps
    ensures HarmonyLeaps(from, to, w) == HarmonyLeaps(to, from, w)
    ensures from[Tenor].AbsoluteDistance(to[Tenor]) <= 3 && from[Bari].AbsoluteDistance(to[Bari]) <= 3 ==>
              HarmonyLeaps(from, to, w) == 0
    ensures from[Tenor].AbsoluteDistance(to[Tenor]) > 3 && from[Bari].AbsoluteDistance(to[Bari]) > 3 ==>
              HarmonyLeaps(from, to, w) == 2 * w.harmonyLeaps
  {
    var s := LeapingParts(from, to);
    assert s <= {Tenor, Bari};
    SubsetSize(s, {Tenor, Bari});
    AbsoluteDistanceSymmetric(from[Tenor], to[Tenor], 0);
    AbsoluteDistanceSymmetric(from[Bari], to[Bari], 0);
    assert LeapingParts(to, from) == s;
    if from[Tenor].AbsoluteDistance(to[Tenor]) > 3 && from[Bari].AbsoluteDistance(to[Bari]) > 3 {
      assert s == {Tenor, Bari};
    }
  }

  /** Whatever lead and bass do, only the harmony parts count. */
  lemma HarmonyLeapsIgnoresLeadAndBass(from: seq<Note>, to: seq<Note>, lead: Note, bass: Note, w: Weights)
    requires |from| == 4 && |to| == 4
    ensures HarmonyLeaps(from, to[Lead := lead][Bass := bass], w) == HarmonyLeaps(from, to, w)
  {
    assert LeapingParts(from, to[Lead := lead][Bass := bass]) == LeapingParts(from, to);
  }

  /** Two voices an octave apart. */
  predicate OctaveApart(notes: seq<Note>, part: int, other: int)
    requires |notes| == 4 && 0 <= part < 4 && 0 <= other < 4
  {
    notes[part].AbsoluteDistance(notes[other]) == 12
  }

  /** The pairs part < other, up to (but excluding) the pair (`part`,
      `other`) in the loop's order, that are an octave apart before and
      after. */
  function ParallelPairsBefore(from: seq<Note>, to: seq<Note>, part: int, other: int): set<(int, int)>
    requires |from| == 4 && |to| == 4
  {
    set p, o | 0 <= p < o < 4 && (p < part || (p == part && o < other)) &&
               OctaveApart(from, p, o) && OctaveApart(to, p, o) :: (p, o)
  }

  function ParallelPairs(from: seq<Note>, to: seq<Note>): set<(int, int)>
    requires |from| == 4 && |to| == 4
  {
    ParallelPairsBefore(from, to, 4, 0)
  }

  /** `LdParallelOctaves`: the parallelOctaves weight once for each pair of
      voices that is an octave apart in both voicings. */
  function ParallelOctaves(from: seq<Note>, to: seq<Note>, w: Weights): int
    requires |from| == 4 && |to| == 4
  {
    w.parallelOctaves * |ParallelPairs(from, to)|
  }

  /** The rule's nested loop over the pairs of parts. */
  method LdParallelOctaves(from: seq<Note>, to: seq<Note>, w: Weights) returns (score: int)
    requires |from| == 4 && |to| == 4
    ensures score == ParallelOctaves(from, to, w)
  {
    score := 0;
    ghost var count := 0;
    for part := 0 to 4
      invariant count == |ParallelPairsBefore(from, to, part, 0)|
      invariant score == w.parallelOctaves * count
    {
      ParallelPairsRowStart(from, to, part);
      for other := part + 1 to 4
        invariant count == |ParallelPairsBefore(from, to, part, other)|
        invariant score == w.parallelOctaves * count
      {
        ParallelPairsStep(from, to, part, other);
        if from[part].AbsoluteDistance(from[other]) == 12 {
          if to[part].AbsoluteDistance(to[other]) == 12 {
            MulSucc(w.parallelOctaves, count);
            score := score + w.parallelOctaves;
            count := count + 1;
          }
        }
      }
      ParallelPairsRowEnd(from, to, part);
    }
  }

  lemma MulSucc(a: int, k: int)
    ensures a * (k + 1) == a * k + a
  {
  }

  lemma ParallelPairsStep(from: seq<Note>, to: seq<Note>, part: int, other: int)
    requires |from| == 4 && |to| == 4 && 0 <= part < other < 4
    ensures ParallelPairsBefore(from, to, part, other + 1) ==
            ParallelPairsBefore(from, to, part, other) +
            (if OctaveApart(from, part, other) && OctaveApart(to, part, other) then {(part, other)} else {})
    ensures |ParallelPairsBefore(from, to, part, other + 1)| ==
            |ParallelPairsBefore(from, to, part, other)| +
            (if OctaveApart(from, part, other) && OctaveApart(to, part, other) then 1 else 0)
  {
    assert (part, other) !in ParallelPairsBefore(from, to, part, other);
  }

  lemma ParallelPairsRowStart(from: seq<Note>, to: seq<Note>, part: int)
    requires |from| == 4 && |to| == 4
    ensures ParallelPairsBefore(from, to, part, part + 1) == ParallelPairsBefore(from, to, part, 0)
  {
  }

  lemma ParallelPairsRowEnd(from: seq<Note>, to: seq<Note>, part: int)
    requires |from| == 4 && |to| == 4
    ensures ParallelPairsBefore(from, to, part, 4) == ParallelPairsBefore(from, to, part + 1, 0)
  {
  }

  /** All six pairs of voices. */
  const AllPairs: set<(int, int)> := {(0, 1), (0, 2), (0, 3), (1, 2), (1, 3), (2, 3)}

  /** At most six pairs count, the rule reads the same backwards, and
      unisons or double octaves are no parallel octaves. */
  lemma ParallelOctavesMeaning(from: seq<Note>, to: seq<Note>, w: Weights)
    requires |from| == 4 && |to| == 4
    ensures var k := |ParallelPairs(from, to)|;
            0 <= k <= 6 && ParallelOctaves(from, to, w) == k * w.parallelOctaves
    ensures ParallelOctaves(from, to, w) == ParallelOctaves(to, from, w)
    ensures (forall p, o :: 0 <= p < o < 4 ==> from[p].AbsoluteDistance(from[o]) != 12) ==>
              ParallelOctaves(from, to, w) == 0
  {
    var s := ParallelPairs(from, to);
    assert s <= AllPairs;
    assert |AllPairs| == 6;
    SubsetPairsSize(s, AllPairs);
    assert ParallelPairs(to, from) == s;
  }

  lemma SubsetPairsSize(a: set<(int, int)>, b: set<(int, int)>)
    requires a <= b
    ensures |a| <= |b|
  {
    assert b == (b - a) + a;
  }

  /** Tenor and bass an octave apart over C to D: one parallel octave; a
      unison moving to a unison and a double octave moving in parallel are
      not counted. */
  lemma ParallelOctavesExamples(w: Weights)
    ensures ParallelOctaves([Note(60, 2), Note(55, 2), Note(52, 2), Note(48, 2)],
                            [Note(62, 2), Note(57, 2), Note(53, 2), Note(50, 2)], w) == w.parallelOctaves
    ensures ParallelOctaves([Note(72, 2), Note(64, 2), Note(64, 2), Note(48, 2)],
                            [Note(74, 2), Note(65, 2), Note(65, 2), Note(50, 2)], w) == 0
  {
    var a := [Note(60, 2), Note(55, 2), Note(52, 2), Note(48, 2)];
    var b := [Note(62, 2), Note(57, 2), Note(53, 2), Note(50, 2)];
    assert ParallelPairs(a, b) == {(0, 3)} by {
      assert OctaveApart(a, 0, 3) && OctaveApart(b, 0, 3);
      assert !OctaveApart(a, 0, 1) && !OctaveApart(a, 0, 2) && !OctaveApart(a, 1, 2);
      assert !OctaveApart(a, 1, 3) && !OctaveApart(a, 2, 3);
    }
    var c := [Note(72, 2), Note(64, 2), Note(64, 2), Note(48, 2)];
    var d := [Note(74, 2), Note(65, 2), Note(65, 2), Note(50, 2)];
    assert ParallelPairs(c, d) == {} by {
      assert !OctaveApart(c, 0, 1) && !OctaveApart(c, 0, 2) && !OctaveApart(c, 0, 3);
      assert !OctaveApart(c, 1, 2) && !OctaveApart(c, 1, 3) && !OctaveApart(c, 2, 3);
    }
  }
}
