/**
 * The arrangement engine of Arrange.java: the candidate notes of every
 * melody position, the voicing and transition scores, the layer-by-layer
 * search over voicings with its floor of -100, the choice of the best
 * final voicing and the walk back along the best backpointers.
 *
 * The loops are proved against the search stated in module Trellis, with
 * the problem `ProblemOf(slots, w)`: a voicing is admitted at a position
 * when it is one of the enumerated candidates, its bass may carry the
 * chord and its voicing score is not the reject sentinel.
 */
module Arrange {
  import opened JavaLang
  import opened Notes
  import opened Chords
  import opened VoiceParts
  import opened Rules
  import opened Scores
  import opened Trellis

  // ---------------------------------------------------------------------
  // Items

  /** `Item.equals`: two voicings are the same item when the four absolute
      pitches agree; durations are not compared. */
  predicate ItemEquals(a: Voicing, b: Voicing) {
    a[0].midi == b[0].midi && a[1].midi == b[1].midi &&
    a[2].midi == b[2].midi && a[3].midi == b[3].midi
  }

  /** All four notes last `duration`. */
  predicate SameDuration(v: Voicing, duration: int) {
    v[0].duration == duration && v[1].duration == duration &&
    v[2].duration == duration && v[3].duration == duration
  }

  /** Items ignore durations, so within one position, where every note has
      the melody note's duration, item equality is plain equality of
      voicings. */
  lemma ItemEqualsMeaning(a: Voicing, b: Voicing, duration: int)
    ensures ItemEquals(a, b) <==> forall p :: 0 <= p < 4 ==> a[p].midi == b[p].midi
    ensures SameDuration(a, duration) && SameDuration(b, duration) ==> (ItemEquals(a, b) <==> a == b)
  {
    if ItemEquals(a, b) && SameDuration(a, duration) && SameDuration(b, duration) {
      assert forall p :: 0 <= p < 4 ==> a[p] == b[p];
    }
  }

  /** The same chord sung in quarters and eighths is one item. */
  lemma ItemEqualsIgnoresDuration()
    ensures ItemEquals([Note(64, 2), Note(60, 2), Note(55, 2), Note(48, 2)],
                       [Note(64, 4), Note(60, 4), Note(55, 4), Note(48, 4)])
    ensures [Note(64, 2), Note(60, 2), Note(55, 2), Note(48, 2)] !=
            [Note(64, 4), Note(60, 4), Note(55, 4), Note(48, 4)]
  {
    var a: Voicing := [Note(64, 2), Note(60, 2), Note(55, 2), Note(48, 2)];
    var b: Voicing := [Note(64, 4), Note(60, 4), Note(55, 4), Note(48, 4)];
    assert a[0] != b[0];
  }

  // ---------------------------------------------------------------------
  // Scores of voicings and transitions

  /** `scoreLexicalChord`, in the order the engine evaluates it: too few
      pitch classes reject, the tenor-crossing penalty is added, a bass above
      another voice rejects, then unison and spread penalties are added. */
  function ScoreLexicalChord(v: Voicing, chord: Chord, w: Weights): int {
    var tn, ld, br, bs := v[Tenor], v[Lead], v[Bari], v[Bass];
    if |RelativeNotes(v)| < |ChordPitchClasses(chord)| then MinInt
    else
      var score := if tn.midi < ld.midi || tn.midi < br.midi then w.tenorCrossing else 0;
      if bs.midi > br.midi || bs.midi > ld.midi || bs.midi > tn.midi then MinInt
      else
        var differentAbsoluteNotes := Pitches(v);
        var score := if |differentAbsoluteNotes| < 4 then score + w.unisonNotes else score;
        PitchesOfFour(v);
        var highest := SetMax(differentAbsoluteNotes);
        var lowest := SetMin(differentAbsoluteNotes);
        if highest - lowest > 19 then score + w.wideSpread else score
  }

  /** The verdict of the five voicing rules taken together. */
  function VoicingVerdict(v: Voicing, chord: Chord, w: Weights): Verdict {
    if UseAllChordNotes(v, chord).Reject? || BassLowest(v).Reject? then Reject
    else Penalty(TenorCrossing(v, w) + UnisonNotes(v, w) + WideSpread(v, w))
  }

  function NegativePart(x: int): int {
    if x < 0 then x else 0
  }

  /** No sum of the three voicing penalties can reach Integer.MIN_VALUE. */
  predicate SentinelSafe(w: Weights) {
    MinInt < NegativePart(w.tenorCrossing) + NegativePart(w.unisonNotes) + NegativePart(w.wideSpread)
  }

  /** The engine's inlined scoring is the rules' verdict encoded with the
      sentinel; with weights that cannot reach the sentinel, the result is
      Integer.MIN_VALUE exactly when there are fewer pitch classes than
      chord notes or the bass is above another voice. */
  lemma LexicalScoreIsRuleVerdict(v: Voicing, chord: Chord, w: Weights)
    ensures ScoreLexicalChord(v, chord, w) == JavaScore(VoicingVerdict(v, chord, w))
    ensures SentinelSafe(w) ==>
              (ScoreLexicalChord(v, chord, w) == MinInt <==> VoicingVerdict(v, chord, w).Reject?)
    ensures SentinelSafe(w) ==>
              (ScoreLexicalChord(v, chord, w) == MinInt <==>
                 |RelativeNotes(v)| < |ChordPitchClasses(chord)| ||
                 v[Bass].midi > v[Bari].midi || v[Bass].midi > v[Lead].midi || v[Bass].midi > v[Tenor].midi)
  {
    PitchesOfFour(v);
    var t, u, s := TenorCrossing(v, w), UnisonNotes(v, w), WideSpread(v, w);
    assert NegativePart(w.tenorCrossing) <= t;
    assert NegativePart(w.unisonNotes) <= u;
    assert NegativePart(w.wideSpread) <= s;
  }

  /** `scoreTransition`: the harmony-leap and parallel-octave penalties. */
  function Transition(from: Voicing, to: Voicing, w: Weights): int {
    HarmonyLeaps(from, to, w) + ParallelOctaves(from, to, w)
  }

  // ---------------------------------------------------------------------
  // Positions, candidates and admitted voicings

  /** One melody position: the melody note and the chord sounding at its onset. */
  datatype Slot = Slot(melody: Note, chord: Chord)

  /** A note part `p` may sing at the position: it lasts as long as the
      melody note and is a chord tone within the part's range. */
  predicate PartCandidate(s: Slot, p: int, n: Note)
    requires 0 <= p < 4
  {
    n.duration == s.melody.duration &&
    n.midi in PitchesInRange(VoicePartTable[p], ChordPitchClasses(s.chord))
  }

  /** The voicings the engine enumerates at the position. */
  predicate Candidate(s: Slot, v: Voicing) {
    v[Lead] == s.melody && PartCandidate(s, Tenor, v[Tenor]) &&
    PartCandidate(s, Bari, v[Bari]) && PartCandidate(s, Bass, v[Bass])
  }

  /** A candidate voicing is admitted when its bass may carry the chord and
      the voicing score is not the reject sentinel. */
  predicate Accepted(s: Slot, v: Voicing, w: Weights) {
    IsAllowedBassNote(s.chord, v[Bass]) && ScoreLexicalChord(v, s.chord, w) > MinInt
  }

  // ---------------------------------------------------------------------
  // The positions of a score

  /** Some chord sounds at every melody onset. */
  predicate ChordsKnown(melody: seq<Note>, chords: seq<ChordChange>) {
    forall pos :: 0 <= pos < |melody| ==> OnsetChord(melody, chords, pos).Some?
  }

  /** The positions: each melody note with the chord at its onset. */
  function Slots(melody: seq<Note>, chords: seq<ChordChange>): (slots: seq<Slot>)
    requires ChordsKnown(melody, chords)
    ensures |slots| == |melody|
    ensures forall pos :: 0 <= pos < |melody| ==>
              slots[pos].melody == melody[pos] &&
              Some(slots[pos].chord) == OnsetChord(melody, chords, pos)
  {
    seq(|melody|, pos requires 0 <= pos < |melody| && ChordsKnown(melody, chords) =>
      Slot(melody[pos], OnsetChord(melody, chords, pos).value))
  }

  /** The search the engine performs over the positions of a melody. */
  function ProblemOf(slots: seq<Slot>, w: Weights): Problem {
    Problem(
      (pos: nat, v: Voicing) => pos < |slots| && Candidate(slots[pos], v) && Accepted(slots[pos], v, w),
      (pos: nat, v: Voicing) => if pos < |slots| then ScoreLexicalChord(v, slots[pos].chord, w) else 0,
      (u: Voicing, v: Voicing) => Transition(u, v, w))
  }

  /** Voicings admitted at one position agree in every duration, so as
      keys of a layer, items and voicings are the same thing. */
  lemma AdmittedItemsAreVoicings(slots: seq<Slot>, w: Weights, pos: nat, a: Voicing, b: Voicing)
    requires ProblemOf(slots, w).admitted(pos, a) && ProblemOf(slots, w).admitted(pos, b)
    ensures SameDuration(a, slots[pos].melody.duration) && SameDuration(b, slots[pos].melody.duration)
    ensures ItemEquals(a, b) <==> a == b
  {
    ItemEqualsMeaning(a, b, slots[pos].melody.duration);
  }

  // ---------------------------------------------------------------------
  // The transition score

  /** `scoreTransition`: its first loop adds the harmonyLeaps weight for a
      leaping tenor or baritone, its second the parallelOctaves weight for
      every pair of voices an octave apart before and after. The two loops
      are, statement for statement, the loops of the two voice-leading
      rules, so the model runs those. */
  method ScoreTransition(from: Voicing, to: Voicing, w: Weights) returns (score: int)
    ensures score == Transition(from, to, w)
  {
    var leaps := LdHarmonyLeaps(from, to, w);
    var octaves := LdParallelOctaves(from, to, w);
    score := leaps + octaves;
  }

  /** The transition score reads the same backwards and lies between the
      sums of the negative and of the positive parts of at most two leap
      and six octave weights. */
  lemma TransitionMeaning(from: Voicing, to: Voicing, w: Weights)
    ensures Transition(from, to, w) == Transition(to, from, w)
    ensures exists k, j :: 0 <= k <= 2 && 0 <= j <= 6 &&
              Transition(from, to, w) == k * w.harmonyLeaps + j * w.parallelOctaves
  {
    HarmonyLeapsMeaning(from, to, w);
    ParallelOctavesMeaning(from, to, w);
    var k, j := |LeapingParts(from, to)|, |ParallelPairs(from, to)|;
    assert Transition(from, to, w) == k * w.harmonyLeaps + j * w.parallelOctaves;
  }

  // ---------------------------------------------------------------------
  // Candidate notes

  /** The candidate list of a harmony part: every chord tone in the part's
      range, from low to high, with the melody note's duration. */
  predicate RangeList(s: Slot, p: int, list: seq<Note>)
    requires 0 <= p < 4
  {
    Pitches(list) == PitchesInRange(VoicePartTable[p], ChordPitchClasses(s.chord)) &&
    StrictlyAscending(list) &&
    forall i :: 0 <= i < |list| ==> list[i].duration == s.melody.duration
  }

  /** The candidate lists of a position, indexed by part: the melody note
      alone for the lead, range lists for the other parts. */
  predicate CandidateLists(s: Slot, lists: seq<seq<Note>>) {
    |lists| == 4 && lists[Lead] == [s.melody] &&
    RangeList(s, Tenor, lists[Tenor]) && RangeList(s, Bari, lists[Bari]) && RangeList(s, Bass, lists[Bass])
  }

  /** The body of the per-note callback of `computePossibleNotes`: the
      lead sings the melody note, every other part a range list of the
      chord's pitch classes. */
  method NotesAtTime(note: Note, chord: Chord) returns (notesAtTime: seq<seq<Note>>)
    ensures CandidateLists(Slot(note, chord), notesAtTime)
  {
    var chordNotes := GetNotes(chord);
    ghost var slot := Slot(note, chord);
    notesAtTime := [];
    for part := 0 to 4
      invariant |notesAtTime| == part
      invariant forall q :: 0 <= q < part ==>
                  (if q == Lead then notesAtTime[q] == [note] else RangeList(slot, q, notesAtTime[q]))
    {
      if part == Lead {
        notesAtTime := notesAtTime + [[note]];
      } else {
        var x := GetNotesInRange(VoicePartTable[part], chordNotes, note.duration);
        notesAtTime := notesAtTime + [x];
      }
    }
  }

  /** Every position has its candidate lists. */
  predicate AllCandidateLists(slots: seq<Slot>, possibleNotes: seq<seq<seq<Note>>>) {
    |slots| == |possibleNotes| &&
    forall pos :: 0 <= pos < |slots| ==> CandidateLists(slots[pos], possibleNotes[pos])
  }

  lemma AllCandidateListsSnoc(slots: seq<Slot>, possibleNotes: seq<seq<seq<Note>>>,
                              s: Slot, lists: seq<seq<Note>>)
    requires AllCandidateLists(slots, possibleNotes) && CandidateLists(s, lists)
    ensures AllCandidateLists(slots + [s], possibleNotes + [lists])
  {
    var ss, ps := slots + [s], possibleNotes + [lists];
    forall pos | 0 <= pos < |ss|
      ensures CandidateLists(ss[pos], ps[pos])
    {
      if pos < |slots| {
        assert ss[pos] == slots[pos] && ps[pos] == possibleNotes[pos];
      }
    }
  }

  /** The chord of each of the first |slots| melody notes. */
  predicate SlotsSoFar(melody: seq<Note>, chords: seq<ChordChange>, slots: seq<Slot>) {
    |slots| <= |melody| &&
    forall pos :: 0 <= pos < |slots| ==>
      slots[pos].melody == melody[pos] && Some(slots[pos].chord) == OnsetChord(melody, chords, pos)
  }

  lemma SlotsSoFarSnoc(melody: seq<Note>, chords: seq<ChordChange>, slots: seq<Slot>, chord: Chord)
    requires SlotsSoFar(melody, chords, slots) && |slots| < |melody|
    requires OnsetChord(melody, chords, |slots|) == Some(chord)
    ensures SlotsSoFar(melody, chords, slots + [Slot(melody[|slots|], chord)])
  {
    var ss := slots + [Slot(melody[|slots|], chord)];
    forall pos | 0 <= pos < |ss|
      ensures ss[pos].melody == melody[pos] && Some(ss[pos].chord) == OnsetChord(melody, chords, pos)
    {
      if pos < |slots| {
        assert ss[pos] == slots[pos];
      }
    }
  }

  /** `computePossibleNotes`: for each lead note, the chord at its onset
      and the candidate lists of the four parts. A melody note with no
      chord sounding fails with a NullPointerException. */
  method ComputePossibleNotes(score: Score) returns (r: Result<seq<seq<seq<Note>>>>)
    requires score.Valid()
    ensures r.Ok? <==> ChordsKnown(score.parts[Lead], score.chords)
    ensures r.Err? ==> r.error == NullPointer
    ensures r.Ok? ==> AllCandidateLists(Slots(score.parts[Lead], score.chords), r.value)
  {
    var melody := score.parts[Lead];
    var ret: seq<seq<seq<Note>>> := [];
    ghost var slots: seq<Slot> := [];
    var time := 0;
    for pos := 0 to |melody|
      invariant time == Onset(melody, pos) && |slots| == pos
      invariant SlotsSoFar(melody, score.chords, slots)
      invariant AllCandidateLists(slots, ret)
    {
      var note := melody[pos];
      var chord := score.GetChordAtTime(time);
      if chord.None? {
        assert OnsetChord(melody, score.chords, pos).None?;
        return Err(NullPointer);
      }
      assert OnsetChord(melody, score.chords, pos) == chord;
      var notesAtTime := NotesAtTime(note, chord.value);
      AllCandidateListsSnoc(slots, ret, Slot(note, chord.value), notesAtTime);
      SlotsSoFarSnoc(melody, score.chords, slots, chord.value);
      ret := ret + [notesAtTime];
      slots := slots + [Slot(note, chord.value)];
      OnsetStep(melody, pos);
      time := time + note.duration;
    }
    assert slots == Slots(melody, score.chords);
    return Ok(ret);
  }

  // ---------------------------------------------------------------------
  // The voicings the four candidate loops enumerate

  /** The notes of a candidate list. */
  function ElementsOf(list: seq<Note>): set<Note> {
    set i | 0 <= i < |list| :: list[i]
  }

  lemma ElementsSnoc(list: seq<Note>, i: nat)
    requires i < |list|
    ensures ElementsOf(list[..i + 1]) == ElementsOf(list[..i]) + {list[i]}
  {
    var a, b := list[..i + 1], list[..i];
    assert a[i] == list[i];
    forall x | x in ElementsOf(a)
      ensures x in ElementsOf(b) + {list[i]}
    {
      var j :| 0 <= j < |a| && a[j] == x;
      if j < i {
        assert b[j] == x;
      }
    }
    forall x | x in ElementsOf(b)
      ensures x in ElementsOf(a)
    {
      var j :| 0 <= j < |b| && b[j] == x;
      assert a[j] == x;
    }
  }

  /** A strictly ascending list never repeats a note. */
  lemma AscendingFresh(list: seq<Note>, i: nat)
    requires StrictlyAscending(list) && i < |list|
    ensures list[i] !in ElementsOf(list[..i])
  {
    forall j | 0 <= j < i
      ensures list[..i][j] != list[i]
    {
      assert list[j].midi < list[i].midi;
    }
  }

  /** The voicings with tenor, lead, baritone and bass from the four sets. */
  ghost function Combos(tenors: set<Note>, leads: set<Note>, baris: set<Note>, basses: set<Note>): set<Voicing> {
    set tn, ld, br, bs | tn in tenors && ld in leads && br in baris && bs in basses :: [tn, ld, br, bs]
  }

  lemma ComboMember(tenors: set<Note>, leads: set<Note>, baris: set<Note>, basses: set<Note>, v: Voicing)
    ensures v in Combos(tenors, leads, baris, basses) <==>
              v[Tenor] in tenors && v[Lead] in leads && v[Bari] in baris && v[Bass] in basses
  {
    if v[Tenor] in tenors && v[Lead] in leads && v[Bari] in baris && v[Bass] in basses {
      assert v == [v[Tenor], v[Lead], v[Bari], v[Bass]];
    }
  }

  /** Combos of a union, one coordinate at a time. */
  lemma CombosUnionTenor(a: set<Note>, a2: set<Note>, b: set<Note>, c: set<Note>, d: set<Note>)
    ensures Combos(a + a2, b, c, d) == Combos(a, b, c, d) + Combos(a2, b, c, d)
  {
    forall v: Voicing
      ensures v in Combos(a + a2, b, c, d) <==> v in Combos(a, b, c, d) + Combos(a2, b, c, d)
    {
      ComboMember(a + a2, b, c, d, v); ComboMember(a, b, c, d, v); ComboMember(a2, b, c, d, v);
    }
  }

  lemma CombosUnionLead(a: set<Note>, b: set<Note>, b2: set<Note>, c: set<Note>, d: set<Note>)
    ensures Combos(a, b + b2, c, d) == Combos(a, b, c, d) + Combos(a, b2, c, d)
  {
    forall v: Voicing
      ensures v in Combos(a, b + b2, c, d) <==> v in Combos(a, b, c, d) + Combos(a, b2, c, d)
    {
      ComboMember(a, b + b2, c, d, v); ComboMember(a, b, c, d, v); ComboMember(a, b2, c, d, v);
    }
  }

  lemma CombosUnionBari(a: set<Note>, b: set<Note>, c: set<Note>, c2: set<Note>, d: set<Note>)
    ensures Combos(a, b, c + c2, d) == Combos(a, b, c, d) + Combos(a, b, c2, d)
  {
    forall v: Voicing
      ensures v in Combos(a, b, c + c2, d) <==> v in Combos(a, b, c, d) + Combos(a, b, c2, d)
    {
      ComboMember(a, b, c + c2, d, v); ComboMember(a, b, c, d, v); ComboMember(a, b, c2, d, v);
    }
  }

  lemma CombosUnionBass(a: set<Note>, b: set<Note>, c: set<Note>, d: set<Note>, d2: set<Note>)
    ensures Combos(a, b, c, d + d2) == Combos(a, b, c, d) + Combos(a, b, c, d2)
  {
    forall v: Voicing
      ensures v in Combos(a, b, c, d + d2) <==> v in Combos(a, b, c, d) + Combos(a, b, c, d2)
    {
      ComboMember(a, b, c, d + d2, v); ComboMember(a, b, c, d, v); ComboMember(a, b, c, d2, v);
    }
  }

  /** No combos when one of the sets is empty. */
  lemma CombosEmpty(a: set<Note>, b: set<Note>, c: set<Note>, d: set<Note>)
    ensures Combos({}, b, c, d) == {} && Combos(a, {}, c, d) == {}
    ensures Combos(a, b, {}, d) == {} && Combos(a, b, c, {}) == {}
  {
    forall v: Voicing
      ensures v !in Combos({}, b, c, d) && v !in Combos(a, {}, c, d)
      ensures v !in Combos(a, b, {}, d) && v !in Combos(a, b, c, {})
    {
      ComboMember({}, b, c, d, v); ComboMember(a, {}, c, d, v);
      ComboMember(a, b, {}, d, v); ComboMember(a, b, c, {}, v);
    }
  }

  lemma CombosSingle(tn: Note, ld: Note, br: Note, bs: Note)
    ensures Combos({tn}, {ld}, {br}, {bs}) == {[tn, ld, br, bs]}
  {
    forall v: Voicing
      ensures v in Combos({tn}, {ld}, {br}, {bs}) <==> v == [tn, ld, br, bs]
    {
      ComboMember({tn}, {ld}, {br}, {bs}, v);
    }
  }

  /** A note of a range list is a candidate of its part, and every
      candidate of the part is in the list. */
  lemma RangeListElements(s: Slot, p: int, list: seq<Note>, n: Note)
    requires 0 <= p < 4 && RangeList(s, p, list)
    ensures n in ElementsOf(list) <==> PartCandidate(s, p, n)
  {
    if n in ElementsOf(list) {
      var i :| 0 <= i < |list| && list[i] == n;
      assert n.midi in Pitches(list);
    }
    if PartCandidate(s, p, n) {
      assert n.midi in Pitches(list);
      var i :| 0 <= i < |list| && list[i].midi == n.midi;
      assert list[i] == n;
    }
  }

  /** The candidate lists enumerate exactly the candidate voicings. */
  lemma CandidateListsCover(s: Slot, lists: seq<seq<Note>>, v: Voicing)
    requires CandidateLists(s, lists)
    ensures Candidate(s, v) <==>
              v in Combos(ElementsOf(lists[Tenor]), ElementsOf(lists[Lead]), ElementsOf(lists[Bari]), ElementsOf(lists[Bass]))
  {
    ComboMember(ElementsOf(lists[Tenor]), ElementsOf(lists[Lead]), ElementsOf(lists[Bari]), ElementsOf(lists[Bass]), v);
    RangeListElements(s, Tenor, lists[Tenor], v[Tenor]);
    RangeListElements(s, Bari, lists[Bari], v[Bari]);
    RangeListElements(s, Bass, lists[Bass], v[Bass]);
    assert lists[Lead][0] == s.melody;
    assert v[Lead] in ElementsOf(lists[Lead]) <==> v[Lead] == s.melody;
  }

  // ---------------------------------------------------------------------
  // Building one layer

  /** `put` on a list multimap: the entry is appended to the key's list. */
  function Put(m: map<Voicing, seq<Backpointer>>, k: Voicing, b: Backpointer): map<Voicing, seq<Backpointer>> {
    m[k := (if k in m then m[k] else []) + [b]]
  }

  /** `m` is `m0` with at most the entry of `k` added or changed. */
  predicate DiffersAtMost<V(==)>(m0: map<Voicing, V>, m: map<Voicing, V>, k: Voicing) {
    (k in m ==> m == m0[k := m[k]]) && (k !in m ==> m == m0)
  }

  lemma PutAtOneKey(m0: map<Voicing, seq<Backpointer>>, m: map<Voicing, seq<Backpointer>>, k: Voicing, b: Backpointer)
    requires DiffersAtMost(m0, m, k)
    ensures DiffersAtMost(m0, Put(m, k, b), k)
  {
  }

  lemma UpdateAtOneKey(m0: map<Voicing, int>, m: map<Voicing, int>, k: Voicing, x: int)
    requires DiffersAtMost(m0, m, k)
    ensures DiffersAtMost(m0, m[k := x], k)
  {
  }

  /** Moving one element from the remaining set to the done set. */
  lemma MoveOne(remaining: set<Voicing>, done: set<Voicing>, all: set<Voicing>, u: Voicing)
    requires remaining + done == all && remaining !! done && u in remaining
    ensures (remaining - {u}) + (done + {u}) == all && (remaining - {u}) !! (done + {u})
    ensures |remaining - {u}| < |remaining|
  {
  }

  /** `p` scores position `pos` as the engine scores the slot `s`. */
  ghost predicate ScoresSlot(p: Problem, pos: nat, s: Slot, w: Weights) {
    (forall v :: p.admitted(pos, v) <==> Candidate(s, v) && Accepted(s, v, w)) &&
    (forall v :: p.lex(pos, v) == ScoreLexicalChord(v, s.chord, w)) &&
    (forall u, v :: p.trans(u, v) == Transition(u, v, w))
  }

  lemma ProblemOfScoresSlots(slots: seq<Slot>, w: Weights, pos: nat)
    requires pos < |slots|
    ensures ScoresSlot(ProblemOf(slots, w), pos, slots[pos], w)
  {
  }

  /** After the predecessors in `done`, the best of `v`: stored exactly
      when one of them reaches it at or above the floor, and then the
      largest such total. */
  ghost predicate BestSoFar(p: Problem, pos: nat, prevBest: map<Voicing, int>, done: set<Voicing>,
                            v: Voicing, best: map<Voicing, int>) {
    (v in best <==> exists u :: u in done && u in prevBest && Total(p, pos, prevBest, u, v) >= Floor) &&
    (v in best ==>
       Floor <= best[v] &&
       (exists u :: u in done && u in prevBest && Total(p, pos, prevBest, u, v) == best[v]) &&
       (forall u :: u in done && u in prevBest && Total(p, pos, prevBest, u, v) >= Floor ==>
          Total(p, pos, prevBest, u, v) <= best[v]))
  }

  /** After the predecessors in `done`, the backpointers of `v`: present
      exactly when one of them reaches it at or above the floor, and then
      an edge for each such predecessor and no other. */
  ghost predicate ColumnSoFar(p: Problem, pos: nat, prevBest: map<Voicing, int>, done: set<Voicing>,
                              v: Voicing, col: map<Voicing, seq<Backpointer>>) {
    (v in col <==> exists u :: u in done && u in prevBest && Total(p, pos, prevBest, u, v) >= Floor) &&
    (v in col ==>
       0 < |col[v]| &&
       (forall e :: e in col[v] ==>
          e.Edge? && e.previousItem in done && e.previousItem in prevBest &&
          e.score == Total(p, pos, prevBest, e.previousItem, v) && e.score >= Floor) &&
       (forall u :: u in done && u in prevBest && Total(p, pos, prevBest, u, v) >= Floor ==>
          Edge(u, Total(p, pos, prevBest, u, v)) in col[v]))
  }

  lemma BestStep(p: Problem, pos: nat, prevBest: map<Voicing, int>, done: set<Voicing>,
                 v: Voicing, best: map<Voicing, int>, u: Voicing, total: int)
    requires BestSoFar(p, pos, prevBest, done, v, best)
    requires u in prevBest && total == Total(p, pos, prevBest, u, v)
    ensures BestSoFar(p, pos, prevBest, done + {u}, v,
                      if total >= Floor && (v !in best || best[v] < total) then best[v := total] else best)
  {
  }

  lemma ColumnStep(p: Problem, pos: nat, prevBest: map<Voicing, int>, done: set<Voicing>,
                   v: Voicing, col: map<Voicing, seq<Backpointer>>, u: Voicing, total: int)
    requires ColumnSoFar(p, pos, prevBest, done, v, col)
    requires u in prevBest && total == Total(p, pos, prevBest, u, v)
    ensures ColumnSoFar(p, pos, prevBest, done + {u}, v,
                        if total >= Floor then Put(col, v, Edge(u, total)) else col)
  {
    if total >= Floor {
      var c := Put(col, v, Edge(u, total));
      assert c[v] == (if v in col then col[v] else []) + [Edge(u, total)];
      forall e: Backpointer | e in c[v]
        ensures e.Edge? && e.previousItem in done + {u} && e.previousItem in prevBest &&
                e.score == Total(p, pos, prevBest, e.previousItem, v) && e.score >= Floor
      {
        if e != Edge(u, total) {
          assert e in col[v];
        }
      }
    }
  }

  /** The body of the loop over the previous layer (lines 93-105): the
      total through the stored predecessor `u`; when it clears the floor,
      an edge from `u`, and the total becomes the best of `v` if it beats
      the best so far. */
  method ConsiderPredecessor(ghost p: Problem, pos: nat, bestScores: map<Voicing, int>, v: Voicing, itemScore: int,
                             w: Weights, u: Voicing, ghost done: set<Voicing>,
                             ghost bestScoresNext: map<Voicing, int>, ghost backpointersNext: map<Voicing, seq<Backpointer>>,
                             best0: map<Voicing, int>, col0: map<Voicing, seq<Backpointer>>)
    returns (best: map<Voicing, int>, col: map<Voicing, seq<Backpointer>>)
    requires u in bestScores && p.lex(pos, v) == itemScore
    requires forall a, b :: p.trans(a, b) == Transition(a, b, w)
    requires BestSoFar(p, pos, bestScores, done, v, best0) && ColumnSoFar(p, pos, bestScores, done, v, col0)
    requires DiffersAtMost(bestScoresNext, best0, v) && DiffersAtMost(backpointersNext, col0, v)
    ensures BestSoFar(p, pos, bestScores, done + {u}, v, best) && ColumnSoFar(p, pos, bestScores, done + {u}, v, col)
    ensures DiffersAtMost(bestScoresNext, best, v) && DiffersAtMost(backpointersNext, col, v)
  {
    best, col := best0, col0;
    var transitionScore := ScoreTransition(u, v, w);
    var totalScore := itemScore + transitionScore + bestScores[u];
    BestStep(p, pos, bestScores, done, v, best, u, totalScore);
    ColumnStep(p, pos, bestScores, done, v, col, u, totalScore);
    if totalScore >= Floor {
      PutAtOneKey(backpointersNext, col, v, Edge(u, totalScore));
      col := Put(col, v, Edge(u, totalScore));
      if v !in best || best[v] < totalScore {
        UpdateAtOneKey(bestScoresNext, best, v, totalScore);
        best := best[v := totalScore];
      }
    }
  }

  /** The loop over the previous layer (lines 92-106) for the voicing `v`:
      an edge from every stored predecessor whose total clears the floor,
      and the best of those totals. No other cell changes. */
  method AddEdges(ghost p: Problem, pos: nat, bestScores: map<Voicing, int>, v: Voicing, itemScore: int, w: Weights,
                  bestScoresNext: map<Voicing, int>, backpointersNext: map<Voicing, seq<Backpointer>>)
    returns (best: map<Voicing, int>, col: map<Voicing, seq<Backpointer>>)
    requires v !in bestScoresNext && v !in backpointersNext
    requires p.lex(pos, v) == itemScore
    requires forall a, b :: p.trans(a, b) == Transition(a, b, w)
    ensures BestSoFar(p, pos, bestScores, bestScores.Keys, v, best)
    ensures ColumnSoFar(p, pos, bestScores, bestScores.Keys, v, col)
    ensures DiffersAtMost(bestScoresNext, best, v) && DiffersAtMost(backpointersNext, col, v)
  {
    best, col := bestScoresNext, backpointersNext;
    var remaining := bestScores.Keys;
    ghost var done: set<Voicing> := {};
    while remaining != {}
      invariant remaining + done == bestScores.Keys && remaining !! done
      invariant BestSoFar(p, pos, bestScores, done, v, best)
      invariant ColumnSoFar(p, pos, bestScores, done, v, col)
      invariant DiffersAtMost(bestScoresNext, best, v) && DiffersAtMost(backpointersNext, col, v)
      decreases |remaining|
    {
      var u :| u in remaining;
      best, col := ConsiderPredecessor(p, pos, bestScores, v, itemScore, w, u, done,
                                       bestScoresNext, backpointersNext, best, col);
      MoveOne(remaining, done, bestScores.Keys, u);
      remaining := remaining - {u};
      done := done + {u};
    }
  }

  /** The cell the edge loop leaves for an admitted voicing is complete,
      and present exactly when the voicing enters the layer. */
  lemma CellFromEdges(p: Problem, pos: nat, prevBest: map<Voicing, int>, v: Voicing,
                      best: map<Voicing, int>, col: map<Voicing, seq<Backpointer>>)
    requires 0 < pos && p.admitted(pos, v)
    requires BestSoFar(p, pos, prevBest, prevBest.Keys, v, best)
    requires ColumnSoFar(p, pos, prevBest, prevBest.Keys, v, col)
    ensures Entered(p, pos, prevBest, v) <==> v in best
    ensures v in best <==> v in col
    ensures v in best ==> CellOk(p, pos, prevBest, v, best, col)
  {
  }

  /** The body of the innermost candidate loop (lines 80-107) for the
      voicing `v`: a voicing whose score is not the reject sentinel gets
      one null backpointer and its voicing score at the first position,
      and its edges and best at later ones. The layer then covers `v`. */
  method EnterVoicing(ghost p: Problem, ghost s: Slot, w: Weights, pos: nat, bestScores: map<Voicing, int>,
                      chordHere: Chord, v: Voicing, ghost considered: set<Voicing>,
                      bestScoresNext: map<Voicing, int>, backpointersNext: map<Voicing, seq<Backpointer>>)
    returns (best: map<Voicing, int>, col: map<Voicing, seq<Backpointer>>)
    requires ScoresSlot(p, pos, s, w) && s.chord == chordHere
    requires Candidate(s, v) && IsAllowedBassNote(chordHere, v[Bass])
    requires LayerOn(p, pos, bestScores, considered, bestScoresNext, backpointersNext) && v !in considered
    ensures LayerOn(p, pos, bestScores, considered + {v}, best, col)
  {
    var itemScore := ScoreLexicalChord(v, chordHere, w);
    assert p.admitted(pos, v) <==> itemScore > MinInt;
    assert p.lex(pos, v) == itemScore;
    if itemScore > MinInt {
      if pos == 0 {
        col := Put(backpointersNext, v, Lexical);
        best := bestScoresNext[v := itemScore];
        assert CellOk(p, 0, bestScores, v, best, col);
      } else {
        best, col := AddEdges(p, pos, bestScores, v, itemScore, w, bestScoresNext, backpointersNext);
        CellFromEdges(p, pos, bestScores, v, best, col);
      }
      LayerOnInsert(p, pos, bestScores, considered, bestScoresNext, backpointersNext, v, best, col);
    } else {
      best, col := bestScoresNext, backpointersNext;
      LayerOnSkip(p, pos, bestScores, considered, {v}, best, col);
    }
  }

  /** The tenor loop (line 79) for fixed lead, baritone and bass notes:
      the layer comes to cover every voicing with a listed tenor. */
  method EnterTenors(ghost p: Problem, ghost s: Slot, w: Weights, pos: nat, bestScores: map<Voicing, int>,
                     notesHere: seq<seq<Note>>, chordHere: Chord, ld: Note, br: Note, bs: Note,
                     ghost considered: set<Voicing>,
                     bestScoresNext: map<Voicing, int>, backpointersNext: map<Voicing, seq<Backpointer>>)
    returns (best: map<Voicing, int>, col: map<Voicing, seq<Backpointer>>)
    requires ScoresSlot(p, pos, s, w) && s.chord == chordHere && CandidateLists(s, notesHere)
    requires ld in ElementsOf(notesHere[Lead]) && br in ElementsOf(notesHere[Bari]) && bs in ElementsOf(notesHere[Bass])
    requires IsAllowedBassNote(chordHere, bs)
    requires LayerOn(p, pos, bestScores, considered, bestScoresNext, backpointersNext)
    requires forall u :: u in considered ==> !(u[Lead] == ld && u[Bari] == br && u[Bass] == bs)
    ensures LayerOn(p, pos, bestScores, considered + Combos(ElementsOf(notesHere[Tenor]), {ld}, {br}, {bs}), best, col)
  {
    var tenors := notesHere[Tenor];
    best, col := bestScoresNext, backpointersNext;
    CombosEmpty({}, {ld}, {br}, {bs});
    assert ElementsOf(tenors[..0]) == {};
    for m := 0 to |tenors|
      invariant LayerOn(p, pos, bestScores, considered + Combos(ElementsOf(tenors[..m]), {ld}, {br}, {bs}), best, col)
    {
      var tn := tenors[m];
      var v: Voicing := [tn, ld, br, bs];
      ghost var before := considered + Combos(ElementsOf(tenors[..m]), {ld}, {br}, {bs});
      AscendingFresh(tenors, m);
      ComboMember(ElementsOf(tenors[..m]), {ld}, {br}, {bs}, v);
      assert tn in ElementsOf(tenors);
      CandidateListsCover(s, notesHere, v);
      ComboMember(ElementsOf(notesHere[Tenor]), ElementsOf(notesHere[Lead]), ElementsOf(notesHere[Bari]),
                  ElementsOf(notesHere[Bass]), v);
      best, col := EnterVoicing(p, s, w, pos, bestScores, chordHere, v, before, best, col);
      ElementsSnoc(tenors, m);
      CombosUnionTenor(ElementsOf(tenors[..m]), {tn}, {ld}, {br}, {bs});
      CombosSingle(tn, ld, br, bs);
    }
    assert tenors[..|tenors|] == tenors;
  }

  /** The baritone loop (line 78) for fixed lead and bass notes. */
  method EnterBaritones(ghost p: Problem, ghost s: Slot, w: Weights, pos: nat, bestScores: map<Voicing, int>,
                        notesHere: seq<seq<Note>>, chordHere: Chord, ld: Note, bs: Note,
                        ghost considered: set<Voicing>,
                        bestScoresNext: map<Voicing, int>, backpointersNext: map<Voicing, seq<Backpointer>>)
    returns (best: map<Voicing, int>, col: map<Voicing, seq<Backpointer>>)
    requires ScoresSlot(p, pos, s, w) && s.chord == chordHere && CandidateLists(s, notesHere)
    requires ld in ElementsOf(notesHere[Lead]) && bs in ElementsOf(notesHere[Bass])
    requires IsAllowedBassNote(chordHere, bs)
    requires LayerOn(p, pos, bestScores, considered, bestScoresNext, backpointersNext)
    requires forall u :: u in considered ==> !(u[Lead] == ld && u[Bass] == bs)
    ensures LayerOn(p, pos, bestScores,
                    considered + Combos(ElementsOf(notesHere[Tenor]), {ld}, ElementsOf(notesHere[Bari]), {bs}), best, col)
  {
    var baris := notesHere[Bari];
    ghost var tenors := ElementsOf(notesHere[Tenor]);
    best, col := bestScoresNext, backpointersNext;
    CombosEmpty(tenors, {ld}, {}, {bs});
    assert ElementsOf(baris[..0]) == {};
    for k := 0 to |baris|
      invariant LayerOn(p, pos, bestScores, considered + Combos(tenors, {ld}, ElementsOf(baris[..k]), {bs}), best, col)
    {
      var br := baris[k];
      ghost var before := considered + Combos(tenors, {ld}, ElementsOf(baris[..k]), {bs});
      AscendingFresh(baris, k);
      forall u | u in before
        ensures !(u[Lead] == ld && u[Bari] == br && u[Bass] == bs)
      {
        if u !in considered {
          ComboMember(tenors, {ld}, ElementsOf(baris[..k]), {bs}, u);
        }
      }
      assert br in ElementsOf(baris);
      best, col := EnterTenors(p, s, w, pos, bestScores, notesHere, chordHere, ld, br, bs, before, best, col);
      ElementsSnoc(baris, k);
      CombosUnionBari(tenors, {ld}, ElementsOf(baris[..k]), {br}, {bs});
    }
    assert baris[..|baris|] == baris;
  }

  /** The lead loop (line 77) for a fixed bass note; the lead list holds
      the melody note alone. */
  method EnterLeads(ghost p: Problem, ghost s: Slot, w: Weights, pos: nat, bestScores: map<Voicing, int>,
                    notesHere: seq<seq<Note>>, chordHere: Chord, bs: Note,
                    ghost considered: set<Voicing>,
                    bestScoresNext: map<Voicing, int>, backpointersNext: map<Voicing, seq<Backpointer>>)
    returns (best: map<Voicing, int>, col: map<Voicing, seq<Backpointer>>)
    requires ScoresSlot(p, pos, s, w) && s.chord == chordHere && CandidateLists(s, notesHere)
    requires bs in ElementsOf(notesHere[Bass]) && IsAllowedBassNote(chordHere, bs)
    requires LayerOn(p, pos, bestScores, considered, bestScoresNext, backpointersNext)
    requires forall u :: u in considered ==> u[Bass] != bs
    ensures LayerOn(p, pos, bestScores,
                    considered + Combos(ElementsOf(notesHere[Tenor]), ElementsOf(notesHere[Lead]),
                                        ElementsOf(notesHere[Bari]), {bs}), best, col)
  {
    var leads := notesHere[Lead];
    ghost var tenors, baris := ElementsOf(notesHere[Tenor]), ElementsOf(notesHere[Bari]);
    best, col := bestScoresNext, backpointersNext;
    CombosEmpty(tenors, {}, baris, {bs});
    assert ElementsOf(leads[..0]) == {};
    for j := 0 to |leads|
      invariant LayerOn(p, pos, bestScores, considered + Combos(tenors, ElementsOf(leads[..j]), baris, {bs}), best, col)
    {
      var ld := leads[j];
      ghost var before := considered + Combos(tenors, ElementsOf(leads[..j]), baris, {bs});
      assert j == 0 && ElementsOf(leads[..j]) == {};
      assert before == considered;
      assert ld in ElementsOf(leads);
      best, col := EnterBaritones(p, s, w, pos, bestScores, notesHere, chordHere, ld, bs, before, best, col);
      ElementsSnoc(leads, j);
      CombosUnionLead(tenors, ElementsOf(leads[..j]), {ld}, baris, {bs});
    }
    assert leads[..|leads|] == leads;
  }

  /** The body of the position loop (lines 69-113): the bass loop, which
      skips a bass note the chord does not allow, over the lead,
      baritone and tenor loops. The layer it builds is complete. */
  method ArrangeLayer(ghost p: Problem, ghost s: Slot, w: Weights, pos: nat, bestScores: map<Voicing, int>,
                      notesHere: seq<seq<Note>>, chordHere: Chord)
    returns (bestScoresNext: map<Voicing, int>, backpointersNext: map<Voicing, seq<Backpointer>>)
    requires ScoresSlot(p, pos, s, w) && s.chord == chordHere && CandidateLists(s, notesHere)
    ensures LayerSpec(p, pos, bestScores, bestScoresNext, backpointersNext)
  {
    var basses := notesHere[Bass];
    ghost var tenors, leads, baris :=
      ElementsOf(notesHere[Tenor]), ElementsOf(notesHere[Lead]), ElementsOf(notesHere[Bari]);
    bestScoresNext, backpointersNext := map[], map[];
    CombosEmpty(tenors, leads, baris, {});
    assert ElementsOf(basses[..0]) == {};
    for i := 0 to |basses|
      invariant LayerOn(p, pos, bestScores, Combos(tenors, leads, baris, ElementsOf(basses[..i])),
                        bestScoresNext, backpointersNext)
    {
      var bs := basses[i];
      ghost var before := Combos(tenors, leads, baris, ElementsOf(basses[..i]));
      ghost var these := Combos(tenors, leads, baris, {bs});
      if IsAllowedBassNote(chordHere, bs) {
        AscendingFresh(basses, i);
        forall u | u in before
          ensures u[Bass] != bs
        {
          ComboMember(tenors, leads, baris, ElementsOf(basses[..i]), u);
        }
        assert bs in ElementsOf(basses);
        bestScoresNext, backpointersNext :=
          EnterLeads(p, s, w, pos, bestScores, notesHere, chordHere, bs, before, bestScoresNext, backpointersNext);
      } else {
        forall v | v in these
          ensures !p.admitted(pos, v)
        {
          ComboMember(tenors, leads, baris, {bs}, v);
        }
        LayerOnSkip(p, pos, bestScores, before, these, bestScoresNext, backpointersNext);
      }
      ElementsSnoc(basses, i);
      CombosUnionBass(tenors, leads, baris, ElementsOf(basses[..i]), {bs});
    }
    assert basses[..|basses|] == basses;
    forall v | p.admitted(pos, v)
      ensures v in Combos(tenors, leads, baris, ElementsOf(basses))
    {
      CandidateListsCover(s, notesHere, v);
    }
    LayerOnAll(p, pos, bestScores, Combos(tenors, leads, baris, ElementsOf(basses)), bestScoresNext, backpointersNext);
  }

  // ---------------------------------------------------------------------
  // The goal item and the best backpointers

  /** After the entries in `done`, `goal` is an entry of the highest
      score among them, and none before the first. */
  ghost predicate GoalSoFar(bestScores: map<Voicing, int>, done: set<Voicing>, goal: Option<Voicing>) {
    (goal.None? <==> done == {}) &&
    (goal.Some? ==>
       goal.value in done && goal.value in bestScores &&
       forall u :: u in done && u in bestScores ==> bestScores[u] <= bestScores[goal.value])
  }

  lemma GoalStep(bestScores: map<Voicing, int>, done: set<Voicing>, goal: Option<Voicing>, u: Voicing)
    requires GoalSoFar(bestScores, done, goal) && u in bestScores
    ensures GoalSoFar(bestScores, done + {u},
                      if goal.None? || bestScores[goal.value] <= bestScores[u] then Some(u) else goal)
  {
  }

  /** The goal item (lines 122-124): the entries of the last layer sorted
      stably by score in the map's iteration order, and the last of them
      taken; so a maximal entry, the last maximal one iterated. An empty
      layer has no last entry. */
  method BestGoal(bestScores: map<Voicing, int>) returns (r: Result<Voicing>)
    ensures r.Err? <==> bestScores == map[]
    ensures r.Err? ==> r.error == IndexOutOfBounds
    ensures r.Ok? ==> MaximalIn(bestScores, r.value)
  {
    var remaining := bestScores.Keys;
    var goal: Option<Voicing> := None;
    ghost var done: set<Voicing> := {};
    while remaining != {}
      invariant remaining + done == bestScores.Keys && remaining !! done
      invariant GoalSoFar(bestScores, done, goal)
      decreases |remaining|
    {
      var u :| u in remaining;
      GoalStep(bestScores, done, goal, u);
      if goal.None? || bestScores[goal.value] <= bestScores[u] {
        goal := Some(u);
      }
      MoveOne(remaining, done, bestScores.Keys, u);
      remaining := remaining - {u};
      done := done + {u};
    }
    if goal.None? {
      assert forall u :: u !in bestScores;
      return Err(IndexOutOfBounds);
    }
    return Ok(goal.value);
  }

  /** The index a stable sort by descending score puts first: the first
      edge with the highest score. */
  function FirstBestEdge(list: seq<Backpointer>): (i: nat)
    requires 0 < |list| && forall e :: e in list ==> e.Edge?
    ensures i < |list|
    ensures forall j :: 0 <= j < |list| ==> list[j].score <= list[i].score
    ensures forall j :: 0 <= j < i ==> list[j].score < list[i].score
    decreases |list|
  {
    var last := |list| - 1;
    if last == 0 then 0
    else
      assert forall e :: e in list[..last] ==> e in list;
      var i := FirstBestEdge(list[..last]);
      assert list[..last][i] == list[i];
      assert forall j :: 0 <= j < last ==> list[..last][j] == list[j];
      if list[last].score > list[i].score then last else i
  }

  /** Every backpointer, null or an edge, in a list of two or more is an
      edge and scores at most `b`, and `b` is the first to reach that score. */
  predicate FirstBest(list: seq<Backpointer>, b: Backpointer) {
    b.Edge? &&
    (forall e :: e in list ==> e.Edge? && e.score <= b.score) &&
    exists i :: 0 <= i < |list| && list[i] == b && forall j :: 0 <= j < i ==> list[j].score < b.score
  }

  /** The best backpointer (lines 156-158): the list sorted stably by
      descending score, and its first entry. Sorting one entry compares
      nothing, so a lone null backpointer comes back; sorting two or more
      compares every entry, and reading the score of a null one throws. An
      empty list has no first entry. */
  function BestBackpointer(list: seq<Backpointer>): (r: Result<Backpointer>)
    ensures r.Err? <==> |list| == 0 || (1 < |list| && Lexical in list)
    ensures r.Err? ==> r.error == (if |list| == 0 then IndexOutOfBounds else NullPointer)
    ensures r.Ok? ==> r.value in list
    ensures r.Ok? && 1 < |list| ==> FirstBest(list, r.value)
  {
    if |list| == 0 then Err(IndexOutOfBounds)
    else if |list| == 1 then Ok(list[0])
    else if Lexical in list then Err(NullPointer)
    else
      var i := FirstBestEdge(list);
      Ok(list[i])
  }

  /** The column `c` of the chain of backpointer columns; below the first
      lies the empty column the engine starts from. */
  function ColumnAt(cols: seq<map<Voicing, seq<Backpointer>>>, c: int): map<Voicing, seq<Backpointer>>
    requires c < |cols|
  {
    if c < 0 then map[] else cols[c]
  }

  /** `get` on a list multimap: the key's list, empty when absent. */
  function Get(m: map<Voicing, seq<Backpointer>>, k: Voicing): seq<Backpointer> {
    if k in m then m[k] else []
  }

  /** The backpointers of a stored voicing: one null at the first
      position, a non-empty list of edges later. */
  lemma ColumnFacts(p: Problem, bests: seq<map<Voicing, int>>, cols: seq<map<Voicing, seq<Backpointer>>>,
                    c: nat, item: Voicing)
    requires Layers(p, bests, cols) && c < |bests| && item in bests[c]
    ensures item in cols[c]
    ensures c == 0 ==> cols[c][item] == [Lexical]
    ensures c > 0 ==> 0 < |cols[c][item]| && Lexical !in cols[c][item] && forall e :: e in cols[c][item] ==> e.Edge?
  {
    assert LayerAt(p, bests, cols, c);
    assert CellOk(p, c, PrevLayer(bests, c), item, bests[c], cols[c]);
  }

  /** A best edge of a stored voicing attains its stored best: the step
      back along it is tight. */
  lemma BestEdgeIsTight(p: Problem, bests: seq<map<Voicing, int>>, cols: seq<map<Voicing, seq<Backpointer>>>,
                        c: nat, item: Voicing, b: Backpointer)
    requires Layers(p, bests, cols) && 0 < c < |bests| && item in bests[c] && item in cols[c]
    requires FirstBest(cols[c][item], b)
    ensures b.previousItem in bests[c - 1]
    ensures bests[c][item] == bests[c - 1][b.previousItem] + p.lex(c, item) + p.trans(b.previousItem, item)
  {
    assert LayerAt(p, bests, cols, c);
    var prev := PrevLayer(bests, c);
    assert prev == bests[c - 1];
    assert CellOk(p, c, prev, item, bests[c], cols[c]);
    var edges := cols[c][item];
    var i :| 0 <= i < |edges| && edges[i] == b;
    assert b in edges;
    var u :| u in prev && Total(p, c, prev, u, item) == bests[c][item];
    assert Edge(u, Total(p, c, prev, u, item)) in edges;
  }

  lemma TightCons(p: Problem, bests: seq<map<Voicing, int>>, q: nat, chain: seq<Voicing>, u: Voicing)
    requires TightFrom(p, bests, q + 1, chain) && u in bests[q]
    requires bests[q + 1][chain[0]] == bests[q][u] + p.lex(q + 1, chain[0]) + p.trans(u, chain[0])
    ensures TightFrom(p, bests, q, [u] + chain)
  {
    var c := [u] + chain;
    forall k | 0 <= k < |c| - 1
      ensures bests[q + k + 1][c[k + 1]] == bests[q + k][c[k]] + p.lex(q + k + 1, c[k + 1]) + p.trans(c[k], c[k + 1])
    {
      if 0 < k {
        assert c[k] == chain[k - 1] && c[k + 1] == chain[k];
      }
    }
  }

  // ---------------------------------------------------------------------
  // The arranged score

  /** `Collections.reverse`. */
  function Reverse<T>(s: seq<T>): seq<T> {
    seq(|s|, k requires 0 <= k < |s| => s[|s| - 1 - k])
  }

  /** The notes one part sings along a chain of voicings. */
  function PartOf(chain: seq<Voicing>, part: int): (notes: seq<Note>)
    requires 0 <= part < 4
    ensures |notes| == |chain| && forall i :: 0 <= i < |chain| ==> notes[i] == chain[i][part]
  {
    seq(|chain|, i requires 0 <= i < |chain| => chain[i][part])
  }

  lemma PartOfSnoc(chain: seq<Voicing>, i: nat, part: int)
    requires i < |chain| && 0 <= part < 4
    ensures PartOf(chain[..i + 1], part) == PartOf(chain[..i], part) + [chain[i][part]]
  {
  }

  /** `ret` is the arranged score of `score` along `chain`: the original's
      title, key, meter and chord changes, the arranger as composer, and
      part by part the notes of the chain. */
  ghost predicate Written(score: Score, arranger: string, ret: Score, chain: seq<Voicing>)
    reads score, ret
  {
    ret.title == score.title && ret.composer == arranger && ret.key == score.key &&
    ret.quartersPerMeasure == score.quartersPerMeasure && ret.chords == score.chords &&
    |ret.parts| == 4 && forall part :: 0 <= part < 4 ==> ret.parts[part] == PartOf(chain, part)
  }

  lemma ReverseSnoc<T>(s: seq<T>, x: T)
    ensures Reverse(s + [x]) == [x] + Reverse(s)
  {
    var a, b := Reverse(s + [x]), [x] + Reverse(s);
    forall k | 0 <= k < |a|
      ensures a[k] == b[k]
    {
      if 0 < k {
        assert b[k] == Reverse(s)[k - 1];
      }
    }
  }

  /** The walk back has reached column `c` with the voicings `notes`,
      latest first: in time order they are a tight chain from `c` to the
      last layer, ending in `bestFinalItem`. */
  ghost predicate WalkedBack(p: Problem, bests: seq<map<Voicing, int>>, c: int, notes: seq<Voicing>,
                             bestFinalItem: Voicing) {
    0 <= c < |bests| && 0 < |notes| && notes[0] == bestFinalItem && TightFrom(p, bests, c, Reverse(notes))
  }

  /** One step of the walk back from the latest voicing reached: its best
      backpointer exists; it is the null one exactly at the first
      position, and otherwise an edge whose step back is tight. */
  lemma StepBack(p: Problem, bests: seq<map<Voicing, int>>, cols: seq<map<Voicing, seq<Backpointer>>>,
                 c: nat, notes: seq<Voicing>, bestFinalItem: Voicing)
    requires Layers(p, bests, cols) && WalkedBack(p, bests, c, notes, bestFinalItem)
    ensures BestBackpointer(Get(ColumnAt(cols, c), notes[|notes| - 1])).Ok?
    ensures BestBackpointer(Get(ColumnAt(cols, c), notes[|notes| - 1])).value.Lexical? <==> c == 0
    ensures BestBackpointer(Get(ColumnAt(cols, c), notes[|notes| - 1])).value.Edge? ==>
              WalkedBack(p, bests, c - 1,
                         notes + [BestBackpointer(Get(ColumnAt(cols, c), notes[|notes| - 1])).value.previousItem],
                         bestFinalItem)
  {
    var chain := Reverse(notes);
    var item := notes[|notes| - 1];
    assert chain[0] == item;
    ColumnFacts(p, bests, cols, c, item);
    var bp := BestBackpointer(Get(ColumnAt(cols, c), item));
    if c > 0 {
      var u := bp.value.previousItem;
      BestEdgeIsTight(p, bests, cols, c, item, bp.value);
      TightCons(p, bests, c - 1, chain, u);
      ReverseSnoc(notes, u);
    }
  }

  /** The walk of `extractBestScore` (lines 150-169): from the best final
      item back along best backpointers, column by column, until the null
      backpointer of the first position, collecting the voicings latest
      first. Every step back is tight, so in time order they form the
      chain `TightChainIsOptimal` speaks about. */
  method FollowBackpointers(bestFinalItem: Voicing, backpointers: seq<map<Voicing, seq<Backpointer>>>,
                            ghost p: Problem, ghost bests: seq<map<Voicing, int>>)
    returns (notes: seq<Voicing>)
    requires Layers(p, bests, backpointers) && 0 < |bests|
    requires bestFinalItem in bests[|bests| - 1]
    ensures WalkedBack(p, bests, 0, notes, bestFinalItem)
  {
    var item := bestFinalItem;
    notes := [item];
    var c := |backpointers| - 1;
    assert Reverse(notes) == [item];
    while c >= -1
      invariant WalkedBack(p, bests, c, notes, bestFinalItem) && item == notes[|notes| - 1]
      decreases c
    {
      var backpointersHere := Get(ColumnAt(backpointers, c), item);
      StepBack(p, bests, backpointers, c, notes, bestFinalItem);
      var bp := BestBackpointer(backpointersHere);
      if bp.value.Lexical? {
        break;
      }
      item := bp.value.previousItem;
      notes := notes + [item];
      c := c - 1;
    }
  }

  /** The score's title, composer, key, meter and chord changes. */
  ghost predicate Header(ret: Score, title: string, composer: string, key: string, meter: int,
                         chords: seq<ChordChange>)
    reads ret
  {
    ret.title == title && ret.composer == composer && ret.key == key &&
    ret.quartersPerMeasure == meter && ret.chords == chords
  }

  /** The body of the note loop of `extractBestScore` (lines 185-187):
      each part's note of one voicing appended to that part. */
  method AddVoicing(ret: Score, notesHere: Voicing)
    requires ret.Valid()
    modifies ret
    ensures ret.Valid() && forall part :: 0 <= part < 4 ==> ret.parts[part] == old(ret.parts[part]) + [notesHere[part]]
    ensures ret.title == old(ret.title) && ret.composer == old(ret.composer) && ret.key == old(ret.key)
    ensures ret.quartersPerMeasure == old(ret.quartersPerMeasure) && ret.chords == old(ret.chords)
  {
    for part := 0 to 4
      invariant ret.Valid()
      invariant forall q :: 0 <= q < part ==> ret.parts[q] == old(ret.parts[q]) + [notesHere[q]]
      invariant forall q :: part <= q < 4 ==> ret.parts[q] == old(ret.parts[q])
      invariant ret.title == old(ret.title) && ret.composer == old(ret.composer) && ret.key == old(ret.key)
      invariant ret.quartersPerMeasure == old(ret.quartersPerMeasure) && ret.chords == old(ret.chords)
    {
      var added := ret.AddNote(part, notesHere[part]);
    }
  }

  /** `extractBestScore`: the voicings along the best backpointers, put in
      time order, part by part into a new score with the original's
      title, key, meter and chord changes and the arranger as composer. */
  method ExtractBestScore(bestFinalItem: Voicing, backpointers: seq<map<Voicing, seq<Backpointer>>>,
                          originalScore: Score, arranger: string,
                          ghost p: Problem, ghost bests: seq<map<Voicing, int>>)
    returns (ret: Score, ghost chain: seq<Voicing>)
    requires Layers(p, bests, backpointers) && 0 < |bests|
    requires bestFinalItem in bests[|bests| - 1]
    ensures fresh(ret) && ret.Valid()
    ensures TightFrom(p, bests, 0, chain) && chain[|chain| - 1] == bestFinalItem
    ensures Written(originalScore, arranger, ret, chain)
  {
    var notes := FollowBackpointers(bestFinalItem, backpointers, p, bests);
    var ordered := Reverse(notes);
    chain := ordered;

    var title, key, meter, changes :=
      originalScore.title, originalScore.key, originalScore.quartersPerMeasure, originalScore.chords;
    ret := new Score("", "", "", 0);
    ret.SetTitle(title);
    ret.SetComposer(arranger);
    ret.SetKey(key);
    ret.SetQuartersPerMeasure(meter);
    for i := 0 to |changes|
      invariant Header(ret, title, arranger, key, meter, changes[..i]) && ret.parts == [[], [], [], []]
    {
      ret.AddChord(changes[i].startTime, changes[i].chord);
    }
    assert changes[..|changes|] == changes;
    for i := 0 to |ordered|
      invariant ret.Valid() && forall part :: 0 <= part < 4 ==> ret.parts[part] == PartOf(ordered[..i], part)
      invariant Header(ret, title, arranger, key, meter, changes)
    {
      forall part | 0 <= part < 4
        ensures PartOf(ordered[..i + 1], part) == PartOf(ordered[..i], part) + [ordered[i][part]]
      {
        PartOfSnoc(ordered, i, part);
      }
      AddVoicing(ret, ordered[i]);
    }
    assert ordered[..|ordered|] == ordered;
  }

  // ---------------------------------------------------------------------
  // The whole arrangement

  /** An arrangement the engine may return for `n` melody notes: a chain
      over all positions that survives the pruning and that no other such
      chain outscores. */
  ghost predicate BestArrangement(p: Problem, n: nat, chain: seq<Voicing>) {
    |chain| == n && ValidChain(p, chain) &&
    forall c :: ValidChain(p, c) && |c| == n ==> ChainScore(p, c) <= ChainScore(p, chain)
  }

  /** A chain of admitted voicings has the lead singing the melody. */
  lemma ChainSingsMelody(melody: seq<Note>, chords: seq<ChordChange>, w: Weights, chain: seq<Voicing>)
    requires ChordsKnown(melody, chords)
    requires ValidChain(ProblemOf(Slots(melody, chords), w), chain) && |chain| == |melody|
    ensures PartOf(chain, Lead) == melody
  {
    var slots := Slots(melody, chords);
    forall i | 0 <= i < |chain|
      ensures chain[i][Lead] == melody[i]
    {
      assert ProblemOf(slots, w).admitted(i, chain[i]);
    }
  }

  /** The position loop of `arrange` (lines 64-118): starting from no
      stored items and the empty column, one layer per melody note, each
      built on the one before with the chord at the note's onset. */
  method BuildLayers(score: Score, w: Weights, possibleNotes: seq<seq<seq<Note>>>, ghost slots: seq<Slot>)
    returns (bestScores: map<Voicing, int>, backpointers: seq<map<Voicing, seq<Backpointer>>>,
             ghost bests: seq<map<Voicing, int>>)
    requires score.Valid() && ChordsKnown(score.parts[Lead], score.chords)
    requires slots == Slots(score.parts[Lead], score.chords) && AllCandidateLists(slots, possibleNotes)
    ensures |bests| == |score.parts[Lead]| && Layers(ProblemOf(slots, w), bests, backpointers)
    ensures bestScores == PrevLayer(bests, |bests|)
  {
    var melody := score.parts[Lead];
    var n := |melody|;
    ghost var p := ProblemOf(slots, w);
    bestScores := map[];
    backpointers := [];
    bests := [];
    var time := 0;
    for pos := 0 to n
      invariant time == Onset(melody, pos)
      invariant |bests| == pos && Layers(p, bests, backpointers)
      invariant bestScores == PrevLayer(bests, pos)
    {
      var notesHere := possibleNotes[pos];
      var chordHere := score.GetChordAtTime(time);
      assert chordHere == OnsetChord(melody, score.chords, pos) == Some(slots[pos].chord);
      ProblemOfScoresSlots(slots, w, pos);
      var bestScoresNext, backpointersNext :=
        ArrangeLayer(p, slots[pos], w, pos, bestScores, notesHere, chordHere.value);
      LayersSnoc(p, bests, backpointers, bestScoresNext, backpointersNext);
      OnsetStep(melody, pos);
      time := time + melody[pos].duration;
      bestScores := bestScoresNext;
      backpointers := backpointers + [backpointersNext];
      bests := bests + [bestScoresNext];
    }
  }

  /** `arrange`: the candidate notes of every position, the layers built
      position by position, the best goal item and the walk back from it.
      A melody onset with no chord sounding throws a NullPointerException;
      an empty last layer, which is what a melody without any surviving
      arrangement leaves (as does an empty melody), throws an
      IndexOutOfBoundsException. Otherwise the arranged score carries an
      optimal surviving chain, with the melody in the lead. */
  method Arrange(score: Score, w: Weights, arranger: string) returns (r: Result<Score>, ghost chain: seq<Voicing>)
    requires score.Valid()
    ensures r.Err? ==> r.error == NullPointer || r.error == IndexOutOfBounds
    ensures (r.Err? && r.error == NullPointer) <==> !ChordsKnown(score.parts[Lead], score.chords)
    ensures ChordsKnown(score.parts[Lead], score.chords) ==>
              (r.Err? <==> forall c :: ValidChain(ProblemOf(Slots(score.parts[Lead], score.chords), w), c) ==>
                                       |c| != |score.parts[Lead]|)
    ensures r.Ok? ==> fresh(r.value) && r.value.Valid()
    ensures r.Ok? ==> BestArrangement(ProblemOf(Slots(score.parts[Lead], score.chords), w), |score.parts[Lead]|, chain)
    ensures r.Ok? ==> Written(score, arranger, r.value, chain) && r.value.parts[Lead] == score.parts[Lead]
  {
    var computed := ComputePossibleNotes(score);
    if computed.Err? {
      return Err(computed.error), [];
    }
    ghost var slots := Slots(score.parts[Lead], score.chords);
    ghost var p := ProblemOf(slots, w);
    var bestScores, backpointers, bests := BuildLayers(score, w, computed.value, slots);
    var goal := BestGoal(bestScores);
    if goal.Err? {
      if 0 < |bests| {
        FrontierEmptyMeansNoChain(p, bests, backpointers);
      }
      return Err(goal.error), [];
    }
    var ret;
    ret, chain := ExtractBestScore(goal.value, backpointers, score, arranger, p, bests);
    TightChainIsOptimal(p, bests, backpointers, chain);
    FrontierEmptyMeansNoChain(p, bests, backpointers);
    ChainSingsMelody(score.parts[Lead], score.chords, w, chain);
    return Ok(ret), chain;
  }
}
