/**
 * Chords: a root pitch class and one of eleven chord types, named by the
 * root's canonical name followed by the type's suffix ("Db7", "Am6", "B").
 * A name is read by trying the suffixes in a fixed order, most specific
 * first, so that the empty suffix of the major triad is tried last.
 */
module Chords {
  import opened JavaLang
  import opened Notes
  import opened Keys

  /** The chord types, each with its name suffix, its mode, its notes in
      semitones above the root and the notes allowed in the bass. */
  datatype ChordType =
    | Major | Sixth | Seventh | AddNine | SevenNine | MajorSeventh
    | Minor | MinorSixth | MinorSeventh | HalfDiminished | Diminished
  {
    function Name(): string {
      match this
      case Major => ""
      case Sixth => "6"
      case Seventh => "7"
      case AddNine => "add9"
      case SevenNine => "9"
      case MajorSeventh => "mj7"
      case Minor => "m"
      case MinorSixth => "m6"
      case MinorSeventh => "m7"
      case HalfDiminished => "x7"
      case Diminished => "07"
    }

    /** "m" for the minor-like types (half-diminished included), "" otherwise. */
    function Mode(): string {
      match this
      case Minor | MinorSixth | MinorSeventh | HalfDiminished => "m"
      case _ => ""
    }

    /** The chord notes as intervals above the root: three or four of them,
        the root among them except in the ninth chord "9". */
    function ChordNotes(): (r: seq<int>)
      ensures 3 <= |r| <= 4
      ensures (0 in r) <==> this != SevenNine
    {
      match this
      case Major => [0, 4, 7]
      case Sixth => [0, 4, 7, 9]
      case Seventh => [0, 4, 7, 10]
      case AddNine => [0, 4, 7, 2]
      case SevenNine => [4, 7, 10, 2]
      case MajorSeventh => [0, 4, 7, 11]
      case Minor => [0, 3, 7]
      case MinorSixth => [0, 3, 7, 9]
      case MinorSeventh => [0, 3, 7, 10]
      case HalfDiminished => [0, 3, 6, 10]
      case Diminished => [0, 3, 6, 9]
    }

    /** The intervals above the root the bass may sing: always the root, and
        otherwise only chord notes. */
    function AllowedBassNotes(): (r: set<int>)
      ensures 0 in r
      ensures this != SevenNine ==> forall x :: x in r ==> x in ChordNotes()
    {
      match this
      case Minor | MinorSixth => {0, 3, 7}
      case HalfDiminished => {0}
      case Diminished => {0, 3, 6, 9}
      case _ => {0, 7}
    }
  }

  /** The order in which suffixes are tried: longer and more specific first. */
  const SuffixCheckingOrder: seq<ChordType> :=
    [Diminished, HalfDiminished, MinorSeventh, MinorSixth, MajorSeventh, AddNine,
     SevenNine, Sixth, Minor, Seventh, Major]

  /** A chord. Two chords are equal exactly when root and type agree. */
  datatype Chord = Chord(root: int, chordType: ChordType)

  /** `lookup(root, type)`: the root is the position of its canonical name,
      -1 when the name is not canonical. */
  function LookupRoot(root: string, chordType: ChordType): (r: Chord)
    ensures r.chordType == chordType
    ensures r.root == -1 <==> root !in NoteNames
    ensures r.root >= 0 ==> 0 <= r.root < 12 && NoteNames[r.root] == root
  {
    Chord(NoteId(root), chordType)
  }

  /** The position of a chord type in the checking order. */
  function OrderIndex(t: ChordType): (k: nat)
    ensures k < |SuffixCheckingOrder| && SuffixCheckingOrder[k] == t
  {
    match t
    case Diminished => 0
    case HalfDiminished => 1
    case MinorSeventh => 2
    case MinorSixth => 3
    case MajorSeventh => 4
    case AddNine => 5
    case SevenNine => 6
    case Sixth => 7
    case Minor => 8
    case Seventh => 9
    case Major => 10
  }

  /** The first position from `k` on whose suffix ends the name, or the
      last position. */
  function FirstSuffixFrom(chordName: string, k: nat): (r: nat)
    requires k < |SuffixCheckingOrder|
    ensures k <= r < |SuffixCheckingOrder|
    decreases |SuffixCheckingOrder| - k
  {
    if k == |SuffixCheckingOrder| - 1 || EndsWith(chordName, SuffixCheckingOrder[k].Name()) then k
    else FirstSuffixFrom(chordName, k + 1)
  }

  /** The search finds a match: the major triad's empty suffix, tried
      last, ends every name. */
  lemma {:induction false} FirstSuffixMatches(chordName: string, k: nat)
    requires k < |SuffixCheckingOrder|
    ensures EndsWith(chordName, SuffixCheckingOrder[FirstSuffixFrom(chordName, k)].Name())
    decreases |SuffixCheckingOrder| - k
  {
    if k == |SuffixCheckingOrder| - 1 {
      assert SuffixCheckingOrder[k] == Major;
      assert chordName[|chordName| - 0..] == "";
    } else if !EndsWith(chordName, SuffixCheckingOrder[k].Name()) {
      FirstSuffixMatches(chordName, k + 1);
    }
  }

  /** No suffix tried before the one found ends the name. */
  lemma {:induction false} FirstSuffixIsFirst(chordName: string, k: nat, j: nat)
    requires k < |SuffixCheckingOrder| && k <= j < FirstSuffixFrom(chordName, k)
    ensures !EndsWith(chordName, SuffixCheckingOrder[j].Name())
    decreases |SuffixCheckingOrder| - k
  {
    var name := SuffixCheckingOrder[j].Name();
    if k < j {
      FirstSuffixIsFirst(chordName, k + 1, j);
    } else {
      assert FirstSuffixFrom(chordName, k) != k;
      assert !EndsWith(chordName, name);
    }
  }

  /** The type a chord name denotes: the first in the checking order whose suffix ends it. */
  function SuffixType(chordName: string): ChordType {
    SuffixCheckingOrder[FirstSuffixFrom(chordName, 0)]
  }

  /**
   * `chordTypeBySuffix`: try the suffixes in order and return the first
   * type whose suffix ends the name. The loop always stops at the major
   * triad at the latest, so the null return after it is never reached.
   */
  method ChordTypeBySuffix(chordName: string) returns (t: ChordType)
    ensures EndsWith(chordName, t.Name())
    ensures forall j :: 0 <= j < OrderIndex(t) ==> !EndsWith(chordName, SuffixCheckingOrder[j].Name())
    ensures t == SuffixType(chordName)
  {
    var i := 0;
    assert chordName[|chordName| - 0..] == "";
    while !EndsWith(chordName, SuffixCheckingOrder[i].Name())
      invariant 0 <= i < |SuffixCheckingOrder|
      invariant forall j :: 0 <= j < i ==> !EndsWith(chordName, SuffixCheckingOrder[j].Name())
      decreases |SuffixCheckingOrder| - i
    {
      i := i + 1;
    }
    t := SuffixCheckingOrder[i];
    ChordTypePosition(t, i);
    FirstSuffixUnique(chordName, 0, i);
  }

  /** Distinct positions of the checking order hold distinct types. */
  lemma ChordTypePosition(t: ChordType, i: int)
    requires 0 <= i < |SuffixCheckingOrder| && SuffixCheckingOrder[i] == t
    ensures OrderIndex(t) == i
  {
  }

  /** A matching position with no earlier match is the first one. */
  lemma {:induction false} FirstSuffixUnique(chordName: string, k: nat, i: nat)
    requires k <= i < |SuffixCheckingOrder|
    requires EndsWith(chordName, SuffixCheckingOrder[i].Name())
    requires forall j :: k <= j < i ==> !EndsWith(chordName, SuffixCheckingOrder[j].Name())
    ensures FirstSuffixFrom(chordName, k) == i
    decreases i - k
  {
    if k < i {
      FirstSuffixUnique(chordName, k + 1, i);
    }
  }

  /** `lookup(name)`: the type by suffix, and the root from what precedes it. */
  function ChordNamed(chordName: string): Chord {
    var t := SuffixType(chordName);
    LookupRoot(chordName[..|chordName| - |t.Name()|], t)
  }

  /** `lookup(name)` in the source's own steps. */
  method LookupName(chordName: string) returns (c: Chord)
    ensures c.chordType == SuffixType(chordName)
    ensures EndsWith(chordName, c.chordType.Name())
    ensures c.root == NoteId(chordName[..|chordName| - |c.chordType.Name()|])
    ensures c == ChordNamed(chordName)
  {
    var t := ChordTypeBySuffix(chordName);
    var name := t.Name();
    assert EndsWith(chordName, name);
    var root := chordName[..|chordName| - |name|];
    c := LookupRoot(root, t);
    assert t == SuffixType(chordName);
  }

  /** The chord notes above the root, each reduced with Java's remainder. */
  function ChordTones(c: Chord): (r: seq<int>)
    ensures |r| == |c.chordType.ChordNotes()|
  {
    var notes := c.chordType.ChordNotes();
    seq(|notes|, k requires 0 <= k < |notes| => JavaRem(c.root + notes[k], 12))
  }

  /** The pitch classes of a chord. */
  function ChordPitchClasses(c: Chord): set<int> {
    ImageSet(ChordTones(c))
  }

  /** `getNotes`: collect the root plus each chord note, modulo 12, in a set. */
  method GetNotes(c: Chord) returns (ret: set<int>)
    ensures ret == ChordPitchClasses(c)
  {
    var notes := c.chordType.ChordNotes();
    ghost var tones := ChordTones(c);
    ret := {};
    for i := 0 to |notes|
      invariant ret == ImageSet(tones[..i])
    {
      ImageSetStep(tones, i);
      ret := ret + {JavaRem(c.root + notes[i], 12)};
    }
    assert tones[..|notes|] == tones;
  }

  /** `isAllowedBassNote`: the interval above the root, by Java's remainder,
      is one the chord type allows in the bass. */
  predicate IsAllowedBassNote(c: Chord, n: Note) {
    JavaRem(n.midi - c.root, 12) in c.chordType.AllowedBassNotes()
  }

  /** `getKey`: the key named by the root's canonical name and the type's
      mode; the name lookup throws for a root outside 0..11. */
  function GetKey(c: Chord): (r: Result<Option<Key>>)
    ensures r.Ok? <==> 0 <= c.root < 12
  {
    var name :- NoteName(c.root);
    Ok(Lookup(name + c.chordType.Mode()))
  }

  /** `toString`: canonical root name and suffix; throws for a root outside 0..11. */
  function ToString(c: Chord): (r: Result<string>)
    ensures r.Ok? <==> 0 <= c.root < 12
  {
    var name :- NoteName(c.root);
    Ok(name + c.chordType.Name())
  }

  // ---------------------------------------------------------------------
  // Properties

  /** The characters a canonical root name can end with. */
  predicate IsRootEnd(c: char) {
    'A' <= c <= 'G' || c == 'b'
  }

  lemma RootNameShape(i: int)
    requires 0 <= i < 12
    ensures 1 <= |NoteNames[i]| <= 2 && IsRootEnd(NoteNames[i][|NoteNames[i]| - 1])
  {
  }

  /** A suffix `u` that ends a root name followed by `s` either ends `s`, or
      reaches back into the root name and so has a root-name character. */
  lemma EndsWithAfterRoot(root: string, s: string, u: string)
    requires 1 <= |root| && IsRootEnd(root[|root| - 1])
    requires EndsWith(root + s, u)
    ensures (|u| <= |s| && EndsWith(s, u)) || (|u| > |s| && IsRootEnd(u[|u| - |s| - 1]))
  {
    var name := root + s;
    if |u| <= |s| {
      assert s[|s| - |u|..] == name[|name| - |u|..];
    } else {
      assert u[|u| - |s| - 1] == name[|root| - 1] == root[|root| - 1];
    }
  }

  /** Neither way can suffix `u` end a root name followed by `s`. */
  predicate SuffixClear(s: string, u: string) {
    !(|u| <= |s| && EndsWith(s, u)) && !(|u| > |s| && IsRootEnd(u[|u| - |s| - 1]))
  }

  /** The suffixes in checking order. */
  const SuffixNames: seq<string> := ["07", "x7", "m7", "m6", "mj7", "add9", "9", "6", "m", "7", ""]

  lemma SuffixNameAt(j: int)
    requires 0 <= j < |SuffixCheckingOrder|
    ensures SuffixCheckingOrder[j].Name() == SuffixNames[j]
  {
    if j == 0 {} else if j == 1 {} else if j == 2 {} else if j == 3 {} else if j == 4 {}
    else if j == 5 {} else if j == 6 {} else if j == 7 {} else if j == 8 {} else if j == 9 {} else {}
  }

  /** Suffix `s` is clear of every one of `names`. */
  predicate ClearAll(s: string, names: seq<string>)
    decreases |names|
  {
    |names| == 0 || (SuffixClear(s, names[0]) && ClearAll(s, names[1..]))
  }

  lemma {:induction false} ClearAllMeans(s: string, names: seq<string>)
    requires ClearAll(s, names)
    ensures forall j :: 0 <= j < |names| ==> SuffixClear(s, names[j])
    decreases |names|
  {
    if |names| > 0 {
      ClearAllMeans(s, names[1..]);
      assert forall j :: 0 < j < |names| ==> names[j] == names[1..][j - 1];
    }
  }

  /** Each suffix, against the ones tried before it. */
  lemma OwnHalfDiminished()
    ensures forall j :: 0 <= j < 1 ==> SuffixClear("x7", SuffixNames[j])
  {
    var earlier := ["07"];
    assert ClearAll("x7", earlier);
    ClearAllMeans("x7", earlier);
    assert forall j :: 0 <= j < 1 ==> earlier[j] == SuffixNames[j];
  }

  lemma OwnMinorSeventh()
    ensures forall j :: 0 <= j < 2 ==> SuffixClear("m7", SuffixNames[j])
  {
    var earlier := ["07", "x7"];
    assert ClearAll("m7", earlier);
    ClearAllMeans("m7", earlier);
    assert forall j :: 0 <= j < 2 ==> earlier[j] == SuffixNames[j];
  }

  lemma OwnMinorSixth()
    ensures forall j :: 0 <= j < 3 ==> SuffixClear("m6", SuffixNames[j])
  {
    var earlier := ["07", "x7", "m7"];
    assert ClearAll("m6", earlier);
    ClearAllMeans("m6", earlier);
    assert forall j :: 0 <= j < 3 ==> earlier[j] == SuffixNames[j];
  }

  lemma OwnMajorSeventh()
    ensures forall j :: 0 <= j < 4 ==> SuffixClear("mj7", SuffixNames[j])
  {
    var earlier := ["07", "x7", "m7", "m6"];
    assert ClearAll("mj7", earlier);
    ClearAllMeans("mj7", earlier);
    assert forall j :: 0 <= j < 4 ==> earlier[j] == SuffixNames[j];
  }

  lemma OwnAddNine()
    ensures forall j :: 0 <= j < 5 ==> SuffixClear("add9", SuffixNames[j])
  {
    var earlier := ["07", "x7", "m7", "m6", "mj7"];
    assert ClearAll("add9", earlier);
    ClearAllMeans("add9", earlier);
    assert forall j :: 0 <= j < 5 ==> earlier[j] == SuffixNames[j];
  }

  lemma OwnSevenNine()
    ensures forall j :: 0 <= j < 6 ==> SuffixClear("9", SuffixNames[j])
  {
    var earlier := ["07", "x7", "m7", "m6", "mj7", "add9"];
    assert ClearAll("9", earlier);
    ClearAllMeans("9", earlier);
    assert forall j :: 0 <= j < 6 ==> earlier[j] == SuffixNames[j];
  }

  lemma OwnSixth()
    ensures forall j :: 0 <= j < 7 ==> SuffixClear("6", SuffixNames[j])
  {
    var earlier := ["07", "x7", "m7", "m6", "mj7", "add9", "9"];
    assert ClearAll("6", earlier);
    ClearAllMeans("6", earlier);
    assert forall j :: 0 <= j < 7 ==> earlier[j] == SuffixNames[j];
  }

  lemma OwnMinor()
    ensures forall j :: 0 <= j < 8 ==> SuffixClear("m", SuffixNames[j])
  {
    var earlier := ["07", "x7", "m7", "m6", "mj7", "add9", "9", "6"];
    assert ClearAll("m", earlier);
    ClearAllMeans("m", earlier);
    assert forall j :: 0 <= j < 8 ==> earlier[j] == SuffixNames[j];
  }

  lemma OwnSeventh()
    ensures forall j :: 0 <= j < 9 ==> SuffixClear("7", SuffixNames[j])
  {
    var earlier := ["07", "x7", "m7", "m6", "mj7", "add9", "9", "6", "m"];
    assert ClearAll("7", earlier);
    ClearAllMeans("7", earlier);
    assert forall j :: 0 <= j < 9 ==> earlier[j] == SuffixNames[j];
  }

  lemma OwnMajor()
    ensures forall j :: 0 <= j < 10 ==> SuffixClear("", SuffixNames[j])
  {
    var earlier := ["07", "x7", "m7", "m6", "mj7", "add9", "9", "6", "m", "7"];
    assert ClearAll("", earlier);
    ClearAllMeans("", earlier);
    assert forall j :: 0 <= j < 10 ==> earlier[j] == SuffixNames[j];
  }

  /** Every suffix tried before a type's own is clear of it. */
  lemma EarlierSuffixesClear(t: ChordType)
    ensures forall j :: 0 <= j < OrderIndex(t) ==> SuffixClear(t.Name(), SuffixCheckingOrder[j].Name())
  {
    assert forall j :: 0 <= j < OrderIndex(t) ==> SuffixClear(t.Name(), SuffixNames[j]) by {
      match t
        case Diminished =>
        case HalfDiminished => OwnHalfDiminished();
        case MinorSeventh => OwnMinorSeventh();
        case MinorSixth => OwnMinorSixth();
        case MajorSeventh => OwnMajorSeventh();
        case AddNine => OwnAddNine();
        case SevenNine => OwnSevenNine();
        case Sixth => OwnSixth();
        case Minor => OwnMinor();
        case Seventh => OwnSeventh();
        case Major => OwnMajor();
    }
    forall j | 0 <= j < OrderIndex(t)
      ensures SuffixClear(t.Name(), SuffixCheckingOrder[j].Name())
    {
      SuffixNameAt(j);
    }
  }

  /** After a root name ending in a letter or 'b', no suffix tried before a
      type's own ends the name. */
  lemma SuffixesBefore(root: string, t: ChordType)
    requires 1 <= |root| && IsRootEnd(root[|root| - 1])
    ensures forall j :: 0 <= j < OrderIndex(t) ==> !EndsWith(root + t.Name(), SuffixCheckingOrder[j].Name())
  {
    EarlierSuffixesClear(t);
    forall j | 0 <= j < OrderIndex(t) ensures !EndsWith(root + t.Name(), SuffixCheckingOrder[j].Name()) {
      if EndsWith(root + t.Name(), SuffixCheckingOrder[j].Name()) {
        EndsWithAfterRoot(root, t.Name(), SuffixCheckingOrder[j].Name());
      }
    }
  }

  /**
   * A chord's name reads back as the chord: for every canonical root name
   * and type, the name is the root name followed by the suffix, and looking
   * that name up yields the root's position and the type.
   */
  lemma ChordNameRoundTrip(i: int, t: ChordType)
    requires 0 <= i < 12
    ensures ToString(Chord(i, t)) == Ok(NoteNames[i] + t.Name())
    ensures ChordNamed(NoteNames[i] + t.Name()) == Chord(i, t)
  {
    var root := NoteNames[i];
    var name := root + t.Name();
    RootNameShape(i);
    SuffixesBefore(root, t);
    assert name[|name| - |t.Name()|..] == t.Name();
    FirstSuffixUnique(name, 0, OrderIndex(t));
    assert name[..|name| - |t.Name()|] == root;
    NoteIdOfNoteName(i);
  }

  /** A root that is no canonical name gives root -1, not a failure. */
  lemma UnknownRoot(root: string, t: ChordType)
    requires root !in NoteNames
    ensures LookupRoot(root, t) == Chord(-1, t)
    ensures ToString(LookupRoot(root, t)).Err?
    ensures GetKey(LookupRoot(root, t)).Err?
  {
  }

  /** "Db7" is a seventh chord on Db, and "B" a major triad on B. */
  lemma ChordLookupExamples()
    ensures ChordNamed("Db7") == Chord(1, Seventh)
    ensures ChordNamed("B") == Chord(11, Major)
  {
    ChordNameRoundTrip(1, Seventh);
    assert NoteNames[1] + Seventh.Name() == "Db7";
    ChordNameRoundTrip(11, Major);
    assert NoteNames[11] + Major.Name() == "B";
  }

  /** The chord notes of each type are distinct intervals within an octave. */
  lemma ChordNotesInOctave(t: ChordType)
    ensures var notes := t.ChordNotes();
            (forall k :: 0 <= k < |notes| ==> 0 <= notes[k] < 12) &&
            (forall a, b :: 0 <= a < b < |notes| ==> notes[a] != notes[b])
  {
  }

  lemma ToneValue(c: Chord, k: int)
    requires 0 <= c.root < 12 && 0 <= k < |c.chordType.ChordNotes()|
    ensures var x := c.root + c.chordType.ChordNotes()[k];
            ChordTones(c)[k] == x % 12 == (if x < 12 then x else x - 12)
  {
    ChordNotesInOctave(c.chordType);
    var x := c.root + c.chordType.ChordNotes()[k];
    JavaRemOfNatural(x, 12);
    if x >= 12 { assert x == 1 * 12 + (x - 12); }
  }

  /** A chord on a root in 0..11 has one pitch class per chord note, each its
      root plus the note modulo 12. */
  lemma ChordPitchClassCount(c: Chord)
    requires 0 <= c.root < 12
    ensures |ChordPitchClasses(c)| == |c.chordType.ChordNotes()|
    ensures forall k :: 0 <= k < |ChordTones(c)| ==>
              ChordTones(c)[k] == (c.root + c.chordType.ChordNotes()[k]) % 12 && 0 <= ChordTones(c)[k] < 12
  {
    var notes := c.chordType.ChordNotes();
    var tones := ChordTones(c);
    ChordNotesInOctave(c.chordType);
    forall k | 0 <= k < |tones| ensures tones[k] == (c.root + notes[k]) % 12 && 0 <= tones[k] < 12 {
      ToneValue(c, k);
    }
    forall a, b | 0 <= a < b < |tones| ensures tones[a] != tones[b] {
      ToneValue(c, a);
      ToneValue(c, b);
    }
    DistinctImageSize(tones);
  }

  /** Db7 holds Db, F, Ab and B; B major holds B, Eb and Gb. */
  lemma ChordNoteExamples()
    ensures ChordPitchClasses(Chord(1, Seventh)) == {1, 5, 8, 11}
    ensures ChordPitchClasses(Chord(11, Major)) == {11, 3, 6}
  {
    var db7 := ChordTones(Chord(1, Seventh));
    assert db7 == [1, 5, 8, 11];
    assert ImageSet(db7) == {1, 5, 8, 11} by {
      assert db7[0] == 1 && db7[1] == 5 && db7[2] == 8 && db7[3] == 11;
    }
    var b := ChordTones(Chord(11, Major));
    assert b == [11, 3, 6];
    assert ImageSet(b) == {11, 3, 6} by {
      assert b[0] == 11 && b[1] == 3 && b[2] == 6;
    }
  }

  /** For a bass note no lower than the root the remainder is the ordinary
      one, so the verdict depends only on the interval's pitch class and does
      not change an octave up; the root itself is always allowed. */
  lemma BassNoteByInterval(c: Chord, n: Note)
    requires n.midi >= c.root
    ensures 0 <= JavaRem(n.midi - c.root, 12) < 12
    ensures IsAllowedBassNote(c, n) <==> (n.midi - c.root) % 12 in c.chordType.AllowedBassNotes()
    ensures IsAllowedBassNote(c, n.Add(12)) <==> IsAllowedBassNote(c, n)
    ensures (n.midi - c.root) % 12 == 0 ==> IsAllowedBassNote(c, n)
  {
    JavaRemOfNatural(n.midi - c.root, 12);
    JavaRemOfNatural(n.midi + 12 - c.root, 12);
    assert (n.midi + 12 - c.root) % 12 == (n.midi - c.root) % 12;
  }

  /** Every canonical name is a registered major key. */
  lemma MajorKeyNames(i: int)
    requires 0 <= i < 12
    ensures RowIndex(NoteNames[i]) >= 0
  {
    if i == 0 {} else if i == 1 {} else if i == 2 {} else if i == 3 {} else if i == 4 {} else if i == 5 {}
    else if i == 6 {} else if i == 7 {} else if i == 8 {} else if i == 9 {} else if i == 10 {} else {}
  }

  /** A canonical name with "m" is a registered minor key except for Dbm, Gbm and Abm. */
  lemma MinorKeyNames(i: int)
    requires 0 <= i < 12
    ensures RowIndex(NoteNames[i] + "m") >= 0 <==> i != 1 && i != 6 && i != 8
  {
    if i == 0 { assert NoteNames[i] + "m" == "Cm"; }
    else if i == 1 { assert NoteNames[i] + "m" == "Dbm"; }
    else if i == 2 { assert NoteNames[i] + "m" == "Dm"; }
    else if i == 3 { assert NoteNames[i] + "m" == "Ebm"; }
    else if i == 4 { assert NoteNames[i] + "m" == "Em"; }
    else if i == 5 { assert NoteNames[i] + "m" == "Fm"; }
    else if i == 6 { assert NoteNames[i] + "m" == "Gbm"; }
    else if i == 7 { assert NoteNames[i] + "m" == "Gm"; }
    else if i == 8 { assert NoteNames[i] + "m" == "Abm"; }
    else if i == 9 { assert NoteNames[i] + "m" == "Am"; }
    else if i == 10 { assert NoteNames[i] + "m" == "Bbm"; }
    else { assert NoteNames[i] + "m" == "Bm"; }
  }

  /** The key of a chord on a root in 0..11 exists for every major-mode
      type, and for minor-mode types except on Db, Gb and Ab. */
  lemma ChordKeyExists(c: Chord)
    requires 0 <= c.root < 12
    ensures GetKey(c).Ok?
    ensures GetKey(c).value.Some? <==> c.chordType.Mode() == "" || (c.root != 1 && c.root != 6 && c.root != 8)
  {
    if c.chordType.Mode() == "" {
      MajorKeyNames(c.root);
      assert NoteNames[c.root] + "" == NoteNames[c.root];
    } else {
      MinorKeyNames(c.root);
    }
  }
}
