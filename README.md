# aaba barbershop arranger: a verified model

This project models the core of *aaba*, a program that arranges a melody
as four-part barbershop harmony (tenor, lead, baritone, bass), and proves
properties of that model in Dafny.

The modules:

- **JavaLang**: the Java behaviour the code relies on.
  - Exceptions are the `Err` side of a `Result`.
  - `%` and `/` truncate toward zero; `Integer.toString` and `parseInt` are modelled.
  - `String.trim` and `split("\\s+")` (which drops trailing empty strings) are modelled.
- **Notes** (`Note.java`):
  - MIDI pitches with durations in eighths;
  - `create` in its three forms, `add` and the distance between notes;
  - relative note (pitch class) and octave;
  - the flat-only name table, and `toString`.
- **Keys** (`Key.java`):
  - the 13 key signatures and their 26 names (a major key and its relative minor share one key);
  - the constructor's maps from letters to accidentals and from altered pitch classes to their base letters;
  - `lookup`.
- **Spelling**: the key-aware `getNoteName(Key, boolean)` and `accidentalString`, both as written and corrected (see Findings).
- **Chords** (`Chord.java`):
  - the catalogue of eleven chord types;
  - lookup by suffix, where more specific suffixes are tried first;
  - chord tones, allowed bass notes, the chord's key and its name.
- **VoiceParts**: the four voice ranges and `getNotesInRange`.
- **Scores** (`Score.java`): a class with the four parts, the chord timeline, its setters, `getChordAtTime` and `toString`.
- **Rules** (`rules/`): the five voicing rules and the two voice-leading rules.
  - `Integer.MIN_VALUE` is modelled as a separate `Reject` verdict.
  - `Rules.SentinelMatches` relates that verdict to the Java sentinel.
- **Trellis**: the search the engine performs, stated without loops:
  - surviving chains under the -100 floor;
  - the best chain score per voicing;
  - optimality of the chain recovered from best backpointers.
- **Arrange** (`Arrange.java`):
  - candidate generation;
  - `scoreLexicalChord` and `scoreTransition`;
  - the layer-by-layer search with its maps of best scores and backpointers;
  - the pick of a best final voicing;
  - the walk back that writes the arrangement.
  - Each loop is a method proved against Trellis.
- **AbcNotation**: ABC note tokens (sections 4.1 and 4.2 of the ABC notation standard 2.1): octave marks, accidental prefixes and bar lines.
- **AbcWriter** (`abc/AbcWriter.java`) and **LegacyAbcWriter** (`AbcWriter.java`):
  - `abcNote`;
  - the per-part loop of `write`, which emits bar lines and takes each note's chord at its onset.
  - `abcNote`, the part loop and `write` compute the token the source writes: the note spelled by `getNoteName` as written, set in the octave `getOctave` gives.
  - A corrected token, `AbcWriter.AbcNoteText`, is kept beside it as the reference. It takes the corrected spelling and the octave of the written letter.
  - `AbcWriter.TokensAgree` shows the two tokens agree except in G flat major, and except for a B under a chord whose key is G flat major when the song key lacks B natural (a flat song key). The lemmas after it show what the source writes in those cases.
- **AbcParser** (`AbcParser.java`):
  - the `read` loop over header and music lines;
  - `parseAbcChord` and `parseAbcNote`;
  - round trips against both writers.
- **Clefs** (`Clef.java`): the clef validator and its ABC specifications.

A few rules run through the whole model:

- Code that changes state step by step is a Dafny method with loop invariants. Each method is proved against a function of its inputs, and the properties are lemmas about those functions.
- The methods that stand for the `Score` class change its fields in place.
- Where `Arrange.java` calls `Score` members that `Score.java` does not define, the model uses the closest defined behaviour:
  - `foreachNoteAndChord` is modelled as the chord at each lead note's running onset, through `getChordAtTime`;
  - `getAllChords` is modelled as the chords field;
  - `new Score()` is modelled as the four-argument constructor with empty text.

## Model

| member | source | states |
|---|---|---|
| `JavaLang.JavaRem` | src/main/java/de/saar/coli/arranger/Note.java:130 | Java's `%`: the remainder takes the sign of the dividend and is smaller than the divisor in magnitude |
| `JavaLang.JavaDiv` | src/main/java/de/saar/coli/arranger/Note.java:139 | Java's `/` truncates toward zero and agrees with `%`: quotient times divisor plus remainder gives back the dividend |
| `JavaLang.JavaRemOfNatural` | src/main/java/de/saar/coli/arranger/Note.java:130-139 | when the dividend is not negative, Java's `%` and `/` coincide with Euclidean remainder and division |
| `JavaLang.JavaRemOfNegative` | src/main/java/de/saar/coli/arranger/Note.java:204-210 | on a negative dividend Java's `%` gives -1 where the Euclidean remainder is 11, and `/` rounds -13/12 to -1 |
| `JavaLang.NatToString` | src/main/java/de/saar/coli/arranger/abc/AbcWriter.java:151 | `Integer.toString` of a natural number is a nonempty run of digits |
| `JavaLang.IntToString` | src/main/java/de/saar/coli/arranger/AbcWriter.java:122 | `Integer.toString` gives digits for a non-negative number and a minus sign then digits for a negative one |
| `JavaLang.NatToStringRoundTrip` | src/main/java/de/saar/coli/arranger/AbcParser.java:48 | `Integer.parseInt` reads back exactly the number `Integer.toString` wrote |
| `JavaLang.NatToStringOneDigit` | src/main/java/de/saar/coli/arranger/AbcParser.java:120 | a number below ten is written as its single digit |
| `JavaLang.DigitChar` | src/main/java/de/saar/coli/arranger/AbcParser.java:120 | the digit written for a one-digit number is a digit that reads back as that number |
| `JavaLang.ToUpper` | src/main/java/de/saar/coli/arranger/AbcParser.java:125 | on ASCII, `toUpperCase` moves a lower-case letter to its upper-case partner and leaves every other character alone; non-ASCII letters are left alone too, which Java does not do |
| `JavaLang.ToLower` | src/main/java/de/saar/coli/arranger/abc/AbcWriter.java:139-140 | `toLowerCase` moves an ASCII upper-case letter to its lower-case partner and leaves every other character alone |
| `JavaLang.Trim` | src/main/java/de/saar/coli/arranger/AbcParser.java:35 | `trim` gives a part of the text that neither starts nor ends with a control character or space |
| `JavaLang.TrimStart` | src/main/java/de/saar/coli/arranger/AbcParser.java:35 | dropping leading blanks leaves a suffix of the text that starts with a non-blank character |
| `JavaLang.TrimEnd` | src/main/java/de/saar/coli/arranger/AbcParser.java:35 | dropping trailing blanks leaves a prefix of the text that ends with a non-blank character |
| `JavaLang.DropSpaces` | src/main/java/de/saar/coli/arranger/AbcParser.java:20 | skipping `\\s*` leaves text that does not start with a regular-expression space |
| `JavaLang.Pieces` | src/main/java/de/saar/coli/arranger/AbcParser.java:53 | cutting at runs of `\\s` gives pieces without spaces, and every piece other than the first and the last is nonempty |
| `JavaLang.DropTrailingEmpty` | src/main/java/de/saar/coli/arranger/AbcParser.java:53 | `split` drops exactly the empty pieces at the end and keeps the rest in order |
| `JavaLang.SplitOnSpaces` | src/main/java/de/saar/coli/arranger/AbcParser.java:53 | `split("\\s+")` gives words without spaces, every word after the first nonempty (the first is empty on a leading space) |
| `JavaLang.PiecesNonSpace` | src/main/java/de/saar/coli/arranger/AbcParser.java:53 | a non-space character joins the first piece of the rest |
| `JavaLang.PiecesSpace` | src/main/java/de/saar/coli/arranger/AbcParser.java:53 | a leading run of spaces gives an empty first piece |
| `JavaLang.DropTrailingEmptyStep` | src/main/java/de/saar/coli/arranger/AbcParser.java:53 | a nonempty last piece keeps every piece; an empty last piece is dropped before the rest are looked at |
| `JavaLang.SplitExamples` | src/main/java/de/saar/coli/arranger/AbcParser.java:53 | "a b " splits into the two words "a" and "b", with no trailing empty word |
| `Notes.Note.AbsoluteDistance` | src/main/java/de/saar/coli/arranger/Note.java:108-110 | the distance is never negative, is zero exactly for equal pitches, and is one of the two differences |
| `Notes.NoteName` | src/main/java/de/saar/coli/arranger/Note.java:160-162 | a name exists exactly for relative notes 0..11 and is the flat-spelled entry of the name list; any other index throws |
| `Notes.NoteId` | src/main/java/de/saar/coli/arranger/Note.java:242-244 | the result is -1 exactly for a string that is not a canonical name, and otherwise the position whose name it is |
| `Notes.CreateInOctaveParts` | src/main/java/de/saar/coli/arranger/Note.java:57-59 | a note made from a relative note 0..11 and an octave from -1 up has that relative note and that octave |
| `Notes.CreateNamedParts` | src/main/java/de/saar/coli/arranger/Note.java:71-73 | a canonical name gives a note with that pitch class in the requested octave; an unknown name counts as relative note -1 |
| `Notes.FromScientific` | src/main/java/de/saar/coli/arranger/Note.java:82-90 | a note is produced exactly when the string matches letters followed by digits; otherwise the result is null |
| `Notes.FromScientificGroups` | src/main/java/de/saar/coli/arranger/Note.java:82-90 | for a match, the letters name the relative note and the decimal digits give the octave |
| `Notes.MatchSplitIsLetterRun` | src/main/java/de/saar/coli/arranger/Note.java:34 | the two regular-expression groups can only split after the leading run of letters |
| `Notes.NoteToString` | src/main/java/de/saar/coli/arranger/Note.java:246-249 | the text exists exactly when the relative note is not negative (a negative one makes the list lookup throw) |
| `Notes.NoteIdOfNoteName` | src/main/java/de/saar/coli/arranger/Note.java:33 | every canonical name is found again at its own position |
| `Notes.SharpNamesUnknown` | src/main/java/de/saar/coli/arranger/Note.java:61-64 | sharp spellings such as "C#" are not canonical names and give -1 |
| `Notes.CreateInOctaveRoundTrip` | src/main/java/de/saar/coli/arranger/Note.java:129-140 | for a non-negative MIDI number, relative note and octave rebuild the same note |
| `Notes.AbsoluteDistanceSymmetric` | src/main/java/de/saar/coli/arranger/Note.java:108-122 | distance is symmetric and unchanged when both notes are shifted by the same offset |
| `Notes.AddOctaves` | src/main/java/de/saar/coli/arranger/Note.java:120-140 | a shift by whole octaves keeps the relative note, raises the octave by that many, and is undone by the opposite shift |
| `Notes.NoteNameShape` | src/main/java/de/saar/coli/arranger/Note.java:33 | each canonical name is one or two letters |
| `Notes.ScientificRoundTrip` | src/main/java/de/saar/coli/arranger/Note.java:82-90 | the scientific name (canonical name plus octave) of every note from octave 0 up reads back as the same note |
| `Notes.CreateNamedOfOwnName` | src/main/java/de/saar/coli/arranger/Note.java:71-73 | a note's own canonical name and octave rebuild the note |
| `Notes.OneDigitScientific` | src/main/java/de/saar/coli/arranger/Note.java:82-90 | a canonical name followed by one octave digit denotes MIDI 12*(octave+1) plus its pitch class |
| `Notes.MalformedScientificNames` | src/main/java/de/saar/coli/arranger/Note.java:82-90 | "C", "4" and "C#4" do not match and give null |
| `Notes.CreateInOctave` | src/main/java/de/saar/coli/arranger/Note.java:57-59 | the note keeps the requested duration; its pitch is stated by `Notes.CreateInOctaveParts` |
| `Notes.CreateNamed` | src/main/java/de/saar/coli/arranger/Note.java:71-73 | the note keeps the requested duration; its pitch is stated by `Notes.CreateNamedParts` |
| `Notes.Note.RelativeNote` | src/main/java/de/saar/coli/arranger/Note.java:129-131 | `getRelativeNote`: Java's remainder of the MIDI number by 12, so negative below MIDI 0; `Notes.CreateInOctaveRoundTrip` and `Notes.AddOctaves` state what it recovers |
| `Notes.Note.Octave` | src/main/java/de/saar/coli/arranger/Note.java:138-140 | `getOctave`: Java's truncating quotient by 12, less one, so that C4 is MIDI 60; with the relative note it rebuilds the note (`Notes.CreateInOctaveRoundTrip`) |
| `Notes.Note.Add` | src/main/java/de/saar/coli/arranger/Note.java:120-122 | `add`: the note that many semitones higher (lower when negative), with the same duration; `Notes.AbsoluteDistanceSymmetric` and `Notes.AddOctaves` state how shifts behave |
| `Keys.Key.GetAccidentalForNote` | src/main/java/de/saar/coli/arranger/Key.java:62-70 | a letter with an accidental gets its stored direction, any other letter 0 |
| `Keys.Key.GetBaseNote` | src/main/java/de/saar/coli/arranger/Key.java:72-80 | an altered pitch class maps to its natural letter's pitch class; any other pitch class maps to itself |
| `Keys.NewKey` | src/main/java/de/saar/coli/arranger/Key.java:41-60 | the constructor's two loops build exactly the key described by its direction and altered letters |
| `Keys.CollectKeyNotes` | src/main/java/de/saar/coli/arranger/Key.java:49-59 | the loop over the seven letters yields the set of their shifted pitch classes and the map from each altered pitch class to its natural one |
| `Keys.LetterInOctaveZero` | src/main/java/de/saar/coli/arranger/Key.java:52-54 | a letter made in octave 0 and shifted by its accidental has the wrapped pitch class |
| `Keys.RowIndex` | src/main/java/de/saar/coli/arranger/Key.java:12-24 | a name is found only in a row whose major or minor name it is |
| `Keys.Lookup` | src/main/java/de/saar/coli/arranger/Key.java:82-84 | a key is found exactly for a registered major or minor name |
| `Keys.TableRowShapes` | src/main/java/de/saar/coli/arranger/Key.java:12-24 | C major has no accidentals; every sharp key alters a prefix of F C G D A E and every flat key a non-empty prefix of B E A D G C |
| `Keys.MajorAndMinorShareKey` | src/main/java/de/saar/coli/arranger/Key.java:33-37 | the major and the relative minor name look up the same key, whose name is the major name |
| `Keys.RowIndexOfOwnNames` | src/main/java/de/saar/coli/arranger/Key.java:12-24 | each row's names are found at that row (no name is registered twice) |
| `Keys.LookupUnregistered` | src/main/java/de/saar/coli/arranger/Key.java:82-84 | an unregistered name gives null |
| `Keys.AccidentalOfLetter` | src/main/java/de/saar/coli/arranger/Key.java:45-47 | a constructed key gives each listed letter the key's direction and every other letter 0 |
| `Keys.KeyLetterPitchClass` | src/main/java/de/saar/coli/arranger/Key.java:51-58 | each letter's pitch class in the key is its natural one plus its accidental modulo 12, and differs from the natural one exactly when the letter is listed |
| `Keys.LetterPitchClassesDistinct` | src/main/java/de/saar/coli/arranger/Key.java:51-58 | in a key with no enharmonic clash the seven letters land on seven different pitch classes |
| `Keys.SevenPitchClasses` | src/main/java/de/saar/coli/arranger/Key.java:49-54 | such a key has exactly seven notes, one per letter with its accidental |
| `Keys.RegisteredKeysHaveSevenNotes` | src/main/java/de/saar/coli/arranger/Key.java:12-24 | every registered key has seven notes |
| `Keys.TableHasNoClash` | src/main/java/de/saar/coli/arranger/Key.java:12-24 | no registered key sends two letters to the same pitch class |
| `Keys.AlteredFoldDomain` | src/main/java/de/saar/coli/arranger/Key.java:56-58 | the altered-note map holds exactly the pitch classes of the letters whose accidental moved them |
| `Keys.AlteredFoldValue` | src/main/java/de/saar/coli/arranger/Key.java:56-58 | with distinct pitch classes, each altered pitch class maps to its own letter's natural pitch class |
| `Keys.AlteredMapExact` | src/main/java/de/saar/coli/arranger/Key.java:49-59 | the constructed key's map sends exactly the listed letters' shifted pitch classes to their natural ones |
| `Keys.BaseNoteOfKeyNote` | src/main/java/de/saar/coli/arranger/Key.java:72-80 | the base note of each note of the key is its letter's natural pitch class |
| `Keys.KeyFrom` | src/main/java/de/saar/coli/arranger/Key.java:41-60 | the key the private constructor builds: the letters' accidentals, the pitch classes of the seven letters so altered, and each altered pitch class mapped to its letter's natural one; `Keys.NewKey` computes it and `Keys.AlteredMapExact` states the map |
| `Keys.Key.ToString` | src/main/java/de/saar/coli/arranger/Key.java:89-92 | `toString` is the major key's name, which `Keys.MajorAndMinorShareKey` shows for both names of every registered key |
| `Chords.OrderIndex` | src/main/java/de/saar/coli/arranger/Chord.java:13 | every chord type has a place in the suffix checking order |
| `Chords.FirstSuffixMatches` | src/main/java/de/saar/coli/arranger/Chord.java:173-181 | the first type found from any start of the order has a suffix the name ends with (the empty major suffix always does) |
| `Chords.FirstSuffixIsFirst` | src/main/java/de/saar/coli/arranger/Chord.java:173-181 | no type checked before the one found matches |
| `Chords.FirstSuffixUnique` | src/main/java/de/saar/coli/arranger/Chord.java:173-181 | a matching type with no earlier match is the one found |
| `Chords.ChordTypeBySuffix` | src/main/java/de/saar/coli/arranger/Chord.java:173-181 | the loop returns a type whose suffix the name ends with, no earlier type in the order matches, so the null return is never reached |
| `Chords.LookupName` | src/main/java/de/saar/coli/arranger/Chord.java:138-155 | the chord has the first matching type and the root named by what is left once that suffix is cut off |
| `Chords.ChordTones` | src/main/java/de/saar/coli/arranger/Chord.java:163-171 | one tone per interval of the chord type |
| `Chords.GetNotes` | src/main/java/de/saar/coli/arranger/Chord.java:163-171 | the loop collects the set of root-plus-interval pitch classes |
| `Chords.GetKey` | src/main/java/de/saar/coli/arranger/Chord.java:206-208 | the key lookup is reached exactly for a root 0..11; a root outside that range makes the name lookup throw |
| `Chords.ToString` | src/main/java/de/saar/coli/arranger/Chord.java:243-246 | a chord prints exactly when its root is 0..11 |
| `Chords.EndsWithAfterRoot` | src/main/java/de/saar/coli/arranger/Chord.java:151-155 | a suffix of root plus type name, where the root ends in a letter name character, lies within the type name or reaches into the root |
| `Chords.EarlierSuffixesClear` | src/main/java/de/saar/coli/arranger/Chord.java:13 | no type earlier in the order has a suffix that could match a later type's own name |
| `Chords.SuffixesBefore` | src/main/java/de/saar/coli/arranger/Chord.java:173-181 | a canonical root followed by a type's name matches no earlier type in the order |
| `Chords.ChordNameRoundTrip` | src/main/java/de/saar/coli/arranger/Chord.java:151-155 | printing a chord with a known root and looking the text up gives back the same chord |
| `Chords.UnknownRoot` | src/main/java/de/saar/coli/arranger/Chord.java:138-143 | an unknown root gives root -1, and printing the chord or asking for its key then throws |
| `Chords.ChordLookupExamples` | src/main/java/de/saar/coli/arranger/Chord.java:151-155 | "Db7" is a seventh chord on 1 and "B" a major chord on 11 |
| `Chords.ChordNotesInOctave` | src/main/java/de/saar/coli/arranger/Chord.java:22-72 | every chord type's intervals are distinct and lie within one octave |
| `Chords.ChordPitchClassCount` | src/main/java/de/saar/coli/arranger/Chord.java:163-171 | a chord with a known root has as many distinct pitch classes as its type has intervals, each root plus interval modulo 12 |
| `Chords.ChordNoteExamples` | src/main/java/de/saar/coli/arranger/Chord.java:163-171 | Db7 sounds {1, 5, 8, 11} and B sounds {11, 3, 6} |
| `Chords.BassNoteByInterval` | src/main/java/de/saar/coli/arranger/Chord.java:190-193 | a note above the root is allowed in the bass exactly when its interval from the root is an allowed bass interval; an octave shift changes nothing and the root is always allowed |
| `Chords.MajorKeyNames` | src/main/java/de/saar/coli/arranger/Chord.java:206-208 | every canonical root name is a registered major key |
| `Chords.MinorKeyNames` | src/main/java/de/saar/coli/arranger/Chord.java:206-208 | a root name plus "m" is registered except for Db, Gb and Ab |
| `Chords.ChordKeyExists` | src/main/java/de/saar/coli/arranger/Chord.java:206-208 | a chord with a known root has a key unless it is a minor-mode chord on Db, Gb or Ab, where the lookup gives null |
| `Chords.ChordType.ChordNotes` | src/main/java/de/saar/coli/arranger/Chord.java:18-93 | the notes of each chord type above its root: three or four of them, the root among them except in the ninth chord "9" |
| `Chords.ChordType.AllowedBassNotes` | src/main/java/de/saar/coli/arranger/Chord.java:18-116 | the intervals above the root the bass may sing: always the root, and otherwise only notes of the chord (the ninth chord, which leaves out its root, still allows it) |
| `Chords.LookupRoot` | src/main/java/de/saar/coli/arranger/Chord.java:138-143 | `lookup(root, type)` keeps the type; the root is -1 exactly when the name is not canonical, and otherwise the position of that name |
| `Chords.ChordNamed` | src/main/java/de/saar/coli/arranger/Chord.java:151-155 | `lookup(name)`: the type found by suffix and the root looked up from what precedes the suffix; `Chords.LookupName` computes it and `Chords.ChordNameRoundTrip` inverts it |
| `Chords.IsAllowedBassNote` | src/main/java/de/saar/coli/arranger/Chord.java:190-193 | `isAllowedBassNote`: the interval from the root by Java's remainder is an allowed bass interval of the type; `Chords.BassNoteByInterval` states it for notes above the root and across octaves |
| `Spelling.AccidentalString` | src/main/java/de/saar/coli/arranger/Note.java:216-232 | only a one-semitone accidental has a mark, anything else throws; sharp keys write a raise as "#" and a lowering as "@", flat keys a lowering as "b" and a raise as "@" |
| `Spelling.Accidental` | src/main/java/de/saar/coli/arranger/Note.java:199 | the corrected accidental is the source's difference taken the short way round the octave |
| `Spelling.NaturalIndexOfLetter` | src/main/java/de/saar/coli/arranger/Key.java:10 | each natural letter is found again from its pitch class and from its character, and its canonical name is the letter itself |
| `Spelling.BlackKeyNeighbours` | src/main/java/de/saar/coli/arranger/Note.java:209-211 | a pitch class that no letter names has natural neighbours on both sides |
| `Spelling.LetterInKey` | src/main/java/de/saar/coli/arranger/Key.java:51-58 | an unlisted letter keeps its natural pitch class; a listed one moves one step in the key's direction and back |
| `Spelling.KeyLookup` | src/main/java/de/saar/coli/arranger/Key.java:49-59 | a pitch class is in the key exactly when it is an unaltered natural letter or an altered letter's shifted pitch class, and only the latter are in the altered-note map, mapped to their natural letter |
| `Spelling.ReadLetter` | src/main/java/de/saar/coli/arranger/Note.java:175-186 | a letter read with no mark takes the key's accidental; with "@", "#" or "b" it is natural, raised or lowered |
| `Spelling.SpellAltered` | src/main/java/de/saar/coli/arranger/Note.java:197-200 | an altered key note is spelled as its natural letter with the key's mark |
| `Spelling.SpellNatural` | src/main/java/de/saar/coli/arranger/Note.java:203-207 | a foreign note is spelled as a natural exactly when it is a white key whose letter the key alters |
| `Spelling.SpellFromNeighbour` | src/main/java/de/saar/coli/arranger/Note.java:208-211 | any other foreign note is a black key, spelled from the natural neighbour a step against the key's direction with the key's mark |
| `Spelling.SpellingCases` | src/main/java/de/saar/coli/arranger/Note.java:187-214 | the four branches of the corrected spelling for every key without enharmonic clash, in the order the source tests them |
| `Spelling.SpellingRoundTrip` | src/main/java/de/saar/coli/arranger/Note.java:175-214 | in every such key, every note from MIDI 0 up is spelled, and reading the spelling back under the key gives the note's pitch class |
| `Spelling.KeyNotesInOctave` | src/main/java/de/saar/coli/arranger/Key.java:49-59 | the key's notes and altered notes are pitch classes 0..11 |
| `Spelling.AsWrittenAgrees` | src/main/java/de/saar/coli/arranger/Note.java:187-214 | in every key that does not flatten C, the spelling as written equals the corrected one |
| `Spelling.FlatOnCMiddleC` | src/main/java/de/saar/coli/arranger/Note.java:202-211 | in a flat key that flattens C, any C, with or without forced naturals, is spelled "Dbb" as written, which reads back as no note, while the corrected spelling is "C@" |
| `Spelling.FlatOnCCFlat` | src/main/java/de/saar/coli/arranger/Note.java:197-200 | in such a key any B (spelled Cb) throws as written, because the difference 11 - 0 is passed as the accidental; the corrected spelling is "Cb" |
| `Spelling.OnlyGbMajorFlatsC` | src/main/java/de/saar/coli/arranger/Key.java:12-24 | Gb major is the only registered key with a flat on C |
| `Spelling.GbMajorSpellings` | src/main/java/de/saar/coli/arranger/Key.java:24 | in Gb major, C4 is "Dbb" and B4 throws as written, and "C@" and "Cb" corrected |
| `Spelling.RegisteredSpellingRoundTrip` | src/main/java/de/saar/coli/arranger/Note.java:187-214 | the corrected spelling round-trips in every registered key |
| `Spelling.RegisteredAsWrittenAgrees` | src/main/java/de/saar/coli/arranger/Note.java:187-214 | in every registered key but Gb major, the spelling as written is the corrected one |
| `Spelling.RegisteredKeyLookup` | src/main/java/de/saar/coli/arranger/Key.java:49-59 | key membership for the registered keys, as in `KeyLookup` |
| `Spelling.RegisteredSpellingCases` | src/main/java/de/saar/coli/arranger/Note.java:187-214 | the four spelling branches as written, for every registered key but Gb major |
| `Spelling.CMajorSpellings` | src/main/java/de/saar/coli/arranger/Note.java:187-214 | in C major, C4, Gb4 and B4 are "C", "F#" and "B" |
| `Spelling.FMajorSpellings` | src/main/java/de/saar/coli/arranger/Note.java:202-207 | in F major, B4 is "B@" |
| `Spelling.BMajorSpellings` | src/main/java/de/saar/coli/arranger/Note.java:197-200 | in B major, Eb4 is "D#" |
| `Spelling.BFlatMajorSpellings` | src/main/java/de/saar/coli/arranger/Note.java:197-200 | in Bb major, Eb4 is "Eb" |
| `Spelling.GMajorSpellings` | src/main/java/de/saar/coli/arranger/Note.java:202-211 | in G major, F4 is "F@" and Bb4 is "A#" |
| `Spelling.NoteNameInKeyAsWritten` | src/main/java/de/saar/coli/arranger/Note.java:187-214 | `getNoteName(Key, boolean)` as the source computes it, with Java's `%` and the plain difference as accidental; `Spelling.RegisteredAsWrittenAgrees` and `Spelling.GbMajorSpellings` relate it to the corrected spelling |
| `Spelling.NoteNameInKey` | src/main/java/de/saar/coli/arranger/Note.java:187-214 | the corrected spelling, with both reductions modulo 12 and the accidental taken round the octave; `Spelling.SpellingRoundTrip` shows it reads back as the note's pitch class |
| `Spelling.NoSharpOnB` | src/main/java/de/saar/coli/arranger/Key.java:12-24 | no registered sharp key alters B |
| `Spelling.SharpKeysHoldB` | src/main/java/de/saar/coli/arranger/Key.java:12-24 | every registered sharp key holds B natural |
| `Spelling.KeyNoteAgrees` | src/main/java/de/saar/coli/arranger/Note.java:190-201 | a note of the key is spelled alike as written and corrected unless its letter lies across C from it (Cb in a flat key, B# in a sharp key) |
| `Spelling.GbKeyNoteAgrees` | src/main/java/de/saar/coli/arranger/Note.java:190-201 | in Gb major every key note but Cb is spelled alike as written and corrected |
| `VoiceParts.GetNotesInRange` | src/main/java/de/saar/coli/arranger/VoicePart.java:48-58 | the notes are exactly the pitches from the low to the high limit whose pitch class is wanted, in ascending order without repeats, all with the given duration |
| `VoiceParts.RangesOrdered` | src/main/java/de/saar/coli/arranger/VoicePart.java:13-18 | every part's low limit lies below its high limit, and lead and baritone share their range |
| `VoiceParts.PitchesInRangeMonotone` | src/main/java/de/saar/coli/arranger/VoicePart.java:48-58 | asking for more pitch classes never gives fewer notes |
| `VoiceParts.EveryPitchClassInOctaveRange` | src/main/java/de/saar/coli/arranger/VoicePart.java:48-58 | a range of at least an octave offers every wanted pitch class |
| `VoiceParts.TwoCharacterName` | src/main/java/de/saar/coli/arranger/VoicePart.java:14-17 | a limit name such as "G3" denotes MIDI 12*(octave+1) plus its pitch class |
| `VoiceParts.LimitNamesDenoteLimits` | src/main/java/de/saar/coli/arranger/VoicePart.java:13-18 | the limit names G3-B4, C3-G4, C3-G4 and F2-C4 denote the limits of tenor, lead, baritone and bass |
| `VoiceParts.PitchesInRange` | src/main/java/de/saar/coli/arranger/VoicePart.java:48-58 | the pitches `getNotesInRange` collects: those within the part's limits whose Java remainder by 12 is one of the relative notes; `VoiceParts.GetNotesInRange` computes them in ascending order |
| `Scores.ChordIndexFrom` | src/main/java/de/saar/coli/arranger/Score.java:78-87 | the search from position k returns a position from k on, or none |
| `Scores.OnsetStep` | src/main/java/de/saar/coli/arranger/Score.java:78-87 | the onset of the next melody note is this onset plus this note's duration |
| `Scores.ChordIndexFromFirst` | src/main/java/de/saar/coli/arranger/Score.java:79-84 | the index found is a chord change in effect at the time, and no later-found change comes before it |
| `Scores.ChordAtTimeMeaning` | src/main/java/de/saar/coli/arranger/Score.java:78-87 | a chord is returned exactly when some change starts at or before the time and the next starts after it (or there is none); it is the first such change; otherwise null |
| `Scores.LaterChangesStartLater` | src/main/java/de/saar/coli/arranger/Score.java:79-84 | with start times in order, every change after the one in effect starts after the time |
| `Scores.ChordOnInterval` | src/main/java/de/saar/coli/arranger/Score.java:79-84 | with start times in order, the chord of the change whose interval holds the time is the one returned |
| `Scores.NoChordBeforeFirstOnset` | src/main/java/de/saar/coli/arranger/Score.java:86 | before the first change, or with no changes, the result is null |
| `Scores.PartText` | src/main/java/de/saar/coli/arranger/Score.java:96-99 | the only way a part fails to print is the list lookup of a negative relative note |
| `Scores.PartLines` | src/main/java/de/saar/coli/arranger/Score.java:93-101 | the only way the part lines fail is that lookup |
| `Scores.PartTextOk` | src/main/java/de/saar/coli/arranger/Score.java:96-99 | a part prints exactly when every note in it prints |
| `Scores.PartTextFailsFrom` | src/main/java/de/saar/coli/arranger/Score.java:96-99 | once one note fails, the whole part fails |
| `Scores.PartLinesFailFrom` | src/main/java/de/saar/coli/arranger/Score.java:93-101 | once one part fails, the whole text fails |
| `Scores.PartLinesStep` | src/main/java/de/saar/coli/arranger/Score.java:93-101 | the first k parts print exactly when the first k - 1 do and part k does |
| `Scores.ScoreTextOk` | src/main/java/de/saar/coli/arranger/Score.java:90-104 | the score prints exactly when each of its four parts prints |
| `Scores.Score.constructor` | src/main/java/de/saar/coli/arranger/Score.java:23-32 | the score holds the given metadata, four empty parts and no chords |
| `Scores.Score.AddNote` | src/main/java/de/saar/coli/arranger/Score.java:34-36 | a part index 0..3 appends the note to that part and nothing else changes; any other index throws and changes nothing |
| `Scores.Score.GetPart` | src/main/java/de/saar/coli/arranger/Score.java:38-40 | a part index 0..3 gives that part's notes; any other index throws |
| `Scores.Score.SetKey` | src/main/java/de/saar/coli/arranger/Score.java:58-60 | the key is replaced and nothing else changes |
| `Scores.Score.SetTitle` | src/main/java/de/saar/coli/arranger/Score.java:62-64 | the title is replaced and nothing else changes |
| `Scores.Score.SetComposer` | src/main/java/de/saar/coli/arranger/Score.java:66-68 | the composer is replaced and nothing else changes |
| `Scores.Score.SetQuartersPerMeasure` | src/main/java/de/saar/coli/arranger/Score.java:70-72 | the measure length is replaced and nothing else changes |
| `Scores.Score.AddChord` | src/main/java/de/saar/coli/arranger/Score.java:74-76 | the chord change is appended and nothing else changes |
| `Scores.Score.GetChordAtTime` | src/main/java/de/saar/coli/arranger/Score.java:78-87 | the loop returns the chord that `ChordAtTimeMeaning` characterises |
| `Scores.Score.ToString` | src/main/java/de/saar/coli/arranger/Score.java:90-104 | the loops over the four parts build the score text, or throw as `ScoreTextOk` says |
| `Scores.PartNotes` | src/main/java/de/saar/coli/arranger/Score.java:96-99 | the inner loop builds one part's text |
| `Scores.TwoChordTimeline` | src/main/java/de/saar/coli/arranger/Score.java:78-87 | with C from time 0 and G7 from time 4, times 0 and 1 give C, 4 and 7 give G7, and -1 gives null |
| `Scores.PrintedNotes` | src/main/java/de/saar/coli/arranger/Note.java:246-249 | MIDI 76, 72, 67 and 60 with duration 2 print as "E5:2", "C5:2", "G4:2" and "C4:2" |
| `Scores.SingleNotePart` | src/main/java/de/saar/coli/arranger/Score.java:96-99 | a one-note part is a space and the note's text |
| `Scores.PartLinesAppend` | src/main/java/de/saar/coli/arranger/Score.java:93-101 | one more part adds its name, a colon, its notes and a newline to the text |
| `Scores.OneChordScoreText` | src/main/java/de/saar/coli/arranger/Score.java:90-104 | a score of one note per part prints as four lines headed Tn, Ld, Br and Bs |
| `Scores.ExampleParts` | src/main/java/de/saar/coli/arranger/Score.java:96-99 | each printed note is a space, the note's scientific name, a colon and its duration, as in " E5:2" and " C4:2" |
| `Scores.ChordAtTime` | src/main/java/de/saar/coli/arranger/Score.java:78-87 | `getChordAtTime`: the chord of the latest change at or before the time, none before the first; stated by `Scores.ChordAtTimeMeaning` |
| `Scores.Onset` | src/main/java/de/saar/coli/arranger/abc/AbcWriter.java:57-67 | the running `timeSinceStart` of the writer's loop: the summed durations of the notes before; `Scores.OnsetStep` is its step |
| `Scores.ScoreText` | src/main/java/de/saar/coli/arranger/Score.java:90-104 | `toString` of a score: one line per part, its abbreviation, a colon and its notes; `Scores.ScoreTextOk` states when it is printed |
| `Rules.SentinelMatches` | src/main/java/de/saar/coli/arranger/rules/VoBassLowest.java:19 | a verdict encoded as the Java score and decoded again is the same verdict, and only a rejection is encoded as Integer.MIN_VALUE |
| `Rules.GetDifferentAbsoluteNotes` | src/main/java/de/saar/coli/arranger/rules/VoUnisonNotes.java:25-33 | the loop collects exactly the set of the voicing's pitches |
| `Rules.DifferentPitchesOfFour` | src/main/java/de/saar/coli/arranger/rules/VoUnisonNotes.java:25-33 | four voices have one to four different pitches, and four exactly when no two voices share a pitch |
| `Rules.RelativeNotesOrderFree` | src/main/java/de/saar/coli/arranger/rules/VoUseAllChordNotes.java:17-21 | the pitch classes of a voicing do not depend on the order of the voices |
| `Rules.SetMax` | src/main/java/de/saar/coli/arranger/rules/VoWideSpread.java:20 | the maximum is in the set and no element exceeds it |
| `Rules.SetMin` | src/main/java/de/saar/coli/arranger/rules/VoWideSpread.java:21 | the minimum is in the set and no element lies below it |
| `Rules.MaxWitness` | src/main/java/de/saar/coli/arranger/rules/VoWideSpread.java:20 | every non-empty finite set of integers has a largest element |
| `Rules.MinWitness` | src/main/java/de/saar/coli/arranger/rules/VoWideSpread.java:21 | every non-empty finite set of integers has a smallest element |
| `Rules.ExtremesOfDifferentNotes` | src/main/java/de/saar/coli/arranger/rules/VoWideSpread.java:19-21 | the maximum and minimum of the different pitches are the highest and lowest voice |
| `Rules.VoUseAllChordNotes` | src/main/java/de/saar/coli/arranger/rules/VoUseAllChordNotes.java:16-28 | the loop and the size comparison give the rule's verdict |
| `Rules.UseAllChordNotesMeaning` | src/main/java/de/saar/coli/arranger/rules/VoUseAllChordNotes.java:16-28 | the rule only rejects or scores 0, does not depend on the voice order, and accepts every voicing that sounds all chord notes |
| `Rules.UseAllChordNotesExamples` | src/main/java/de/saar/coli/arranger/rules/VoUseAllChordNotes.java:16-28 | E-C-G-Db over a C chord is accepted (the size test counts, not compares, the notes) and G-C-G-E under C7 is rejected |
| `Rules.BassLowestMeaning` | src/main/java/de/saar/coli/arranger/rules/VoBassLowest.java:13-23 | a voicing is accepted, with score 0, exactly when the bass is at or below every other voice, ties included |
| `Rules.TenorCrossingMeaning` | src/main/java/de/saar/coli/arranger/rules/VoTenorCrossing.java:13-24 | a tenor at or above lead and baritone costs nothing, a tenor below either costs the tenorCrossing weight, and the bass does not matter |
| `Rules.UnisonNotesMeaning` | src/main/java/de/saar/coli/arranger/rules/VoUnisonNotes.java:16-23 | any two voices on the same pitch cost the unisonNotes weight, four different pitches cost nothing |
| `Rules.OctaveDoublingIsNoUnison` | src/main/java/de/saar/coli/arranger/rules/VoUnisonNotes.java:16-23 | an octave doubling is not a unison; two voices on E4 are |
| `Rules.WideSpreadMeaning` | src/main/java/de/saar/coli/arranger/rules/VoWideSpread.java:17-28 | a spread of more than 19 semitones between highest and lowest voice costs the wideSpread weight, otherwise nothing |
| `Rules.WideSpreadExamples` | src/main/java/de/saar/coli/arranger/rules/VoWideSpread.java:23 | a spread of exactly 19 costs nothing, 20 costs the weight |
| `Rules.LdHarmonyLeaps` | src/main/java/de/saar/coli/arranger/rules/LdHarmonyLeaps.java:16-29 | the loop's score is the rule's specification |
| `Rules.LeapingPartsStep` | src/main/java/de/saar/coli/arranger/rules/LdHarmonyLeaps.java:20-26 | each loop step adds its part to the leaping parts exactly when it is tenor or baritone and leaps |
| `Rules.HarmonyLeapsMeaning` | src/main/java/de/saar/coli/arranger/rules/LdHarmonyLeaps.java:16-29 | the score is the weight times the number (at most two) of tenor and baritone leaps of more than three semitones; it is symmetric in the two voicings, zero without leaps and twice the weight when both leap |
| `Rules.HarmonyLeapsIgnoresLeadAndBass` | src/main/java/de/saar/coli/arranger/rules/LdHarmonyLeaps.java:21 | lead and bass movements never change the score |
| `Rules.LdParallelOctaves` | src/main/java/de/saar/coli/arranger/rules/LdParallelOctaves.java:13-28 | the two nested loops' score is the rule's specification |
| `Rules.ParallelPairsStep` | src/main/java/de/saar/coli/arranger/rules/LdParallelOctaves.java:18-23 | each inner-loop step adds its pair exactly when the two parts are an octave apart before and after |
| `Rules.ParallelPairsRowStart` | src/main/java/de/saar/coli/arranger/rules/LdParallelOctaves.java:18 | the inner loop starts each row after the part itself |
| `Rules.ParallelPairsRowEnd` | src/main/java/de/saar/coli/arranger/rules/LdParallelOctaves.java:17 | the end of one row is the start of the next |
| `Rules.ParallelOctavesMeaning` | src/main/java/de/saar/coli/arranger/rules/LdParallelOctaves.java:13-28 | the score is the weight times the number (at most six) of part pairs an octave apart in both voicings; symmetric, and zero when no pair starts an octave apart |
| `Rules.ParallelOctavesExamples` | src/main/java/de/saar/coli/arranger/rules/LdParallelOctaves.java:19-20 | tenor and bass moving C to D in octaves cost one penalty; a unison pair moving together costs nothing |
| `Rules.JavaScore` | src/main/java/de/saar/coli/arranger/rules/VoBassLowest.java:19 | the int a Java rule returns for a verdict, Integer.MIN_VALUE for a rejection; `Rules.SentinelMatches` shows `Rules.VerdictOf` inverts it |
| `Rules.VerdictOf` | src/main/java/de/saar/coli/arranger/Arrange.java:82 | reading a rule's int back, as the engine's test against Integer.MIN_VALUE does; inverse of `Rules.JavaScore` by `Rules.SentinelMatches` |
| `Rules.UseAllChordNotes` | src/main/java/de/saar/coli/arranger/rules/VoUseAllChordNotes.java:16-28 | reject a voicing with fewer different pitch classes than the chord has notes; stated by `Rules.UseAllChordNotesMeaning` |
| `Rules.BassLowest` | src/main/java/de/saar/coli/arranger/rules/VoBassLowest.java:13-23 | reject a voicing whose bass is above any other voice; stated by `Rules.BassLowestMeaning` |
| `Rules.TenorCrossing` | src/main/java/de/saar/coli/arranger/rules/VoTenorCrossing.java:13-24 | the tenor-crossing weight when the tenor is below lead or baritone; stated by `Rules.TenorCrossingMeaning` |
| `Rules.UnisonNotes` | src/main/java/de/saar/coli/arranger/rules/VoUnisonNotes.java:16-23 | the unison weight when fewer than four different pitches sound; stated by `Rules.UnisonNotesMeaning` |
| `Rules.WideSpread` | src/main/java/de/saar/coli/arranger/rules/VoWideSpread.java:17-28 | the spread weight when the highest and lowest pitches are more than 19 semitones apart; stated by `Rules.WideSpreadMeaning` |
| `Rules.HarmonyLeaps` | src/main/java/de/saar/coli/arranger/rules/LdHarmonyLeaps.java:16-29 | the leap weight once per harmony part that leaps; stated by `Rules.HarmonyLeapsMeaning` |
| `Rules.ParallelOctaves` | src/main/java/de/saar/coli/arranger/rules/LdParallelOctaves.java:13-28 | the parallel-octave weight once per pair of voices an octave apart in both voicings; stated by `Rules.ParallelOctavesMeaning` |
| `Trellis.LayerOnAll` | src/main/java/de/saar/coli/arranger/Arrange.java:75-113 | once every admitted voicing has been considered, the layer built so far meets the layer specification |
| `Trellis.LayerOnInsert` | src/main/java/de/saar/coli/arranger/Arrange.java:80-107 | entering one more voicing keeps the partial layer correct |
| `Trellis.LayerOnSkip` | src/main/java/de/saar/coli/arranger/Arrange.java:75-82 | skipping voicings that are not admitted (a disallowed bass, a rejected chord voicing) keeps the partial layer correct |
| `Trellis.LayersSnoc` | src/main/java/de/saar/coli/arranger/Arrange.java:68-118 | appending a layer that meets its specification extends a correct trellis |
| `Trellis.ValidPrefix` | src/main/java/de/saar/coli/arranger/Arrange.java:92-105 | every prefix of a valid chain of voicings is valid |
| `Trellis.ExtendValid` | src/main/java/de/saar/coli/arranger/Arrange.java:93-96 | a valid chain extended by an admitted voicing whose running total stays at or above -100 is valid, with that total as its score |
| `Trellis.ChainBounded` | src/main/java/de/saar/coli/arranger/Arrange.java:92-104 | no valid chain ends in a voicing the trellis has not entered, nor scores more than the best score recorded for it |
| `Trellis.BestPredecessor` | src/main/java/de/saar/coli/arranger/Arrange.java:92-104 | every entered voicing after the first position has a predecessor whose total is its recorded best score |
| `Trellis.BestChainOf` | src/main/java/de/saar/coli/arranger/Arrange.java:68-118 | every recorded best score is achieved by some valid chain ending in that voicing |
| `Trellis.FrontierEmptyMeansNoChain` | src/main/java/de/saar/coli/arranger/Arrange.java:68-124 | the last layer is empty exactly when no valid chain covers the whole melody |
| `Trellis.TightPrefixScores` | src/main/java/de/saar/coli/arranger/Arrange.java:149-169 | along a chain that follows best backpointers, each prefix scores the recorded best of its last voicing |
| `Trellis.TightChainIsValid` | src/main/java/de/saar/coli/arranger/Arrange.java:149-169 | a chain that follows best backpointers is valid and scores the best of its last voicing |
| `Trellis.TightChainIsOptimal` | src/main/java/de/saar/coli/arranger/Arrange.java:121-169 | followed back from a maximal goal voicing, the chain covers the melody and no valid chain of that length scores higher |
| `Arrange.ItemEqualsMeaning` | src/main/java/de/saar/coli/arranger/Arrange.java:320-330 | two items are equal exactly when their four pitches are; among voicings of one duration this is plain equality |
| `Arrange.ItemEqualsIgnoresDuration` | src/main/java/de/saar/coli/arranger/Arrange.java:320-330 | voicings with the same pitches but other durations are the same item |
| `Arrange.LexicalScoreIsRuleVerdict` | src/main/java/de/saar/coli/arranger/Arrange.java:219-253 | the inlined lexical score is the five voicing rules' combined verdict; when the weights cannot reach Integer.MIN_VALUE it is that sentinel exactly when too few pitch classes are used or the bass is not lowest |
| `Arrange.Slots` | src/main/java/de/saar/coli/arranger/Score.java:78-87 | one slot per melody note, each holding the note and the chord sounding at its onset |
| `Arrange.AdmittedItemsAreVoicings` | src/main/java/de/saar/coli/arranger/Arrange.java:80-84 | voicings admitted at one position share the melody note's duration, so item equality is plain equality there |
| `Arrange.ScoreTransition` | src/main/java/de/saar/coli/arranger/Arrange.java:193-217 | the two loops compute the sum of the harmony-leap and parallel-octave scores |
| `Arrange.TransitionMeaning` | src/main/java/de/saar/coli/arranger/Arrange.java:193-217 | the transition score is symmetric and a whole number of leap penalties (at most two) plus a whole number of octave penalties (at most six) |
| `Arrange.NotesAtTime` | src/main/java/de/saar/coli/arranger/Arrange.java:260-271 | the lead has only the melody note; each other part has its notes in range on the chord's pitch classes |
| `Arrange.ComputePossibleNotes` | src/main/java/de/saar/coli/arranger/Arrange.java:256-275 | candidate lists are built for every melody note exactly when each onset has a chord; otherwise the call on the missing chord throws a NullPointerException |
| `Arrange.ComboMember` | src/main/java/de/saar/coli/arranger/Arrange.java:75-79 | the four nested loops range over every combination of one candidate per part, and nothing else |
| `Arrange.CandidateListsCover` | src/main/java/de/saar/coli/arranger/Arrange.java:75-79 | a voicing is a candidate at a position exactly when it is one of these combinations |
| `Arrange.ProblemOfScoresSlots` | src/main/java/de/saar/coli/arranger/Arrange.java:80-96 | the trellis problem scores each slot with the lexical chord score and the transition score |
| `Arrange.BestStep` | src/main/java/de/saar/coli/arranger/Arrange.java:101-104 | one predecessor considered keeps the best score the maximum over those seen so far that reach -100 |
| `Arrange.ColumnStep` | src/main/java/de/saar/coli/arranger/Arrange.java:96-99 | one predecessor considered adds its backpointer exactly when the total reaches -100 |
| `Arrange.ConsiderPredecessor` | src/main/java/de/saar/coli/arranger/Arrange.java:93-105 | one pass of the innermost loop keeps best scores and backpointers correct for the predecessors seen so far and changes no other voicing |
| `Arrange.AddEdges` | src/main/java/de/saar/coli/arranger/Arrange.java:92-106 | the loop over the previous layer records, for one voicing, the best total and one backpointer per predecessor that reaches -100 |
| `Arrange.CellFromEdges` | src/main/java/de/saar/coli/arranger/Arrange.java:92-106 | after that loop the voicing is entered exactly when some predecessor reached -100, with the cell's score and backpointers as specified |
| `Arrange.EnterVoicing` | src/main/java/de/saar/coli/arranger/Arrange.java:80-107 | entering one candidate voicing (lexical cell at position 0, edges later) keeps the partial layer correct |
| `Arrange.EnterTenors` | src/main/java/de/saar/coli/arranger/Arrange.java:79-109 | the tenor loop enters every combination with the given lead, baritone and bass |
| `Arrange.EnterBaritones` | src/main/java/de/saar/coli/arranger/Arrange.java:78-110 | the baritone loop enters every combination with the given lead and bass |
| `Arrange.EnterLeads` | src/main/java/de/saar/coli/arranger/Arrange.java:77-111 | the lead loop enters every combination with the given bass |
| `Arrange.ArrangeLayer` | src/main/java/de/saar/coli/arranger/Arrange.java:69-113 | one position's layer meets the layer specification |
| `Arrange.GoalStep` | src/main/java/de/saar/coli/arranger/Arrange.java:122-124 | each goal entry considered keeps the chosen one maximal among those seen |
| `Arrange.BestGoal` | src/main/java/de/saar/coli/arranger/Arrange.java:122-124 | the goal item chosen has a maximal score; an empty last layer makes the list lookup throw |
| `Arrange.FirstBestEdge` | src/main/java/de/saar/coli/arranger/Arrange.java:157-158 | the position found holds a maximal score and every position before it scores less |
| `Arrange.BestBackpointer` | src/main/java/de/saar/coli/arranger/Arrange.java:155-160 | the backpointer taken is the first of highest score; an empty list throws, and a null among several makes the sort throw |
| `Arrange.ColumnFacts` | src/main/java/de/saar/coli/arranger/Arrange.java:86-99 | a first-position cell holds only the lexical (null) backpointer; a later cell holds at least one edge and no null |
| `Arrange.BestEdgeIsTight` | src/main/java/de/saar/coli/arranger/Arrange.java:92-104 | the best backpointer of a cell points to a predecessor whose total is the cell's best score |
| `Arrange.TightCons` | src/main/java/de/saar/coli/arranger/Arrange.java:163-167 | prepending a tight predecessor keeps a chain tight |
| `Arrange.StepBack` | src/main/java/de/saar/coli/arranger/Arrange.java:155-169 | each step of the walk back finds a backpointer, which is null exactly at the first position, and extends the walked chain |
| `Arrange.FollowBackpointers` | src/main/java/de/saar/coli/arranger/Arrange.java:149-171 | the walk back from the goal item reaches the first position along best backpointers |
| `Arrange.AddVoicing` | src/main/java/de/saar/coli/arranger/Arrange.java:184-188 | one voicing is appended part by part and nothing else in the score changes |
| `Arrange.ExtractBestScore` | src/main/java/de/saar/coli/arranger/Arrange.java:149-191 | the new score is built from the chain the walk collected, in order, with the original title, key, measure and chords and the arranger as composer |
| `Arrange.ChainSingsMelody` | src/main/java/de/saar/coli/arranger/Arrange.java:260-267 | in every valid chain the lead sings the melody |
| `Arrange.BuildLayers` | src/main/java/de/saar/coli/arranger/Arrange.java:66-118 | the position loop builds a correct trellis with one layer per melody note |
| `Arrange.Arrange` | src/main/java/de/saar/coli/arranger/Arrange.java:58-129 | a missing chord throws a NullPointerException; otherwise the call throws exactly when no valid arrangement covers the melody, and else returns a score whose voicings form a best arrangement, whose lead is the melody and whose metadata is copied |
| `Arrange.ItemEquals` | src/main/java/de/saar/coli/arranger/Arrange.java:320-330 | `Item.equals`: the four pitches agree, durations not compared; stated by `Arrange.ItemEqualsMeaning` |
| `Arrange.ScoreLexicalChord` | src/main/java/de/saar/coli/arranger/Arrange.java:219-253 | `scoreLexicalChord` in the engine's order of checks; `Arrange.LexicalScoreIsRuleVerdict` shows it is the five rules' verdict with the sentinel |
| `Arrange.VoicingVerdict` | src/main/java/de/saar/coli/arranger/Arrange.java:219-253 | the five voicing rules taken together: a rejection by either rejecting rule, or the sum of the three penalties |
| `Arrange.Transition` | src/main/java/de/saar/coli/arranger/Arrange.java:193-217 | `scoreTransition`: the harmony-leap and parallel-octave penalties added; `Arrange.ScoreTransition` computes it and `Arrange.TransitionMeaning` states it |
| `AbcNotation.Repeat` | src/main/java/de/saar/coli/arranger/abc/AbcWriter.java:141-148 | the marks appended for the octave: the mark repeated as many times as asked, none for a count below one |
| `AbcNotation.LowerCase` | src/main/java/de/saar/coli/arranger/abc/AbcWriter.java:140 | `toLowerCase` on ASCII text, character by character |
| `AbcNotation.UpperCase` | src/main/java/de/saar/coli/arranger/abc/AbcWriter.java:145 | `toUpperCase` on ASCII text, character by character |
| `AbcNotation.MarkAccidental` | src/main/java/de/saar/coli/arranger/abc/AbcWriter.java:125-135 | exactly "^", "_" and "=" are accidental marks |
| `AbcNotation.ReadWrittenToken` | src/main/java/de/saar/coli/arranger/abc/AbcWriter.java:139-151 | a letter with an optional mark, written in any octave with a duration, reads back in ABC as the pitch 12*(octave+1) plus the letter's pitch class plus its accidental, and the same duration |
| `AbcNotation.ReadWrittenLetter` | src/main/java/de/saar/coli/arranger/abc/AbcWriter.java:139-151 | the octave marks after a letter and the digits after them determine octave and duration |
| `AbcNotation.WithOctaveOfLetter` | src/main/java/de/saar/coli/arranger/abc/AbcWriter.java:139-149 | from octave 5 up a letter is written in lower case with one apostrophe per octave above 5, below it in upper case with one comma per octave below 4 |
| `AbcNotation.BarsAtMeasureEnds` | src/main/java/de/saar/coli/arranger/abc/AbcWriter.java:68-73 | when no note crosses a bar line, the running measure count is the onset modulo the measure length and a bar follows a note exactly when it ends a measure |
| `AbcNotation.CountStep` | src/main/java/de/saar/coli/arranger/abc/AbcWriter.java:68-73 | one note advances the measure count accordingly |
| `AbcNotation.WithOctave` | src/main/java/de/saar/coli/arranger/abc/AbcWriter.java:139-149 | a name set in an octave as both writers do; stated by `AbcNotation.WithOctaveOfLetter` |
| `AbcNotation.RunLength` | src/main/java/de/saar/coli/arranger/AbcParser.java:105-114 | the number of copies of a mark a text starts with, never more than its length; `AbcParser.RunOfMarks` states it |
| `AbcNotation.ReadAbcNote` | src/main/java/de/saar/coli/arranger/AbcParser.java:84-127 | a reference reading, not a model of the parser at these lines: the note an ABC token denotes under a key signature, as section 4.2 of the ABC notation standard 2.1 gives it, which the parser itself never applies; it is the partner of both writers' round trips, and `AbcNotation.ReadWrittenToken` states its value |
| `AbcNotation.WrittenAccidental` | src/main/java/de/saar/coli/arranger/abc/AbcWriter.java:109-135 | the accidental a written name carries under a key: its mark, or the signature's on its letter; stated by `AbcNotation.WrittenAccidentalOfLetter` |
| `AbcNotation.WrittenAccidentalOfLetter` | src/main/java/de/saar/coli/arranger/abc/AbcWriter.java:109-135 | a letter after at most one mark carries the mark's accidental, or the signature's when bare |
| `AbcWriter.ChordKey` | src/main/java/de/saar/coli/arranger/abc/AbcWriter.java:106 | the chord's key is looked up only when there is a chord; a chord whose root has no name throws |
| `AbcWriter.StandardSpelling` | src/main/java/de/saar/coli/arranger/abc/AbcWriter.java:108-121 | the three spelling branches of `abcNote`: a note of the song key is its base letter alone; a note of the chord's key is spelled there with naturals marked; any other note is spelled in the song key. The flag picks the key spelling as written or corrected; the properties are those of `SongKeyName`, `ChordKeyName` and `FallbackName` |
| `AbcWriter.AbcName` | src/main/java/de/saar/coli/arranger/abc/AbcWriter.java:123-135 | the ABC spelling has the same length as the standard spelling (a trailing mark becomes a leading one) |
| `AbcWriter.WrittenName` | src/main/java/de/saar/coli/arranger/abc/AbcWriter.java:103-137 | a written name is never empty and needs a song key; a chord with an unnamed root throws, and an unregistered song key throws a NullPointerException |
| `AbcWriter.AbcNoteTextAsWritten` | src/main/java/de/saar/coli/arranger/abc/AbcWriter.java:103-153 | the source's token: the name as the source spells it, in the octave of the sounding pitch, then the duration. `AbcWriter.TokensAgree` relates it to the corrected token, and `AbcWriter.GbMiddleCTokens` and `AbcWriter.GbChordBTokens` show where they differ |
| `AbcWriter.LetterOctave` | src/main/java/de/saar/coli/arranger/abc/AbcWriter.java:139-149 | the corrected octave for the marks: that of the written letter, the pitch less the name's accidental. `AbcWriter.LetterOctaveIsOctave` shows it is `getOctave` unless the accidental carries the letter across C |
| `AbcWriter.AbcNoteText` | src/main/java/de/saar/coli/arranger/abc/AbcWriter.java:103-153 | the corrected token, kept as the reference: the corrected name in the octave of its letter. Its round trip is `AbcWriter.AbcNoteRoundTrip` |
| `AbcWriter.AbcNote` | src/main/java/de/saar/coli/arranger/abc/AbcWriter.java:103-153 | the method computes the source's token, with the octave marks appended one at a time: the spelling as written, and the marks for `note.getOctave()` |
| `AbcWriter.SongKeyLetter` | src/main/java/de/saar/coli/arranger/abc/AbcWriter.java:109-113 | a note of the song key is written as the natural letter of its base note, and that letter with the key's accidental is the note's pitch class |
| `AbcWriter.SpelledLetter` | src/main/java/de/saar/coli/arranger/Note.java:187-214 | in a registered key the corrected spelling of every note is a letter with no mark, "@", "#" or "b"; forcing naturals always gives a mark. A bare letter is one the key does not alter, no spelling is B#, and Cb occurs only for B in Gb major |
| `AbcWriter.SpelledLetterPitch` | src/main/java/de/saar/coli/arranger/Note.java:187-214 | the letter and mark of such a spelling denote the note's pitch class |
| `AbcWriter.AbcLetter` | src/main/java/de/saar/coli/arranger/abc/AbcWriter.java:123-135 | converting a mark moves it in front as "^", "_" or "=", and the ABC reading of the result is the same accidental |
| `AbcWriter.SpelledAbcLetter` | src/main/java/de/saar/coli/arranger/abc/AbcWriter.java:114-121 | a corrected spelling from the chord key (with forced naturals) or the song key, once converted, reads under the song key as the note's pitch class; unless it is the Cb of Gb major, letter and accidental stay within one octave |
| `AbcWriter.MarkInOctave` | src/main/java/de/saar/coli/arranger/abc/AbcWriter.java:139-149 | a letter whose mark is neither a sharp on B nor a flat on C stays within the letter's octave |
| `AbcWriter.ChordKeyRegistered` | src/main/java/de/saar/coli/arranger/abc/AbcWriter.java:106 | a chord with a named root has a registered key or none, in the table row of its root's name and mode |
| `AbcWriter.WrittenNameShape` | src/main/java/de/saar/coli/arranger/abc/AbcWriter.java:103-137 | in a registered key every corrected written name is an optional mark and one letter (the source's length-2 assertion), and reads back as the note's pitch class; where the source spells as intended, letter and accidental stay within one octave |
| `AbcWriter.SongKeyName` | src/main/java/de/saar/coli/arranger/abc/AbcWriter.java:109-113 | the first branch, for a note of the song key; it is the same as written and corrected |
| `AbcWriter.ChordKeyName` | src/main/java/de/saar/coli/arranger/abc/AbcWriter.java:114-117 | the second branch, corrected, for a note of the chord key only; the name always carries a mark |
| `AbcWriter.FallbackName` | src/main/java/de/saar/coli/arranger/abc/AbcWriter.java:118-121 | the third branch, corrected, for a note of neither key |
| `AbcWriter.LetterOctaveArithmetic` | src/main/java/de/saar/coli/arranger/abc/AbcWriter.java:139-149 | the octave of the written letter puts the letter and its accidental on the note's MIDI number |
| `AbcWriter.AbcNoteRoundTrip` | src/main/java/de/saar/coli/arranger/abc/AbcWriter.java:103-153 | the corrected round trip: in every registered key, every note from MIDI 0 up with a chord that has a named root (or none) is written, and its corrected token reads back in ABC under the key as the same pitch and duration |
| `AbcWriter.WrittenTokenReadsBack` | src/main/java/de/saar/coli/arranger/abc/AbcWriter.java:139-153 | a corrected written name that reads as the note's pitch class gives a corrected token that reads back as the note |
| `AbcWriter.OctaveOfLetter` | src/main/java/de/saar/coli/arranger/abc/AbcWriter.java:139-149 | the octave of the letter puts letter plus accidental on the note's pitch |
| `AbcWriter.LetterTokenReadsBack` | src/main/java/de/saar/coli/arranger/abc/AbcWriter.java:139-151 | a letter written in an octave with a duration reads back as the pitch it names |
| `AbcWriter.TextOfName` | src/main/java/de/saar/coli/arranger/abc/AbcWriter.java:139-152 | the corrected token is the corrected name written in its letter's octave, followed by the decimal duration |
| `AbcWriter.NamesAgree` | src/main/java/de/saar/coli/arranger/abc/AbcWriter.java:108-137 | in every registered key but Gb major, with no chord or one with a named root, the source's name for a note is the corrected name, except for a B the song key lacks under a chord whose key is Gb major |
| `AbcWriter.LetterOctaveIsOctave` | src/main/java/de/saar/coli/arranger/abc/AbcWriter.java:139-149 | when the name's accidental keeps the letter within its octave, the letter's octave is the note's own `getOctave` |
| `AbcWriter.TokensAgree` | src/main/java/de/saar/coli/arranger/abc/AbcWriter.java:103-153 | under the same conditions the source's token is the corrected token |
| `AbcWriter.AbcNoteAsWrittenRoundTrip` | src/main/java/de/saar/coli/arranger/abc/AbcWriter.java:103-153 | the source's round trip: under the same conditions every note from MIDI 0 up is written, and its token reads back under the key as the same pitch and duration |
| `AbcWriter.PartStep` | src/main/java/de/saar/coli/arranger/abc/AbcWriter.java:57-74 | one pass of the note loop appends a space, the source's token and a bar line when the measure is full, and resets the measure count |
| `AbcWriter.PartFails` | src/main/java/de/saar/coli/arranger/abc/AbcWriter.java:57-74 | a note whose token throws makes the whole part throw |
| `AbcWriter.NoteFails` | src/main/java/de/saar/coli/arranger/abc/AbcWriter.java:63-66 | the token of a note is computed with the chord sounding at its onset |
| `AbcWriter.WritePart` | src/main/java/de/saar/coli/arranger/abc/AbcWriter.java:51-79 | the loop builds one part's line from the source's tokens, ending in "]", with a measure of twice the quarters per measure |
| `AbcWriter.SoundingChordSpelled` | src/main/java/de/saar/coli/arranger/abc/AbcWriter.java:63-66 | when every chord of the timeline is spelled as intended, so is every note under the chord sounding at any time |
| `AbcWriter.PartBodyOk` | src/main/java/de/saar/coli/arranger/abc/AbcWriter.java:57-74 | in a registered key other than Gb major, with notes from MIDI 0 up and chords with named roots whose key is not Gb major unless the song key holds B, no note throws |
| `AbcWriter.AbcNoteWritten` | src/main/java/de/saar/coli/arranger/abc/AbcWriter.java:103-153 | a note spelled as intended always has a token in the source |
| `AbcWriter.PartLineOk` | src/main/java/de/saar/coli/arranger/abc/AbcWriter.java:51-79 | under the same conditions a part is always written and its line ends in "]" |
| `AbcWriter.ScoreBindings` | src/main/java/de/saar/coli/arranger/abc/AbcWriter.java:36-79 | the bindings `write` hands to the template: title, composer, key, the time signature "q/4" and the four part lines, the song key looked up by name, or the first part's exception; its parts are stated by `AbcWriter.PartLinesOk` |
| `AbcWriter.LineStep` | src/main/java/de/saar/coli/arranger/abc/AbcWriter.java:51-79 | one pass of the part loop adds that part's line |
| `AbcWriter.LineFails` | src/main/java/de/saar/coli/arranger/abc/AbcWriter.java:51-79 | a part that throws makes the whole write throw |
| `AbcWriter.Write` | src/main/java/de/saar/coli/arranger/abc/AbcWriter.java:36-79 | the bindings hold title, composer, key, the time signature "q/4" and one line per part, or the write throws as one part does |
| `AbcWriter.PartLinesOk` | src/main/java/de/saar/coli/arranger/abc/AbcWriter.java:51-79 | in a registered key other than Gb major, with chords spelled as intended, every part is written, one line per part |
| `AbcWriter.SongKeyNoteIsBare` | src/main/java/de/saar/coli/arranger/abc/AbcWriter.java:109-113 | a note of the song key is written as a bare letter, as written and corrected, whose accidental comes from the key signature |
| `AbcWriter.ChordKeyNoteIsMarked` | src/main/java/de/saar/coli/arranger/abc/AbcWriter.java:114-117 | corrected, a note found only in the chord key is written with an explicit "^", "_" or "=" |
| `AbcWriter.GbB4Name` | src/main/java/de/saar/coli/arranger/abc/AbcWriter.java:109-113 | in Gb major, B4 is written as the bare letter C, which the key flattens, as written and corrected |
| `AbcWriter.CTokens` | src/main/java/de/saar/coli/arranger/abc/AbcWriter.java:139-151 | C written in octave 4 is "C2" and in octave 5 "c2" for duration 2 |
| `AbcWriter.ReadCTokens` | src/main/java/de/saar/coli/arranger/abc/AbcWriter.java:139-151 | under a key that flattens C, "C2" reads as MIDI 59 and "c2" as 71 |
| `AbcWriter.CNameTokens` | src/main/java/de/saar/coli/arranger/abc/AbcWriter.java:139-149 | a bare C whose key flattens it is written in the note's own octave as written, and in the octave of the C above when corrected |
| `AbcWriter.OctaveOfCFlatAsWritten` | src/main/java/de/saar/coli/arranger/abc/AbcWriter.java:139-149 | as written, B4 in Gb major becomes "C2", which reads back as B3, an octave too low |
| `AbcWriter.OctaveOfCFlatCorrected` | src/main/java/de/saar/coli/arranger/abc/AbcWriter.java:139-149 | corrected, B4 in Gb major becomes "c2", which reads back as B4 |
| `AbcWriter.MarkedTokens` | src/main/java/de/saar/coli/arranger/abc/AbcWriter.java:139-151 | "_Db" and "=C" in octave 4 and "_C" in octave 5 are written "_DB2", "=C2" and "_c2" for duration 2 |
| `AbcWriter.FlatKeyCNames` | src/main/java/de/saar/coli/arranger/abc/AbcWriter.java:118-135 | in a flat key that alters C, a C with no chord is named "_Db" as written and "=C" corrected |
| `AbcWriter.GbMiddleCTokens` | src/main/java/de/saar/coli/arranger/abc/AbcWriter.java:118-151 | middle C in Gb major with no chord is written "_DB2" by the source and "=C2" corrected |
| `AbcWriter.ChordKeyCFlatNames` | src/main/java/de/saar/coli/arranger/abc/AbcWriter.java:114-117 | a B the song key lacks and the chord key holds as Cb throws IllegalArgumentException in the source and is named "_C" corrected |
| `AbcWriter.GbSeventhKey` | src/main/java/de/saar/coli/arranger/Chord.java:206-208 | the key of the seventh chord on Gb is Gb major |
| `AbcWriter.BInFAndGb` | src/main/java/de/saar/coli/arranger/Note.java:197-200 | F major lacks B, Gb major holds it, and spelling it in Gb major with naturals forced throws in the source and gives "Cb" corrected |
| `AbcWriter.GbChordBTokens` | src/main/java/de/saar/coli/arranger/abc/AbcWriter.java:103-153 | B4 in F major under a Gb7 chord throws IllegalArgumentException in the source and is written "_c2" corrected |
| `AbcWriter.GbChordPartThrows` | src/main/java/de/saar/coli/arranger/abc/AbcWriter.java:51-79 | so a part in F major holding B4 under a Gb7 chord makes `write` throw IllegalArgumentException |
| `LegacyAbcWriter.FlatAbcName` | src/main/java/de/saar/coli/arranger/AbcWriter.java:101-108 | converting a canonical name keeps its length (a trailing "b" becomes a leading "_") |
| `LegacyAbcWriter.AbcNote` | src/main/java/de/saar/coli/arranger/AbcWriter.java:97-124 | the method's steps compute the note's token |
| `LegacyAbcWriter.NamesAreLetterOrFlat` | src/main/java/de/saar/coli/arranger/AbcWriter.java:97-108 | every note from MIDI 0 up is written as a bare letter or "_" and a letter, with no key consulted |
| `LegacyAbcWriter.FlatNameShape` | src/main/java/de/saar/coli/arranger/AbcWriter.java:101-108 | each canonical name converts to a letter or a flattened letter |
| `LegacyAbcWriter.SharpBranchUnreachable` | src/main/java/de/saar/coli/arranger/AbcWriter.java:105 | no canonical name contains "#", so the sharp case is dead code (it would give "^C" for "C#") |
| `LegacyAbcWriter.NegativeNotesThrow` | src/main/java/de/saar/coli/arranger/AbcWriter.java:98 | below MIDI 0 a note is written only when its Java remainder is 0; any other makes the name lookup throw |
| `LegacyAbcWriter.PartStep` | src/main/java/de/saar/coli/arranger/AbcWriter.java:73-82 | one pass of the note loop appends a space, the token and a bar line when the measure is full |
| `LegacyAbcWriter.PartFails` | src/main/java/de/saar/coli/arranger/AbcWriter.java:73-82 | a note whose token throws makes the part throw |
| `LegacyAbcWriter.WritePart` | src/main/java/de/saar/coli/arranger/AbcWriter.java:68-87 | the loop builds one part's line, ending in "]" |
| `LegacyAbcWriter.PartBodyOk` | src/main/java/de/saar/coli/arranger/AbcWriter.java:73-82 | notes from MIDI 0 up never throw |
| `LegacyAbcWriter.LineStep` | src/main/java/de/saar/coli/arranger/AbcWriter.java:68-87 | one pass of the part loop adds that part's line |
| `LegacyAbcWriter.LineFails` | src/main/java/de/saar/coli/arranger/AbcWriter.java:68-87 | a part that throws makes the write throw |
| `LegacyAbcWriter.Write` | src/main/java/de/saar/coli/arranger/AbcWriter.java:55-87 | the bindings hold title, composer, key, time signature and one line per part, or the write throws as a part does |
| `LegacyAbcWriter.PartLinesOk` | src/main/java/de/saar/coli/arranger/AbcWriter.java:68-87 | with notes from MIDI 0 up every part is written, one line per part |
| `LegacyAbcWriter.LegacyName` | src/main/java/de/saar/coli/arranger/AbcWriter.java:97-108 | the older writer's name: the canonical flat name with a trailing flat moved in front; stated by `LegacyAbcWriter.NamesAreLetterOrFlat` |
| `LegacyAbcWriter.NoteText` | src/main/java/de/saar/coli/arranger/AbcWriter.java:97-124 | the older writer's token: the name in the note's own octave, then the duration; `LegacyAbcWriter.AbcNote` computes it and `AbcParser.LegacyTokenRoundTrip` reads it back |
| `AbcParser.MarkOffset` | src/main/java/de/saar/coli/arranger/AbcParser.java:89-98 | a leading accidental mark is consumed only when it is one of '^', '_' and '=', so the letter sits at position 0 or 1 |
| `AbcParser.NoteToken` | src/main/java/de/saar/coli/arranger/AbcParser.java:84-127 | every note token that is read has a one-digit duration from 0 to 9 |
| `AbcParser.LetterToken` | src/main/java/de/saar/coli/arranger/AbcParser.java:100-126 | the duration of a letter with its octave marks comes from a single digit |
| `AbcParser.ParseAbcNote` | src/main/java/de/saar/coli/arranger/AbcParser.java:84-127 | the method's cursor steps over the mark, the letter, the run of octave marks and the digit, and they give the reading of the token: the note, or the same exception |
| `AbcParser.LetterTokenRead` | src/main/java/de/saar/coli/arranger/AbcParser.java:102-123 | an unfolding of the letter reading, stating nothing beyond its definition (a helper of the method's proof): running off the token after the octave marks throws an index exception; a non-digit there is a parsing error; a digit gives the natural note of the letter in octave 4 minus the commas (upper case) or 5 plus the apostrophes, moved by the mark |
| `AbcParser.RunLengthStep` | src/main/java/de/saar/coli/arranger/AbcParser.java:105-114 | each octave mark the loop sees adds one to the count of marks |
| `AbcParser.ChordToken` | src/main/java/de/saar/coli/arranger/AbcParser.java:78-81 | a chord token is read exactly when it holds at least two characters; a lone quote throws |
| `AbcParser.ChordTokenRoundTrip` | src/main/java/de/saar/coli/arranger/AbcParser.java:78-81 | a chord's own name between quotes reads back as that chord |
| `AbcParser.ValueGroup` | src/main/java/de/saar/coli/arranger/AbcParser.java:20 | the group `\\s*(.+)` after the colon is a nonempty suffix of the text after the colon |
| `AbcParser.LastSplit` | src/main/java/de/saar/coli/arranger/AbcParser.java:20 | the colon the greedy `(\\S+):` ends at, when there is one, is a position where the pattern matches the whole line |
| `AbcParser.LastSplitIsLast` | src/main/java/de/saar/coli/arranger/AbcParser.java:20 | no later colon lets the pattern match, so the field name is the longest possible |
| `AbcParser.DigitToken` | src/main/java/de/saar/coli/arranger/AbcParser.java:48 | on ASCII, `Integer.parseInt` of one character succeeds exactly on a digit and gives its value; other Unicode decimal digits are refused, which Java accepts |
| `AbcParser.HeaderMeaning` | src/main/java/de/saar/coli/arranger/AbcParser.java:29-35 | a header line splits at a colon where the whole pattern matches, its field name is everything before that colon, and no later colon matches |
| `AbcParser.NoHeader` | src/main/java/de/saar/coli/arranger/AbcParser.java:29-33 | a line that is no header has no colon at which the pattern matches |
| `AbcParser.NoSplit` | src/main/java/de/saar/coli/arranger/AbcParser.java:20 | when the scan finds no colon, none matches |
| `AbcParser.NoTerminatorOf` | src/main/java/de/saar/coli/arranger/AbcParser.java:20 | text without line terminators can be matched by `.+` |
| `AbcParser.LastSplitSkips` | src/main/java/de/saar/coli/arranger/AbcParser.java:20 | positions without a colon are passed over by the scan |
| `AbcParser.OneLetterHeader` | src/main/java/de/saar/coli/arranger/AbcParser.java:29-35 | a one-character field name, a colon and a value without colons or leading spaces is a header of that name and value |
| `AbcParser.OneLetterSplit` | src/main/java/de/saar/coli/arranger/AbcParser.java:29-35 | such a line matches exactly at its colon and nowhere later |
| `AbcParser.UnspacedValue` | src/main/java/de/saar/coli/arranger/AbcParser.java:20 | a value that starts with a non-space character is the whole group |
| `AbcParser.TitleHeader` | src/main/java/de/saar/coli/arranger/AbcParser.java:29-40 | "T:Test Song" is a title header whose value is "Test Song" |
| `AbcParser.MeterHeader` | src/main/java/de/saar/coli/arranger/AbcParser.java:29-48 | "M:4/4" is a meter header whose value is "4/4" |
| `AbcParser.GreedyFieldName` | src/main/java/de/saar/coli/arranger/AbcParser.java:20 | in "a:b:c" the field name is "a:b", the greedy choice |
| `AbcParser.NoteTokenOfBody` | src/main/java/de/saar/coli/arranger/AbcParser.java:89-100 | after a mark or none the token is read as its letter part, moved by the mark's offset |
| `AbcParser.RunOfMarks` | src/main/java/de/saar/coli/arranger/AbcParser.java:105-114 | a run of marks ended by another character is counted exactly |
| `AbcParser.LetterTokenOfWritten` | src/main/java/de/saar/coli/arranger/AbcParser.java:100-126 | a letter with its octave marks and a digit reads as the letter's natural note in that octave with that duration, moved by the offset |
| `AbcParser.NamedLetterNote` | src/main/java/de/saar/coli/arranger/AbcParser.java:125-126 | the note created from a letter, an octave and a duration is the letter's pitch class in that octave, moved by the offset |
| `AbcParser.NoteTokenOfWritten` | src/main/java/de/saar/coli/arranger/AbcParser.java:84-127 | an optional mark and a letter in ABC octave notation, then a digit, read as the note they name |
| `AbcParser.MarkedTokenReads` | src/main/java/de/saar/coli/arranger/AbcParser.java:84-127 | a mark followed by a marked letter reads as the marked note |
| `AbcParser.WrittenLetterIsNoMark` | src/main/java/de/saar/coli/arranger/AbcParser.java:89-98 | a written letter is never mistaken for an accidental mark |
| `AbcParser.WrittenSplit` | src/main/java/de/saar/coli/arranger/AbcParser.java:84-127 | a token in ABC octave notation splits into its mark, its letter, its octave marks and its digit |
| `AbcParser.FlatNameLetter` | src/main/java/de/saar/coli/arranger/AbcWriter.java:97-108 | the older writer names every pitch class as a letter or "_" and a letter, whose natural pitch class moved by the mark is the pitch class |
| `AbcParser.LegacyTokenRoundTrip` | src/main/java/de/saar/coli/arranger/AbcParser.java:84-127 | every token the older writer produces for a note from MIDI 0 up with a one-digit duration reads back as the same note |
| `AbcParser.WrittenTokenReadsBack` | src/main/java/de/saar/coli/arranger/AbcParser.java:84-127 | a token in ABC octave notation reads back as any note at the pitch its mark, letter and octave denote |
| `AbcParser.LegacyTextShape` | src/main/java/de/saar/coli/arranger/AbcWriter.java:97-124 | the older writer's token is a letter or flattened letter in the note's own octave, then the duration, and it denotes the note's pitch |
| `AbcParser.CMajorAccidental` | src/main/java/de/saar/coli/arranger/abc/AbcWriter.java:108-135 | in C major a written mark means exactly what the reader takes it to mean |
| `AbcParser.CMajorTokenRoundTrip` | src/main/java/de/saar/coli/arranger/AbcParser.java:84-127 | in C major every token the newer writer produces, as the source writes it, reads back as the same note, whatever the current chord |
| `AbcParser.WrittenTokenParses` | src/main/java/de/saar/coli/arranger/AbcParser.java:84-127 | a written name whose mark means to the reader what it means in the key denotes the note's pitch class, and the corrected token then reads back as the note |
| `AbcParser.OctaveOfLetter` | src/main/java/de/saar/coli/arranger/abc/AbcWriter.java:139-149 | the newer writer's octave for a letter with the reader's meaning puts the token at the note's MIDI pitch |
| `AbcParser.OneDigitDuration` | src/main/java/de/saar/coli/arranger/AbcParser.java:120 | a duration of two digits is written in full ("C16") but read as its first digit, so the note comes back as one eighth long |
| `AbcParser.TestTokenCLow` | src/main/java/de/saar/coli/arranger/AbcParser.java:100-108 | "C,2" is C3 (MIDI 48) lasting two eighths |
| `AbcParser.TestTokenDHigh` | src/main/java/de/saar/coli/arranger/AbcParser.java:109-114 | "d''2" is D7 (MIDI 98) lasting two eighths |
| `AbcParser.TestTokenEFlat` | src/main/java/de/saar/coli/arranger/AbcParser.java:92-94 | "_E2" is E flat 4 (MIDI 63) |
| `AbcParser.TestTokenFSharp` | src/main/java/de/saar/coli/arranger/AbcParser.java:89-91 | "^F2" is F sharp 4 (MIDI 66) |
| `AbcParser.TestTokenCMiddle` | src/main/java/de/saar/coli/arranger/AbcParser.java:100-104 | "C2" is middle C (MIDI 60) |
| `AbcParser.TestTokenDMiddle` | src/main/java/de/saar/coli/arranger/AbcParser.java:100-104 | "D2" is D4 (MIDI 62) |
| `AbcParser.TestToken` | src/main/java/de/saar/coli/arranger/AbcParser.java:84-127 | a token of an optional '^' or '_', a letter, a run of its octave marks and the digit 2 is the letter's note in the octave the marks give, two eighths long |
| `AbcParser.FoldFailFrom` | src/main/java/de/saar/coli/arranger/AbcParser.java:55-71 | after the first exception, reading further items changes nothing |
| `AbcParser.EmptyTokenThrows` | src/main/java/de/saar/coli/arranger/AbcParser.java:53-67 | a music line whose first word is empty throws an index exception |
| `AbcParser.BlankLineThrows` | src/main/java/de/saar/coli/arranger/AbcParser.java:51-67 | an empty line is a music line of one empty word, and reading it throws |
| `AbcParser.LeadingSpaceThrows` | src/main/java/de/saar/coli/arranger/AbcParser.java:51-67 | a music line that starts with a space splits into an empty first word, and reading it throws |
| `AbcParser.ReadTokenTimed` | src/main/java/de/saar/coli/arranger/AbcParser.java:55-70 | a token keeps the time equal to the summed durations of the lead, keeps chord changes in order and not after the time, and changes only the lead, the chords and the time |
| `AbcParser.ReadTokenAtOnsets` | src/main/java/de/saar/coli/arranger/AbcParser.java:55-70 | a token keeps every chord change at the start of a lead note or at the end of the lead |
| `AbcParser.ChordAddedAtOnset` | src/main/java/de/saar/coli/arranger/AbcParser.java:64 | a chord is added at the current time, which is where the next lead note will start |
| `AbcParser.NoteAddedKeepsOnsets` | src/main/java/de/saar/coli/arranger/AbcParser.java:67-69 | appending a lead note keeps every earlier chord change at an onset |
| `AbcParser.ReadTokenConsistent` | src/main/java/de/saar/coli/arranger/AbcParser.java:55-70 | a token keeps the reading consistent (time, order and onsets) and leaves the header fields alone |
| `AbcParser.ReadTokensConsistent` | src/main/java/de/saar/coli/arranger/AbcParser.java:55-71 | a whole music line keeps the reading consistent and leaves the header fields alone |
| `AbcParser.ReadFieldKeeps` | src/main/java/de/saar/coli/arranger/AbcParser.java:37-50 | a header line leaves the lead, the chords and the time unchanged |
| `AbcParser.ReadLineConsistent` | src/main/java/de/saar/coli/arranger/AbcParser.java:28-72 | every line keeps the reading consistent |
| `AbcParser.ReadLinesConsistent` | src/main/java/de/saar/coli/arranger/AbcParser.java:22-76 | whatever score is read has its chord changes in order, each at the start of a lead note or at the end of the lead, and its time is the lead's length in eighths |
| `AbcParser.ReadHeader` | src/main/java/de/saar/coli/arranger/AbcParser.java:33-50 | the header branch sets exactly the field the reading names, with the same exception when the meter's first character is not a digit |
| `AbcParser.TokenStep` | src/main/java/de/saar/coli/arranger/AbcParser.java:55 | an unfolding of the token fold by one token, stating nothing beyond that definition; it is the step of the loop proof |
| `AbcParser.ChordStep` | src/main/java/de/saar/coli/arranger/AbcParser.java:58-64 | an unfolding of one token's reading for a quoted token: its chord is added at the current time; a helper of the loop proof |
| `AbcParser.NoteStep` | src/main/java/de/saar/coli/arranger/AbcParser.java:65-70 | an unfolding of one token's reading for a note token: its note is appended to the lead and the time advances by its duration; a helper of the loop proof |
| `AbcParser.TokenFails` | src/main/java/de/saar/coli/arranger/AbcParser.java:55-71 | the first token that throws ends the line with that exception |
| `AbcParser.ReadMusicLine` | src/main/java/de/saar/coli/arranger/AbcParser.java:52-71 | the method changes the score and the time as the reading of the line's tokens does, and throws the same exception |
| `AbcParser.LineStep` | src/main/java/de/saar/coli/arranger/AbcParser.java:28 | an unfolding of the line fold by one line, stating nothing beyond that definition; it is the step of the loop proof |
| `AbcParser.LineFails` | src/main/java/de/saar/coli/arranger/AbcParser.java:28-73 | the first line that throws ends the reading with that exception |
| `AbcParser.Read` | src/main/java/de/saar/coli/arranger/AbcParser.java:22-76 | the method's score is the reading of all its lines: title, composer, key, meter, lead and chords, or the first exception |
| `AbcParser.TestChordC` | src/main/java/de/saar/coli/arranger/AbcParser.java:78-81 | the chord token "C" (with its quotes) reads as C major |
| `AbcParser.TestChordG7` | src/main/java/de/saar/coli/arranger/AbcParser.java:78-81 | the chord token "G7" (with its quotes) reads as the seventh chord on G |
| `AbcParser.NoteTokenRead` | src/main/java/de/saar/coli/arranger/AbcParser.java:65-70 | a token that is neither a bar line nor a chord and reads as a note appends that note and advances the time by its duration |
| `AbcParser.FoldChain` | src/main/java/de/saar/coli/arranger/AbcParser.java:55-71 | reading items one by one, each taking one state to the next, ends in the last state |
| `AbcParser.TestSongLine` | src/test/java/de/saar/coli/arranger/TestScore.java:24-44 | the tokens of the test song's music line give the lead C3, D7, E flat 4, F sharp 4 (G flat 4), C4, D4, each two eighths long, with C major at time 0 and G7 at time 8, the total time being 12 |
| `AbcParser.TestSongChords` | src/test/java/de/saar/coli/arranger/TestScore.java:46-48 | in that timeline C major sounds at every time from 0 to 7 and G7 from 8 on |
| `AbcParser.Header` | src/main/java/de/saar/coli/arranger/AbcParser.java:29-35 | `LINE_PATTERN` on a whole line: field name and value, or none; stated by `AbcParser.HeaderMeaning` and `AbcParser.NoHeader` |
| `AbcParser.ReadField` | src/main/java/de/saar/coli/arranger/AbcParser.java:37-50 | the header branch for T, C, K and M; stated by `AbcParser.ReadHeader` and `AbcParser.ReadFieldKeeps` |
| `AbcParser.ReadToken` | src/main/java/de/saar/coli/arranger/AbcParser.java:55-70 | one token of a music line: a bar line is skipped, a chord is added at the current time, a note is appended; stated by `AbcParser.ReadTokenTimed` |
| `AbcParser.ReadLine` | src/main/java/de/saar/coli/arranger/AbcParser.java:28-72 | one line: a comment, a header or a music line; stated by `AbcParser.ReadLineConsistent` |
| `AbcParser.ReadLines` | src/main/java/de/saar/coli/arranger/AbcParser.java:22-76 | the first lines in turn, or the first exception; `AbcParser.Read` computes it and `AbcParser.ReadLinesConsistent` states it |
| `AbcParser.PrefixOffset` | src/main/java/de/saar/coli/arranger/AbcParser.java:89-98 | the semitones a leading mark stands for; used by `AbcParser.NoteTokenOfBody` |
| `Clefs.IsAllowed` | src/main/java/de/saar/coli/arranger/Clef.java:7-15 | the scan answers true exactly when the name is one of the accepted clef names |
| `Clefs.ClefOf` | src/main/java/de/saar/coli/arranger/Clef.java:17-23 | a clef is made exactly for "treble-8" and "bass" and keeps that name; any other name throws a runtime exception |
| `Clefs.NewClef` | src/main/java/de/saar/coli/arranger/Clef.java:17-23 | the constructor's check and store give the clef `ClefOf` describes, or the same exception |
| `Clefs.ClefSpec` | src/main/java/de/saar/coli/arranger/Clef.java:34-43 | a clef has an ABC specification exactly when its name is accepted |
| `Clefs.MadeClefs` | src/main/java/de/saar/coli/arranger/Clef.java:17-43 | every clef that can be made keeps its name and has a specification: "clef=bass" for bass, "middle=B, clef=treble-8" for treble-8 |
| `Clefs.ClefExamples` | src/main/java/de/saar/coli/arranger/Clef.java:5-43 | the two accepted names make clefs with their specifications, and "treble" is refused |
| `Clefs.GetName` | src/main/java/de/saar/coli/arranger/Clef.java:25-27 | `getName`: the stored name, which `Clefs.MadeClefs` shows is the name the clef was made with |

## Left out

- Template rendering: Carrot in both writers' `write`, and the `transpose` call into ABC2SVG. The model stops at the bindings handed to the template: title, composer, key, meter and the four part strings.
- `Arrange.main`, `Args`, the web server and form, `ScoreViewer`, `Score.main` and its demo strings, and `AbcWriter.main`: these are command-line, HTTP and GUI code.
- `src/main/java/de/saar/coli/arranger/abc/AbcParser.java` is not part of this model. It is an ANTLR listener over generated parser classes, with floating-point meter arithmetic.
- `Config.java` (YAML loading) and `Util.java` (resource I/O) are not modelled. The rule weights are a record of five integers, passed in.
- Reading through a `Reader`: `AbcParser.Read` takes the lines as a sequence. `readLine` and its `IOException` are not modelled.
- Lyrics (`getLyrics`, `setLyrics`), `countNotes` and `Arrangement.runtimeNs` are not modelled. `Score.java` does not define the first three, and the last is a clock reading.
- Java's 32-bit integer overflow: every sum is an unbounded integer. `Integer.MIN_VALUE` is modelled only as the distinct `Reject` verdict.
- Notes.FromScientific: the octave digits are read as an unbounded number, where `Integer.parseInt` throws above 2147483647 ("C99999999999"). Only the literal limit names of the voice parts reach it.
- Characters are Unicode code points, where Java's `char` is a UTF-16 unit. A character outside the Basic Multilingual Plane is one character here and two in Java.
- JavaLang.ToUpper: ASCII only. Java's `toUpperCase` also maps non-ASCII letters; for the parser this makes no difference, because no non-ASCII letter upper-cases to a canonical note name.
- AbcParser.LetterToken: tests letter case and digits on ASCII only. Java's `Character.isUpperCase` and `Integer.parseInt` are Unicode-aware: "Ä2" is read here in octave 5 with apostrophe marks (Java takes octave 4 and commas), and "C٣" is a parsing error here (Java reads the Arabic-Indic three as 3).
- AbcParser.ParseAbcNote: the same ASCII-only case and digit tests as `AbcParser.LetterToken`.
- AbcParser.NoteToken: the same ASCII-only case and digit tests, through `AbcParser.LetterToken`.
- AbcParser.DigitToken: accepts only the ASCII digits, where `Integer.parseInt` accepts every Unicode decimal digit.
- AbcParser.ReadField: through `AbcParser.DigitToken`, a meter such as "M:٣/4" is a number-format error here, where Java sets three quarters per measure.
- `hashCode`: equality of notes, chords and items is modelled as value equality or `ItemEquals`. Hash codes play no part in the results.
- HashMap iteration order: both tie-breaks, among final voicings and among backpointers, are "some entry of maximal score". The model does not say which one Java picks.
- Keys.NewKey: requires a direction of +1 or -1, which is all the static table passes. Other directions are not modelled.
- Notes.CreateInOctave: its own contract states only the duration. The pitch is stated by `Notes.CreateInOctaveParts`, for relative notes 0..11 and octaves from -1 up.
- Notes.CreateNamed: its own contract states only the duration. The pitch is stated by `Notes.CreateNamedParts`.
- AbcWriter.AbcNoteRoundTrip: proved for the 13 registered keys only. Keys built from other tables are not covered.
- AbcWriter.PartBodyOk: proved only where every note is spelled as intended (`AbcWriter.SpelledAsIntended`), that is for song keys other than G flat major and no B under a G flat major chord the song key lacks. Otherwise the source throws or mis-spells; `AbcWriter.GbChordPartThrows` shows one such part.
- AbcWriter.AbcNoteWritten: proved only for notes spelled as intended, for the same reason.
- AbcWriter.PartLineOk: proved only for parts whose notes are all spelled as intended, for the same reason.
- AbcWriter.PartLinesOk: proved only for scores whose notes are all spelled as intended, for the same reason.
- AbcWriter.SpelledLetter: stated of the corrected spelling. The source's spelling agrees with it wherever `AbcWriter.NamesAgree` applies.
- AbcWriter.SpelledAbcLetter: stated of the corrected spelling, for the same reason.
- AbcWriter.WrittenNameShape: stated of the corrected spelling, for the same reason.
- AbcWriter.ChordKeyName: stated of the corrected spelling, for the same reason.
- AbcWriter.FallbackName: stated of the corrected spelling, for the same reason.
- AbcWriter.ChordKeyNoteIsMarked: stated of the corrected spelling, for the same reason.
- AbcWriter.TextOfName: stated of the corrected token, with the octave of the written letter. The source's token is related to it by `AbcWriter.TokensAgree`, and `AbcWriter.GbMiddleCTokens` and `AbcWriter.GbChordBTokens` show where the two differ.
- AbcWriter.AbcNoteRoundTrip: stated of the corrected token. For the source's token, `AbcWriter.AbcNoteAsWrittenRoundTrip` states the round trip where it spells as intended.
- AbcParser.TestSongLine: starts from the music line already split into its ten tokens. The split of the literal line is shown by smaller cases in `JavaLang.SplitExamples`.

## Findings

| source | as written | input that shows it | evidently intended | confidence | as-written member | corrected member |
|---|---|---|---|---|---|---|
| src/main/java/de/saar/coli/arranger/Note.java:199-211 | In a flat key that flattens C (Gb major), a foreign note is spelled from `(relativeNote + direction) % 12` with Java's truncating `%`. For C that gives -1, and the fallback spells it "Dbb". For B, which the key writes as Cb, `accidentalString(11 - 0)` throws. | C4 (MIDI 60) and B4 (MIDI 71) in Gb major | C4 spelled "C@" (C natural) and B4 spelled "Cb" | not executed | `Spelling.NoteNameInKeyAsWritten` (shown by `Spelling.GbMajorSpellings`, `Spelling.FlatOnCMiddleC` and `Spelling.FlatOnCCFlat`; in the writer by `AbcWriter.GbMiddleCTokens`, `AbcWriter.GbChordBTokens` and `AbcWriter.GbChordPartThrows`) | `Spelling.NoteNameInKey` (with `Spelling.SpellingRoundTrip`; in the writer `AbcWriter.AbcNoteText`, which agrees with the source elsewhere by `AbcWriter.TokensAgree`) |
| src/main/java/de/saar/coli/arranger/abc/AbcWriter.java:139-149 | The octave marks come from the note's own octave, even when the written letter belongs to the next octave: Cb is written with the letter C. | B4 (MIDI 71) in Gb major is written "C2", which reads back as B3 (MIDI 59) | "c2", which reads back as B4 | not executed | `AbcWriter.OctaveOfCFlatAsWritten` (on `AbcWriter.AbcNoteTextAsWritten`) | `AbcWriter.OctaveOfCFlatCorrected` (with `AbcWriter.AbcNoteRoundTrip`) |
