/**
 * The pieces of the Java platform the arranger leans on: exceptions as
 * explicit error results, 32-bit bounds, truncating integer division and
 * remainder, and the handful of String operations the code calls.
 */
module JavaLang {

  /** The unchecked and checked exceptions the modelled code can raise. */
  datatype JavaException =
    | NullPointer
    | IndexOutOfBounds
    | StringIndexOutOfBounds
    | IllegalArgument
    | NumberFormat
    | AbcParsing
    | Runtime

  /** A computation that either returns a value or throws. */
  datatype Result<+T> = Ok(value: T) | Err(error: JavaException)
  {
    predicate IsFailure() { Err? }

    function PropagateFailure<U>(): Result<U>
      requires Err?
    {
      Err(error)
    }

    function Extract(): T
      requires Ok?
    {
      value
    }
  }

  /** A Java reference that may be null. */
  datatype Option<+T> = None | Some(value: T)

  const MinInt: int := -0x8000_0000
  const MaxInt: int := 0x7fff_ffff

  /** Java's `%` on ints: the remainder carries the sign of the dividend. */
  function JavaRem(a: int, b: int): (r: int)
    requires b > 0
    ensures a >= 0 ==> 0 <= r < b
    ensures a < 0 ==> -b < r <= 0
  {
    if a >= 0 then a % b else -((-a) % b)
  }

  /** Java's `/` on ints: the quotient is truncated toward zero. */
  function JavaDiv(a: int, b: int): (q: int)
    requires b > 0
    ensures q * b + JavaRem(a, b) == a
  {
    if a >= 0 then a / b else -((-a) / b)
  }

  /** On non-negative operands Java's remainder is the mathematical one. */
  lemma JavaRemOfNatural(a: int, b: int)
    requires a >= 0 && b > 0
    ensures JavaRem(a, b) == a % b && JavaDiv(a, b) == a / b
  {
  }

  /** On a negative dividend the two remainders differ, e.g. -1 mod 12. */
  lemma JavaRemOfNegative()
    ensures JavaRem(-1, 12) == -1 && (-1) % 12 == 11
    ensures JavaDiv(-1, 12) == 0 && JavaDiv(-13, 12) == -1
  {
  }

  // ---------------------------------------------------------------------
  // Loops that append

  /** The pieces 0 to k - 1 appended in order, as a loop that appends each
      piece it computes does; the first exception ends the loop. */
  function Gather<T>(piece: nat -> Result<seq<T>>, k: nat): Result<seq<T>> {
    if k == 0 then Ok([])
    else
      var init :- Gather(piece, k - 1);
      var p :- piece(k - 1);
      Ok(init + p)
  }

  /** One piece more. */
  lemma GatherStep<T>(piece: nat -> Result<seq<T>>, k: nat, init: seq<T>, p: seq<T>)
    requires Gather(piece, k) == Ok(init) && piece(k) == Ok(p)
    ensures Gather(piece, k + 1) == Ok(init + p)
  {
  }

  /** Appending three pieces one by one appends their concatenation. */
  lemma AppendThree<T>(a: seq<T>, b: seq<T>, c: seq<T>, d: seq<T>)
    ensures a + b + c + d == a + (b + c + d)
  {
    assert a + b + c + d == a + (b + (c + d));
  }

  /** No piece fails, so the run does not. */
  lemma {:induction false} GatherOk<T>(piece: nat -> Result<seq<T>>, k: nat)
    requires forall i: nat :: i < k ==> piece(i).Ok?
    ensures Gather(piece, k).Ok?
  {
    if k > 0 {
      GatherOk(piece, k - 1);
    }
  }

  /** A piece that fails after a run that did not ends every longer run
      with its exception. */
  lemma GatherFails<T>(piece: nat -> Result<seq<T>>, k: nat, j: nat, init: seq<T>, error: JavaException)
    requires k < j && Gather(piece, k) == Ok(init) && piece(k) == Err(error)
    ensures Gather(piece, j) == Err(error)
  {
    GatherFailsFrom(piece, k + 1, j);
  }

  /** Pieces of one element each gather to the sequence of those elements. */
  lemma {:induction false} GatherSingles<T>(piece: nat -> Result<seq<T>>, k: nat)
    requires forall i: nat :: i < k ==> piece(i).Ok? && |piece(i).value| == 1
    ensures var r := Gather(piece, k);
            r.Ok? && |r.value| == k && forall i: nat :: i < k ==> piece(i).value[0] == r.value[i]
  {
    if k > 0 {
      GatherSingles(piece, k - 1);
    }
  }

  /** Once a piece fails, every longer run fails with its exception. */
  lemma {:induction false} GatherFailsFrom<T>(piece: nat -> Result<seq<T>>, k: nat, j: nat)
    requires k <= j && Gather(piece, k).Err?
    ensures Gather(piece, j) == Gather(piece, k)
    decreases j
  {
    if j > k {
      GatherFailsFrom(piece, k, j - 1);
    }
  }

  // ---------------------------------------------------------------------
  // Characters

  /** The characters matched by the regular-expression class `\s`. */
  predicate IsRegexSpace(c: char) {
    c == ' ' || c == '\t' || c == '\n' || c == '\U{B}' || c == '\U{C}' || c == '\r'
  }

  predicate IsAsciiUpper(c: char) { 'A' <= c <= 'Z' }
  predicate IsAsciiLower(c: char) { 'a' <= c <= 'z' }
  predicate IsAsciiLetter(c: char) { IsAsciiUpper(c) || IsAsciiLower(c) }
  predicate IsAsciiDigit(c: char) { '0' <= c <= '9' }

  /** `Character.toUpperCase` restricted to ASCII letters. */
  function ToUpper(c: char): (r: char)
    ensures IsAsciiLower(c) ==> IsAsciiUpper(r) && r as int - c as int == 'A' as int - 'a' as int
    ensures !IsAsciiLower(c) ==> r == c
  {
    if IsAsciiLower(c) then (c as int - 'a' as int + 'A' as int) as char else c
  }

  /** `Character.toLowerCase` restricted to ASCII letters. */
  function ToLower(c: char): (r: char)
    ensures IsAsciiUpper(c) ==> IsAsciiLower(r) && r as int - c as int == 'a' as int - 'A' as int
    ensures !IsAsciiUpper(c) ==> r == c
  {
    if IsAsciiUpper(c) then (c as int - 'A' as int + 'a' as int) as char else c
  }

  function DigitValue(c: char): (d: int)
    requires IsAsciiDigit(c)
    ensures 0 <= d <= 9
  {
    c as int - '0' as int
  }

  function DigitChar(d: int): (c: char)
    requires 0 <= d <= 9
    ensures IsAsciiDigit(c) && DigitValue(c) == d
  {
    ('0' as int + d) as char
  }

  // ---------------------------------------------------------------------
  // Strings

  predicate AllDigits(s: string) {
    forall i :: 0 <= i < |s| ==> IsAsciiDigit(s[i])
  }

  predicate AllLetters(s: string) {
    forall i :: 0 <= i < |s| ==> IsAsciiLetter(s[i])
  }

  /** The value of a run of decimal digits (`Integer.parseInt` without a sign). */
  function DigitsValue(s: string): (n: nat)
    requires AllDigits(s)
    decreases |s|
  {
    if |s| == 0 then 0 else DigitsValue(s[..|s| - 1]) * 10 + DigitValue(s[|s| - 1])
  }

  /** The decimal digits of a natural number, without leading zeros. */
  function NatToString(n: nat): (s: string)
    ensures |s| >= 1 && AllDigits(s)
    decreases n
  {
    if n < 10 then [DigitChar(n)] else NatToString(n / 10) + [DigitChar(n % 10)]
  }

  /** `Integer.toString`: an optional minus sign and the decimal digits. */
  function IntToString(i: int): (s: string)
    ensures |s| >= 1
    ensures i >= 0 ==> AllDigits(s)
    ensures i < 0 ==> s[0] == '-' && AllDigits(s[1..])
  {
    if i >= 0 then NatToString(i) else "-" + NatToString(-i)
  }

  /** Reading back the digits of a number yields that number. */
  lemma {:induction false} NatToStringRoundTrip(n: nat)
    ensures DigitsValue(NatToString(n)) == n
    decreases n
  {
    if n >= 10 {
      NatToStringRoundTrip(n / 10);
      var s := NatToString(n);
      assert s[..|s| - 1] == NatToString(n / 10);
    }
  }

  /** A single digit prints as itself. */
  lemma NatToStringOneDigit(n: nat)
    requires n < 10
    ensures NatToString(n) == [DigitChar(n)]
  {
  }

  /** `String.trim`: drop leading and trailing characters up to U+0020. */
  function Trim(s: string): (r: string)
    ensures |r| <= |s|
    ensures |r| > 0 ==> r[0] > ' ' && r[|r| - 1] > ' '
  {
    TrimEnd(TrimStart(s))
  }

  function TrimStart(s: string): (r: string)
    ensures |r| <= |s| && r == s[|s| - |r|..]
    ensures |r| > 0 ==> r[0] > ' '
    decreases |s|
  {
    if |s| > 0 && s[0] <= ' ' then TrimStart(s[1..]) else s
  }

  function TrimEnd(s: string): (r: string)
    ensures |r| <= |s| && r == s[..|r|]
    ensures |r| > 0 ==> r[|r| - 1] > ' '
    ensures |r| > 0 && |s| > 0 ==> r[0] == s[0]
    decreases |s|
  {
    if |s| > 0 && s[|s| - 1] <= ' ' then TrimEnd(s[..|s| - 1]) else s
  }

  predicate EndsWith(s: string, suffix: string) {
    |suffix| <= |s| && s[|s| - |suffix|..] == suffix
  }

  predicate NoRegexSpace(s: string) {
    forall i :: 0 <= i < |s| ==> !IsRegexSpace(s[i])
  }

  /** `s` with its leading run of `\s` characters removed. */
  function DropSpaces(s: string): (r: string)
    ensures |r| <= |s|
    ensures |r| > 0 ==> !IsRegexSpace(r[0])
    decreases |s|
  {
    if |s| > 0 && IsRegexSpace(s[0]) then DropSpaces(s[1..]) else s
  }

  /**
   * The pieces of `s` that lie between maximal runs of `\s` characters:
   * the first piece ends at the first run, and the last starts after the
   * last run, so either may be empty.
   */
  function Pieces(s: string): (r: seq<string>)
    ensures |r| >= 1
    ensures forall k :: 0 <= k < |r| ==> NoRegexSpace(r[k])
    ensures forall k :: 0 < k < |r| - 1 ==> |r[k]| > 0
    decreases |s|
  {
    if |s| == 0 then [""]
    else if IsRegexSpace(s[0]) then
      var rest := Pieces(DropSpaces(s));
      assert |rest| > 1 ==> |rest[0]| > 0;
      [""] + rest
    else
      var rest := Pieces(s[1..]);
      [[s[0]] + rest[0]] + rest[1..]
  }

  function DropTrailingEmpty(ps: seq<string>): (r: seq<string>)
    ensures |r| <= |ps| && r == ps[..|r|]
    ensures |r| > 0 ==> |r[|r| - 1]| > 0
    ensures forall k :: |r| <= k < |ps| ==> ps[k] == ""
    decreases |ps|
  {
    if |ps| > 0 && ps[|ps| - 1] == "" then DropTrailingEmpty(ps[..|ps| - 1]) else ps
  }

  /**
   * `String.split("\\s+")`: a string containing no `\s` character comes
   * back whole (so "" gives [""]); otherwise the pieces between the runs,
   * keeping a leading empty piece and dropping trailing empty ones.
   */
  function SplitOnSpaces(s: string): (r: seq<string>)
    ensures forall k :: 0 <= k < |r| ==> NoRegexSpace(r[k])
    ensures forall k :: 0 < k < |r| ==> |r[k]| > 0
  {
    if NoRegexSpace(s) then [s] else DropTrailingEmpty(Pieces(s))
  }

  /** A piece grows by a leading character that is not a space. */
  lemma PiecesNonSpace(s: string)
    requires |s| > 0 && !IsRegexSpace(s[0])
    ensures Pieces(s) == [[s[0]] + Pieces(s[1..])[0]] + Pieces(s[1..])[1..]
  {
  }

  /** A leading run of spaces ends an empty first piece. */
  lemma PiecesSpace(s: string)
    requires |s| > 0 && IsRegexSpace(s[0])
    ensures Pieces(s) == [""] + Pieces(DropSpaces(s))
  {
  }

  lemma PiecesOfTrailingSpace()
    ensures Pieces("b ") == ["b", ""]
  {
    assert IsRegexSpace(" "[0]) && " "[1..] == "";
    assert DropSpaces(" ") == "";
    PiecesSpace(" ");
    var sp := Pieces(" ");
    assert sp == ["", ""];
    assert "b "[0] == 'b' && "b "[1..] == " " && !IsRegexSpace('b');
    PiecesNonSpace("b ");
    assert ['b'] + sp[0] == "b" && sp[1..] == [""];
  }

  lemma PiecesOfInnerSpace()
    ensures Pieces("a b ") == ["a", "b", ""]
  {
    PiecesOfTrailingSpace();
    assert IsRegexSpace(" b "[0]) && " b "[1..] == "b ";
    assert DropSpaces(" b ") == "b ";
    PiecesSpace(" b ");
    var sb := Pieces(" b ");
    assert sb == ["", "b", ""];
    assert "a b "[0] == 'a' && "a b "[1..] == " b " && !IsRegexSpace('a');
    PiecesNonSpace("a b ");
    assert ['a'] + sb[0] == "a" && sb[1..] == ["b", ""];
  }

  /** A non-empty last piece stays; an empty one goes. */
  lemma DropTrailingEmptyStep(ps: seq<string>)
    requires |ps| > 0
    ensures ps[|ps| - 1] != "" ==> DropTrailingEmpty(ps) == ps
    ensures ps[|ps| - 1] == "" ==> DropTrailingEmpty(ps) == DropTrailingEmpty(ps[..|ps| - 1])
  {
  }

  lemma DropTrailingExample()
    ensures DropTrailingEmpty(["a", "b", ""]) == ["a", "b"]
  {
    var ps := ["a", "b", ""];
    assert ps[..2] == ["a", "b"];
    DropTrailingEmptyStep(ps);
    DropTrailingEmptyStep(["a", "b"]);
  }

  /** A string with a space in it splits into its pieces, trailing empty ones dropped. */
  lemma SplitOfSpaced(s: string, i: int)
    requires 0 <= i < |s| && IsRegexSpace(s[i])
    ensures SplitOnSpaces(s) == DropTrailingEmpty(Pieces(s))
  {
  }

  /** Runs of spaces separate pieces, and a trailing run leaves no empty
      piece behind. */
  lemma SplitExamples()
    ensures SplitOnSpaces("a b ") == ["a", "b"]
  {
    PiecesOfInnerSpace();
    assert IsRegexSpace("a b "[1]);
    SplitOfSpaced("a b ", 1);
    DropTrailingExample();
  }
}
