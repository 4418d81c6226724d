/**
 * The clefs a part may be written in: two names are accepted, any other
 * is refused when the clef is made, and each accepted clef has its ABC
 * clef specification.
 */
module Clefs {
  import opened JavaLang

  /** The accepted clef names, in the order they are scanned. */
  const AllowedClefs: seq<string> := ["treble-8", "bass"]

  /** A clef: its name, fixed when it is made. */
  datatype Clef = Clef(name: string)

  /** `isAllowed`: a scan of the accepted names that stops at the first
      equal one. */
  method IsAllowed(clefName: string) returns (b: bool)
    ensures b <==> clefName in AllowedClefs
  {
    for i := 0 to |AllowedClefs|
      invariant clefName !in AllowedClefs[..i]
    {
      if AllowedClefs[i] == clefName {
        return true;
      }
      assert AllowedClefs[..i + 1] == AllowedClefs[..i] + [AllowedClefs[i]];
    }
    assert AllowedClefs[..|AllowedClefs|] == AllowedClefs;
    return false;
  }

  /** The constructor: an accepted name makes a clef of that name, any
      other throws a `RuntimeException`. */
  function ClefOf(name: string): (r: Result<Clef>)
    ensures r.Ok? <==> name == "treble-8" || name == "bass"
    ensures r.Ok? ==> r.value.name == name
    ensures r.Err? ==> r.error == Runtime
  {
    if name in AllowedClefs then Ok(Clef(name)) else Err(Runtime)
  }

  /** The constructor in the source's steps: validate, then store. */
  method NewClef(name: string) returns (r: Result<Clef>)
    ensures r == ClefOf(name)
  {
    var ok := IsAllowed(name);
    if !ok {
      return Err(Runtime);
    }
    return Ok(Clef(name));
  }

  /** `getName`. */
  function GetName(c: Clef): string {
    c.name
  }

  /** `getClefSpec`: the ABC clef field of each accepted name, and no
      specification (the source's `null`) for any other. */
  function ClefSpec(c: Clef): (r: Option<string>)
    ensures r.Some? <==> c.name in AllowedClefs
  {
    if c.name == "bass" then Some("clef=bass")
    else if c.name == "treble-8" then Some("middle=B, clef=treble-8")
    else None
  }

  /** Every clef that can be made has a specification, so the `null`
      branch is never reached, and its name is the one it was made with. */
  lemma MadeClefs(name: string)
    requires ClefOf(name).Ok?
    ensures ClefSpec(ClefOf(name).value).Some?
    ensures GetName(ClefOf(name).value) == name
    ensures ClefSpec(ClefOf(name).value).value == if name == "bass" then "clef=bass" else "middle=B, clef=treble-8"
  {
  }

  /** The two accepted names and their specifications; a plain "treble"
      clef is refused. */
  lemma ClefExamples()
    ensures ClefOf("bass") == Ok(Clef("bass")) && ClefSpec(Clef("bass")) == Some("clef=bass")
    ensures ClefOf("treble-8") == Ok(Clef("treble-8")) && ClefSpec(Clef("treble-8")) == Some("middle=B, clef=treble-8")
    ensures ClefOf("treble") == Err(Runtime)
  {
    assert "treble" != "treble-8" && "treble" != "bass";
  }
}
