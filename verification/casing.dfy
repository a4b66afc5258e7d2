/** ASCII letter case: `ToLower` stands for `str::to_lowercase` on the
    modifier names. Title-casing belongs to the `titlecase` crate, which the
    renderer takes as a parameter. */
module Casing {

  predicate IsUpper(c: char)
  {
    'A' <= c <= 'Z'
  }

  predicate IsLower(c: char)
  {
    'a' <= c <= 'z'
  }

  function LowerChar(c: char): (r: char)
    ensures !IsUpper(r)
    ensures IsUpper(c) ==> IsLower(r) && r as int == c as int + 32
    ensures !IsUpper(c) ==> r == c
  {
    if IsUpper(c) then (c as int + 32) as char else c
  }

  /** Lower-cases every ASCII capital; every other character is kept. */
  function ToLower(s: string): (r: string)
    ensures |r| == |s|
    ensures forall i :: 0 <= i < |s| ==> r[i] == LowerChar(s[i])
  {
    if |s| == 0 then "" else [LowerChar(s[0])] + ToLower(s[1..])
  }

  lemma ToLowerIdempotent(s: string)
    ensures ToLower(ToLower(s)) == ToLower(s)
  {
  }

  /** Lower-casing introduces no newline. */
  lemma ToLowerNewlineFree(s: string)
    requires '\n' !in s
    ensures '\n' !in ToLower(s)
  {
    var r := ToLower(s);
    forall i | 0 <= i < |r|
      ensures r[i] != '\n'
    {
      assert r[i] == LowerChar(s[i]);
    }
  }
}
