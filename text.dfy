/** The two string operations the application uses: `toLowerCase` (restricted
    to ASCII letters) and `includes` (substring search). */
module Text {

  predicate IsUpper(c: char) { 'A' <= c <= 'Z' }

  /** ASCII lower-casing of one character; every other character is kept. */
  function LowerChar(c: char): (r: char)
    ensures !IsUpper(r)
    ensures !IsUpper(c) ==> r == c
    ensures IsUpper(c) ==> r as int - c as int == 'a' as int - 'A' as int
  {
    if IsUpper(c) then (c as int - 'A' as int + 'a' as int) as char else c
  }

  /** `s.toLowerCase()` for ASCII text: same length, each character lowered. */
  function Lower(s: string): (r: string)
    ensures |r| == |s|
    ensures forall i :: 0 <= i < |s| ==> r[i] == LowerChar(s[i])
  {
    if s == [] then [] else [LowerChar(s[0])] + Lower(s[1..])
  }

  /** `p` occurs in `s` starting at position `i`. */
  predicate OccursAt(s: string, p: string, i: int)
  {
    0 <= i <= |s| - |p| && s[i..i + |p|] == p
  }

  /** `p` occurs somewhere in `s`. */
  ghost predicate Occurs(s: string, p: string)
  {
    exists i :: OccursAt(s, p, i)
  }

  /** `s.includes(p)`, defined by scanning `s` from the left; every string
      contains the empty string. */
  function Contains(s: string, p: string): (r: bool)
    ensures p == "" ==> r
    decreases |s|
  {
    (|p| <= |s| && s[..|p|] == p) || (|s| > 0 && Contains(s[1..], p))
  }

  /** The scan finds `p` exactly when `p` occurs somewhere in `s`. */
  lemma {:induction false} ContainsIff(s: string, p: string)
    ensures Contains(s, p) <==> Occurs(s, p)
    decreases |s|
  {
    if |p| <= |s| && s[..|p|] == p {
      assert OccursAt(s, p, 0);
      assert Occurs(s, p);
    } else if |s| > 0 {
      ContainsIff(s[1..], p);
      assert Contains(s, p) == Contains(s[1..], p);
      if Contains(s[1..], p) {
        var j :| OccursAt(s[1..], p, j);
        assert s[1..][j..j + |p|] == s[j + 1..j + 1 + |p|];
        assert OccursAt(s, p, j + 1);
        assert Occurs(s, p);
      } else {
        forall i | OccursAt(s, p, i)
          ensures false
        {
          assert i != 0;
          assert s[1..][i - 1..i - 1 + |p|] == s[i..i + |p|];
          assert OccursAt(s[1..], p, i - 1);
        }
        assert !Occurs(s, p);
      }
    } else {
      assert forall i :: !OccursAt(s, p, i);
      assert !Occurs(s, p);
    }
  }

  /** Some element of `tags`, lower-cased, contains `needle` — the shape of
      `tags.some(t => t.toLowerCase().includes(needle))`. */
  function SomeTagContains(tags: seq<string>, needle: string): (r: bool)
    ensures r <==> exists i :: 0 <= i < |tags| && Contains(Lower(tags[i]), needle)
  {
    if tags == [] then false
    else Contains(Lower(tags[0]), needle) || SomeTagContains(tags[1..], needle)
  }

  /** Some lower-cased tag contains `needle` exactly when `needle` occurs in
      some lower-cased tag. */
  lemma SomeTagOccursIff(tags: seq<string>, needle: string)
    ensures SomeTagContains(tags, needle) <==> exists i :: 0 <= i < |tags| && Occurs(Lower(tags[i]), needle)
  {
    forall i | 0 <= i < |tags|
      ensures Contains(Lower(tags[i]), needle) <==> Occurs(Lower(tags[i]), needle)
    {
      ContainsIff(Lower(tags[i]), needle);
    }
  }
}
