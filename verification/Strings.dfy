/** toLowerCase(), includes() and split('.') on strings. */
module Strings {

  /** Lower case as far as it can matter to the search: A to Z, and the Kelvin sign. */
  function LowerChar(c: char): char {
    if 'A' <= c <= 'Z' then ((c as int) + 32) as char
    else if c == '\U{212A}' then 'k'
    else c
  }

  function Lower(s: string): (r: string)
    ensures |r| == |s| && forall i :: 0 <= i < |s| ==> r[i] == LowerChar(s[i])
  {
    if s == "" then "" else [LowerChar(s[0])] + Lower(s[1..])
  }

  predicate Includes(s: string, term: string) {
    term <= s || (s != "" && Includes(s[1..], term))
  }

  // ---- What the search comes to, letter by letter ----

  /** The character is the letter or its capital; the Kelvin sign is a capital k as well. */
  predicate ReadsAs(c: char, letter: char) {
    c == letter || ('A' <= c <= 'Z' && c as int + 32 == letter as int) || (c == '\U{212A}' && letter == 'k')
  }

  /** The term stands at position p of the string, in whatever capitals. */
  predicate StandsAt(s: string, p: nat, term: string) {
    p + |term| <= |s| && forall j :: 0 <= j < |term| ==> ReadsAs(s[p + j], term[j])
  }

  predicate Mentions(s: string, term: string) {
    exists p :: 0 <= p <= |s| && StandsAt(s, p, term)
  }

  /** Neither capitals nor the Kelvin sign. */
  predicate IsLower(term: string) {
    forall j :: 0 <= j < |term| ==> !('A' <= term[j] <= 'Z') && term[j] != '\U{212A}'
  }

  lemma LowerReads(c: char, letter: char)
    requires IsLower([letter])
    ensures LowerChar(c) == letter <==> ReadsAs(c, letter)
  {
    assert [letter][0] == letter;
  }

  lemma StandsAtIff(s: string, p: nat, term: string)
    requires IsLower(term)
    ensures StandsAt(s, p, term) <==> p + |term| <= |s| && Lower(s)[p..p + |term|] == term
  {
    if p + |term| <= |s| {
      forall j | 0 <= j < |term|
        ensures Lower(s)[p..p + |term|][j] == term[j] <==> ReadsAs(s[p + j], term[j])
      {
        LowerReads(s[p + j], term[j]);
      }
    }
  }

  predicate OccursAt(s: string, p: nat, term: string) {
    p + |term| <= |s| && s[p..p + |term|] == term
  }

  /** includes() finds what occurs somewhere. */
  lemma {:induction false} IncludesIff(s: string, term: string)
    ensures Includes(s, term) <==> exists p :: 0 <= p <= |s| && OccursAt(s, p, term)
  {
    if term <= s {
      assert OccursAt(s, 0, term);
    } else if s != "" {
      IncludesIff(s[1..], term);
      forall p | 0 <= p < |s|
        ensures OccursAt(s, p + 1, term) <==> OccursAt(s[1..], p, term)
      {
        if p + 1 + |term| <= |s| {
          assert s[p + 1..p + 1 + |term|] == s[1..][p..p + |term|];
        }
      }
      if Includes(s[1..], term) {
        var p :| 0 <= p <= |s[1..]| && OccursAt(s[1..], p, term);
        assert OccursAt(s, p + 1, term);
      }
      assert !OccursAt(s, 0, term);
      forall p | 0 < p <= |s|
        ensures OccursAt(s, p, term) <==> OccursAt(s[1..], p - 1, term)
      {
        assert OccursAt(s, (p - 1) + 1, term) <==> OccursAt(s[1..], p - 1, term);
      }
    }
  }

  /** Searching the lower-cased string for a lower-case term finds it in whatever capitals it is written. */
  lemma MentionsIff(s: string, term: string)
    requires IsLower(term)
    ensures Includes(Lower(s), term) <==> Mentions(s, term)
  {
    IncludesIff(Lower(s), term);
    forall p | 0 <= p <= |s|
      ensures StandsAt(s, p, term) <==> OccursAt(Lower(s), p, term)
    {
      StandsAtIff(s, p, term);
    }
    if p :| 0 <= p <= |s| && OccursAt(Lower(s), p, term) {
      assert StandsAt(s, p, term);
    }
    if p :| 0 <= p <= |s| && StandsAt(s, p, term) {
      assert OccursAt(Lower(s), p, term);
    }
  }

  lemma LowerIsIff(s: string, term: string)
    requires IsLower(term)
    ensures Lower(s) == term <==> |s| == |term| && StandsAt(s, 0, term)
  {
    StandsAtIff(s, 0, term);
    if |s| == |term| {
      assert Lower(s)[0..0 + |term|] == Lower(s);
    }
  }

  /** A term of two or more characters begins somewhere in the string. */
  lemma {:induction false} IncludedTermIsSomewhere(s: string, term: string) returns (i: nat)
    requires Includes(s, term) && |term| >= 2
    ensures i + 1 < |s| && s[i] == term[0] && s[i + 1] == term[1]
  {
    if term <= s {
      i := 0;
    } else {
      var j := IncludedTermIsSomewhere(s[1..], term);
      i := j + 1;
    }
  }

  /** The last of the parts between dots: all of it when there is no dot. */
  function LastPart(s: string): (r: string)
    ensures '.' !in r
    ensures '.' !in s ==> r == s
    ensures '.' in s ==> |r| < |s| && s[|s| - |r| - 1] == '.' && s[|s| - |r|..] == r
  {
    if s == "" then ""
    else if s[|s| - 1] == '.' then ""
    else LastPart(s[..|s| - 1]) + [s[|s| - 1]]
  }

  lemma {:induction false} LastPartAfterDot(before: string, part: string)
    requires '.' !in part
    ensures LastPart(before + "." + part) == part
  {
    var s := before + "." + part;
    if part != "" {
      var n := |part| - 1;
      assert s[..|s| - 1] == before + "." + part[..n];
      LastPartAfterDot(before, part[..n]);
      assert part == part[..n] + [part[n]];
    }
  }
}
