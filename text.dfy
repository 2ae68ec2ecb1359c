/** Case-insensitive keyword matching on sector descriptions:
    Python's `kw in sector.upper()` for the tech keyword list. */
module Text {

  /** str.upper() restricted to ASCII letters. */
  function UpperChar(c: char): (u: char)
    ensures 'a' <= c <= 'z' ==> u as int == c as int - 32
    ensures !('a' <= c <= 'z') ==> u == c
    ensures !('a' <= u <= 'z')
  {
    if 'a' <= c <= 'z' then (c as int - 32) as char else c
  }

  /** str.upper(): character by character, leaving no lower-case letter. */
  function Upper(s: string): (r: string)
    ensures |r| == |s|
    ensures forall i :: 0 <= i < |s| ==> r[i] == UpperChar(s[i])
    ensures forall i :: 0 <= i < |r| ==> !('a' <= r[i] <= 'z')
  {
    seq(|s|, i requires 0 <= i < |s| => UpperChar(s[i]))
  }

  lemma UpperIdempotent(s: string)
    ensures Upper(Upper(s)) == Upper(s)
  {
  }

  /** `sub` occurs in `s` starting at index i. */
  predicate OccursAt(s: string, sub: string, i: int)
  {
    0 <= i && i + |sub| <= |s| && s[i..i + |sub|] == sub
  }

  predicate StartsWith(s: string, prefix: string)
  {
    |prefix| <= |s| && s[..|prefix|] == prefix
  }

  /** Python's `sub in s`, scanning the start positions from the left. */
  predicate Contains(s: string, sub: string)
    decreases |s|
  {
    StartsWith(s, sub) || (|s| > 0 && Contains(s[1..], sub))
  }

  /** The scan finds `sub` exactly when it occurs at some index. */
  lemma {:induction false} ContainsIff(s: string, sub: string)
    ensures Contains(s, sub) <==> exists i :: OccursAt(s, sub, i)
    decreases |s|
  {
    assert StartsWith(s, sub) <==> OccursAt(s, sub, 0);
    if |s| > 0 {
      ContainsIff(s[1..], sub);
      forall i | 0 <= i
        ensures OccursAt(s[1..], sub, i) <==> OccursAt(s, sub, i + 1)
      {
        if i + |sub| <= |s| - 1 {
          var window := s[1..][i..i + |sub|];
          assert forall k :: 0 <= k < |window| ==> window[k] == s[i + 1 + k];
          assert s[1..][i..i + |sub|] == s[i + 1..i + 1 + |sub|];
        }
      }
      if exists i :: OccursAt(s, sub, i) {
        var i :| OccursAt(s, sub, i);
        if i > 0 {
          assert OccursAt(s[1..], sub, i - 1);
        }
      }
    } else {
      if exists i :: OccursAt(s, sub, i) {
        var i :| OccursAt(s, sub, i);
        assert i == 0;
      }
    }
  }

  const TechKeywords: seq<string> := ["COMPUTER", "SOFTWARE", "SEMICONDUCTOR", "ELECTRONIC", "TECH"]

  /** any(kw in sector.upper() for kw in tech_keywords) */
  predicate IsTechSector(sector: string)
  {
    exists k :: 0 <= k < |TechKeywords| && Contains(Upper(sector), TechKeywords[k])
  }

  /** A sector whose upper-cased text starts with a keyword is tech. */
  lemma KeywordPrefixIsTech(sector: string, k: int)
    requires 0 <= k < |TechKeywords|
    requires StartsWith(Upper(sector), TechKeywords[k])
    ensures IsTechSector(sector)
  {
  }

  /** Matching ignores letter case: two sectors that differ only in the case
      of ASCII letters are both tech or both not, and a sector is tech exactly
      when one keyword occurs somewhere in its upper-cased text. */
  lemma TechSectorIgnoresCase(a: string, b: string)
    requires |a| == |b|
    requires forall i :: 0 <= i < |a| ==> UpperChar(a[i]) == UpperChar(b[i])
    ensures IsTechSector(a) == IsTechSector(b)
    ensures IsTechSector(a) <==>
      exists k, i :: 0 <= k < |TechKeywords| && OccursAt(Upper(a), TechKeywords[k], i)
  {
    assert Upper(a) == Upper(b);
    forall k | 0 <= k < |TechKeywords| {
      ContainsIff(Upper(a), TechKeywords[k]);
    }
  }
}
