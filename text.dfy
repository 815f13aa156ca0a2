/** The string operations the extractors apply to tweet text. */
module Text {

  function LowerChar(c: char): (l: char)
    ensures 'A' <= c <= 'Z' ==> 'a' <= l <= 'z' && l as int == c as int + 32
    ensures !('A' <= c <= 'Z') ==> l == c
  {
    if 'A' <= c <= 'Z' then (c as int + 32) as char else c
  }

  /** `toLowerCase`, restricted to the letters A to Z. */
  function Lower(s: string): (r: string)
    ensures |r| == |s|
    ensures forall i :: 0 <= i < |s| ==> r[i] == LowerChar(s[i])
  {
    if s == [] then [] else [LowerChar(s[0])] + Lower(s[1..])
  }

  lemma {:induction false} LowerIdempotent(s: string)
    ensures Lower(Lower(s)) == Lower(s)
  {
    var l := Lower(s);
    assert forall i :: 0 <= i < |s| ==> Lower(l)[i] == l[i];
  }

  /** `p` occurs in `s` at position `i`. */
  predicate OccursAt(s: string, p: string, i: nat)
  {
    i + |p| <= |s| && s[i..i + |p|] == p
  }

  /** `s.includes(p)`, as a scan from the left. */
  function Contains(s: string, p: string): (b: bool)
    ensures b <==> exists i: nat :: OccursAt(s, p, i)
    decreases |s|
  {
    if |s| < |p| then
      false
    else if s[..|p|] == p then
      assert OccursAt(s, p, 0);
      true
    else
      var b := Contains(s[1..], p);
      if b then
        var i: nat :| OccursAt(s[1..], p, i);
        assert s[i + 1..i + 1 + |p|] == s[1..][i..i + |p|];
        assert OccursAt(s, p, i + 1);
        b
      else
        forall i: nat | OccursAt(s, p, i) ensures false {
          assert i != 0;
          assert s[1..][i - 1..i - 1 + |p|] == s[i..i + |p|];
          assert OccursAt(s[1..], p, i - 1);
        }
        b
  }

  /** Whatever contains `p` also contains every substring of `p`. */
  lemma ContainsPart(s: string, p: string, k: nat, m: nat)
    requires k <= m <= |p|
    requires Contains(s, p)
    ensures Contains(s, p[k..m])
  {
    var i: nat :| OccursAt(s, p, i);
    assert i + |p| <= |s| && s[i..i + |p|] == p;
    forall j | 0 <= j < m - k ensures s[i + k..i + m][j] == p[k..m][j] {
      assert s[i..i + |p|][k + j] == p[k + j];
    }
    assert s[i + k..i + m] == p[k..m];
    assert OccursAt(s, p[k..m], i + k);
  }

  /** `text.substring(0, 30) + (text.length > 30 ? '...' : '')`. */
  function Truncate(text: string): (r: string)
    ensures |r| <= 33
    ensures |text| <= 30 ==> r == text
    ensures |text| > 30 ==> |r| == 33 && r[..30] == text[..30] && r[30..] == "..."
  {
    if |text| > 30 then text[..30] + "..." else text
  }

  /** Every result starts with a prefix of the original text. */
  lemma TruncateKeepsPrefix(text: string)
    ensures var r := Truncate(text);
            var keep := if |text| > 30 then 30 else |text|;
            keep <= |r| && r[..keep] == text[..keep]
  {
  }

  /** Truncating twice is the same as truncating once. */
  lemma TruncateIdempotent(text: string)
    ensures Truncate(Truncate(text)) == Truncate(text)
  {
  }
}
