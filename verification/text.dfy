/** The two JavaScript string operations the widgets rely on:
    String.prototype.trim and (ASCII) String.prototype.toLowerCase. */
module Text {

  /** The characters trim removes: the WhiteSpace production of ECMAScript
      (TAB, VT, FF, ZWNBSP and every Zs space separator) and its
      LineTerminator production (LF, CR, LS, PS). */
  predicate IsTrimmable(c: char) {
    || c == '\t' || c == '\U{000B}' || c == '\U{000C}' || c == '\U{FEFF}'
    || c == ' ' || c == '\U{00A0}' || c == '\U{1680}'
    || ('\U{2000}' <= c <= '\U{200A}')
    || c == '\U{202F}' || c == '\U{205F}' || c == '\U{3000}'
    || c == '\n' || c == '\r' || c == '\U{2028}' || c == '\U{2029}'
  }

  predicate AllTrimmable(s: string) {
    forall i :: 0 <= i < |s| ==> IsTrimmable(s[i])
  }

  /** `r` is the slice of `s` that starts at `a`, everything outside it is
      trimmable, and it neither starts nor ends with a trimmable character. */
  ghost predicate TrimmedAt(s: string, a: int, r: string) {
    && 0 <= a && a + |r| <= |s|
    && r == s[a..a + |r|]
    && (forall i :: 0 <= i < a ==> IsTrimmable(s[i]))
    && (forall i :: a + |r| <= i < |s| ==> IsTrimmable(s[i]))
    && (|r| > 0 ==> !IsTrimmable(r[0]) && !IsTrimmable(r[|r| - 1]))
  }

  /** The reference definition of trim: `r` is what trim must return for `s`. */
  ghost predicate IsTrimOf(s: string, r: string) {
    exists a :: TrimmedAt(s, a, r)
  }

  /** The number of trimmable characters that start `s`. */
  function LeadingTrimmable(s: string, i: nat): (a: nat)
    requires i <= |s|
    requires forall k :: 0 <= k < i ==> IsTrimmable(s[k])
    ensures i <= a <= |s|
    ensures forall k :: 0 <= k < a ==> IsTrimmable(s[k])
    ensures a < |s| ==> !IsTrimmable(s[a])
    decreases |s| - i
  {
    if i == |s| || !IsTrimmable(s[i]) then i else LeadingTrimmable(s, i + 1)
  }

  /** Where the trailing run of trimmable characters of s[..e] starts, not
      looking below `lo`. */
  function TrailingTrimmable(s: string, lo: nat, e: nat): (b: nat)
    requires lo <= e <= |s|
    requires forall k :: e <= k < |s| ==> IsTrimmable(s[k])
    ensures lo <= b <= e
    ensures forall k :: b <= k < |s| ==> IsTrimmable(s[k])
    ensures b > lo ==> !IsTrimmable(s[b - 1])
    decreases e - lo
  {
    if e == lo || !IsTrimmable(s[e - 1]) then e else TrailingTrimmable(s, lo, e - 1)
  }

  /** String.prototype.trim. */
  function Trim(s: string): (r: string)
    ensures IsTrimOf(s, r)
  {
    var a := LeadingTrimmable(s, 0);
    var b := TrailingTrimmable(s, a, |s|);
    assert TrimmedAt(s, a, s[a..b]);
    s[a..b]
  }

  /** The reference definition admits exactly one result. */
  lemma TrimOfUnique(s: string, r1: string, r2: string)
    requires IsTrimOf(s, r1) && IsTrimOf(s, r2)
    ensures r1 == r2
  {
    var a1 :| TrimmedAt(s, a1, r1);
    var a2 :| TrimmedAt(s, a2, r2);
    if |r1| > 0 && |r2| > 0 {
      assert s[a1] == r1[0] && s[a2] == r2[0];
      assert a1 == a2;
      assert s[a1 + |r1| - 1] == r1[|r1| - 1];
      assert s[a2 + |r2| - 1] == r2[|r2| - 1];
      assert |r1| == |r2|;
    }
  }

  /** trim returns the empty string exactly for strings made only of
      trimmable characters. */
  lemma TrimEmptyIff(s: string)
    ensures Trim(s) == [] <==> AllTrimmable(s)
  {
    var r := Trim(s);
    var a :| TrimmedAt(s, a, r);
    if r != [] {
      assert s[a] == r[0];
    }
  }

  /** Neither starts nor ends with a trimmable character. */
  predicate NoSurroundingSpace(s: string) {
    |s| > 0 ==> !IsTrimmable(s[0]) && !IsTrimmable(s[|s| - 1])
  }

  lemma TrimNoSurroundingSpace(s: string)
    ensures NoSurroundingSpace(Trim(s))
  {
    var r := Trim(s);
    var a :| TrimmedAt(s, a, r);
  }

  /** Trimming twice is trimming once. */
  lemma TrimIdempotent(s: string)
    ensures Trim(Trim(s)) == Trim(s)
  {
    var r := Trim(s);
    var a :| TrimmedAt(s, a, r);
    assert TrimmedAt(r, 0, r);
    TrimOfUnique(r, Trim(r), r);
  }

  /** ASCII toLowerCase of one character. */
  function LowerChar(c: char): (d: char)
    ensures 'A' <= c <= 'Z' ==> 'a' <= d <= 'z' && d as int - c as int == 32
    ensures !('A' <= c <= 'Z') ==> d == c
  {
    if 'A' <= c <= 'Z' then (c as int + 32) as char else c
  }

  function LowerCase(s: string): (r: string)
    ensures |r| == |s|
    ensures forall i :: 0 <= i < |s| ==> r[i] == LowerChar(s[i])
  {
    seq(|s|, i requires 0 <= i < |s| => LowerChar(s[i]))
  }

  /** Lower-casing only touches 'A'..'Z', none of which is trimmable. */
  lemma LowerCharTrimmable(c: char)
    ensures IsTrimmable(LowerChar(c)) <==> IsTrimmable(c)
  {
  }

  /** Lower-casing preserves the shape that defines a trim result. */
  lemma LowerCaseTrimmedAt(s: string, a: int, r: string)
    requires TrimmedAt(s, a, r)
    ensures TrimmedAt(LowerCase(s), a, LowerCase(r))
  {
    var ls, lr := LowerCase(s), LowerCase(r);
    forall i | 0 <= i < |s|
      ensures IsTrimmable(ls[i]) <==> IsTrimmable(s[i])
    {
      LowerCharTrimmable(s[i]);
    }
    forall i | 0 <= i < |r|
      ensures lr[i] == ls[a + i]
    {
      assert r[i] == s[a + i];
    }
    assert lr == ls[a..a + |r|];
  }

  /** Lower-casing neither creates nor removes trimmable characters, so it
      commutes with trim. */
  lemma TrimLowerCaseCommute(s: string)
    ensures Trim(LowerCase(s)) == LowerCase(Trim(s))
  {
    var r := Trim(s);
    var a :| TrimmedAt(s, a, r);
    LowerCaseTrimmedAt(s, a, r);
    TrimOfUnique(LowerCase(s), Trim(LowerCase(s)), LowerCase(r));
  }

}
