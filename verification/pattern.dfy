/** The regular expression /(.*?)\((.*?)\)/ that the skill parser runs with
    String.prototype.match (no flags), as the JavaScript backtracking engine
    evaluates it: the leftmost start position wins, then the shortest first
    group, then the shortest second group. Without the `s` flag, `.` matches
    every character except the four line terminators. */
module SkillPattern {
  import opened Optional

  predicate IsDot(c: char) {
    c != '\n' && c != '\r' && c != '\U{2028}' && c != '\U{2029}'
  }

  /** `(.*?)\(` matches s[p..o+1]: group 1 is s[p..o] and s[o] is the `(`. */
  predicate OpenAt(s: string, p: int, o: int) {
    && 0 <= p <= o < |s|
    && s[o] == '('
    && forall i :: p <= i < o ==> IsDot(s[i])
  }

  /** `(.*?)\)` matches s[o+1..c+1]: group 2 is s[o+1..c] and s[c] is the `)`. */
  predicate CloseAt(s: string, o: int, c: int) {
    && 0 <= o < c < |s|
    && s[c] == ')'
    && forall i :: o < i < c ==> IsDot(s[i])
  }

  /** The whole pattern matches s[p..c+1] with the `(` at `o`. */
  predicate MatchesAt(s: string, p: int, o: int, c: int) {
    OpenAt(s, p, o) && CloseAt(s, o, c)
  }

  datatype Match = Match(start: nat, open: nat, close: nat) {
    /** match[1], the text captured by the first group. */
    function Group1(s: string): string
      requires start <= open <= |s|
    {
      s[start..open]
    }

    /** match[2], the text captured by the second group. */
    function Group2(s: string): string
      requires open < close <= |s|
    {
      s[open + 1..close]
    }
  }

  /** The match the engine reports: among all the places the pattern
      matches, the leftmost start, then the earliest `(`, then the earliest `)`. */
  ghost predicate IsFirstMatch(s: string, m: Match) {
    IsFirstMatchFrom(s, 0, m)
  }

  /** The lazy `(.*?)\)` after the `(` at `o`, with the group already grown to
      s[o+1..c]: try `)` at `c`, else grow the group by one character. */
  function FindClose(s: string, o: nat, c: nat): (r: Option<nat>)
    requires o < c <= |s|
    requires forall i :: o < i < c ==> IsDot(s[i])
    ensures r.Some? ==> c <= r.value && CloseAt(s, o, r.value)
    ensures r.Some? ==> forall c' :: c <= c' && CloseAt(s, o, c') ==> r.value <= c'
    ensures r.None? ==> forall c' :: c <= c' ==> !CloseAt(s, o, c')
    decreases |s| - c
  {
    if c == |s| then None
    else if s[c] == ')' then Some(c)
    else if IsDot(s[c]) then FindClose(s, o, c + 1)
    else None
  }

  /** The lazy `(.*?)\(` from start `p`, with the group already grown to
      s[p..o]: try `(` at `o` followed by the rest of the pattern, else grow
      the group by one character. Yields the `(` and `)` positions. */
  function FindOpen(s: string, p: nat, o: nat): (r: Option<(nat, nat)>)
    requires p <= o <= |s|
    requires forall i :: p <= i < o ==> IsDot(s[i])
    ensures r.Some? ==> o <= r.value.0 && MatchesAt(s, p, r.value.0, r.value.1)
    ensures r.Some? ==> forall o', c :: o <= o' && MatchesAt(s, p, o', c) ==> r.value.0 <= o'
    ensures r.Some? ==> forall c :: CloseAt(s, r.value.0, c) ==> r.value.1 <= c
    ensures r.None? ==> forall o', c :: o <= o' ==> !MatchesAt(s, p, o', c)
    decreases |s| - o
  {
    if o == |s| then None
    else if s[o] == '(' then
      match FindClose(s, o, o + 1)
      case Some(c) => Some((o, c))
      case None => FindOpen(s, p, o + 1)
    else if IsDot(s[o]) then FindOpen(s, p, o + 1)
    else None
  }

  /** The engine's scan over start positions p, p+1, ..., |s|. */
  function Search(s: string, p: nat): (r: Option<Match>)
    requires p <= |s|
    ensures r.Some? ==> p <= r.value.start && IsFirstMatchFrom(s, p, r.value)
    ensures r.None? ==> forall p', o, c :: p <= p' ==> !MatchesAt(s, p', o, c)
    decreases |s| - p
  {
    match FindOpen(s, p, p)
    case Some((o, c)) => Some(Match(p, o, c))
    case None => if p == |s| then None else Search(s, p + 1)
  }

  /** Among the places the pattern matches with a start at `p` or later: the
      leftmost start, then the earliest `(`, then the earliest `)`. */
  ghost predicate IsFirstMatchFrom(s: string, p: int, m: Match) {
    && MatchesAt(s, m.start, m.open, m.close)
    && (forall p', o, c :: p <= p' && MatchesAt(s, p', o, c) ==> m.start <= p')
    && (forall o, c :: MatchesAt(s, m.start, o, c) ==> m.open <= o)
    && (forall c :: CloseAt(s, m.open, c) ==> m.close <= c)
  }

  /** str.match(/(.*?)\((.*?)\)/): the first match, or none. */
  function Exec(s: string): (r: Option<Match>)
    ensures r.Some? ==> IsFirstMatch(s, r.value)
    ensures r.None? ==> forall p, o, c :: !MatchesAt(s, p, o, c)
  {
    Search(s, 0)
  }

  /** The reported match is determined by where the pattern matches. */
  lemma FirstMatchUnique(s: string, m1: Match, m2: Match)
    requires IsFirstMatch(s, m1) && IsFirstMatch(s, m2)
    ensures m1 == m2
  {
  }

  /** Two strings on which the pattern matches at the same places get the same
      match positions. */
  lemma ExecDeterminedByMatches(s1: string, s2: string)
    requires forall p, o, c :: MatchesAt(s1, p, o, c) <==> MatchesAt(s2, p, o, c)
    ensures Exec(s1) == Exec(s2)
  {
    var r1, r2 := Exec(s1), Exec(s2);
    if r1.Some? {
      var m := r1.value;
      assert MatchesAt(s2, m.start, m.open, m.close);
      forall c | CloseAt(s2, m.open, c)
        ensures m.close <= c
      {
        assert MatchesAt(s2, m.start, m.open, c);
      }
      assert IsFirstMatch(s2, m);
      FirstMatchUnique(s2, m, r2.value);
    }
  }

  predicate NoLineBreak(s: string) {
    forall i :: 0 <= i < |s| ==> IsDot(s[i])
  }

  /** On a line-break-free string the pattern matches exactly when some `(`
      has a `)` after it. */
  lemma ExecMatchesIff(s: string)
    requires NoLineBreak(s)
    ensures Exec(s).Some? <==> exists i, j :: 0 <= i < j < |s| && s[i] == '(' && s[j] == ')'
  {
    if i, j :| 0 <= i < j < |s| && s[i] == '(' && s[j] == ')' {
      assert MatchesAt(s, 0, i, j);
    }
  }

  /** When no line break comes before the first `)` that follows the first
      `(`, the match starts at 0, its `(` is the first `(` of the string and
      its `)` is the first `)` after that; what follows is never looked at. */
  lemma ExecFirstParens(s: string, o: nat, c: nat)
    requires o < c < |s| && s[o] == '(' && s[c] == ')'
    requires forall i :: 0 <= i < c ==> IsDot(s[i])
    requires forall i :: 0 <= i < o ==> s[i] != '('
    requires forall i :: o < i < c ==> s[i] != ')'
    ensures Exec(s) == Some(Match(0, o, c))
  {
    assert MatchesAt(s, 0, o, c);
    var m := Exec(s).value;
    assert m.start == 0;
    assert s[m.open] == '(';
    assert CloseAt(s, o, m.close);
  }

}
