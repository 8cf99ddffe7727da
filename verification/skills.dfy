/** The skill-string normaliser of the skills panel: "French (Fluent)"
    becomes the name "French", the level "Fluent" and a bar percentage looked
    up by lower-cased name in a fixed table. */
module ParticleSkills {
  import opened Optional
  import opened Text
  import opened SkillPattern

  datatype Skill = Skill(name: string, level: string, percentage: int)

  /** The skill lists handed to the panel. */
  datatype SkillSet = SkillSet(languages: seq<string>, technical: seq<string>)

  /** Known skills and their bar percentages, keyed by lower-case name. */
  const SkillValues: map<string, int> := map[
    "english" := 85,
    "french" := 90,
    "chinese" := 90,
    "python" := 80,
    "n8n" := 80,
    "supabase" := 85,
    "postgresql" := 70,
    "acceo" := 90
  ]

  /** The level shown when the string carries no parenthesised level. */
  const DefaultLevel := "PROFICIENT"

  const LanguageDefault := 85
  const TechnicalDefault := 75

  /** The table's keys are exactly the eight listed names, and every value
      lies between 70 and 90. */
  lemma SkillValuesShape()
    ensures SkillValues.Keys ==
      {"english", "french", "chinese", "python", "n8n", "supabase", "postgresql", "acceo"}
    ensures forall k :: k in SkillValues ==> 70 <= SkillValues[k] <= 90
  {
  }

  /** `skillValues[lowerName] || defaultVal`: a missing key, like a value of
      0, falls back to the default. */
  function Lookup(name: string, defaultVal: int): (p: int)
    ensures LowerCase(name) in SkillValues ==> p == SkillValues[LowerCase(name)]
    ensures LowerCase(name) !in SkillValues ==> p == defaultVal
  {
    var key := LowerCase(name);
    if key in SkillValues && SkillValues[key] != 0 then SkillValues[key] else defaultVal
  }

  /** parseSkill: split at the first match of /(.*?)\((.*?)\)/, trimming both
      groups; without a match the whole string is the name. */
  function ParseSkill(str: string, defaultVal: int): Skill {
    match Exec(str)
    case Some(m) =>
      var name := Trim(m.Group1(str));
      Skill(name, Trim(m.Group2(str)), Lookup(name, defaultVal))
    case None =>
      Skill(str, DefaultLevel, Lookup(str, defaultVal))
  }

  /** With a `(` followed later by a `)`, and no line break before that `)`,
      the name is the trimmed text before the first `(` and the level is the
      trimmed text between that `(` and the next `)`. */
  lemma ParseSkillSplit(str: string, o: nat, c: nat, defaultVal: int)
    requires o < c < |str| && str[o] == '(' && str[c] == ')'
    requires forall i :: 0 <= i < c ==> IsDot(str[i])
    requires forall i :: 0 <= i < o ==> str[i] != '('
    requires forall i :: o < i < c ==> str[i] != ')'
    ensures ParseSkill(str, defaultVal).name == Trim(str[..o])
    ensures ParseSkill(str, defaultVal).level == Trim(str[o + 1..c])
  {
    ExecFirstParens(str, o, c);
  }

  /** Without a `(` that has a `)` after it, the string is kept whole and
      untrimmed as the name, and the level is PROFICIENT. */
  lemma ParseSkillNoParens(str: string, defaultVal: int)
    requires !exists i, j :: 0 <= i < j < |str| && str[i] == '(' && str[j] == ')'
    ensures ParseSkill(str, defaultVal).name == str
    ensures ParseSkill(str, defaultVal).level == DefaultLevel
  {
  }

  /** Whatever follows the first `)` after the first `(` is ignored, line
      breaks included: the parsed skill is that of the head alone. */
  lemma ParseSkillIgnoresTail(head: string, tail: string, o: nat, defaultVal: int)
    requires NoLineBreak(head)
    requires 0 < |head| && o < |head| - 1
    requires head[o] == '(' && head[|head| - 1] == ')'
    requires forall i :: 0 <= i < o ==> head[i] != '('
    requires forall i :: o < i < |head| - 1 ==> head[i] != ')'
    ensures ParseSkill(head + tail, defaultVal) == ParseSkill(head, defaultVal)
  {
    var s := head + tail;
    var c := |head| - 1;
    assert forall i :: 0 <= i < |head| ==> s[i] == head[i];
    ExecFirstParens(s, o, c);
    ExecFirstParens(head, o, c);
    var m := Match(0, o, c);
    assert m.Group1(s) == m.Group1(head);
    assert m.Group2(s) == m.Group2(head);
  }

  /** The percentage is the table value of the lower-cased name when the
      table knows it, and the default otherwise. */
  lemma PercentageFromTable(str: string, defaultVal: int)
    ensures var k := ParseSkill(str, defaultVal);
      && (LowerCase(k.name) in SkillValues ==> k.percentage == SkillValues[LowerCase(k.name)])
      && (LowerCase(k.name) !in SkillValues ==> k.percentage == defaultVal)
  {
  }

  /** Two strings that differ only in letter case. */
  predicate SameIgnoringCase(a: string, b: string) {
    LowerCase(a) == LowerCase(b)
  }

  /** Lower-casing leaves `(`, `)` and line breaks where they are, so the
      pattern matches a string and its case variants at the same places. */
  lemma ExecIgnoresCase(s1: string, s2: string)
    requires SameIgnoringCase(s1, s2)
    ensures Exec(s1) == Exec(s2)
  {
    forall i | 0 <= i < |s1|
      ensures s1[i] == '(' <==> s2[i] == '('
      ensures s1[i] == ')' <==> s2[i] == ')'
      ensures IsDot(s1[i]) <==> IsDot(s2[i])
    {
      assert LowerChar(s1[i]) == LowerChar(s2[i]);
    }
    ExecDeterminedByMatches(s1, s2);
  }

  /** Lower-casing a slice is slicing the lower-cased string. */
  lemma LowerCaseSlice(s: string, a: nat, b: nat)
    requires a <= b <= |s|
    ensures LowerCase(s[a..b]) == LowerCase(s)[a..b]
  {
  }

  /** Names that differ only in letter case, once trimmed, still differ only
      in letter case. */
  lemma TrimmedSliceIgnoresCase(s1: string, s2: string, a: nat, b: nat)
    requires SameIgnoringCase(s1, s2)
    requires a <= b <= |s1|
    ensures SameIgnoringCase(Trim(s1[a..b]), Trim(s2[a..b]))
  {
    LowerCaseSlice(s1, a, b);
    LowerCaseSlice(s2, a, b);
    TrimLowerCaseCommute(s1[a..b]);
    TrimLowerCaseCommute(s2[a..b]);
  }

  /** The lookup ignores case: two skill strings that differ only in letter
      case get the same percentage, with the same default. */
  lemma PercentageIgnoresCase(s1: string, s2: string, defaultVal: int)
    requires SameIgnoringCase(s1, s2)
    ensures ParseSkill(s1, defaultVal).percentage == ParseSkill(s2, defaultVal).percentage
  {
    ExecIgnoresCase(s1, s2);
    match Exec(s1)
    case None =>
    case Some(m) =>
      TrimmedSliceIgnoresCase(s1, s2, m.start, m.open);
  }

  /** Percentages stay between 70 and 90 whenever the default does. */
  lemma PercentageInRange(str: string, defaultVal: int)
    requires 70 <= defaultVal <= 90
    ensures 70 <= ParseSkill(str, defaultVal).percentage <= 90
  {
    var name := ParseSkill(str, defaultVal).name;
    var key := LowerCase(name);
    if key in SkillValues {
      SkillValuesShape();
    }
  }

  /** `skills.languages.map(s => parseSkill(s, 85))`: one skill per string,
      in the same order. */
  function Languages(skills: SkillSet): (r: seq<Skill>)
    ensures |r| == |skills.languages|
    ensures forall i :: 0 <= i < |r| ==> r[i] == ParseSkill(skills.languages[i], LanguageDefault)
  {
    seq(|skills.languages|, i requires 0 <= i < |skills.languages| =>
      ParseSkill(skills.languages[i], LanguageDefault))
  }

  /** `skills.technical.map(s => parseSkill(s, 75))`: one skill per string,
      in the same order. */
  function Technical(skills: SkillSet): (r: seq<Skill>)
    ensures |r| == |skills.technical|
    ensures forall i :: 0 <= i < |r| ==> r[i] == ParseSkill(skills.technical[i], TechnicalDefault)
  {
    seq(|skills.technical|, i requires 0 <= i < |skills.technical| =>
      ParseSkill(skills.technical[i], TechnicalDefault))
  }

  /** With the defaults 85 and 75, every bar the panel draws lies between 70
      and 90 percent. */
  lemma PanelPercentagesInRange(skills: SkillSet)
    ensures forall i :: 0 <= i < |skills.languages| ==> 70 <= Languages(skills)[i].percentage <= 90
    ensures forall i :: 0 <= i < |skills.technical| ==> 70 <= Technical(skills)[i].percentage <= 90
  {
    forall i | 0 <= i < |skills.languages|
      ensures 70 <= Languages(skills)[i].percentage <= 90
    {
      PercentageInRange(skills.languages[i], LanguageDefault);
    }
    forall i | 0 <= i < |skills.technical|
      ensures 70 <= Technical(skills)[i].percentage <= 90
    {
      PercentageInRange(skills.technical[i], TechnicalDefault);
    }
  }

}
