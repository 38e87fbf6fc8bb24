/** The handful of string operations the validator relies on: blankness as
    Apache Commons `StringUtils` defines it, Java's `String.equalsIgnoreCase`,
    `StringUtils.lowerCase`, `startsWith` and `endsWith`. Case folding is ASCII
    only. */
module JavaStrings {
  import opened Wrappers

  /** `Character.isWhitespace`: the space, line and paragraph separators other
      than the non-breaking ones, plus the ASCII controls TAB, LF, VT, FF, CR
      and FS, GS, RS, US. */
  predicate IsWhitespace(ch: char) {
    || ('\U{9}' <= ch <= '\U{D}')
    || ('\U{1C}' <= ch <= ' ')
    || ch == '\U{1680}'
    || ('\U{2000}' <= ch <= '\U{2006}')
    || ('\U{2008}' <= ch <= '\U{200A}')
    || ch == '\U{2028}' || ch == '\U{2029}'
    || ch == '\U{205F}' || ch == '\U{3000}'
  }

  /** `StringUtils.isBlank`: null, empty, or whitespace only. */
  predicate IsBlank(s: Option<string>) {
    match s
    case None => true
    case Some(t) => forall i :: 0 <= i < |t| ==> IsWhitespace(t[i])
  }

  /** `StringUtils.isNotBlank`, which for a single argument is also
      `StringUtils.isNoneBlank`. */
  predicate IsNotBlank(s: Option<string>) {
    !IsBlank(s)
  }

  function UpperAscii(ch: char): char {
    if 'a' <= ch <= 'z' then (ch as int - 32) as char else ch
  }

  function LowerAscii(ch: char): char {
    if 'A' <= ch <= 'Z' then (ch as int + 32) as char else ch
  }

  /** The per-character test of `String.regionMatches(ignoreCase = true)`:
      equal, equal after upper-casing, or equal after upper- then lower-casing. */
  predicate CharsEqualIgnoreCase(a: char, b: char) {
    || a == b
    || UpperAscii(a) == UpperAscii(b)
    || LowerAscii(UpperAscii(a)) == LowerAscii(UpperAscii(b))
  }

  /** `String.equalsIgnoreCase` with a non-null argument. */
  predicate EqualsIgnoreCase(a: string, b: string) {
    |a| == |b| && forall i :: 0 <= i < |a| ==> CharsEqualIgnoreCase(a[i], b[i])
  }

  /** `String.toLowerCase`: the lower-case spelling of the same string. */
  function LowerCase(s: string): (r: string)
    ensures |r| == |s|
    ensures IsLowerCase(r)
    ensures EqualsIgnoreCase(r, s)
  {
    seq(|s|, i requires 0 <= i < |s| => LowerAscii(s[i]))
  }

  /** `StringUtils.lowerCase`, which passes null through. */
  function LowerCaseOrNull(s: Option<string>): (r: Option<string>)
    ensures r.None? <==> s.None?
    ensures s.Some? ==> |r.value| == |s.value| && IsLowerCase(r.value) && EqualsIgnoreCase(r.value, s.value)
  {
    match s
    case None => None
    case Some(t) => Some(LowerCase(t))
  }

  predicate IsLowerCase(s: string) {
    forall i :: 0 <= i < |s| ==> !('A' <= s[i] <= 'Z')
  }

  predicate StartsWith(s: string, prefix: string) {
    |prefix| <= |s| && s[..|prefix|] == prefix
  }

  predicate EndsWith(s: string, suffix: string) {
    |suffix| <= |s| && s[|s| - |suffix|..] == suffix
  }

  /** Comparing characters ignoring case is comparing their lower-case forms. */
  lemma CharsEqualIgnoreCaseIff(a: char, b: char)
    ensures CharsEqualIgnoreCase(a, b) <==> LowerAscii(a) == LowerAscii(b)
  {
  }

  /** `equalsIgnoreCase` holds exactly when both strings lower-case to the same
      string; so it is an equivalence relation. */
  lemma EqualsIgnoreCaseIff(a: string, b: string)
    ensures EqualsIgnoreCase(a, b) <==> LowerCase(a) == LowerCase(b)
  {
    if EqualsIgnoreCase(a, b) {
      forall i | 0 <= i < |a|
        ensures LowerCase(a)[i] == LowerCase(b)[i]
      {
        CharsEqualIgnoreCaseIff(a[i], b[i]);
      }
    }
    if LowerCase(a) == LowerCase(b) {
      forall i | 0 <= i < |a|
        ensures CharsEqualIgnoreCase(a[i], b[i])
      {
        assert LowerCase(a)[i] == LowerCase(b)[i];
        CharsEqualIgnoreCaseIff(a[i], b[i]);
      }
    }
  }

  /** Lower-casing leaves an already lower-case string alone. */
  lemma LowerCaseOfLowerCase(s: string)
    requires IsLowerCase(s)
    ensures LowerCase(s) == s
  {
  }

  /** Matching against a lower-case key ignoring case is the same as
      lower-casing and comparing exactly, the form `StringUtils.lowerCase`
      followed by a map lookup takes. */
  lemma EqualsIgnoreCaseLowerKey(s: string, key: string)
    requires IsLowerCase(key)
    ensures EqualsIgnoreCase(s, key) <==> LowerCase(s) == key
  {
    EqualsIgnoreCaseIff(s, key);
    LowerCaseOfLowerCase(key);
  }
}
