/** The time-partition duration format: `java.util.regex.Pattern.matches` with
    the expression `^\d+[dhDH]$`. Without the UNICODE_CHARACTER_CLASS flag `\d`
    is `[0-9]`, and `matches` must consume the whole input, so a trailing line
    terminator is not accepted. */
module DurationPattern {

  predicate IsAsciiDigit(ch: char) {
    '0' <= ch <= '9'
  }

  /** The character class `[dhDH]`: days or hours. */
  predicate IsUnit(ch: char) {
    ch == 'd' || ch == 'h' || ch == 'D' || ch == 'H'
  }

  /** Declarative reading of the expression: one or more digits, then exactly
      one unit letter, then nothing. */
  predicate MatchesDuration(s: string) {
    && |s| >= 2
    && (forall i :: 0 <= i < |s| - 1 ==> IsAsciiDigit(s[i]))
    && IsUnit(s[|s| - 1])
  }

  /** States of the automaton the regular expression compiles to. */
  datatype MatchState = Start | InDigits | AfterUnit | Dead

  function Step(st: MatchState, ch: char): MatchState {
    match st
    case Start => if IsAsciiDigit(ch) then InDigits else Dead
    case InDigits =>
      if IsAsciiDigit(ch) then InDigits
      else if IsUnit(ch) then AfterUnit
      else Dead
    case AfterUnit => Dead
    case Dead => Dead
  }

  function Run(st: MatchState, s: string): MatchState
    decreases |s|
  {
    if s == [] then st else Run(Step(st, s[0]), s[1..])
  }

  /** The matcher: run the automaton over the whole input and accept only in
      the state after the unit letter. */
  predicate PatternMatches(s: string) {
    Run(Start, s) == AfterUnit
  }

  lemma {:induction false} DeadIsFinal(s: string)
    ensures Run(Dead, s) == Dead
    decreases |s|
  {
    if s != [] {
      DeadIsFinal(s[1..]);
    }
  }

  lemma {:induction false} AfterUnitAcceptsOnlyEnd(s: string)
    ensures Run(AfterUnit, s) == AfterUnit <==> s == []
  {
    if s != [] {
      DeadIsFinal(s[1..]);
    }
  }

  /** From inside the digit run the automaton accepts exactly the inputs made of
      zero or more digits and one final unit letter. */
  lemma {:induction false} InDigitsAccepts(s: string)
    ensures Run(InDigits, s) == AfterUnit
        <==> |s| >= 1
             && (forall i :: 0 <= i < |s| - 1 ==> IsAsciiDigit(s[i]))
             && IsUnit(s[|s| - 1])
    decreases |s|
  {
    if s != [] {
      var rest := s[1..];
      if IsAsciiDigit(s[0]) {
        InDigitsAccepts(rest);
        assert forall i :: 1 <= i < |s| ==> s[i] == rest[i - 1];
      } else if IsUnit(s[0]) {
        AfterUnitAcceptsOnlyEnd(rest);
      } else {
        DeadIsFinal(rest);
      }
    }
  }

  /** The automaton recognises exactly the declarative language. */
  lemma PatternMatchesIff(s: string)
    ensures PatternMatches(s) <==> MatchesDuration(s)
  {
    if s != [] {
      var rest := s[1..];
      if IsAsciiDigit(s[0]) {
        InDigitsAccepts(rest);
        assert forall i :: 1 <= i < |s| ==> s[i] == rest[i - 1];
      } else {
        DeadIsFinal(rest);
      }
    }
  }

  /** "2h" and "2H" are durations; "2x", "h" and "2hh" are not. */
  lemma DurationExamples()
    ensures PatternMatches("2h") && PatternMatches("2H") && PatternMatches("48d")
    ensures !PatternMatches("2x") && !PatternMatches("h") && !PatternMatches("2hh")
    ensures !PatternMatches("") && !PatternMatches(" 2h")
  {
    PatternMatchesIff("2h");
    PatternMatchesIff("2H");
    PatternMatchesIff("48d");
    PatternMatchesIff("2x");
    PatternMatchesIff("h");
    PatternMatchesIff("2hh");
    PatternMatchesIff("");
    PatternMatchesIff(" 2h");
  }
}
