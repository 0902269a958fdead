/** `isValidDomain` (web/src/utils/validation.ts): a test of the domain
    against the regular expression
      ^[a-zA-Z0-9]([a-zA-Z0-9-]*\.)+[a-zA-Z]{2,}$
    The model is a finite automaton run over the text, proved equal to a
    direct reading of the expression. */
module Validation {
  import opened Go

  predicate IsLetter(c: char) { 'a' <= c <= 'z' || 'A' <= c <= 'Z' }
  predicate IsDigit(c: char) { '0' <= c <= '9' }
  /** `[a-zA-Z0-9]` */
  predicate IsAlnum(c: char) { IsLetter(c) || IsDigit(c) }
  /** `[a-zA-Z0-9-]` */
  predicate IsLabelChar(c: char) { IsAlnum(c) || c == '-' }
  /** Any character the middle part `([a-zA-Z0-9-]*\.)+` can hold. */
  predicate IsLabelOrDot(c: char) { IsLabelChar(c) || c == '.' }

  /** Every character of `t` from index `j` on is a letter. */
  predicate LettersFrom(t: string, j: nat) { forall i :: j <= i < |t| ==> IsLetter(t[i]) }

  /** The expression read directly: one alphanumeric character, then a
      non-empty run of label characters and dots ending with a dot, then at
      least two letters. `k` is where the final letters start. */
  predicate DomainShape(s: string, k: int)
  {
    2 <= k <= |s| - 2
    && IsAlnum(s[0])
    && s[k - 1] == '.'
    && (forall i :: 1 <= i < k ==> IsLabelOrDot(s[i]))
    && LettersFrom(s, k)
  }

  /** The reference: `DOMAIN_REGEX.test(s)`. */
  ghost predicate Matches(s: string)
  {
    exists k :: DomainShape(s, k)
  }

  /** Letters seen since the last dot: none yet counted (`Broken` once a
      digit or hyphen appeared there, or before any dot), else their number
      capped at two. */
  datatype Tail = Broken | Letters(count: nat)

  datatype State = Init | Reject | Scan(dotSeen: bool, tail: Tail)

  const Accepting: State := Scan(true, Letters(2))

  function Step(st: State, c: char): State
  {
    match st
    case Init => if IsAlnum(c) then Scan(false, Broken) else Reject
    case Reject => Reject
    case Scan(dot, tail) =>
      if c == '.' then Scan(true, Letters(0))
      else if IsLetter(c) then
        Scan(dot, if tail.Letters? then Letters(if tail.count < 2 then tail.count + 1 else 2) else Broken)
      else if IsLabelChar(c) then Scan(dot, Broken)
      else Reject
  }

  /** The automaton's state after reading `s`. */
  function Run(s: string): State
  {
    if |s| == 0 then Init else Step(Run(s[..|s| - 1]), s[|s| - 1])
  }

  /** `isValidDomain`. */
  function IsValidDomain(s: string): (b: bool)
    ensures b <==> Matches(s)
  {
    AcceptsExactlyMatches(s);
    Run(s) == Accepting
  }

  /** The position of the last dot after the first character, if any. */
  function LastDot(p: string): (d: Option<nat>)
    ensures d.Some? ==> 1 <= d.value < |p| && p[d.value] == '.'
                        && forall i :: d.value < i < |p| ==> p[i] != '.'
    ensures d.None? ==> forall i :: 1 <= i < |p| ==> p[i] != '.'
  {
    if |p| <= 1 then None
    else if p[|p| - 1] == '.' then Some(|p| - 1)
    else LastDot(p[..|p| - 1])
  }


  predicate ValidChars(p: string)
  {
    |p| >= 1 && IsAlnum(p[0]) && forall i :: 1 <= i < |p| ==> IsLabelOrDot(p[i])
  }

  /** What the automaton should have recorded about a prefix `p`. */
  function Expected(p: string): State
  {
    if |p| == 0 then Init
    else if !ValidChars(p) then Reject
    else match LastDot(p)
      case None => Scan(false, Broken)
      case Some(d) =>
        Scan(true, if LettersFrom(p, d + 1)
                   then Letters(if |p| - d - 1 < 2 then |p| - d - 1 else 2)
                   else Broken)
  }

  /** The automaton keeps exactly the abstraction `Expected` of what it
      has read. */
  lemma {:induction false} RunIsExpected(p: string)
    ensures Run(p) == Expected(p)
  {
    if |p| > 1 {
      var q, c := p[..|p| - 1], p[|p| - 1];
      assert p == q + [c];
      RunIsExpected(q);
      assert ValidChars(p) <==> ValidChars(q) && IsLabelOrDot(c);
      if ValidChars(p) && c != '.' {
        assert LastDot(p) == LastDot(q);
        match LastDot(q)
        case None =>
        case Some(d) =>
          assert LettersFrom(p, d + 1) <==> LettersFrom(q, d + 1) && IsLetter(c);
      }
    }
  }

  /** The automaton accepts exactly what the expression matches. */
  lemma AcceptsExactlyMatches(s: string)
    ensures Run(s) == Accepting <==> Matches(s)
  {
    RunIsExpected(s);
    if Run(s) == Accepting {
      var d := LastDot(s).value;
      assert DomainShape(s, d + 1);
    }
    if Matches(s) {
      var k :| DomainShape(s, k);
      assert ValidChars(s);
      assert LastDot(s) == Some(k - 1);
    }
  }

  /** An accepted domain uses only letters, digits, hyphens and dots, does
      not start with a hyphen or a dot, and is at least four characters
      long. */
  lemma AcceptedAlphabet(s: string)
    requires IsValidDomain(s)
    ensures |s| >= 4 && IsAlnum(s[0])
    ensures forall i :: 0 <= i < |s| ==> IsLabelOrDot(s[i])
  {
    AcceptsExactlyMatches(s);
    var k :| DomainShape(s, k);
  }

  /** The final label must be at least two letters: a digit, a hyphen or a
      single letter after the last dot rejects. */
  lemma TopLevelLabel(s: string, d: nat)
    requires 1 <= d < |s| && s[d] == '.'
    requires forall i :: d < i < |s| ==> s[i] != '.'
    requires IsValidDomain(s)
    ensures |s| - d - 1 >= 2 && LettersFrom(s, d + 1)
  {
    RunIsExpected(s);
  }

  /** Without a dot after the first character nothing is accepted. */
  lemma NeedsDot(s: string)
    requires forall i :: 1 <= i < |s| ==> s[i] != '.'
    ensures !IsValidDomain(s)
  {
    RunIsExpected(s);
  }

  lemma AcceptsExamples()
    ensures IsValidDomain("daviani.dev")
    ensures IsValidDomain("www.google.com")
    ensures IsValidDomain("a..com") && IsValidDomain("a-.com")
  {
    AcceptsExactlyMatches("daviani.dev");
    assert DomainShape("daviani.dev", 8);
    AcceptsExactlyMatches("www.google.com");
    assert DomainShape("www.google.com", 11);
    AcceptsExactlyMatches("a..com");
    assert DomainShape("a..com", 3);
    AcceptsExactlyMatches("a-.com");
    assert DomainShape("a-.com", 3);
  }

  lemma RejectsExamples()
    ensures !IsValidDomain("") && !IsValidDomain("pasdedot") && !IsValidDomain("!!!bizarre")
    ensures !IsValidDomain("-a.com") && !IsValidDomain("a.c") && !IsValidDomain("a.co1")
  {
    NeedsDot("");
    NeedsDot("pasdedot");
    RunIsExpected("!!!bizarre");
    RunIsExpected("-a.com");
    BadTopLevelLabel("a.c");
    BadTopLevelLabel("a.co1");
  }

  lemma BadTopLevelLabel(s: string)
    requires |s| >= 2 && s[1] == '.' && forall i :: 1 < i < |s| ==> s[i] != '.'
    requires |s| < 4 || !IsLetter(s[|s| - 1])
    ensures !IsValidDomain(s)
  {
    if IsValidDomain(s) {
      TopLevelLabel(s, 1);
    }
  }
}
