/** The tool guard's globs: the regular expression a glob is compiled to means exactly what the glob does.
    Sections cited are those of ECMA-262. */
module ToolGuardGlob {
  import opened CodeUnits

  // ---------------------------------------------------------------- what a glob means

  /** How the matching of letters ignores their case: any mapping that leaves line terminators alone. */
  ghost predicate KeepsLineTerminators(canon: Unit -> Unit) {
    forall u :: if IsLineTerminator(u) then canon(u) == u else !IsLineTerminator(canon(u))
  }

  /** A star stands for any text without line terminators, a question mark for one such unit, and every
      other unit for itself, up to case. */
  predicate GlobMeans(pattern: Text, value: Text, canon: Unit -> Unit)
    decreases |pattern| + |value|
  {
    if pattern == [] then value == []
    else if pattern[0] == U('*') then
      || GlobMeans(pattern[1..], value, canon)
      || (value != [] && !IsLineTerminator(value[0]) && GlobMeans(pattern, value[1..], canon))
    else if pattern[0] == U('?') then
      value != [] && !IsLineTerminator(value[0]) && GlobMeans(pattern[1..], value[1..], canon)
    else
      value != [] && canon(value[0]) == canon(pattern[0]) && GlobMeans(pattern[1..], value[1..], canon)
  }

  /** Without line feed, carriage return, line separator and paragraph separator. */
  ghost predicate OnOneLine(text: Text) {
    forall i :: 0 <= i < |text| ==> text[i] !in {0x0A, 0x0D, 0x2028, 0x2029}
  }

  /** A longer prefix is on one line exactly if its first unit ends none and the rest is on one. */
  lemma LineGrows(value: Text, k: nat)
    requires k < |value|
    ensures OnOneLine(value[..k + 1]) <==> !IsLineTerminator(value[0]) && OnOneLine(value[1..][..k])
    ensures value[1..][k..] == value[k + 1..]
  {
    assert value[..k + 1] == [value[0]] + value[1..][..k];
    assert forall i :: 0 <= i < k ==> value[..k + 1][i + 1] == value[1..][..k][i];
  }

  /** A star at the front matches any prefix that stays on one line. */
  lemma {:induction false} StarMeansAnyLine(pattern: Text, value: Text, canon: Unit -> Unit)
    ensures GlobMeans([U('*')] + pattern, value, canon)
            <==> exists k :: 0 <= k <= |value| && OnOneLine(value[..k]) && GlobMeans(pattern, value[k..], canon)
    decreases |value|
  {
    var starred := [U('*')] + pattern;
    assert starred[1..] == pattern;
    assert value[0..] == value && OnOneLine(value[..0]);
    if value != [] && !IsLineTerminator(value[0]) {
      StarMeansAnyLine(pattern, value[1..], canon);
      hide OnOneLine, IsLineTerminator;
      if k :| 0 <= k <= |value[1..]| && OnOneLine(value[1..][..k]) && GlobMeans(pattern, value[1..][k..], canon) {
        LineGrows(value, k);
      }
      if k :| 1 <= k <= |value| && OnOneLine(value[..k]) && GlobMeans(pattern, value[k..], canon) {
        LineGrows(value, k - 1);
      }
    } else if value != [] {
      forall k | 1 <= k <= |value| ensures !OnOneLine(value[..k]) {
        LineGrows(value, k - 1);
      }
    }
  }

  /** Two stars in a row mean what one star means. */
  lemma {:induction false} TwoStarsAreOne(pattern: Text, value: Text, canon: Unit -> Unit)
    ensures GlobMeans([U('*'), U('*')] + pattern, value, canon) <==> GlobMeans([U('*')] + pattern, value, canon)
    decreases |value|
  {
    var two, one := [U('*'), U('*')] + pattern, [U('*')] + pattern;
    assert two[1..] == one && one[1..] == pattern;
    if value != [] { TwoStarsAreOne(pattern, value[1..], canon); }
  }

  // ---------------------------------------------------------------- the compiler

  predicate IsEscaped(u: Unit) {
    u in {U('|'), U('\\'), U('{'), U('}'), U('('), U(')'), U('['), U(']'), U('^'), U('$'), U('+'), U('?'), U('.')}
  }

  function SourceOf(pattern: Text): Text {
    if pattern == [] then []
    else if |pattern| > 1 && pattern[0] == U('*') && pattern[1] == U('*') then [U('.'), U('*')] + SourceOf(pattern[2..])
    else if pattern[0] == U('*') then [U('.'), U('*')] + SourceOf(pattern[1..])
    else if pattern[0] == U('?') then [U('.')] + SourceOf(pattern[1..])
    else if IsEscaped(pattern[0]) then [U('\\'), pattern[0]] + SourceOf(pattern[1..])
    else [pattern[0]] + SourceOf(pattern[1..])
  }

  /** What one step of the compiler reads and writes. */
  function StepWidth(pattern: Text): nat
    requires pattern != []
    ensures 1 <= StepWidth(pattern) <= |pattern|
  {
    if |pattern| > 1 && pattern[0] == U('*') && pattern[1] == U('*') then 2 else 1
  }

  function StepSource(unit: Unit): Text {
    if unit == U('*') then [U('.'), U('*')] else if unit == U('?') then [U('.')]
    else if IsEscaped(unit) then [U('\\'), unit] else [unit]
  }

  lemma SourceIsStepped(pattern: Text)
    requires pattern != []
    ensures SourceOf(pattern) == StepSource(pattern[0]) + SourceOf(pattern[StepWidth(pattern)..])
  {
  }

  method GlobToRegexSource(pattern: Text) returns (source: Text)
    ensures source == SourceOf(pattern)
  {
    hide SourceOf, IsEscaped;
    source := [];
    var index := 0;
    assert pattern[0..] == pattern;
    while index < |pattern|
      invariant 0 <= index <= |pattern|
      invariant source + SourceOf(pattern[index..]) == SourceOf(pattern)
    {
      var unit := pattern[index];
      ghost var before, start := source, index;
      SourceIsStepped(pattern[index..]);
      if unit == U('*') && index + 1 < |pattern| && pattern[index + 1] == U('*') {
        source := source + [U('.'), U('*')];
        index := index + 1;
      } else if unit == U('*') {
        source := source + [U('.'), U('*')];
      } else if unit == U('?') {
        source := source + [U('.')];
      } else {
        source := source + (if IsEscaped(unit) then [U('\\'), unit] else [unit]);
      }
      index := index + 1;
      assert source == before + StepSource(unit);
      assert pattern[start..][index - start..] == pattern[index..];
    }
    assert pattern[index..] == [];
    assert SourceOf([]) == [] by { NothingIsEmitted(); }
  }

  lemma NothingIsEmitted()
    ensures SourceOf([]) == []
  {
  }

  // ---------------------------------------------------------------- reading the regular expression

  /** The part of section 22.2.1 that the compiler can emit: assertions, atoms, and the star quantifier. */
  datatype Atom = AnyUnit | Exactly(unit: Unit)

  datatype Term = Start | End | One(atom: Atom) | Many(atom: Atom)

  predicate IsSyntaxCharacter(u: Unit) {
    IsEscaped(u) || u == U('*')
  }

  datatype Read<T> = Wrong | Read(value: T, rest: Text)

  /** An atom: a dot, an identity escape of a syntax character, or a unit that is no syntax character. */
  function ReadAtom(source: Text): (r: Read<Atom>)
    ensures r.Read? ==> |r.rest| < |source|
  {
    if source == [] then Wrong
    else if source[0] == U('.') then Read(AnyUnit, source[1..])
    else if source[0] == U('\\') then
      if |source| > 1 && IsSyntaxCharacter(source[1]) then Read(Exactly(source[1]), source[2..]) else Wrong
    else if IsSyntaxCharacter(source[0]) then Wrong
    else Read(Exactly(source[0]), source[1..])
  }

  /** A term: an assertion, or an atom and the quantifier that follows it. */
  function ReadTerm(source: Text): (r: Read<Term>)
    ensures r.Read? ==> |r.rest| < |source|
  {
    if source == [] then Wrong
    else if source[0] == U('^') then Read(Start, source[1..])
    else if source[0] == U('$') then Read(End, source[1..])
    else
      match ReadAtom(source)
      case Wrong => Wrong
      case Read(atom, rest) =>
        if rest == [] || rest[0] !in {U('*'), U('+'), U('?'), U('{')} then Read(One(atom), rest)
        else if rest[0] == U('*') && (|rest| == 1 || rest[1] != U('?')) then Read(Many(atom), rest[1..])
        else Wrong
  }

  datatype Parsed = NotEmitted | Terms(terms: seq<Term>)

  function ParseRegex(source: Text): Parsed
    decreases |source|
  {
    if source == [] then Terms([])
    else
      match ReadTerm(source)
      case Wrong => NotEmitted
      case Read(term, rest) =>
        match ParseRegex(rest)
        case NotEmitted => NotEmitted
        case Terms(terms) => Terms([term] + terms)
  }

  // ---------------------------------------------------------------- matching, section 22.2.2

  /** CharacterSetMatcher with IgnoreCase: some member of the set has the same canonical form. */
  ghost predicate AtomMatches(atom: Atom, u: Unit, canon: Unit -> Unit) {
    match atom
    case AnyUnit => exists a: Unit :: !IsLineTerminator(a) && canon(a) == canon(u)
    case Exactly(unit) => canon(unit) == canon(u)
  }

  /** Whether the terms match from position i on, for some way of repeating the starred ones. */
  ghost predicate MatchesAt(terms: seq<Term>, value: Text, i: nat, canon: Unit -> Unit)
    requires i <= |value|
    decreases |terms| + |value| - i
  {
    if terms == [] then true
    else
      match terms[0]
      case Start => i == 0 && MatchesAt(terms[1..], value, i, canon)
      case End => i == |value| && MatchesAt(terms[1..], value, i, canon)
      case One(atom) => i < |value| && AtomMatches(atom, value[i], canon) && MatchesAt(terms[1..], value, i + 1, canon)
      case Many(atom) =>
        || MatchesAt(terms[1..], value, i, canon)
        || (i < |value| && AtomMatches(atom, value[i], canon) && MatchesAt(terms, value, i + 1, canon))
  }

  /** RegExp.prototype.test tries every position. */
  ghost predicate Test(terms: seq<Term>, value: Text, canon: Unit -> Unit) {
    exists i :: 0 <= i <= |value| && MatchesAt(terms, value, i, canon)
  }

  // ---------------------------------------------------------------- correctness

  function TermsOf(pattern: Text): seq<Term> {
    if pattern == [] then [End]
    else if |pattern| > 1 && pattern[0] == U('*') && pattern[1] == U('*') then [Many(AnyUnit)] + TermsOf(pattern[2..])
    else if pattern[0] == U('*') then [Many(AnyUnit)] + TermsOf(pattern[1..])
    else if pattern[0] == U('?') then [One(AnyUnit)] + TermsOf(pattern[1..])
    else [One(Exactly(pattern[0]))] + TermsOf(pattern[1..])
  }

  /** What follows an atom in the emitted source never reads as a quantifier of it. */
  lemma SourceStartsWithNoQuantifier(pattern: Text)
    ensures var source := SourceOf(pattern) + [U('$')];
            source != [] && source[0] !in {U('*'), U('+'), U('?'), U('{')}
  {
  }

  /** The emitted source reads back as one term for every part of the glob: nothing escapes escaping. */
  lemma {:induction false} EmittedSourceIsRead(pattern: Text)
    ensures ParseRegex(SourceOf(pattern) + [U('$')]) == Terms(TermsOf(pattern))
    decreases |pattern|
  {
    var source := SourceOf(pattern) + [U('$')];
    if pattern == [] {
      assert source == [U('$')] && source[1..] == [];
      assert ReadTerm(source) == Read(End, []);
    } else {
      var skip := if |pattern| > 1 && pattern[0] == U('*') && pattern[1] == U('*') then 2 else 1;
      var after := SourceOf(pattern[skip..]) + [U('$')];
      EmittedSourceIsRead(pattern[skip..]);
      SourceStartsWithNoQuantifier(pattern[skip..]);
      if pattern[0] == U('*') {
        assert source == [U('.'), U('*')] + after;
        assert source[1..] == [U('*')] + after && source[1..][1..] == after;
        assert ReadTerm(source) == Read(Many(AnyUnit), after);
      } else if pattern[0] == U('?') {
        assert source == [U('.')] + after && source[1..] == after;
        assert ReadTerm(source) == Read(One(AnyUnit), after);
      } else if IsEscaped(pattern[0]) {
        assert source == [U('\\'), pattern[0]] + after && source[2..] == after;
        assert ReadTerm(source) == Read(One(Exactly(pattern[0])), after);
      } else {
        assert source == [pattern[0]] + after && source[1..] == after;
        assert ReadTerm(source) == Read(One(Exactly(pattern[0])), after);
      }
    }
  }

  /** Ignoring case, the dot still matches exactly the units that are no line terminators. */
  lemma DotIsAnythingButALineTerminator(u: Unit, canon: Unit -> Unit)
    requires KeepsLineTerminators(canon)
    ensures AtomMatches(AnyUnit, u, canon) <==> !IsLineTerminator(u)
  {
    assert IsLineTerminator(canon(u)) <==> IsLineTerminator(u);
    if a: Unit :| !IsLineTerminator(a) && canon(a) == canon(u) {
      assert !IsLineTerminator(canon(a));
    }
  }

  lemma {:induction false} TermsMeanTheGlob(pattern: Text, value: Text, i: nat, canon: Unit -> Unit)
    requires KeepsLineTerminators(canon) && i <= |value|
    ensures MatchesAt(TermsOf(pattern), value, i, canon) <==> GlobMeans(pattern, value[i..], canon)
    decreases |pattern| + |value| - i
  {
    var terms := TermsOf(pattern);
    if pattern == [] {
      assert terms[1..] == [];
    } else {
      var twoStars := |pattern| > 1 && pattern[0] == U('*') && pattern[1] == U('*');
      var skip := if twoStars then 2 else 1;
      assert terms[1..] == TermsOf(pattern[skip..]);
      TermsMeanTheGlob(pattern[skip..], value, i, canon);
      if i < |value| {
        DotIsAnythingButALineTerminator(value[i], canon);
        assert value[i..][0] == value[i] && value[i..][1..] == value[i + 1..];
        TermsMeanTheGlob(pattern[skip..], value, i + 1, canon);
        TermsMeanTheGlob(pattern, value, i + 1, canon);
      }
      if twoStars {
        OneStarStep(pattern, value[i..], canon);
      }
    }
  }

  /** The step of a star, for a glob that begins with two. */
  lemma OneStarStep(pattern: Text, value: Text, canon: Unit -> Unit)
    requires |pattern| > 1 && pattern[0] == U('*') && pattern[1] == U('*')
    ensures GlobMeans(pattern, value, canon)
            <==> || GlobMeans(pattern[2..], value, canon)
                 || (value != [] && !IsLineTerminator(value[0]) && GlobMeans(pattern, value[1..], canon))
  {
    var rest := pattern[2..];
    assert pattern == [U('*'), U('*')] + rest && pattern[1..] == [U('*')] + rest && ([U('*')] + rest)[1..] == rest;
    TwoStarsAreOne(rest, value, canon);
    if value != [] { TwoStarsAreOne(rest, value[1..], canon); }
  }

  /** Compiling a glob and testing the regular expression is matching the glob, for every glob and value. */
  lemma CompiledGlobMeansTheGlob(pattern: Text, value: Text, canon: Unit -> Unit)
    requires KeepsLineTerminators(canon)
    ensures var parsed := ParseRegex([U('^')] + SourceOf(pattern) + [U('$')]);
            parsed.Terms? && (Test(parsed.terms, value, canon) <==> GlobMeans(pattern, value, canon))
  {
    var source := [U('^')] + SourceOf(pattern) + [U('$')];
    assert source[1..] == SourceOf(pattern) + [U('$')];
    assert ReadTerm(source) == Read(Start, source[1..]);
    EmittedSourceIsRead(pattern);
    var terms := [Start] + TermsOf(pattern);
    assert terms[1..] == TermsOf(pattern);
    TermsMeanTheGlob(pattern, value, 0, canon);
    assert value[0..] == value;
    assert MatchesAt(terms, value, 0, canon) <==> GlobMeans(pattern, value, canon);
    forall i | 0 < i <= |value| ensures !MatchesAt(terms, value, i, canon) {
    }
  }

  /** A glob without wildcards matches exactly its own text, up to case, whatever characters it has. */
  lemma {:induction false} PlainGlobMatchesItself(pattern: Text, value: Text, canon: Unit -> Unit)
    requires forall i :: 0 <= i < |pattern| ==> pattern[i] != U('*') && pattern[i] != U('?')
    ensures GlobMeans(pattern, value, canon)
            <==> |value| == |pattern| && forall i :: 0 <= i < |pattern| ==> canon(value[i]) == canon(pattern[i])
    decreases |pattern|
  {
    if pattern != [] && value != [] {
      PlainGlobMatchesItself(pattern[1..], value[1..], canon);
      if |value| == |pattern| {
        assert (forall i :: 0 <= i < |pattern| ==> canon(value[i]) == canon(pattern[i]))
               <==> canon(value[0]) == canon(pattern[0]) && forall i :: 0 <= i < |pattern[1..]| ==>
                 canon(value[1..][i]) == canon(pattern[1..][i]) by {
          if canon(value[0]) == canon(pattern[0]) && forall i :: 0 <= i < |pattern[1..]| ==>
               canon(value[1..][i]) == canon(pattern[1..][i]) {
            forall i | 0 <= i < |pattern| ensures canon(value[i]) == canon(pattern[i]) {
              if i > 0 { assert canon(value[1..][i - 1]) == canon(pattern[1..][i - 1]); }
            }
          }
        }
      }
    }
  }
}
