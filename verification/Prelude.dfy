/** Option and Result, and the two text checks every service applies to its arguments. */
module Prelude {

  datatype Option<+T> = None | Some(value: T)

  datatype Result<+T, +E> = Ok(value: T) | Err(error: E)

  /** The white space and line terminators that `String.prototype.trim` removes. */
  predicate IsSpace(c: char) {
    c in {'\t', '\n', '\U{000B}', '\U{000C}', '\r', ' ', '\U{00A0}', '\U{1680}', '\U{2028}', '\U{2029}',
          '\U{202F}', '\U{205F}', '\U{3000}', '\U{FEFF}'} || '\U{2000}' <= c <= '\U{200A}'
  }

  function TrimStart(s: string): (r: string)
    ensures |r| <= |s|
  {
    if s != "" && IsSpace(s[0]) then TrimStart(s[1..]) else s
  }

  function TrimEnd(s: string): (r: string)
    ensures |r| <= |s|
  {
    if s != "" && IsSpace(s[|s| - 1]) then TrimEnd(s[..|s| - 1]) else s
  }

  function Trim(s: string): string {
    TrimEnd(TrimStart(s))
  }

  /** Some character of s survives trimming. */
  ghost predicate NonBlank(s: string) {
    exists i :: 0 <= i < |s| && !IsSpace(s[i])
  }

  lemma {:induction false} TrimStartKeeps(s: string)
    ensures NonBlank(TrimStart(s)) <==> NonBlank(s)
    ensures TrimStart(s) != "" ==> !IsSpace(TrimStart(s)[0])
  {
    if s != "" && IsSpace(s[0]) {
      TrimStartKeeps(s[1..]);
      if NonBlank(s) {
        var i :| 0 <= i < |s| && !IsSpace(s[i]);
        assert !IsSpace(s[1..][i - 1]);
      }
      if NonBlank(s[1..]) {
        var i :| 0 <= i < |s[1..]| && !IsSpace(s[1..][i]);
        assert !IsSpace(s[i + 1]);
      }
    }
  }

  lemma {:induction false} TrimEndKeeps(s: string)
    ensures NonBlank(TrimEnd(s)) <==> NonBlank(s)
    ensures TrimEnd(s) != "" ==> !IsSpace(TrimEnd(s)[|TrimEnd(s)| - 1])
    ensures TrimEnd(s) <= s
  {
    if s != "" && IsSpace(s[|s| - 1]) {
      var t := s[..|s| - 1];
      TrimEndKeeps(t);
      if NonBlank(s) {
        var i :| 0 <= i < |s| && !IsSpace(s[i]);
        assert !IsSpace(t[i]);
      }
      if NonBlank(t) {
        var i :| 0 <= i < |t| && !IsSpace(t[i]);
        assert !IsSpace(s[i]);
      }
    }
  }

  /** A text is empty after trimming exactly when it has nothing but white space. */
  lemma TrimIsEmptyIffBlank(s: string)
    ensures Trim(s) == "" <==> !NonBlank(s)
    ensures NonBlank(Trim(s)) <==> NonBlank(s)
  {
    TrimStartKeeps(s);
    var t := TrimStart(s);
    TrimEndKeeps(t);
    if Trim(s) != "" {
      assert !IsSpace(Trim(s)[|Trim(s)| - 1]);
    }
  }

  /** Trimming twice is trimming once. */
  lemma TrimIsIdempotent(s: string)
    ensures Trim(Trim(s)) == Trim(s)
  {
    TrimStartKeeps(s);
    TrimEndKeeps(TrimStart(s));
    var t := Trim(s);
    if t != "" {
      assert t[0] == TrimStart(s)[0];
    }
  }

  /** The trimmed text, or nothing when the text is missing or blank: `requireText` reports the latter
      as an error, `optionalText` as an absent value. */
  function Normalized(text: Option<string>): (r: Option<string>)
    ensures r.Some? ==> NonBlank(r.value)
    ensures r.Some? <==> text.Some? && NonBlank(text.value)
  {
    if text.None? then None
    else
      TrimIsEmptyIffBlank(text.value);
      var t := Trim(text.value);
      if t == "" then None else Some(t)
  }

  predicate AllSpace(s: string) {
    forall i :: 0 <= i < |s| ==> IsSpace(s[i])
  }

  lemma {:induction false} TrimStartCuts(s: string)
    ensures var i := |s| - |TrimStart(s)|; 0 <= i && AllSpace(s[..i]) && TrimStart(s) == s[i..]
  {
    if s != "" && IsSpace(s[0]) {
      TrimStartCuts(s[1..]);
      var i := |s| - |TrimStart(s)|;
      assert forall k :: 0 < k < i ==> s[k] == s[1..][..i - 1][k - 1];
    }
  }

  lemma {:induction false} TrimEndCuts(s: string)
    ensures var j := |TrimEnd(s)|; AllSpace(s[j..]) && TrimEnd(s) == s[..j]
  {
    if s != "" && IsSpace(s[|s| - 1]) {
      var t := s[..|s| - 1];
      TrimEndCuts(t);
      var j := |TrimEnd(s)|;
      assert forall k :: j <= k < |t| ==> s[k] == t[j..][k - j];
    }
  }

  /** From i to j, with nothing but white space around, and none at either end. */
  predicate IsTrimmedTo(s: string, i: nat, j: nat) {
    i < j <= |s| && AllSpace(s[..i]) && AllSpace(s[j..]) && !IsSpace(s[i]) && !IsSpace(s[j - 1])
  }

  /** What is left of a text is all of it but the white space at its ends. */
  lemma NormalizedCutsSpaceOnly(text: string)
    requires NonBlank(text)
    ensures exists i: nat, j: nat :: IsTrimmedTo(text, i, j) && Normalized(Some(text)) == Some(text[i..j])
  {
    TrimStartKeeps(text);
    TrimStartCuts(text);
    var t := TrimStart(text);
    TrimEndKeeps(t);
    TrimEndCuts(t);
    TrimIsEmptyIffBlank(text);
    var i := |text| - |t|;
    var j := i + |Trim(text)|;
    assert text[i..j] == t[..|Trim(text)|] && text[j..] == t[|Trim(text)|..];
    assert Trim(text)[0] == t[0] == text[i];
    assert IsTrimmedTo(text, i, j);
  }

  /** A single letter is its own text. */
  lemma LetterIsText(text: string)
    requires |text| == 1 && !IsSpace(text[0])
    ensures Normalized(Some(text)) == Some(text) && NonBlank(text)
  {
    assert TrimStart(text) == text && TrimEnd(text) == text;
  }

  /** The first of two optional texts that is there. */
  function OrElse(a: Option<string>, b: Option<string>): Option<string> {
    if a.Some? then a else b
  }
}
