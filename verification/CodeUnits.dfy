/** Strings as the sequences of UTF-16 code units that they are in the repository's language. */
module CodeUnits {
  import Prelude

  type Unit = n: int | 0 <= n < 0x1_0000

  type Text = seq<Unit>

  /** The code unit of a character of the basic plane. */
  function U(c: char): Unit
    requires c as int < 0x1_0000
  {
    c as int
  }

  /** The text of a literal, all of whose characters are ASCII. */
  function Ascii(s: string): (t: Text)
    ensures |t| == |s|
  {
    seq(|s|, i requires 0 <= i < |s| => s[i] as int % 0x1_0000)
  }

  /** Section 12.3 of ECMA-262: line feed, carriage return, line separator and paragraph separator. */
  predicate IsLineTerminator(u: Unit) {
    u == 0x0A || u == 0x0D || u == 0x2028 || u == 0x2029
  }

  /** White space and line terminators, as trimming removes them. */
  predicate IsBlank(u: Unit) {
    IsLineTerminator(u) || u in {0x09, 0x0B, 0x0C, 0x20, 0xA0, 0x1680, 0x202F, 0x205F, 0x3000,
                                 0xFEFF} || 0x2000 <= u <= 0x200A
  }

  /** The characters that are white space to one trim are so to the other. */
  lemma BlankIsSpace(c: char)
    requires c as int < 0x1_0000
    ensures IsBlank(U(c)) <==> Prelude.IsSpace(c)
  {
  }

  function TrimStart(t: Text): (r: Text)
    ensures |r| <= |t|
    ensures t != [] && !IsBlank(t[0]) ==> r == t
  {
    if t != [] && IsBlank(t[0]) then TrimStart(t[1..]) else t
  }

  function TrimEnd(t: Text): (r: Text)
    ensures |r| <= |t|
  {
    if t != [] && IsBlank(t[|t| - 1]) then TrimEnd(t[..|t| - 1]) else t
  }

  /** The decimal digits of a number. */
  function Digits(n: nat): (t: Text)
    ensures |t| >= 1
  {
    if n < 10 then [U('0') + n] else Digits(n / 10) + [U('0') + n % 10]
  }

  function Join(chunks: seq<Text>, separator: Text): Text {
    if chunks == [] then [] else if |chunks| == 1 then chunks[0]
    else chunks[0] + separator + Join(chunks[1..], separator)
  }

  function JoinedLength(chunks: seq<Text>, separator: Text): nat {
    if chunks == [] then 0 else if |chunks| == 1 then |chunks[0]|
    else |chunks[0]| + |separator| + JoinedLength(chunks[1..], separator)
  }

  lemma {:induction false} JoinHasLength(chunks: seq<Text>, separator: Text)
    ensures |Join(chunks, separator)| == JoinedLength(chunks, separator)
  {
    if |chunks| > 1 { JoinHasLength(chunks[1..], separator); }
  }

  /** One chunk more makes the joined text longer, never shorter. */
  lemma {:induction false} JoinGrows(chunks: seq<Text>, last: Text, separator: Text)
    ensures JoinedLength(chunks + [last], separator)
            == if chunks == [] then |last| else JoinedLength(chunks, separator) + |separator| + |last|
  {
    if chunks != [] {
      assert (chunks + [last])[1..] == chunks[1..] + [last];
      JoinGrows(chunks[1..], last, separator);
    }
  }
}
