/** String helpers the lexer is built from. */
module Utils {

  /** The text of `s` from position `n` on; empty once `n` reaches the end
      (slicing past the end of a string yields the empty string). */
  function DropFromString(s: string, n: nat): (r: string)
    ensures n <= |s| ==> r == s[n..]
    ensures n >= |s| ==> r == ""
  {
    if n <= |s| then s[n..] else ""
  }

  /** `kw` is a prefix of `s`: what the lexer's `take(s, |kw|) === kw` tests
      decide, since taking past the end never yields a keyword. */
  predicate StartsWith(s: string, kw: string) {
    |kw| <= |s| && s[..|kw|] == kw
  }

  /** The first `n` characters followed by what `DropFromString` leaves give
      back the whole string, and the part dropped is exactly `n` long. */
  lemma {:induction false} TakeDrop(s: string, n: nat)
    ensures n <= |s| ==> s[..n] + DropFromString(s, n) == s
    ensures |DropFromString(s, n)| == if n <= |s| then |s| - n else 0
  {
  }

  /** A matched prefix followed by the rest after it is the string the
      lexer started from: what every keyword and operator case relies on. */
  lemma {:induction false} PrefixThenRest(s: string, kw: string)
    requires StartsWith(s, kw)
    ensures kw + DropFromString(s, |kw|) == s
  {
    TakeDrop(s, |kw|);
  }

  /** The first `n` characters of `s`, built one character at a time. */
  method Take(s: string, n: nat) returns (output: string)
    requires n <= |s|
    ensures output == s[..n]
    ensures StartsWith(s, output) && |output| == n
  {
    output := "";
    for i := 0 to n
      invariant |output| == i
      invariant output == s[..i]
    {
      output := output + [s[|output|]];
    }
  }

  /** The longest prefix of `s` whose characters all satisfy `p`. */
  function PrefixWhile(s: string, p: char -> bool): (r: string)
    ensures |r| <= |s| && r == s[..|r|]
    ensures forall i :: 0 <= i < |r| ==> p(r[i])
    ensures |r| < |s| ==> !p(s[|r|])
  {
    if |s| == 0 || !p(s[0]) then "" else [s[0]] + PrefixWhile(s[1..], p)
  }

  /** Such a prefix is unique: any prefix that satisfies `p` throughout and
      stops at the end or at a character failing `p` is `PrefixWhile`. */
  lemma {:induction false} PrefixWhileUnique(s: string, p: char -> bool, t: string)
    requires |t| <= |s| && t == s[..|t|]
    requires forall i :: 0 <= i < |t| ==> p(t[i])
    requires |t| < |s| ==> !p(s[|t|])
    ensures t == PrefixWhile(s, p)
  {
    if |s| > 0 && p(s[0]) {
      assert |t| > 0;
      PrefixWhileUnique(s[1..], p, t[1..]);
    }
  }

  /** The scanning loop of the lexer: extend `output` while the next character
      exists and satisfies `condition`. */
  method TakeWhile(s: string, condition: char -> bool) returns (output: string)
    ensures |output| <= |s| && output == s[..|output|]
    ensures forall i :: 0 <= i < |output| ==> condition(output[i])
    ensures |output| < |s| ==> !condition(s[|output|])
    ensures output == PrefixWhile(s, condition)
  {
    output := "";
    var finished := false;
    while !finished
      invariant |output| <= |s| && output == s[..|output|]
      invariant forall i :: 0 <= i < |output| ==> condition(output[i])
      invariant finished ==> |output| < |s| ==> !condition(s[|output|])
      decreases |s| - |output|, if finished then 0 else 1
    {
      if |output| >= |s| {
        finished := true;
        continue;
      }
      var current := s[|output|];
      if condition(current) {
        output := output + [current];
        continue;
      } else {
        finished := true;
      }
    }
    PrefixWhileUnique(s, condition, output);
  }

  /** A one-character string holding an ASCII letter. */
  predicate IsLetter(s: string) {
    |s| == 1 && ('a' <= s[0] <= 'z' || 'A' <= s[0] <= 'Z')
  }

  /** A one-character string holding a decimal digit. */
  predicate IsDigit(s: string) {
    |s| == 1 && '0' <= s[0] <= '9'
  }

  predicate IsAlphaNum(s: string) {
    IsLetter(s) || IsDigit(s)
  }

  /** The two character classes are disjoint, and neither admits anything but a
      single character, so `IsAlphaNum` is exactly the one-character strings
      that are a letter or a digit. */
  lemma {:induction false} CharClasses(s: string)
    ensures !(IsLetter(s) && IsDigit(s))
    ensures IsAlphaNum(s) ==> |s| == 1
    ensures IsAlphaNum(s) <==> |s| == 1 && ('a' <= s[0] <= 'z' || 'A' <= s[0] <= 'Z' || '0' <= s[0] <= '9')
  {
  }

  /** The value of a decimal digit character. */
  function DigitValue(c: char): (d: nat)
    requires IsDigit([c])
    ensures d < 10
  {
    (c as int) - ('0' as int)
  }

  /** The decimal digit character of a value below ten. */
  function DigitChar(d: nat): (c: char)
    requires d < 10
    ensures IsDigit([c]) && DigitValue(c) == d
  {
    ('0' as int + d) as char
  }

  predicate AllDigits(ds: string) {
    forall i :: 0 <= i < |ds| ==> IsDigit([ds[i]])
  }

  /** The number a digit string denotes (leading zeros allowed, the empty
      string denoting 0), as JavaScript's `Number` converts it. */
  function DecimalValue(ds: string): nat
    requires AllDigits(ds)
  {
    if |ds| == 0 then 0
    else DecimalValue(ds[..|ds| - 1]) * 10 + DigitValue(ds[|ds| - 1])
  }

  /** The shortest decimal text of a number, as JavaScript's `String` writes
      a non-negative integer. */
  function DecimalText(n: nat): (ds: string)
    ensures |ds| > 0 && AllDigits(ds)
    ensures |ds| > 1 ==> ds[0] != '0'
  {
    if n < 10 then [DigitChar(n)] else DecimalText(n / 10) + [DigitChar(n % 10)]
  }

  /** Reading back the text of a number yields the number. */
  lemma {:induction false} DecimalRoundTrip(n: nat)
    ensures DecimalValue(DecimalText(n)) == n
  {
    if n >= 10 {
      DecimalRoundTrip(n / 10);
      var ds := DecimalText(n);
      assert ds[..|ds| - 1] == DecimalText(n / 10);
    }
  }
}
