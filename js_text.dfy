/**
 * The string operations of ECMAScript that the core relies on:
 * `String.prototype.trimStart`, `trimEnd` and `trim`, which strip the
 * characters the language counts as WhiteSpace or LineTerminator.
 */
module JsText {

  /** ECMAScript WhiteSpace (TAB, VT, FF, ZWNBSP and every space separator) or LineTerminator (LF, CR, LS, PS). */
  predicate IsWhitespace(c: char) {
    var u := c as int;
    u == 0x09 || u == 0x0A || u == 0x0B || u == 0x0C || u == 0x0D || u == 0x20 ||
    u == 0xA0 || u == 0x1680 || (0x2000 <= u <= 0x200A) ||
    u == 0x2028 || u == 0x2029 || u == 0x202F || u == 0x205F || u == 0x3000 || u == 0xFEFF
  }

  predicate AllWhitespace(s: string) {
    forall i :: 0 <= i < |s| ==> IsWhitespace(s[i])
  }

  /** The length of the longest all-whitespace prefix of `s`. */
  function LeadingWhitespace(s: string): (n: nat)
    ensures n <= |s|
    ensures forall i :: 0 <= i < n ==> IsWhitespace(s[i])
    ensures n < |s| ==> !IsWhitespace(s[n])
    decreases |s|
  {
    if s != [] && IsWhitespace(s[0]) then 1 + LeadingWhitespace(s[1..]) else 0
  }

  /** The length of the longest all-whitespace suffix of `s`. */
  function TrailingWhitespace(s: string): (n: nat)
    ensures n <= |s|
    ensures forall i :: |s| - n <= i < |s| ==> IsWhitespace(s[i])
    ensures n < |s| ==> !IsWhitespace(s[|s| - n - 1])
    decreases |s|
  {
    if s != [] && IsWhitespace(s[|s| - 1]) then 1 + TrailingWhitespace(s[..|s| - 1]) else 0
  }

  /** `s.trimStart()`. */
  function TrimStart(s: string): string {
    s[LeadingWhitespace(s)..]
  }

  /** `s.trimEnd()`. */
  function TrimEnd(s: string): string {
    s[..|s| - TrailingWhitespace(s)]
  }

  /** `s.trim()`. */
  function Trim(s: string): string {
    TrimEnd(TrimStart(s))
  }

  /**
   * `trimStart` cuts whitespace only, and all of it: `s` is all-whitespace
   * text followed by the result, which does not start with whitespace.
   */
  lemma TrimStartIsSuffix(s: string)
    ensures s == s[..|s| - |TrimStart(s)|] + TrimStart(s)
    ensures AllWhitespace(s[..|s| - |TrimStart(s)|])
    ensures TrimStart(s) != [] ==> !IsWhitespace(TrimStart(s)[0])
  {
  }

  /**
   * `trimEnd` cuts whitespace only, and all of it: `s` is the result, which
   * does not end with whitespace, followed by all-whitespace text.
   */
  lemma TrimEndIsPrefix(s: string)
    ensures s == TrimEnd(s) + s[|TrimEnd(s)|..]
    ensures AllWhitespace(s[|TrimEnd(s)|..])
    ensures TrimEnd(s) != [] ==> !IsWhitespace(TrimEnd(s)[|TrimEnd(s)| - 1])
  {
  }

  /** `trim` is `trimEnd` after `trimStart`, so its result has no whitespace at either end. */
  lemma TrimHasNoOuterWhitespace(s: string)
    ensures Trim(s) != [] ==> !IsWhitespace(Trim(s)[0]) && !IsWhitespace(Trim(s)[|Trim(s)| - 1])
  {
    var t := TrimStart(s);
    TrimStartIsSuffix(s);
    TrimEndIsPrefix(t);
    if Trim(s) != [] {
      assert Trim(s)[0] == t[0];
    }
  }

  /** A string trims to nothing exactly when every character of it is whitespace. */
  lemma TrimEmptyIffAllWhitespace(s: string)
    ensures Trim(s) == [] <==> AllWhitespace(s)
  {
    var n := LeadingWhitespace(s);
    var t := s[n..];
    if n < |s| {
      assert t[0] == s[n];
      assert TrailingWhitespace(t) < |t|;
      assert |Trim(s)| > 0;
    }
  }

  /** Leading whitespace of a concatenation: it runs into `b` only when all of `a` is whitespace. */
  lemma {:induction false} LeadingWhitespaceAppend(a: string, b: string)
    ensures LeadingWhitespace(a + b) == if LeadingWhitespace(a) == |a| then |a| + LeadingWhitespace(b) else LeadingWhitespace(a)
    decreases |a|
  {
    if a == [] {
      assert a + b == b;
    } else {
      assert (a + b)[0] == a[0];
      if IsWhitespace(a[0]) {
        assert (a + b)[1..] == a[1..] + b;
        LeadingWhitespaceAppend(a[1..], b);
      }
    }
  }

  /**
   * Appending to a string whose leading whitespace ends inside it leaves that
   * cut where it was: the appended text, trailing whitespace included, is kept verbatim.
   */
  lemma TrimStartAppend(a: string, b: string)
    ensures TrimStart(a + b) == if TrimStart(a) == [] then TrimStart(b) else TrimStart(a) + b
  {
    LeadingWhitespaceAppend(a, b);
    var n := LeadingWhitespace(a);
    if n == |a| {
      assert (a + b)[|a| + LeadingWhitespace(b)..] == b[LeadingWhitespace(b)..];
    } else {
      assert (a + b)[n..] == a[n..] + b;
    }
  }
}
