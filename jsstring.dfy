/**
 * `String.prototype.trim` as the send guard uses it (`!input.trim()`): the
 * input counts as blank when trimming leaves the empty (falsy) string.
 */
module JsString {

  /**
   * The characters `trim` strips: ECMAScript WhiteSpace (tab, vertical tab,
   * form feed, the byte order mark and every space separator) and
   * LineTerminator (line feed, carriage return, line and paragraph separator).
   */
  predicate IsWhitespace(c: char)
  {
    var n := c as int;
    n == 0x09 || n == 0x0B || n == 0x0C || n == 0xFEFF ||
    n == 0x20 || n == 0xA0 || n == 0x1680 || (0x2000 <= n <= 0x200A) ||
    n == 0x202F || n == 0x205F || n == 0x3000 ||
    n == 0x0A || n == 0x0D || n == 0x2028 || n == 0x2029
  }

  /** `s` with its leading whitespace removed: the longest suffix not starting with whitespace. */
  function TrimStart(s: string): (r: string)
    ensures |r| <= |s| && r == s[|s| - |r|..]
    ensures forall k :: 0 <= k < |s| - |r| ==> IsWhitespace(s[k])
    ensures r != [] ==> !IsWhitespace(r[0])
  {
    if |s| > 0 && IsWhitespace(s[0]) then TrimStart(s[1..]) else s
  }

  /** `s` with its trailing whitespace removed: the longest prefix not ending with whitespace. */
  function TrimEnd(s: string): (r: string)
    ensures |r| <= |s| && r == s[..|r|]
    ensures forall k :: |r| <= k < |s| ==> IsWhitespace(s[k])
    ensures r != [] ==> !IsWhitespace(r[|r| - 1])
  {
    if |s| > 0 && IsWhitespace(s[|s| - 1]) then TrimEnd(s[..|s| - 1]) else s
  }

  /** `s` with both its leading and its trailing whitespace removed. */
  function Trim(s: string): string
  {
    TrimEnd(TrimStart(s))
  }

  /**
   * `!s.trim()`, the guard's notion of an empty message: nothing is left
   * once whitespace is trimmed, that is, every character is whitespace
   * (`BlankIffTrimEmpty`).
   */
  predicate IsBlank(s: string)
  {
    forall k :: 0 <= k < |s| ==> IsWhitespace(s[k])
  }

  /** Trimming leaves the empty string exactly when every character is whitespace. */
  lemma BlankIffTrimEmpty(s: string)
    ensures IsBlank(s) <==> Trim(s) == ""
  {
    var t := TrimStart(s);
    if t == [] {
      assert IsBlank(s);
      assert Trim(s) == [];
    } else {
      assert !IsWhitespace(s[|s| - |t|]);
      assert !IsWhitespace(t[0]);
    }
  }
}
