/** The few JavaScript string operations the program relies on:
    `length`, `String.prototype.startsWith` and `String.prototype.trim`. */
module JsString {

  /** The characters `trim` removes: ECMAScript's WhiteSpace and
      LineTerminator productions (tab, vertical tab, form feed, space,
      no-break space, byte-order mark, every space separator, LF, CR,
      line and paragraph separators). */
  predicate IsWhitespace(c: char) {
    || c == '\t' || c == '\n' || c == '\U{000B}' || c == '\U{000C}' || c == '\r'
    || c == ' ' || c == '\U{00A0}' || c == '\U{1680}'
    || ('\U{2000}' <= c <= '\U{200A}')
    || c == '\U{2028}' || c == '\U{2029}' || c == '\U{202F}' || c == '\U{205F}'
    || c == '\U{3000}' || c == '\U{FEFF}'
  }

  /** How many UTF-16 code units `c` takes: two for a character above
      U+FFFF, which JavaScript stores as a surrogate pair. */
  function CodeUnits(c: char): nat {
    if c as int > 0xFFFF then 2 else 1
  }

  /** `s.length`: JavaScript counts code units, not characters. */
  function Utf16Length(s: string): (n: nat)
    ensures |s| <= n <= 2 * |s|
  {
    if s == [] then 0 else CodeUnits(s[0]) + Utf16Length(s[1..])
  }

  /** Text within the Basic Multilingual Plane has one code unit per
      character, so `length` is its size. */
  lemma {:induction false} BmpLengthIsSize(s: string)
    requires forall k :: 0 <= k < |s| ==> s[k] as int <= 0xFFFF
    ensures Utf16Length(s) == |s|
  {
    if s != [] {
      assert forall k :: 0 <= k < |s[1..]| ==> s[1..][k] == s[k + 1];
      BmpLengthIsSize(s[1..]);
    }
  }

  /** Text made only of characters above U+FFFF (most emoji) has a
      `length` of twice its size. */
  lemma {:induction false} AstralLengthIsDouble(s: string)
    requires forall k :: 0 <= k < |s| ==> s[k] as int > 0xFFFF
    ensures Utf16Length(s) == 2 * |s|
  {
    if s != [] {
      assert forall k :: 0 <= k < |s[1..]| ==> s[1..][k] == s[k + 1];
      AstralLengthIsDouble(s[1..]);
    }
  }

  predicate StartsWith(s: string, prefix: string) {
    |prefix| <= |s| && s[..|prefix|] == prefix
  }

  /** Removes trailing whitespace: the result is the longest prefix of `s`
      that does not end in whitespace, and only whitespace is dropped. */
  function TrimEnd(s: string): (r: string)
    ensures |r| <= |s| && r == s[..|r|]
    ensures forall k :: |r| <= k < |s| ==> IsWhitespace(s[k])
    ensures |r| > 0 ==> !IsWhitespace(r[|r| - 1])
  {
    if |s| > 0 && IsWhitespace(s[|s| - 1]) then TrimEnd(s[..|s| - 1]) else s
  }

  /** Removes leading whitespace: the result is the longest suffix of `s`
      that does not start with whitespace, and only whitespace is dropped. */
  function TrimStart(s: string): (r: string)
    ensures |r| <= |s| && r == s[|s| - |r|..]
    ensures forall k :: 0 <= k < |s| - |r| ==> IsWhitespace(s[k])
    ensures |r| > 0 ==> !IsWhitespace(r[0])
  {
    if |s| > 0 && IsWhitespace(s[0]) then TrimStart(s[1..]) else s
  }

  /** `s.trim()`. */
  function Trim(s: string): string {
    TrimStart(TrimEnd(s))
  }

  /** `trim` cannot cut into a prefix that holds no whitespace: for such a
      string it only drops the whitespace tail, and the prefix survives. */
  lemma TrimKeepsSolidPrefix(s: string, prefix: string)
    requires StartsWith(s, prefix) && |prefix| > 0
    requires forall i :: 0 <= i < |prefix| ==> !IsWhitespace(prefix[i])
    ensures Trim(s) == TrimEnd(s)
    ensures StartsWith(Trim(s), prefix)
  {
    var e := TrimEnd(s);
    assert s[|prefix| - 1] == prefix[|prefix| - 1];
    assert |e| >= |prefix|;
    assert e[..|prefix|] == s[..|prefix|];
    assert e[0] == prefix[0];
  }
}
