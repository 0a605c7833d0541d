/** String trimming as the "Take Picture" button's enabling test uses it: the
    characters removed are JavaScript's WhiteSpace and LineTerminator sets. */
module Text {

  /** JavaScript WhiteSpace (tab, vertical tab, form feed, space, no-break space,
      byte-order mark, Unicode space separators) and LineTerminator characters. */
  predicate IsJsWhitespace(c: char): (w: bool)
    ensures c == ' ' || c == '\t' || c == '\n' || c == '\r' ==> w
    ensures w ==> !('0' <= c <= '9' || 'a' <= c <= 'z' || 'A' <= c <= 'Z')
  {
    var n := c as int;
    || n == 0x09 || n == 0x0A || n == 0x0B || n == 0x0C || n == 0x0D
    || n == 0x20 || n == 0xA0 || n == 0x1680
    || (0x2000 <= n <= 0x200A)
    || n == 0x2028 || n == 0x2029 || n == 0x202F || n == 0x205F
    || n == 0x3000 || n == 0xFEFF
  }

  /** The suffix of `s` left after dropping its leading whitespace. */
  function TrimStart(s: string): (r: string)
    ensures |r| <= |s| && r == s[|s| - |r|..]
    ensures r == [] || !IsJsWhitespace(r[0])
    ensures forall k :: 0 <= k < |s| - |r| ==> IsJsWhitespace(s[k])
  {
    if s != [] && IsJsWhitespace(s[0]) then TrimStart(s[1..]) else s
  }

  /** The prefix of `s` left after dropping its trailing whitespace. */
  function TrimEnd(s: string): (r: string)
    ensures |r| <= |s| && r == s[..|r|]
    ensures r == [] || !IsJsWhitespace(r[|r| - 1])
    ensures forall k :: |r| <= k < |s| ==> IsJsWhitespace(s[k])
  {
    if s != [] && IsJsWhitespace(s[|s| - 1]) then TrimEnd(s[..|s| - 1]) else s
  }

  /** `s` without leading and trailing whitespace, as JavaScript's `trim()`. */
  function Trim(s: string): (r: string)
    ensures |r| <= |s|
    ensures r == [] || (!IsJsWhitespace(r[0]) && !IsJsWhitespace(r[|r| - 1]))
  {
    TrimEnd(TrimStart(s))
  }

  /** Trimming the end of a suffix of `s` keeps a slice of `s` and drops only
      whitespace from it. */
  lemma TrimEndOfSuffix(s: string, i: nat)
    requires i <= |s|
    ensures i + |TrimEnd(s[i..])| <= |s|
    ensures TrimEnd(s[i..]) == s[i..i + |TrimEnd(s[i..])|]
    ensures forall k :: i + |TrimEnd(s[i..])| <= k < |s| ==> IsJsWhitespace(s[k])
  {
  }

  /** Trimming keeps exactly the piece of the text between a whitespace-only
      prefix and a whitespace-only suffix. */
  lemma TrimIsPiece(s: string)
    ensures exists i, j :: 0 <= i <= j <= |s| && Trim(s) == s[i..j]
              && (forall k :: 0 <= k < i ==> IsJsWhitespace(s[k]))
              && (forall k :: j <= k < |s| ==> IsJsWhitespace(s[k]))
  {
    var i := |s| - |TrimStart(s)|;
    assert TrimStart(s) == s[i..];
    TrimEndOfSuffix(s, i);
    var j := i + |Trim(s)|;
    assert Trim(s) == s[i..j];
  }

  /** The trimmed text is empty exactly when every character is whitespace. */
  lemma TrimEmptyIff(s: string)
    ensures Trim(s) == [] <==> forall k :: 0 <= k < |s| ==> IsJsWhitespace(s[k])
  {
  }
}
