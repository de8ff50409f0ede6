/**
 * `normalizeKey` (server.js:146): delete every line break with the global
 * regular expression `/(\r\n|\n|\r)/gm`, then `String.prototype.trim`.
 */
module KeyNormalization {

  predicate IsLineBreak(c: char) {
    c == '\r' || c == '\n'
  }

  predicate NoLineBreaks(s: string) {
    forall k :: 0 <= k < |s| ==> !IsLineBreak(s[k])
  }

  /** The characters `trim` strips: ECMAScript's WhiteSpace and LineTerminator code points. */
  predicate IsJsWhitespace(c: char) {
    var n := c as int;
    || n == 0x09 || n == 0x0A || n == 0x0B || n == 0x0C || n == 0x0D || n == 0x20
    || n == 0xA0 || n == 0x1680 || (0x2000 <= n <= 0x200A)
    || n == 0x2028 || n == 0x2029 || n == 0x202F || n == 0x205F || n == 0x3000 || n == 0xFEFF
  }

  /** The regular expression's scan: the alternatives `\r\n`, `\n`, `\r` tried left to right. */
  function ReplaceLineBreaks(s: string): (r: string)
    ensures NoLineBreaks(r)
    ensures |r| <= |s|
    decreases |s|
  {
    if s == [] then []
    else if |s| >= 2 && s[0] == '\r' && s[1] == '\n' then ReplaceLineBreaks(s[2..])
    else if IsLineBreak(s[0]) then ReplaceLineBreaks(s[1..])
    else [s[0]] + ReplaceLineBreaks(s[1..])
  }

  /** Reference definition: keep exactly the characters that are not line breaks. */
  function DropLineBreaks(s: string): string {
    if s == [] then [] else (if IsLineBreak(s[0]) then [] else [s[0]]) + DropLineBreaks(s[1..])
  }

  /** The scan deletes every CR and LF and nothing else, however they are paired. */
  lemma {:induction false} ReplaceIsDrop(s: string)
    ensures ReplaceLineBreaks(s) == DropLineBreaks(s)
    decreases |s|
  {
    if s == [] {
    } else if |s| >= 2 && s[0] == '\r' && s[1] == '\n' {
      ReplaceIsDrop(s[2..]);
      assert s[1..][1..] == s[2..];
    } else {
      ReplaceIsDrop(s[1..]);
    }
  }

  lemma {:induction false} DropConcat(a: string, b: string)
    ensures DropLineBreaks(a + b) == DropLineBreaks(a) + DropLineBreaks(b)
  {
    if a == [] {
      assert a + b == b;
    } else {
      assert (a + b)[1..] == a[1..] + b;
      DropConcat(a[1..], b);
    }
  }

  lemma {:induction false} DropNoBreaks(s: string)
    requires NoLineBreaks(s)
    ensures DropLineBreaks(s) == s
  {
    if s != [] {
      DropNoBreaks(s[1..]);
    }
  }

  /** `trimStart`: drop the leading whitespace. */
  function TrimStart(s: string): (r: string)
    ensures |r| <= |s| && r == s[|s| - |r|..]
    ensures forall k :: 0 <= k < |s| - |r| ==> IsJsWhitespace(s[k])
    ensures r != [] ==> !IsJsWhitespace(r[0])
  {
    if s != [] && IsJsWhitespace(s[0]) then TrimStart(s[1..]) else s
  }

  /** `trimEnd`: drop the trailing whitespace. */
  function TrimEnd(s: string): (r: string)
    ensures |r| <= |s| && r == s[..|r|]
    ensures forall k :: |r| <= k < |s| ==> IsJsWhitespace(s[k])
    ensures r != [] ==> !IsJsWhitespace(r[|r| - 1])
  {
    if s != [] && IsJsWhitespace(s[|s| - 1]) then TrimEnd(s[..|s| - 1]) else s
  }

  /** `r` occurs in `s` at index `i`, and everything of `s` before and after it is whitespace. */
  predicate InfixAt(r: string, s: string, i: int) {
    && 0 <= i <= |s| - |r| && r == s[i..i + |r|]
    && (forall k :: 0 <= k < i ==> IsJsWhitespace(s[k]))
    && (forall k :: i + |r| <= k < |s| ==> IsJsWhitespace(s[k]))
  }

  /** `r` is `s` with a run of whitespace taken off each end and nothing else changed. */
  ghost predicate WhitespaceInfix(r: string, s: string) {
    exists i :: InfixAt(r, s, i)
  }

  /** `trim`: the longest infix of `s` that neither starts nor ends with whitespace. */
  function Trim(s: string): (r: string)
    ensures WhitespaceInfix(r, s)
    ensures NoLineBreaks(s) ==> NoLineBreaks(r)
    ensures r != [] ==> !IsJsWhitespace(r[0]) && !IsJsWhitespace(r[|r| - 1])
  {
    var t := TrimStart(s);
    var r := TrimEnd(t);
    var i := |s| - |t|;
    assert forall k :: i + |r| <= k < |s| ==> s[k] == t[k - i];
    assert InfixAt(r, s, i);
    assert forall k :: 0 <= k < |r| ==> r[k] == s[i + k];
    r
  }

  /**
   * `normalizeKey`: the key with every CR and LF deleted and the surrounding
   * whitespace taken off; every other character is kept, in order.
   */
  function NormalizeKey(key: string): (r: string)
    ensures WhitespaceInfix(r, DropLineBreaks(key))
    ensures NoLineBreaks(r)
    ensures r != [] ==> !IsJsWhitespace(r[0]) && !IsJsWhitespace(r[|r| - 1])
  {
    ReplaceIsDrop(key);
    Trim(ReplaceLineBreaks(key))
  }

  lemma TrimClean(s: string)
    requires s == [] || (!IsJsWhitespace(s[0]) && !IsJsWhitespace(s[|s| - 1]))
    ensures Trim(s) == s
  {
    assert TrimStart(s) == s;
  }

  /** A key without line breaks or surrounding whitespace is its own normal form. */
  lemma NormalizeCleanKey(k: string)
    requires NoLineBreaks(k)
    requires k == [] || (!IsJsWhitespace(k[0]) && !IsJsWhitespace(k[|k| - 1]))
    ensures NormalizeKey(k) == k
  {
    ReplaceIsDrop(k);
    DropNoBreaks(k);
    TrimClean(k);
  }

  /** Normalizing twice is normalizing once. */
  lemma NormalizeKeyIdempotent(key: string)
    ensures NormalizeKey(NormalizeKey(key)) == NormalizeKey(key)
  {
    var r := NormalizeKey(key);
    ReplaceIsDrop(r);
    DropNoBreaks(r);
    TrimClean(r);
  }

  /** Inserting a CR or LF anywhere in a key does not change its normal form. */
  lemma LineBreakInsensitive(a: string, c: char, b: string)
    requires IsLineBreak(c)
    ensures NormalizeKey(a + [c] + b) == NormalizeKey(a + b)
  {
    assert DropLineBreaks([c]) == [] by {
      assert [c][1..] == [];
    }
    calc {
      ReplaceLineBreaks(a + [c] + b);
      { ReplaceIsDrop(a + [c] + b); }
      DropLineBreaks(a + [c] + b);
      { DropConcat(a + [c], b); DropConcat(a, [c]); }
      DropLineBreaks(a) + DropLineBreaks(b);
      { DropConcat(a, b); }
      DropLineBreaks(a + b);
      { ReplaceIsDrop(a + b); }
      ReplaceLineBreaks(a + b);
    }
  }
}
