/** The few JavaScript string operations the session coordinator relies on:
    `String.prototype.trim`, `startsWith` and `substring` with one argument,
    plus JavaScript truthiness of a possibly-missing string. */
module JsString {
  import opened Options

  /** A value that is `undefined`, or a string, is truthy exactly when it is a non-empty string:
      `undefined` and `""` are the only falsy ones. */
  predicate Truthy(v: Option<string>) {
    v.Some? && v.value != ""
  }

  /** The characters `trim` removes: ECMAScript WhiteSpace (tab, vertical tab, form feed,
      space, no-break space, byte order mark and every Zs character) and LineTerminator
      (line feed, carriage return, line and paragraph separators). */
  predicate IsWhitespace(c: char) {
    var n := c as int;
    n == 0x09 || n == 0x0A || n == 0x0B || n == 0x0C || n == 0x0D || n == 0x20 ||
    n == 0xA0 || n == 0x1680 || (0x2000 <= n <= 0x200A) || n == 0x2028 || n == 0x2029 ||
    n == 0x202F || n == 0x205F || n == 0x3000 || n == 0xFEFF
  }

  predicate AllWhitespace(s: string) {
    forall i :: 0 <= i < |s| ==> IsWhitespace(s[i])
  }

  /** Every character of `s` at an index in [lo, hi) is whitespace. */
  predicate WhitespaceBetween(s: string, lo: int, hi: int) {
    forall i :: lo <= i < hi && 0 <= i < |s| ==> IsWhitespace(s[i])
  }

  /** Neither the first nor the last character (if any) is whitespace: what `trim` leaves. */
  predicate NoEdgeWhitespace(s: string) {
    s == [] || (!IsWhitespace(s[0]) && !IsWhitespace(s[|s| - 1]))
  }

  /** `s.startsWith(prefix)`: `s` is `prefix` followed by some text. */
  predicate StartsWith(s: string, prefix: string)
    ensures StartsWith(s, prefix) <==> exists rest :: s == prefix + rest
  {
    assert |prefix| <= |s| && s[..|prefix|] == prefix ==> s == prefix + s[|prefix|..];
    |prefix| <= |s| && s[..|prefix|] == prefix
  }

  predicate EndsWith(s: string, suffix: string) {
    |suffix| <= |s| && s[|s| - |suffix|..] == suffix
  }

  /** The first index at or after `i` that does not hold whitespace (or |s|). */
  function SkipWhitespace(s: string, i: nat): (k: nat)
    requires i <= |s|
    ensures i <= k <= |s| && WhitespaceBetween(s, i, k)
    ensures k < |s| ==> !IsWhitespace(s[k])
    decreases |s| - i
  {
    if i < |s| && IsWhitespace(s[i]) then SkipWhitespace(s, i + 1) else i
  }

  /** Walking back from `j` towards `lo`, the end of the last non-whitespace character
      (or `lo`). */
  function SkipWhitespaceBack(s: string, lo: nat, j: nat): (k: nat)
    requires lo <= j <= |s|
    ensures lo <= k <= j && WhitespaceBetween(s, k, j)
    ensures lo < k ==> !IsWhitespace(s[k - 1])
    decreases j - lo
  {
    if lo < j && IsWhitespace(s[j - 1]) then SkipWhitespaceBack(s, lo, j - 1) else j
  }

  /** `s.trim()`: `s` with its leading and trailing whitespace removed. The result is the
      slice of `s` after its leading whitespace, everything after it is whitespace too, and it
      neither starts nor ends with whitespace (TrimUnique shows that these facts determine
      it). */
  function Trim(s: string): (r: string)
    ensures var k := SkipWhitespace(s, 0);
      k + |r| <= |s| && r == s[k..k + |r|] &&
      WhitespaceBetween(s, 0, k) && WhitespaceBetween(s, k + |r|, |s|) &&
      NoEdgeWhitespace(r)
  {
    var k := SkipWhitespace(s, 0);
    var e := SkipWhitespaceBack(s, k, |s|);
    s[k..e]
  }

  /** `s.substring(start)` for a non-negative `start`: JavaScript clamps a start past the end
      to the length, so the result is then empty. */
  function Substring(s: string, start: nat): (r: string)
    ensures |r| == if start <= |s| then |s| - start else 0
    ensures EndsWith(s, r)
  {
    if start <= |s| then s[start..] else ""
  }

  /** Any index with the two properties SkipWhitespace promises is the one it returns. */
  lemma SkipWhitespaceUnique(s: string, i: nat, k: nat)
    requires i <= k <= |s| && WhitespaceBetween(s, i, k)
    requires k < |s| ==> !IsWhitespace(s[k])
    ensures SkipWhitespace(s, i) == k
  {
  }

  /** In `a + m + b`, the positions of `a` and of `b` hold whitespace when `a` and `b` do. */
  lemma WhitespaceAround(a: string, m: string, b: string)
    requires AllWhitespace(a) && AllWhitespace(b)
    ensures WhitespaceBetween(a + m + b, 0, |a|)
    ensures WhitespaceBetween(a + m + b, |a| + |m|, |a + m + b|)
  {
    var s := a + m + b;
    forall i | 0 <= i < |a| ensures IsWhitespace(s[i]) { assert s[i] == a[i]; }
    forall i | |a| + |m| <= i < |s| ensures IsWhitespace(s[i]) { assert s[i] == b[i - |a| - |m|]; }
  }

  /** Whatever whitespace surrounds a text that has none at its edges, `trim` returns exactly
      that text. */
  lemma TrimUnique(a: string, m: string, b: string)
    requires AllWhitespace(a) && AllWhitespace(b) && NoEdgeWhitespace(m)
    ensures Trim(a + m + b) == m
  {
    var s := a + m + b;
    var r := Trim(s);
    var k := SkipWhitespace(s, 0);
    var j := |a| + |m|;
    WhitespaceAround(a, m, b);
    assert r != [] ==> r[0] == s[k] && r[|r| - 1] == s[k + |r| - 1];
    if m == [] {
      assert WhitespaceBetween(s, 0, |s|);
      assert r == [];
    } else {
      assert s[|a|] == m[0] && s[j - 1] == m[|m| - 1];
      SkipWhitespaceUnique(s, 0, |a|);
      assert |r| == |m|;
      assert r == s[|a|..j];
    }
  }

  /** `trim` is idempotent. */
  lemma TrimIdempotent(s: string)
    ensures Trim(Trim(s)) == Trim(s)
  {
  }

  /** A string that is whitespace only trims to the empty string. */
  lemma TrimAllWhitespace(s: string)
    requires AllWhitespace(s)
    ensures Trim(s) == ""
  {
  }
}
