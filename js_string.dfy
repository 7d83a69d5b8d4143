/**
 * The JavaScript string built-ins the application relies on, over `string` (a sequence of
 * characters): `indexOf`, `includes`, `substring`, `trim`, `startsWith`, `replace` with a
 * string pattern, `Array.prototype.join`, and the decimal rendering of a non-negative
 * integer inside a template literal.
 */
module JsString {

  // ---------------------------------------------------------------- occurrences

  /** `pat` occurs in `s` starting at index `j`. */
  predicate OccursAt(s: string, pat: string, j: int) {
    0 <= j && j + |pat| <= |s| && s[j..j + |pat|] == pat
  }

  /** `s.includes(pat)`. */
  predicate Contains(s: string, pat: string) {
    exists j :: 0 <= j <= |s| - |pat| && OccursAt(s, pat, j)
  }

  /** Search for the first occurrence of `pat` at an index of at least `k`. */
  function IndexFrom(s: string, pat: string, k: nat): (r: int)
    ensures r == -1 || (k <= r && OccursAt(s, pat, r))
    decreases |s| - k
  {
    if k + |pat| > |s| then -1
    else if s[k..k + |pat|] == pat then k
    else IndexFrom(s, pat, k + 1)
  }

  /** The search from `k` skips no occurrence. */
  lemma {:induction false} IndexFromIsFirst(s: string, pat: string, k: nat)
    ensures forall j :: k <= j && (IndexFrom(s, pat, k) == -1 || j < IndexFrom(s, pat, k)) ==> !OccursAt(s, pat, j)
    decreases |s| - k
  {
    if k + |pat| <= |s| && s[k..k + |pat|] != pat {
      IndexFromIsFirst(s, pat, k + 1);
    }
  }

  /** The search from `k` reports the first occurrence at or after `k`. */
  lemma {:induction false} IndexFromFinds(s: string, pat: string, k: nat, i: nat)
    requires k <= i && OccursAt(s, pat, i)
    requires forall j :: k <= j < i ==> !OccursAt(s, pat, j)
    ensures IndexFrom(s, pat, k) == i
    decreases i - k
  {
    if k < i {
      assert !OccursAt(s, pat, k);
      IndexFromFinds(s, pat, k + 1, i);
    }
  }

  /** `s.indexOf(pat)`: the index of the first occurrence of `pat`, or -1 when there is none. */
  function IndexOf(s: string, pat: string): (r: int)
    ensures r == -1 <==> !Contains(s, pat)
    ensures r != -1 ==> OccursAt(s, pat, r)
  {
    IndexFromIsFirst(s, pat, 0);
    IndexFrom(s, pat, 0)
  }

  /** No occurrence of `pat` starts before the index `indexOf` reports. */
  lemma IndexOfIsFirst(s: string, pat: string, j: int)
    requires 0 <= j && (IndexOf(s, pat) == -1 || j < IndexOf(s, pat))
    ensures !OccursAt(s, pat, j)
  {
    IndexFromIsFirst(s, pat, 0);
  }

  /** A proper prefix of `pat` that is also a suffix of it (a "border"). */
  predicate HasBorder(pat: string) {
    exists k :: 0 < k < |pat| && pat[..k] == pat[|pat| - k..]
  }

  /**
   * Where a border-free pattern first occurs in `x + pat + y` when `x` does not contain it:
   * right after `x`. (A border-free pattern cannot straddle the end of `x`.)
   */
  lemma {:induction false} IndexOfAfterPrefix(x: string, pat: string, y: string)
    requires |pat| > 0 && !HasBorder(pat) && !Contains(x, pat)
    ensures IndexOf(x + pat + y, pat) == |x|
  {
    var s := x + pat + y;
    assert OccursAt(s, pat, |x|) by {
      assert s[|x|..|x| + |pat|] == pat;
    }
    forall j | 0 <= j < |x|
      ensures !OccursAt(s, pat, j)
    {
      if j + |pat| <= |x| {
        assert x[j..j + |pat|] == s[j..j + |pat|];
        assert !OccursAt(x, pat, j);
      } else {
        // an occurrence starting inside x would end inside the copy at |x|: a border
        var k := j + |pat| - |x|;
        assert pat[..k] != pat[|pat| - k..];
        var i :| 0 <= i < k && pat[i] != pat[|pat| - k + i];
        assert s[|x| + i] == pat[i];
      }
    }
    IndexFromFinds(s, pat, 0, |x|);
  }

  /** An occurrence in a prefix is an occurrence in the whole string. */
  lemma OccursInPrefix(x: string, y: string, pat: string, j: int)
    requires OccursAt(x, pat, j)
    ensures OccursAt(x + y, pat, j)
  {
    assert (x + y)[j..j + |pat|] == x[j..j + |pat|];
  }

  /** `s.startsWith(p)`. */
  predicate StartsWith(s: string, p: string) {
    |p| <= |s| && s[..|p|] == p
  }

  /** A string that starts with `p` has an occurrence of `p` at 0, which is its first one. */
  lemma StartsWithIndexOf(s: string, p: string)
    requires StartsWith(s, p)
    ensures IndexOf(s, p) == 0
  {
    assert OccursAt(s, p, 0);
    IndexFromFinds(s, p, 0, 0);
  }

  /** `s.replace(pat, rep)` with a string pattern: only the first occurrence is replaced. */
  function ReplaceFirst(s: string, pat: string, rep: string): (r: string)
    ensures !Contains(s, pat) ==> r == s
    ensures Contains(s, pat) ==> |r| == |s| - |pat| + |rep|
    ensures Contains(s, pat) ==>
      exists i :: OccursAt(s, pat, i) && (forall j :: 0 <= j < i ==> !OccursAt(s, pat, j))
        && r == s[..i] + rep + s[i + |pat|..]
  {
    var i := IndexOf(s, pat);
    IndexFromIsFirst(s, pat, 0);
    if i == -1 then s else s[..i] + rep + s[i + |pat|..]
  }

  // ---------------------------------------------------------------- substring

  /** `ToIntegerOrInfinity` of an integer argument, clamped to `[0, len]`, as `substring` does. */
  function Clamp(i: int, len: nat): (r: nat)
    ensures r <= len
    ensures 0 <= i <= len ==> r == i
    ensures i < 0 ==> r == 0
    ensures i > len ==> r == len
  {
    if i < 0 then 0 else if i > len then len else i
  }

  /**
   * `s.substring(a, b)`: both indices are clamped to the string, and the smaller one is the
   * start, so the arguments may come in either order.
   */
  function Substring(s: string, a: int, b: int): (r: string)
    ensures 0 <= a <= b <= |s| ==> r == s[a..b]
    ensures 0 <= b <= a <= |s| ==> r == s[b..a]
    ensures a < 0 && 0 <= b <= |s| ==> r == s[..b]
    ensures b < 0 && 0 <= a <= |s| ==> r == s[..a]
    ensures a > |s| && 0 <= b <= |s| ==> r == s[b..]
    ensures b > |s| && 0 <= a <= |s| ==> r == s[a..]
    ensures a <= 0 && b >= |s| ==> r == s
    ensures (a <= 0 && b <= 0) || (a >= |s| && b >= |s|) ==> r == ""
    ensures |r| <= |s|
  {
    var lo := Clamp(a, |s|);
    var hi := Clamp(b, |s|);
    if lo <= hi then s[lo..hi] else s[hi..lo]
  }

  /** `substring` does not depend on the order of its two arguments. */
  lemma SubstringSymmetric(s: string, a: int, b: int)
    ensures Substring(s, a, b) == Substring(s, b, a)
  {
  }

  /** `s.substring(a)`: from the clamped start to the end of the string. */
  function SubstringFrom(s: string, a: int): (r: string)
    ensures 0 <= a <= |s| ==> r == s[a..]
    ensures a > |s| ==> r == ""
  {
    Substring(s, a, |s|)
  }

  // ---------------------------------------------------------------- trim

  /**
   * The characters `String.prototype.trim` removes: WhiteSpace and LineTerminator of the
   * ECMAScript language specification (tab, vertical tab, form feed, space, no-break space,
   * byte order mark, the space separators of category Zs, line feed, carriage return, line
   * separator and paragraph separator).
   */
  predicate IsWhitespace(c: char) {
    || '\t' <= c <= '\r'
    || c == ' ' || c == '\U{00A0}' || c == '\U{1680}'
    || '\U{2000}' <= c <= '\U{200A}'
    || c == '\U{2028}' || c == '\U{2029}' || c == '\U{202F}' || c == '\U{205F}'
    || c == '\U{3000}' || c == '\U{FEFF}'
  }

  /** Visible ASCII characters (letters, digits, punctuation) are not whitespace. */
  lemma VisibleAsciiNotWhitespace(c: char)
    requires '!' <= c <= '~'
    ensures !IsWhitespace(c)
  {
  }

  predicate AllWhitespace(s: string) {
    forall i :: 0 <= i < |s| ==> IsWhitespace(s[i])
  }

  /** Neither end of `s` is a whitespace character. */
  predicate Trimmed(s: string) {
    s == "" || (!IsWhitespace(s[0]) && !IsWhitespace(s[|s| - 1]))
  }

  /** A concatenation is all whitespace exactly when both parts are. */
  lemma AllWhitespaceConcat(a: string, b: string)
    ensures AllWhitespace(a + b) <==> AllWhitespace(a) && AllWhitespace(b)
  {
    if AllWhitespace(a + b) {
      forall i | 0 <= i < |a| ensures IsWhitespace(a[i]) {
        assert a[i] == (a + b)[i];
      }
      forall i | 0 <= i < |b| ensures IsWhitespace(b[i]) {
        assert b[i] == (a + b)[|a| + i];
      }
    }
  }

  /** The first index at or after `i` whose character is not whitespace, or `|s|`. */
  function SkipLeading(s: string, i: nat): (k: nat)
    requires i <= |s|
    ensures i <= k <= |s|
    ensures k < |s| ==> !IsWhitespace(s[k])
    decreases |s| - i
  {
    if i < |s| && IsWhitespace(s[i]) then SkipLeading(s, i + 1) else i
  }

  /** The index just past the last non-whitespace character in `s[lo..j]`, or `lo`. */
  function SkipTrailing(s: string, lo: nat, j: nat): (k: nat)
    requires lo <= j <= |s|
    ensures lo <= k <= j
    ensures lo < k ==> !IsWhitespace(s[k - 1])
    decreases j
  {
    if lo < j && IsWhitespace(s[j - 1]) then SkipTrailing(s, lo, j - 1) else j
  }

  lemma {:induction false} SkipLeadingSkipsWhitespace(s: string, i: nat)
    requires i <= |s|
    ensures forall m :: i <= m < SkipLeading(s, i) ==> IsWhitespace(s[m])
    decreases |s| - i
  {
    if i < |s| && IsWhitespace(s[i]) {
      SkipLeadingSkipsWhitespace(s, i + 1);
    }
  }

  lemma {:induction false} SkipTrailingSkipsWhitespace(s: string, lo: nat, j: nat)
    requires lo <= j <= |s|
    ensures forall m :: SkipTrailing(s, lo, j) <= m < j ==> IsWhitespace(s[m])
    decreases j
  {
    if lo < j && IsWhitespace(s[j - 1]) {
      SkipTrailingSkipsWhitespace(s, lo, j - 1);
    }
  }

  lemma {:induction false} SkipLeadingStopsAt(s: string, i: nat, k: nat)
    requires i <= k <= |s| && (k < |s| ==> !IsWhitespace(s[k]))
    requires forall m :: i <= m < k ==> IsWhitespace(s[m])
    ensures SkipLeading(s, i) == k
    decreases k - i
  {
    if i < k {
      SkipLeadingStopsAt(s, i + 1, k);
    }
  }

  lemma {:induction false} SkipTrailingStopsAt(s: string, lo: nat, k: nat, j: nat)
    requires lo < k <= j <= |s| && !IsWhitespace(s[k - 1])
    requires forall m :: k <= m < j ==> IsWhitespace(s[m])
    ensures SkipTrailing(s, lo, j) == k
    decreases j - k
  {
    if k < j {
      SkipTrailingStopsAt(s, lo, k, j - 1);
    }
  }

  /**
   * `s.trim()`: neither end of the result is whitespace, and the result is empty exactly
   * when `s` is made only of whitespace. `TrimIsInfix` locates it inside `s`.
   */
  function Trim(s: string): (r: string)
    ensures Trimmed(r)
    ensures |r| <= |s|
    ensures r == "" <==> AllWhitespace(s)
  {
    TrimEmptyIff(s);
    s[SkipLeading(s, 0)..SkipTrailing(s, SkipLeading(s, 0), |s|)]
  }

  lemma TrimEmptyIff(s: string)
    ensures var a := SkipLeading(s, 0); SkipTrailing(s, a, |s|) == a <==> AllWhitespace(s)
  {
    var a := SkipLeading(s, 0);
    var b := SkipTrailing(s, a, |s|);
    if b == a {
      SkipLeadingSkipsWhitespace(s, 0);
      SkipTrailingSkipsWhitespace(s, a, |s|);
    } else {
      assert !IsWhitespace(s[a]);
    }
  }

  /** The trimmed string is the part of `s` between a whitespace prefix and a whitespace suffix. */
  lemma TrimIsInfix(s: string) returns (i: nat)
    ensures i + |Trim(s)| <= |s| && s[i..i + |Trim(s)|] == Trim(s)
    ensures AllWhitespace(s[..i]) && AllWhitespace(s[i + |Trim(s)|..])
  {
    i := SkipLeading(s, 0);
    var b := SkipTrailing(s, i, |s|);
    assert Trim(s) == s[i..b];
    SkipLeadingSkipsWhitespace(s, 0);
    SkipTrailingSkipsWhitespace(s, i, |s|);
    assert forall m :: 0 <= m < |s[b..]| ==> s[b..][m] == s[b + m];
  }

  /** `s.trim()` is falsy: by the contract of `Trim`, `s` is empty or made only of whitespace. */
  predicate IsBlank(s: string) {
    AllWhitespace(s)
  }

  /** A text with whitespace only around a non-empty trimmed middle trims to that middle. */
  lemma TrimOfPadded(p: string, m: string, q: string)
    requires AllWhitespace(p) && AllWhitespace(q) && m != "" && Trimmed(m)
    ensures Trim(p + m + q) == m
  {
    var x := p + m + q;
    assert x[|p|] == m[0] && x[|p| + |m| - 1] == m[|m| - 1];
    assert forall k :: 0 <= k < |p| ==> x[k] == p[k];
    SkipLeadingStopsAt(x, 0, |p|);
    assert forall k :: |p| + |m| <= k < |x| ==> x[k] == q[k - |p| - |m|];
    SkipTrailingStopsAt(x, |p|, |p| + |m|, |x|);
    assert x[|p|..|p| + |m|] == m;
  }

  /** Trimming a string that has no whitespace at either end leaves it as it is. */
  lemma TrimOfTrimmed(s: string)
    requires Trimmed(s)
    ensures Trim(s) == s
  {
    if s != "" {
      assert "" + s + "" == s;
      TrimOfPadded("", s, "");
    }
  }

  /** Trimming twice is trimming once. */
  lemma TrimIdempotent(s: string)
    ensures Trim(Trim(s)) == Trim(s)
  {
    TrimOfTrimmed(Trim(s));
  }

  /** Whitespace on either side does not change the trimmed value. */
  lemma TrimPadded(l: string, s: string, r: string)
    requires AllWhitespace(l) && AllWhitespace(r)
    ensures Trim(l + s + r) == Trim(s)
  {
    if AllWhitespace(s) {
      AllWhitespaceConcat(l, s);
      AllWhitespaceConcat(l + s, r);
    } else {
      var i := TrimIsInfix(s);
      var m := Trim(s);
      var p, q := s[..i], s[i + |m|..];
      assert s == p + m + q;
      AllWhitespaceConcat(l, p);
      AllWhitespaceConcat(q, r);
      Regroup(l, s, r, p, m, q);
      TrimOfPadded(l + p, m, q + r);
    }
  }

  lemma Regroup(l: string, s: string, r: string, p: string, m: string, q: string)
    requires s == p + m + q
    ensures l + s + r == (l + p) + m + (q + r)
  {
  }

  // ---------------------------------------------------------------- join

  /** `parts.join(sep)`. */
  function Join(parts: seq<string>, sep: string): (r: string)
    ensures parts == [] ==> r == ""
    ensures |parts| == 1 ==> r == parts[0]
  {
    if |parts| == 0 then ""
    else if |parts| == 1 then parts[0]
    else parts[0] + sep + Join(parts[1..], sep)
  }

  /** Joining one more part appends the separator and that part. */
  lemma {:induction false} JoinSnoc(parts: seq<string>, x: string, sep: string)
    ensures Join(parts + [x], sep) == if parts == [] then x else Join(parts, sep) + sep + x
    decreases |parts|
  {
    if |parts| <= 1 {
      if |parts| == 1 {
        assert parts + [x] == [parts[0], x];
        assert [parts[0], x][1..] == [x];
      } else {
        assert parts + [x] == [x];
      }
    } else {
      assert (parts + [x])[1..] == parts[1..] + [x];
      JoinSnoc(parts[1..], x, sep);
    }
  }

  // ---------------------------------------------------------------- numbers

  /** The character of a decimal digit. */
  function DigitChar(d: nat): (c: char)
    requires d < 10
    ensures '0' <= c <= '9'
  {
    "0123456789"[d]
  }

  function DigitValue(c: char): (d: nat)
    requires '0' <= c <= '9'
    ensures d < 10 && DigitChar(d) == c
  {
    (c as int - '0' as int) as nat
  }

  predicate AllDigits(s: string) {
    forall i :: 0 <= i < |s| ==> '0' <= s[i] <= '9'
  }

  /** `${n}` for a non-negative integer: its shortest decimal representation. */
  function NatToString(n: nat): (r: string)
    ensures |r| > 0 && AllDigits(r)
    ensures |r| > 1 ==> r[0] != '0'
  {
    if n < 10 then [DigitChar(n)] else NatToString(n / 10) + [DigitChar(n % 10)]
  }

  /** The value of a string of decimal digits. */
  function ParseNat(s: string): nat
    requires AllDigits(s)
  {
    if s == [] then 0 else ParseNat(s[..|s| - 1]) * 10 + DigitValue(s[|s| - 1])
  }

  /** Reading back the decimal rendering of `n` gives `n`. */
  lemma {:induction false} ParseNatToString(n: nat)
    ensures ParseNat(NatToString(n)) == n
  {
    var s := NatToString(n);
    if n < 10 {
      assert s[..|s| - 1] == [];
    } else {
      assert s[..|s| - 1] == NatToString(n / 10);
      ParseNatToString(n / 10);
    }
  }
}
