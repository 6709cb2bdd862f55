/**
 * The few JavaScript string primitives the plugin relies on, written out over
 * `seq<char>`: `trim`, `includes`, `endsWith`, and the comparison used to sort
 * file names.
 */
module JsStrings {

  /** A character that `String.prototype.trim` removes: ECMAScript WhiteSpace or LineTerminator. */
  predicate IsTrimmable(c: char) {
    var n := c as int;
    n == 0x09 || n == 0x0A || n == 0x0B || n == 0x0C || n == 0x0D || n == 0x20 ||
    n == 0xA0 || n == 0x1680 || (0x2000 <= n <= 0x200A) || n == 0x2028 || n == 0x2029 ||
    n == 0x202F || n == 0x205F || n == 0x3000 || n == 0xFEFF
  }

  predicate AllTrimmable(s: string) {
    forall k :: 0 <= k < |s| ==> IsTrimmable(s[k])
  }

  /** The index of the first character at or after `i` that `trim` keeps, or `|s|` when there is none. */
  function SkipLeading(s: string, i: nat): (j: nat)
    requires i <= |s|
    ensures i <= j <= |s|
    ensures forall k :: i <= k < j ==> IsTrimmable(s[k])
    ensures j == |s| || !IsTrimmable(s[j])
    decreases |s| - i
  {
    if i < |s| && IsTrimmable(s[i]) then SkipLeading(s, i + 1) else i
  }

  /** The index just past the last character before `j` (and at or after `lo`) that `trim` keeps, or `lo`. */
  function SkipTrailing(s: string, lo: nat, j: nat): (k: nat)
    requires lo <= j <= |s|
    ensures lo <= k <= j
    ensures forall m :: k <= m < j ==> IsTrimmable(s[m])
    ensures k == lo || !IsTrimmable(s[k - 1])
    decreases j
  {
    if lo < j && IsTrimmable(s[j - 1]) then SkipTrailing(s, lo, j - 1) else j
  }

  /** The number of whitespace characters `trim` drops from the front of `s`. */
  function LeadingWhitespace(s: string): nat
  {
    SkipLeading(s, 0)
  }

  /**
   * `String.prototype.trim`: the slice of `s` that starts after its leading
   * whitespace and ends before its trailing whitespace; it has whitespace on
   * neither end, and it is empty exactly when `s` holds nothing but whitespace.
   */
  function Trim(s: string): (r: string)
    ensures LeadingWhitespace(s) + |r| <= |s|
    ensures r == s[LeadingWhitespace(s)..LeadingWhitespace(s) + |r|]
    ensures forall k :: 0 <= k < LeadingWhitespace(s) ==> IsTrimmable(s[k])
    ensures forall k :: LeadingWhitespace(s) + |r| <= k < |s| ==> IsTrimmable(s[k])
    ensures r == [] || (!IsTrimmable(r[0]) && !IsTrimmable(r[|r| - 1]))
    ensures r == [] <==> AllTrimmable(s)
  {
    var i := SkipLeading(s, 0);
    var j := SkipTrailing(s, i, |s|);
    assert i == j ==> AllTrimmable(s);
    assert AllTrimmable(s) ==> i == |s|;
    s[i..j]
  }

  /** `s.endsWith(suffix)`. */
  predicate EndsWith(s: string, suffix: string) {
    |suffix| <= |s| && s[|s| - |suffix|..] == suffix
  }

  /** `s.includes(t)`: `t` occurs in `s` at some position (the empty string occurs everywhere). */
  predicate Includes(s: string, t: string)
    decreases |s|
  {
    t <= s || (|s| > 0 && Includes(s[1..], t))
  }

  /** If `s` includes `t`, it includes every prefix of `t`. */
  lemma {:induction false} IncludesPrefix(s: string, t: string, u: string)
    requires Includes(s, t) && u <= t
    ensures Includes(s, u)
    decreases |s|
  {
    if !(t <= s) {
      IncludesPrefix(s[1..], t, u);
    } else {
      assert u == s[..|u|];
    }
  }

  /**
   * The order the loader sorts file names in. `localeCompare` is locale-aware;
   * this model compares code points lexicographically.
   */
  predicate LexLe(a: string, b: string)
    decreases |a|
  {
    |a| == 0 || (|b| > 0 && (a[0] < b[0] || (a[0] == b[0] && LexLe(a[1..], b[1..]))))
  }

  /** Any two names are comparable, so sorting by `LexLe` is well defined. */
  lemma {:induction false} LexLeTotal(a: string, b: string)
    ensures LexLe(a, b) || LexLe(b, a)
    decreases |a|
  {
    if |a| > 0 && |b| > 0 && a[0] == b[0] {
      LexLeTotal(a[1..], b[1..]);
    }
  }

  /** The order is transitive, so a sorted list is sorted pair by pair, not only between neighbours. */
  lemma {:induction false} LexLeTrans(a: string, b: string, c: string)
    requires LexLe(a, b) && LexLe(b, c)
    ensures LexLe(a, c)
    decreases |a|
  {
    if |a| > 0 && a[0] == b[0] && b[0] == c[0] {
      LexLeTrans(a[1..], b[1..], c[1..]);
    }
  }
}
