/**
 * The string tests the routing policy is built from: JavaScript's
 * `String.prototype.startsWith` and `endsWith`, and the `:name` placeholders
 * of an Express path template.
 *
 * `IsPrefix`/`IsSuffix` are the reference definitions (slices of the
 * subject); `StartsWith`/`EndsWith` compare one character at a time, the way
 * the built-ins do, and their contracts tie them to the reference.
 */
module Text {

  /** `p` is a prefix of `s`. */
  predicate IsPrefix(p: string, s: string) {
    |p| <= |s| && s[..|p|] == p
  }

  /** `q` is a suffix of `s`. */
  predicate IsSuffix(q: string, s: string) {
    |q| <= |s| && s[|s| - |q|..] == q
  }

  /** `s.startsWith(p)`: compares from the front, one character at a time. */
  function StartsWith(s: string, p: string): (r: bool)
    ensures r <==> IsPrefix(p, s)
  {
    if |p| == 0 then true
    else if |s| == 0 then false
    else s[0] == p[0] && StartsWith(s[1..], p[1..])
  }

  /** `s.endsWith(q)`: compares from the back, one character at a time. */
  function EndsWith(s: string, q: string): (r: bool)
    ensures r <==> IsSuffix(q, s)
  {
    if |q| == 0 then true
    else if |s| == 0 then false
    else s[|s| - 1] == q[|q| - 1] && EndsWith(s[..|s| - 1], q[..|q| - 1])
  }

  /** A template that differs from `p` at some position of `p` does not start with `p`. */
  lemma DiffersAt(p: string, t: string, k: int)
    requires 0 <= k < |p| && k < |t| && t[k] != p[k]
    ensures !IsPrefix(p, t)
  {
  }

  /** A template starting with `p + q` starts with `p`. */
  lemma PrefixOfPrefix(p: string, q: string, t: string)
    requires IsPrefix(p + q, t)
    ensures IsPrefix(p, t)
  {
  }

  /**
   * The template `t` contains the placeholder `:n` as a whole path segment:
   * a '/' then ':' then the non-empty name `n`, which holds no '/', followed
   * by '/' or the end of the template. These are the names Express binds
   * into `req.params`.
   */
  predicate DeclaresParam(t: string, n: string) {
    exists k | 0 < k < |t| :: PlaceholderAt(t, n, k)
  }

  /** The segment `:n` starts at the ':' in position `k` of `t`. */
  predicate PlaceholderAt(t: string, n: string, k: int) {
    && 0 < k
    && 0 < |n| && '/' !in n
    && k + 1 + |n| <= |t|
    && t[k - 1] == '/'
    && t[k] == ':'
    && t[k + 1..k + 1 + |n|] == n
    && (k + 1 + |n| == |t| || t[k + 1 + |n|] == '/')
  }

  /** A placeholder's name is fixed by where its ':' stands, since no name holds '/'. */
  lemma PlaceholderUnique(t: string, n: string, m: string, k: int)
    requires PlaceholderAt(t, n, k) && PlaceholderAt(t, m, k)
    ensures n == m
  {
  }
}
