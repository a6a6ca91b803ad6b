/**
 * The JavaScript string operations the router relies on:
 * `startsWith`, `split('/')` and `Array.prototype.pop` on the pieces.
 */
module JsString {

  /** `s.startsWith(prefix)` */
  predicate StartsWith(s: string, prefix: string) {
    |prefix| <= |s| && s[..|prefix|] == prefix
  }

  /**
   * `s.split('/')`: the pieces between separators, in order. The result is
   * never empty ("".split('/') is [""]), no piece holds a separator, and a
   * string without separators splits into itself alone.
   */
  function Split(s: string): (parts: seq<string>)
    ensures |parts| >= 1
    ensures forall i :: 0 <= i < |parts| ==> '/' !in parts[i]
    ensures '/' !in s ==> parts == [s]
    ensures '/' in s ==> |parts| >= 2
  {
    if s == [] then [""]
    else if s[0] == '/' then [""] + Split(s[1..])
    else
      var rest := Split(s[1..]);
      assert s == [s[0]] + s[1..];
      [[s[0]] + rest[0]] + rest[1..]
  }

  /** `parts.join('/')`, the inverse of `Split`. */
  function Join(parts: seq<string>): string
    requires |parts| >= 1
  {
    if |parts| == 1 then parts[0] else parts[0] + "/" + Join(parts[1..])
  }

  /** `parts.pop()` on a non-empty array: its last element. */
  function Last(parts: seq<string>): string
    requires |parts| >= 1
  {
    parts[|parts| - 1]
  }

  /** Splitting loses nothing: joining the pieces gives the string back. */
  lemma {:induction false} JoinSplit(s: string)
    ensures Join(Split(s)) == s
  {
    if s == [] {
    } else if s[0] == '/' {
      JoinSplit(s[1..]);
      assert s == "/" + s[1..];
    } else {
      JoinSplit(s[1..]);
      var rest := Split(s[1..]);
      if |rest| == 1 {
        assert s == [s[0]] + rest[0];
      } else {
        assert Join(rest) == rest[0] + "/" + Join(rest[1..]);
        assert s == [s[0]] + rest[0] + "/" + Join(rest[1..]);
      }
    }
  }

  /** The last piece of `a/b` is the last piece of `b`, whatever `a` is. */
  lemma {:induction false} LastSplitAfterSeparator(a: string, b: string)
    ensures Last(Split(a + "/" + b)) == Last(Split(b))
  {
    var s := a + "/" + b;
    if a == [] {
      assert s[1..] == b;
    } else {
      assert s[1..] == a[1..] + "/" + b;
      LastSplitAfterSeparator(a[1..], b);
      assert '/' in s[1..] by { assert s[1..][|a| - 1] == '/'; }
    }
  }
}
