/** Shared vocabulary. A Go string or []byte is a `Bytes`: one char per byte. */
module Basics {
  type Bytes = string
  type Path = string
  type User = string

  datatype Option<+T> = None | Some(value: T)

  /** True if no newline occurs in the text. */
  predicate OneLine(s: Bytes) {
    '\n' !in s
  }

  /** The position of the first `c`, or the length of the text when there is none. */
  function IndexOf(s: Bytes, c: char): (i: nat)
    ensures i <= |s|
    ensures c !in s[..i]
    ensures i < |s| ==> s[i] == c
  {
    if s == "" || s[0] == c then 0
    else
      var i := IndexOf(s[1..], c) + 1;
      assert s[..i] == [s[0]] + s[1..][..i - 1];
      i
  }

  /** The first occurrence is where the text before it ends. */
  lemma IndexAfter(a: Bytes, c: char, b: Bytes)
    requires c !in a
    ensures IndexOf(a + [c] + b, c) == |a|
  {
    var s := a + [c] + b;
    if a == "" {
      assert s[0] == c;
    } else {
      assert s[0] == a[0] && s[1..] == a[1..] + [c] + b;
      IndexAfter(a[1..], c, b);
    }
  }
}
