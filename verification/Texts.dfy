/** The part of lower() that language codes, tag names and attribute names can depend on. */
module Texts {
  function LowerChar(c: char): (r: char)
    ensures !('A' <= r <= 'Z') && (r == c || 'a' <= r <= 'z')
  {
    if 'A' <= c <= 'Z' then (c as int + 32) as char else c
  }

  function Lower(s: string): (r: string)
    ensures |r| == |s| && forall i :: 0 <= i < |s| ==> r[i] == LowerChar(s[i])
  {
    seq(|s|, i requires 0 <= i < |s| => LowerChar(s[i]))
  }
}
