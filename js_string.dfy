/**
 * The parts of JavaScript's String.prototype that the encoder's key derivation relies on:
 * indexOf and lastIndexOf with a one-character search string (returning -1 for "not found"),
 * and substring, which clamps each argument into [0, length] and swaps them when start > end.
 */
module JsString {

  /** `s.indexOf(c)`: the first position of `c` in `s`, or -1. */
  function IndexOf(s: string, c: char): (r: int)
    ensures -1 <= r < |s|
    ensures r == -1 <==> c !in s
    ensures r >= 0 ==> s[r] == c && c !in s[..r]
  {
    if |s| == 0 then -1
    else if s[0] == c then 0
    else
      var tail := s[1..];
      var i := IndexOf(tail, c);
      assert s == [s[0]] + tail;
      if i == -1 then -1
      else
        assert s[..i + 1] == [s[0]] + tail[..i];
        i + 1
  }

  /** `s.lastIndexOf(c)`: the last position of `c` in `s`, or -1. */
  function LastIndexOf(s: string, c: char): (r: int)
    ensures -1 <= r < |s|
    ensures r == -1 <==> c !in s
    ensures r >= 0 ==> s[r] == c && c !in s[r + 1..]
  {
    if |s| == 0 then -1
    else if s[|s| - 1] == c then |s| - 1
    else
      var init := s[..|s| - 1];
      var i := LastIndexOf(init, c);
      assert s == init + [s[|s| - 1]];
      if i == -1 then -1
      else
        assert s[i + 1..] == init[i + 1..] + [s[|s| - 1]];
        i
  }

  /** An argument of substring, clamped into [0, len]. */
  function Clamp(i: int, len: nat): (r: nat)
    ensures r <= len
    ensures 0 <= i <= len ==> r == i
  {
    if i < 0 then 0 else if i > len then len else i
  }

  /** `s.substring(start, end)`. */
  function Substring(s: string, start: int, end: int): (r: string)
    ensures |r| <= |s|
    ensures 0 <= start <= end <= |s| ==> r == s[start..end]
    ensures 0 <= end <= start <= |s| ==> r == s[end..start]
    ensures end < 0 && 0 <= start <= |s| ==> r == s[..start]
  {
    var a, b := Clamp(start, |s|), Clamp(end, |s|);
    if a <= b then s[a..b] else s[b..a]
  }

  /** `s.substring(start)`, the one-argument form, which runs to the end of `s`. */
  function SubstringFrom(s: string, start: int): (r: string)
    ensures 0 <= start <= |s| ==> r == s[start..]
    ensures start <= 0 ==> r == s
  {
    Substring(s, start, |s|)
  }
}
