/** Java string operations the engines rely on, over `seq<char>`. */
module Text {

  /** `toUpperCase` on ASCII letters. */
  function Upper(c: char): char
  {
    if 'a' <= c <= 'z' then (c as int - 32) as char else c
  }

  function UpperAll(s: string): (r: string)
    ensures |r| == |s| && forall i :: 0 <= i < |s| ==> r[i] == Upper(s[i])
  {
    seq(|s|, i requires 0 <= i < |s| => Upper(s[i]))
  }

  predicate HasPrefix(s: string, t: string)
  {
    |t| <= |s| && s[..|t|] == t
  }
}
