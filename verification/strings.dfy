/** Searching in strings. */
module Strings {

  /** The first position of c in s, or -1. */
  function IndexOf(s: string, c: char): (i: int)
    ensures -1 <= i < |s|
    ensures 0 <= i ==> s[i] == c
    ensures forall k :: 0 <= k < (if i < 0 then |s| else i) ==> s[k] != c
  {
    if s == "" then -1
    else if s[0] == c then 0
    else var i := IndexOf(s[1..], c); if i < 0 then -1 else i + 1
  }

  lemma IndexIs(s: string, c: char, i: nat)
    requires i < |s| && s[i] == c && (forall k :: 0 <= k < i ==> s[k] != c)
    ensures IndexOf(s, c) == i
  {
  }
}
