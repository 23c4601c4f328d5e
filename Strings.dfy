/** Go's strings.HasPrefix and the facts about resource-ID prefixes the client relies on. */
module Strings {

  /** strings.HasPrefix(s, prefix): s is the prefix followed by something. */
  predicate HasPrefix(s: string, prefix: string)
    ensures HasPrefix(s, prefix) <==> exists rest :: s == prefix + rest
  {
    var b := |prefix| <= |s| && s[..|prefix|] == prefix;
    assert b ==> s == prefix + s[|prefix|..];
    b
  }

  /** Every string that starts with the prefix is accepted, whatever follows it. */
  lemma PrefixOfConcat(prefix: string, rest: string)
    ensures HasPrefix(prefix + rest, prefix)
  {
    assert (prefix + rest)[..|prefix|] == prefix;
  }

  /** Two prefixes of the same length that differ cannot both start one string. */
  lemma PrefixesExclusive(s: string, p: string, q: string)
    requires |p| == |q| && p != q
    ensures !(HasPrefix(s, p) && HasPrefix(s, q))
  {
  }

  /** A string shorter than the prefix never has it; in particular the empty string has no non-empty prefix. */
  lemma ShortLacksPrefix(s: string, prefix: string)
    requires |s| < |prefix|
    ensures !HasPrefix(s, prefix)
  {
  }
}
