/** Two facts about the beginnings and ends of equal strings. */
module Strings {

  lemma ShorterBegins(p: string, x: string, q: string, y: string)
    requires p + x == q + y && |p| <= |q|
    ensures p <= q
  {
    assert p == (p + x)[..|p|] && q[..|p|] == (q + y)[..|p|];
  }

  lemma TailsEqual(p: string, x: string, y: string)
    requires p + x == p + y
    ensures x == y
  {
    assert x == (p + x)[|p|..] && y == (p + y)[|p|..];
  }
}
