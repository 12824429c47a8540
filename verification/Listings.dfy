/**
 Listings of a set of strings: what an iteration over a Go map, whose order is left open, visits.
 */
module Listings {

  ghost predicate NoRepeats(s: seq<string>) {
    forall i, j | 0 <= i < j < |s| :: s[i] != s[j]
  }

  /** `s` lists exactly the members of `elements`. */
  ghost predicate Lists(s: seq<string>, elements: set<string>) {
    forall x :: x in s <==> x in elements
  }

  lemma ConcatNoRepeats(s: seq<string>, t: seq<string>)
    requires NoRepeats(s) && NoRepeats(t) && forall x | x in s :: x !in t
    ensures NoRepeats(s + t)
  {
    forall i, j | 0 <= i < j < |s + t|
      ensures (s + t)[i] != (s + t)[j]
    {
      assert j >= |s| ==> (s + t)[j] in t;
    }
  }

  /** Some listing without repeats. */
  ghost function Listing(elements: set<string>): (s: seq<string>)
    ensures NoRepeats(s) && Lists(s, elements)
  {
    if elements == {} then [] else
    var x :| x in elements;
    [x] + Listing(elements - {x})
  }
}
