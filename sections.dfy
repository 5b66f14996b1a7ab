// The fixed, ordered enumeration of page sections and the "next section"
// lookup that decides whether a section renders a "Next" control.
module Sections {
  import opened Wrappers

  datatype Section = Hero | Story | Special | Letter | Forever

  /** The display order of the sections, as the component's constant array. */
  const Order: seq<Section> := [Hero, Story, Special, Letter, Forever]

  /** Position of a section in the display order, defined independently of `Order`. */
  function Rank(s: Section): nat
  {
    match s
    case Hero => 0
    case Story => 1
    case Special => 2
    case Letter => 3
    case Forever => 4
  }

  predicate Distinct(xs: seq<Section>)
  {
    forall i, j :: 0 <= i < j < |xs| ==> xs[i] != xs[j]
  }

  /** Array `indexOf`: the first position of `x` in `xs`, or -1 when absent. */
  function IndexOf(xs: seq<Section>, x: Section): (i: int)
    ensures -1 <= i < |xs|
    ensures 0 <= i ==> xs[i] == x
    ensures forall k :: 0 <= k < |xs| && (i == -1 || k < i) ==> xs[k] != x
  {
    if |xs| == 0 then -1
    else if xs[0] == x then 0
    else
      var j := IndexOf(xs[1..], x);
      if j == -1 then -1 else j + 1
  }

  /** The section after `current` in the display order, or None for the last one. */
  function GetNextSection(current: Section): (r: Option<Section>)
    ensures r == None <==> current == Forever
    ensures r.Some? ==> Rank(r.value) == Rank(current) + 1
  {
    var currentIndex := IndexOf(Order, current);
    if currentIndex < |Order| - 1 then Some(Order[currentIndex + 1]) else None
  }

  /** In a sequence without repetitions, `indexOf` finds each element at its position. */
  lemma IndexOfDistinct(xs: seq<Section>, i: nat)
    requires Distinct(xs) && i < |xs|
    ensures IndexOf(xs, xs[i]) == i
  {
  }

  /**
   * The display order has no repetitions, so "Next" from the section at
   * position k leads to the one at position k + 1, and from the last to none.
   */
  lemma NextSectionWalk(k: nat)
    requires k < |Order|
    ensures Distinct(Order)
    ensures GetNextSection(Order[k]) == if k + 1 < |Order| then Some(Order[k + 1]) else None
  {
    assert Distinct(Order);
    IndexOfDistinct(Order, k);
  }
}
