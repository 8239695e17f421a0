/**
 * Time stamps or heights recorded in increasing order with a minimum step
 * between neighbours: the rocket's shots and the generator's dangerous layers.
 */
module Spacing {

  /** Successive entries are at least `gap` apart: the history without its last entry is, and the last is `gap` above it. */
  ghost predicate SpacedBy(s: seq<real>, gap: real)
    decreases |s|
  {
    |s| < 2 || (SpacedBy(s[..|s| - 1], gap) && s[|s| - 2] + gap <= s[|s| - 1])
  }

  /** In a spaced history every entry is at least `gap` above the one before it, and conversely. */
  lemma {:induction false} SpacedByStep(s: seq<real>, gap: real)
    ensures SpacedBy(s, gap) <==> forall i :: 0 < i < |s| ==> s[i - 1] + gap <= s[i]
    decreases |s|
  {
    if |s| >= 2 {
      var init := s[..|s| - 1];
      SpacedByStep(init, gap);
      assert forall i :: 0 <= i < |init| ==> init[i] == s[i];
    }
  }

  /** Entries j - i places apart are at least j - i gaps apart. */
  lemma {:induction false} SpacedByAcross(s: seq<real>, gap: real, i: int, j: int)
    requires SpacedBy(s, gap)
    requires 0 <= i <= j < |s|
    ensures s[i] + (j - i) as real * gap <= s[j]
    decreases j - i
  {
    if i < j {
      SpacedByAcross(s, gap, i, j - 1);
      SpacedByStep(s, gap);
      assert s[j - 1] + gap <= s[j];
    }
  }

  /** Appending an entry at least `gap` above the last keeps the spacing. */
  lemma SpacedByAppend(s: seq<real>, gap: real, x: real)
    requires SpacedBy(s, gap)
    requires s != [] ==> s[|s| - 1] + gap <= x
    ensures SpacedBy(s + [x], gap)
  {
    assert (s + [x])[..|s|] == s;
  }
}
