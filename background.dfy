/**
 * Background.cs (InfiniteBackgroundScroller): three copies of the backdrop
 * stacked one background height apart. When the player climbs past the top
 * copy the bottom one is moved above it, and the other way round.
 */
module Backdrop {
  import opened Optional

  /** The three y positions and which slots are currently on top and at the bottom. */
  datatype Ring = Ring(pos: seq<real>, top: int, bottom: int)

  /** The slot between the top and the bottom one. */
  function Middle(top: int): int
  {
    (top + 2) % 3
  }

  /**
   * A well-formed ring: three slots, the bottom slot follows the top one
   * round the ring, and the copies are stacked exactly h apart.
   */
  predicate Stacked(r: Ring, h: real)
  {
    |r.pos| == 3 && 0 <= r.top < 3 && r.bottom == (r.top + 1) % 3
    && r.pos[r.bottom] + h == r.pos[Middle(r.top)]
    && r.pos[Middle(r.top)] + h == r.pos[r.top]
  }

  /** MoveBottomToTop on values: the bottom copy goes one height above the top one. */
  function BottomToTop(r: Ring, h: real): Ring
    requires |r.pos| == 3 && 0 <= r.top < 3 && 0 <= r.bottom < 3
  {
    Ring(r.pos[r.bottom := r.pos[r.top] + h], r.bottom, (r.bottom + 1) % 3)
  }

  /** MoveTopToBottom on values: the top copy goes one height below the bottom one. */
  function TopToBottom(r: Ring, h: real): Ring
    requires |r.pos| == 3 && 0 <= r.top < 3 && 0 <= r.bottom < 3
  {
    Ring(r.pos[r.top := r.pos[r.bottom] - h], (r.top - 1 + 3) % 3, r.top)
  }

  /** Moving the bottom copy up keeps the ring stacked and lifts every slot's role by h. */
  lemma BottomToTopStacked(r: Ring, h: real)
    requires Stacked(r, h)
    ensures Stacked(BottomToTop(r, h), h)
    ensures BottomToTop(r, h).pos[BottomToTop(r, h).top] == r.pos[r.top] + h
    ensures BottomToTop(r, h).pos[BottomToTop(r, h).bottom] == r.pos[r.bottom] + h
  {
    var t := r.top;
    if t == 0 {
      assert r.bottom == 1 && Middle(t) == 2 && (t - 1 + 3) % 3 == 2 && (r.bottom + 1) % 3 == 2;
    } else if t == 1 {
      assert r.bottom == 2 && Middle(t) == 0 && (t - 1 + 3) % 3 == 0 && (r.bottom + 1) % 3 == 0;
    } else {
      assert r.bottom == 0 && Middle(t) == 1 && (t - 1 + 3) % 3 == 1 && (r.bottom + 1) % 3 == 1;
    }
  }

  /** Moving the top copy down keeps the ring stacked and lowers every slot's role by h. */
  lemma TopToBottomStacked(r: Ring, h: real)
    requires Stacked(r, h)
    ensures Stacked(TopToBottom(r, h), h)
    ensures TopToBottom(r, h).pos[TopToBottom(r, h).top] == r.pos[r.top] - h
    ensures TopToBottom(r, h).pos[TopToBottom(r, h).bottom] == r.pos[r.bottom] - h
  {
    var t := r.top;
    if t == 0 {
      assert r.bottom == 1 && Middle(t) == 2 && (t - 1 + 3) % 3 == 2 && (r.bottom + 1) % 3 == 2;
    } else if t == 1 {
      assert r.bottom == 2 && Middle(t) == 0 && (t - 1 + 3) % 3 == 0 && (r.bottom + 1) % 3 == 0;
    } else {
      assert r.bottom == 0 && Middle(t) == 1 && (t - 1 + 3) % 3 == 1 && (r.bottom + 1) % 3 == 1;
    }
  }

  /** A move up followed by a move down puts every copy and both indices back. */
  lemma UpThenDownRestores(r: Ring, h: real)
    requires Stacked(r, h)
    ensures TopToBottom(BottomToTop(r, h), h) == r
  {
    var t := r.top;
    if t == 0 {
      assert r.bottom == 1 && Middle(t) == 2 && (t - 1 + 3) % 3 == 2 && (r.bottom + 1) % 3 == 2;
    } else if t == 1 {
      assert r.bottom == 2 && Middle(t) == 0 && (t - 1 + 3) % 3 == 0 && (r.bottom + 1) % 3 == 0;
    } else {
      assert r.bottom == 0 && Middle(t) == 1 && (t - 1 + 3) % 3 == 1 && (r.bottom + 1) % 3 == 1;
    }
  }

  /** A move down followed by a move up puts every copy and both indices back. */
  lemma DownThenUpRestores(r: Ring, h: real)
    requires Stacked(r, h)
    ensures BottomToTop(TopToBottom(r, h), h) == r
  {
    var t := r.top;
    if t == 0 {
      assert r.bottom == 1 && Middle(t) == 2 && (t - 1 + 3) % 3 == 2 && (r.bottom + 1) % 3 == 2;
    } else if t == 1 {
      assert r.bottom == 2 && Middle(t) == 0 && (t - 1 + 3) % 3 == 0 && (r.bottom + 1) % 3 == 0;
    } else {
      assert r.bottom == 0 && Middle(t) == 1 && (t - 1 + 3) % 3 == 1 && (r.bottom + 1) % 3 == 1;
    }
  }

  class InfiniteBackgroundScroller {
    const backgroundHeight: real
    /**
     * The y positions of the three copies; x and z never change. Null when
     * Start found no player and returned before creating them.
     */
    const backgrounds: array?<real>
    var topIndex: int
    var bottomIndex: int
    /** Written by Start and never read. */
    var thresholdY: real

    ghost function State(): Ring
      requires backgrounds != null
      reads this, backgrounds
    {
      Ring(backgrounds[..], topIndex, bottomIndex)
    }

    /** Start ran to the end and the three copies are stacked one height apart. */
    ghost predicate Valid()
      reads this, backgrounds
    {
      backgrounds != null && Stacked(State(), backgroundHeight)
    }

    /**
     * Start. Without a player transform it returns at once: no copies, the
     * indices and the threshold keep their defaults. With a player at
     * height `playerY`, the original copy stays in slot 1, a copy one height
     * above goes to slot 2 (the top), one below to slot 0 (the bottom).
     */
    constructor (backgroundHeight: real, y0: real, player: Option<real>)
      ensures this.backgroundHeight == backgroundHeight
      ensures player.None? ==> backgrounds == null && topIndex == 0 && bottomIndex == 0 && thresholdY == 0.0
      ensures player.None? ==> !Valid()
      ensures player.Some? ==>
                backgrounds != null && fresh(backgrounds)
                && backgrounds[..] == [y0 - backgroundHeight, y0, y0 + backgroundHeight]
                && topIndex == 2 && bottomIndex == 0 && thresholdY == player.value
      ensures player.Some? ==> Valid()
    {
      this.backgroundHeight := backgroundHeight;
      if player.None? {
        backgrounds := null;
        topIndex := 0;
        bottomIndex := 0;
        thresholdY := 0.0;
      } else {
        var a := new real[3];
        a[1] := y0;
        a[2] := y0 + backgroundHeight;
        a[0] := y0 - backgroundHeight;
        backgrounds := a;
        topIndex := 2;
        bottomIndex := 0;
        thresholdY := player.value;
      }
    }

    /** The bottom copy moves one height above the top one and becomes the top. */
    method MoveBottomToTop()
      requires Valid()
      modifies this`topIndex, this`bottomIndex, backgrounds
      ensures Valid()
      ensures State() == BottomToTop(old(State()), backgroundHeight)
      ensures backgrounds[old(bottomIndex)] == old(backgrounds[topIndex]) + backgroundHeight
      ensures forall i :: 0 <= i < 3 && i != old(bottomIndex) ==> backgrounds[i] == old(backgrounds[i])
    {
      BottomToTopStacked(State(), backgroundHeight);
      backgrounds[bottomIndex] := backgrounds[topIndex] + backgroundHeight;
      topIndex := bottomIndex;
      bottomIndex := (bottomIndex + 1) % 3;
    }

    /** The top copy moves one height below the bottom one and becomes the bottom. */
    method MoveTopToBottom()
      requires Valid()
      modifies this`topIndex, this`bottomIndex, backgrounds
      ensures Valid()
      ensures State() == TopToBottom(old(State()), backgroundHeight)
      ensures backgrounds[old(topIndex)] == old(backgrounds[bottomIndex]) - backgroundHeight
      ensures forall i :: 0 <= i < 3 && i != old(topIndex) ==> backgrounds[i] == old(backgrounds[i])
    {
      TopToBottomStacked(State(), backgroundHeight);
      backgrounds[topIndex] := backgrounds[bottomIndex] - backgroundHeight;
      bottomIndex := topIndex;
      topIndex := (topIndex - 1 + 3) % 3;
    }

    /**
     * One frame: above half a height below the top copy, move up; else
     * below half a height above the bottom copy, move down; at most one move.
     */
    method Update(playerY: real)
      requires Valid()
      modifies this`topIndex, this`bottomIndex, backgrounds
      ensures Valid()
      ensures var s := old(State());
              var h := backgroundHeight;
              if playerY > s.pos[s.top] - h / 2.0 then State() == BottomToTop(s, h)
              else if playerY < s.pos[s.bottom] + h / 2.0 then State() == TopToBottom(s, h)
              else State() == s
    {
      if playerY > backgrounds[topIndex] - backgroundHeight / 2.0 {
        MoveBottomToTop();
      } else if playerY < backgrounds[bottomIndex] + backgroundHeight / 2.0 {
        MoveTopToBottom();
      }
    }
  }
}
