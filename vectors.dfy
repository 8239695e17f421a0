/** The parts of Unity's Vector2 and Vector3 the scripts use. */
module Vectors {

  datatype Vec2 = Vec2(x: real, y: real)

  datatype Vec3 = Vec3(x: real, y: real, z: real)

  /** The squared Euclidean distance, the square of Vector2.Distance. */
  function Dist2(p: Vec2, q: Vec2): (d: real)
    ensures d >= 0.0
  {
    (p.x - q.x) * (p.x - q.x) + (p.y - q.y) * (p.y - q.y)
  }

  /**
   * `Vector2.Distance(p, q) < gap`, with both sides squared: a distance is
   * never negative, so no point is closer than a gap that is not positive.
   */
  predicate Closer(p: Vec2, q: Vec2, gap: real)
  {
    gap > 0.0 && Dist2(p, q) < gap * gap
  }

  /** The distance test does not depend on which point comes first. */
  lemma CloserSymmetric(p: Vec2, q: Vec2, gap: real)
    ensures Closer(p, q, gap) <==> Closer(q, p, gap)
  {
    assert (p.x - q.x) * (p.x - q.x) == (q.x - p.x) * (q.x - p.x);
    assert (p.y - q.y) * (p.y - q.y) == (q.y - p.y) * (q.y - p.y);
  }

  /** Two points that differ by at least `gap` along the x axis are not closer than `gap`. */
  lemma HorizontalSeparation(p: Vec2, q: Vec2, gap: real)
    requires gap >= 0.0 && (p.x - q.x >= gap || q.x - p.x >= gap)
    ensures !Closer(p, q, gap)
  {
    var dx, dy := p.x - q.x, p.y - q.y;
    assert dx * dx >= gap * gap by {
      if dx >= gap {
        assert dx * dx >= gap * dx >= gap * gap;
      } else {
        assert -dx >= gap;
        assert dx * dx == (-dx) * (-dx) >= gap * (-dx) >= gap * gap;
      }
    }
    assert dy * dy >= 0.0;
  }
}
