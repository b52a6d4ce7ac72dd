/** Collision-box geometry shared by the entity renderer and the stand-alone
    sprite: a box collider is an offset and a size relative to the sprite's
    quad, and its debug outline is a closed five-point polyline. */
module Colliders {
  import opened Vectors

  /** The box in world space: its centre and its full extent. */
  datatype ColliderData = ColliderData(WorldOrigin: Vec2, WorldSize: Vec2)

  /** The collider's centre is the pivot point of the quad (position plus
      size times pivot) moved by the collider's own offset; its extent is the
      quad's size scaled component-wise by the collider's relative size. */
  function WorldCollider(position: Vec2, size: Vec2, pivot: Vec2, offset: Vec2, relativeSize: Vec2): (d: ColliderData)
    ensures Sub(d.WorldOrigin, offset) == Add(position, Mul(size, pivot))
    ensures d.WorldSize == Mul(size, relativeSize)
    ensures offset == Zero2 && relativeSize == Vec2(1.0, 1.0) ==>
      d.WorldSize == size && d.WorldOrigin == Add(position, Mul(size, pivot))
  {
    ColliderData(Add(Add(position, Mul(size, pivot)), offset), Mul(size, relativeSize))
  }

  /** The outline of the axis-aligned box with the given centre and extent:
      four corners visited (-,-), (-,+), (+,+), (+,-) and the first corner
      repeated to close the loop. Consecutive corners share one coordinate,
      opposite corners are one extent apart and average to the centre, which
      fixes every point. */
  function BoxOutline(d: ColliderData): (pts: seq<Vec2>)
    ensures |pts| == 5 && pts[4] == pts[0]
    ensures pts[0].x == pts[1].x && pts[1].y == pts[2].y && pts[2].x == pts[3].x && pts[3].y == pts[0].y
    ensures pts[2].x - pts[0].x == d.WorldSize.x && pts[1].y - pts[0].y == d.WorldSize.y
    ensures pts[0].x + pts[2].x == 2.0 * d.WorldOrigin.x && pts[0].y + pts[1].y == 2.0 * d.WorldOrigin.y
  {
    var o := d.WorldOrigin;
    var s := d.WorldSize;
    [ Vec2(o.x - s.x * 0.5, o.y - s.y * 0.5),
      Vec2(o.x - s.x * 0.5, o.y + s.y * 0.5),
      Vec2(o.x + s.x * 0.5, o.y + s.y * 0.5),
      Vec2(o.x + s.x * 0.5, o.y - s.y * 0.5),
      Vec2(o.x - s.x * 0.5, o.y - s.y * 0.5) ]
  }

  /** With the default collider (no offset, relative size one) and a centred
      pivot, the outline runs exactly along the drawn quad, whose corners are
      the position and the position plus the size. */
  lemma DefaultOutlineIsQuad(position: Vec2, size: Vec2)
    ensures var pts := BoxOutline(WorldCollider(position, size, Vec2(0.5, 0.5), Zero2, Vec2(1.0, 1.0)));
      pts[0] == position && pts[2] == Add(position, size)
      && pts[1] == Vec2(position.x, position.y + size.y) && pts[3] == Vec2(position.x + size.x, position.y)
  {
  }
}
