/** A node of the movement graph: a position and up to four neighbours, one
    per movement direction. Shared-ownership handles become nullable references; a
    neighbour that is set is the very node object passed in. */
module GridNodes {
  import opened Vectors

  /** The movement directions in enum order. A direction is an `int` so that
      values outside the enum can be passed, as a C++ enum allows. */
  const MoveRight: int := 0
  const MoveLeft: int := 1
  const MoveUp: int := 2
  const MoveDown: int := 3

  predicate IsDirection(d: int)
  {
    MoveRight <= d <= MoveDown
  }

  class Node {
    var Position: Vec3
    var right: Node?
    var left: Node?
    var top: Node?
    var bottom: Node?

    /** A fresh node at `position` with no neighbours. */
    constructor(position: Vec3)
      ensures Position == position
      ensures forall d :: GetNeighborNode(d) == null
    {
      Position := position;
      right, left, top, bottom := null, null, null, null;
    }

    /** The neighbour stored for a direction; up is the top neighbour and
        down the bottom one. Any other value gives null. */
    function GetNeighborNode(direction: int): (n: Node?)
      reads this
      ensures !IsDirection(direction) ==> n == null
      ensures n != null ==> n in {right, left, top, bottom}
    {
      if direction == MoveRight then right
      else if direction == MoveLeft then left
      else if direction == MoveUp then top
      else if direction == MoveDown then bottom
      else null
    }

    /** Each setter changes its own slot and nothing else: afterwards the
        node's own direction yields the new neighbour and every other
        direction yields what it yielded before. */
    method SetRightNeighbor(node: Node?)
      modifies this`right
      ensures GetNeighborNode(MoveRight) == node
      ensures forall d :: d != MoveRight ==> GetNeighborNode(d) == old(GetNeighborNode(d))
    {
      right := node;
    }

    method SetLeftNeighbor(node: Node?)
      modifies this`left
      ensures GetNeighborNode(MoveLeft) == node
      ensures forall d :: d != MoveLeft ==> GetNeighborNode(d) == old(GetNeighborNode(d))
    {
      left := node;
    }

    method SetTopNeighbor(node: Node?)
      modifies this`top
      ensures GetNeighborNode(MoveUp) == node
      ensures forall d :: d != MoveUp ==> GetNeighborNode(d) == old(GetNeighborNode(d))
    {
      top := node;
    }

    method SetBottomNeighbor(node: Node?)
      modifies this`bottom
      ensures GetNeighborNode(MoveDown) == node
      ensures forall d :: d != MoveDown ==> GetNeighborNode(d) == old(GetNeighborNode(d))
    {
      bottom := node;
    }
  }
}
