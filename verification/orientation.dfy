/** Face-orientation predicates of the terrain step: a face is "going up",
    "going down" or "going side" according to the dot product of its normal
    with the vertical axis. */
module Orientation {
  import opened Geometry

  const UpAxis := Vec3(0.0, 0.0, 1.0)
  const DownAxis := Vec3(0.0, 0.0, -1.0)

  /** Default limit of the up/down tests. */
  const DirectionLimit: real := 0.5
  /** Default limit of the side test (deliberately different from the above). */
  const SideLimit: real := 0.2

  /** Holds when `normal` points into `direction` by more than `limit`. */
  function NormalInDirection(normal: Vec3, direction: Vec3, limit: real := DirectionLimit): (r: bool)
    ensures r <==> Dot(Opposite(direction), normal) < -limit
  {
    var d := direction;
    assert Dot(Opposite(d), normal) == -(d.x * normal.x) - d.y * normal.y - d.z * normal.z;
    Dot(direction, normal) > limit
  }

  function Opposite(d: Vec3): Vec3 {
    Vec3(-d.x, -d.y, -d.z)
  }

  /** With a non-negative limit a normal never points into a direction and
      into its opposite at once. */
  lemma OppositeDirectionsExclusive(normal: Vec3, direction: Vec3, limit: real)
    requires limit >= 0.0
    ensures !(NormalInDirection(normal, direction, limit) && NormalInDirection(normal, Opposite(direction), limit))
  {
    var d := direction;
    assert Dot(Opposite(d), normal) == -(d.x * normal.x) - d.y * normal.y - d.z * normal.z;
  }

  /** The dot product with (0,0,1) is the z component of the normal. */
  function GoingUp(normal: Vec3, limit: real := DirectionLimit): (r: bool)
    ensures r <==> normal.z > limit
  {
    NormalInDirection(normal, UpAxis, limit)
  }

  /** The dot product with (0,0,-1) is the negated z component. */
  function GoingDown(normal: Vec3, limit: real := DirectionLimit): (r: bool)
    ensures r <==> -normal.z > limit
  {
    NormalInDirection(normal, DownAxis, limit)
  }

  /** Neither up nor down, both tested at the side limit: the normal lies in
      the closed band -limit <= z <= limit. */
  function GoingSide(normal: Vec3, limit: real := SideLimit): (r: bool)
    ensures r <==> -limit <= normal.z <= limit
  {
    !GoingUp(normal, limit) && !GoingDown(normal, limit)
  }

  /** With a non-negative limit a normal cannot point both up and down. */
  lemma UpDownExclusive(normal: Vec3, limit: real)
    requires limit >= 0.0
    ensures !(GoingUp(normal, limit) && GoingDown(normal, limit))
  {
    OppositeDirectionsExclusive(normal, UpAxis, limit);
  }

  /** At the side limit every normal gets exactly one of the three labels. */
  lemma ExactlyOneLabel(normal: Vec3)
    ensures GoingUp(normal, SideLimit) ==> !GoingDown(normal, SideLimit) && !GoingSide(normal)
    ensures GoingDown(normal, SideLimit) ==> !GoingUp(normal, SideLimit) && !GoingSide(normal)
    ensures GoingSide(normal) ==> !GoingUp(normal, SideLimit) && !GoingDown(normal, SideLimit)
    ensures GoingUp(normal, SideLimit) || GoingDown(normal, SideLimit) || GoingSide(normal)
  {
  }

  /** The label depends on the normal only through its z component. */
  lemma LabelDependsOnlyOnZ(n1: Vec3, n2: Vec3, limit: real)
    requires n1.z == n2.z
    ensures GoingUp(n1, limit) == GoingUp(n2, limit)
    ensures GoingDown(n1, limit) == GoingDown(n2, limit)
    ensures GoingSide(n1, limit) == GoingSide(n2, limit)
  {
  }

  /** The axis-aligned normals and the degenerate zero normal. */
  lemma AxisNormals()
    ensures GoingUp(Vec3(0.0, 0.0, 1.0)) && !GoingSide(Vec3(0.0, 0.0, 1.0))
    ensures GoingDown(Vec3(0.0, 0.0, -1.0)) && !GoingSide(Vec3(0.0, 0.0, -1.0))
    ensures GoingSide(Vec3(1.0, 0.0, 0.0)) && !GoingUp(Vec3(1.0, 0.0, 0.0)) && !GoingDown(Vec3(1.0, 0.0, 0.0))
    ensures GoingSide(Vec3(0.0, 0.0, 0.0))
  {
    var up, down, east, zero := Vec3(0.0, 0.0, 1.0), Vec3(0.0, 0.0, -1.0), Vec3(1.0, 0.0, 0.0), Vec3(0.0, 0.0, 0.0);
    assert GoingUp(up) && !GoingSide(up);
    assert GoingDown(down) && !GoingSide(down);
    assert GoingSide(east) && !GoingUp(east) && !GoingDown(east);
    assert GoingSide(zero);
  }

  /** Because the side test uses 0.2 and the up/down tests default to 0.5, a
      normal whose |z| lies in (0.2, 0.5] carries none of the three default
      labels. */
  lemma DefaultLimitsLeaveBand(normal: Vec3)
    requires SideLimit < normal.z <= DirectionLimit || -DirectionLimit <= normal.z < -SideLimit
    ensures !GoingUp(normal) && !GoingDown(normal) && !GoingSide(normal)
  {
  }
}
