/** The bounding rectangle of a terrain mesh, taken over the world positions
    of its vertices after dropping every vertex whose x is NaN. */
module Bounds {
  import opened Geometry

  datatype Box = Box(xmin: real, xmax: real, ymin: real, ymax: real)

  /** `min` of an empty list raises: the only failure of the computation. */
  datatype BoxError = EmptyInput

  /** The positions whose x coordinate is a number, in their original order. */
  function Finite(world: seq<Point>): (r: seq<Point>)
    ensures |r| <= |world|
    ensures forall p :: p in r ==> p in world && p.x.Num?
    ensures forall i :: 0 <= i < |world| && world[i].x.Num? ==> world[i] in r
  {
    if world == [] then []
    else
      var init := world[..|world| - 1];
      var last := world[|world| - 1];
      assert forall i :: 0 <= i < |init| ==> init[i] == world[i];
      Finite(init) + (if last.x.Num? then [last] else [])
  }

  /** No position has a numeric x coordinate. */
  predicate NoFinite(world: seq<Point>) {
    forall i :: 0 <= i < |world| ==> world[i].x.NaN?
  }

  /** `box` is the tight axis-aligned rectangle of the positions with a
      numeric x: it contains each of them and each of its four sides is
      reached by one of them. */
  ghost predicate IsBoundingBox(box: Box, world: seq<Point>) {
    (forall i :: 0 <= i < |world| && world[i].x.Num? ==>
      box.xmin <= world[i].x.v <= box.xmax && box.ymin <= world[i].y <= box.ymax) &&
    (exists i :: 0 <= i < |world| && world[i].x == Num(box.xmin)) &&
    (exists i :: 0 <= i < |world| && world[i].x == Num(box.xmax)) &&
    (exists i :: 0 <= i < |world| && world[i].x.Num? && world[i].y == box.ymin) &&
    (exists i :: 0 <= i < |world| && world[i].x.Num? && world[i].y == box.ymax)
  }

  /** The smallest element, as Python's `min` over a non-empty list. */
  function SeqMin(s: seq<real>): (m: real)
    requires |s| > 0
    ensures m in s
    ensures forall k :: 0 <= k < |s| ==> m <= s[k]
  {
    if |s| == 1 then s[0]
    else
      var rest := SeqMin(s[1..]);
      assert forall k :: 1 <= k < |s| ==> s[k] == s[1..][k - 1];
      if s[0] <= rest then s[0] else rest
  }

  /** The largest element, as Python's `max` over a non-empty list. */
  function SeqMax(s: seq<real>): (m: real)
    requires |s| > 0
    ensures m in s
    ensures forall k :: 0 <= k < |s| ==> s[k] <= m
  {
    if |s| == 1 then s[0]
    else
      var rest := SeqMax(s[1..]);
      assert forall k :: 1 <= k < |s| ==> s[k] == s[1..][k - 1];
      if s[0] >= rest then s[0] else rest
  }

  /** The loop that fills the three coordinate lists with the positions whose
      x is not NaN. */
  method CollectFinite(world: seq<Point>) returns (xs: seq<real>, ys: seq<real>, zs: seq<real>)
    ensures |xs| == |ys| == |zs| == |Finite(world)|
    ensures forall k :: 0 <= k < |xs| ==> Finite(world)[k] == Point(Num(xs[k]), ys[k], zs[k])
  {
    xs, ys, zs := [], [], [];
    var i := 0;
    while i < |world|
      invariant 0 <= i <= |world|
      invariant |xs| == |ys| == |zs| == |Finite(world[..i])|
      invariant forall k :: 0 <= k < |xs| ==> Finite(world[..i])[k] == Point(Num(xs[k]), ys[k], zs[k])
    {
      var p := world[i];
      assert world[..i + 1][..i] == world[..i];
      if !p.x.NaN? {
        xs, ys, zs := xs + [p.x.v], ys + [p.y], zs + [p.z];
      }
      i := i + 1;
    }
    assert world[..i] == world;
  }

  /** The bounding rectangle, or `EmptyInput` when every x is NaN. */
  method ComputeBox(world: seq<Point>) returns (r: Result<Box, BoxError>)
    ensures r.Failure? <==> NoFinite(world)
    ensures r.Failure? ==> r.error == EmptyInput
    ensures r.Success? ==> IsBoundingBox(r.value, world)
  {
    var xs, ys, zs := CollectFinite(world);
    ghost var fin := Finite(world);
    if |xs| == 0 {
      return Failure(EmptyInput);
    }
    assert fin[0] in world;
    var box := Box(SeqMin(xs), SeqMax(xs), SeqMin(ys), SeqMax(ys));
    r := Success(box);
  }

  /** A set of positions has at most one bounding rectangle. */
  lemma BoundingBoxUnique(world: seq<Point>, b1: Box, b2: Box)
    requires IsBoundingBox(b1, world) && IsBoundingBox(b2, world)
    ensures b1 == b2
  {
  }
}
