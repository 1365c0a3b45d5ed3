/** The boundary drop pass of the terrain step: every vertex lying within the
    tolerance of one of the four sides of the bounding rectangle is selected
    and moved down to a fixed depth, so that the terrain patch gets a curtain
    ("skirt") around its rim. */
module Skirt {
  import opened Geometry
  import opened Bounds

  /** Half-width of the open band around each side (`tres`). */
  const Tolerance: real := 3.0
  /** The z coordinate given to every dropped vertex. */
  const SkirtDepth: real := -50.0

  /** A mesh vertex as the pass sees it: its local coordinates and its
      selection flag. */
  datatype MeshVertex = MeshVertex(co: Point, select: bool)

  /** The four sides, named after the bound they are measured from. */
  datatype Edge = XMin | YMin | XMax | YMax

  /** The order in which the if/elif chain tests the sides. */
  const SourceOrder: seq<Edge> := [XMin, YMin, XMax, YMax]

  /** `c` lies in the open interval (center - Tolerance, center + Tolerance);
      never when `c` is NaN. */
  predicate NearX(c: Float, center: real) {
    Lt(c, center + Tolerance) && Gt(c, center - Tolerance)
  }

  predicate NearY(c: real, center: real) {
    c < center + Tolerance && c > center - Tolerance
  }

  /** One branch condition of the chain. */
  predicate Near(co: Point, box: Box, e: Edge) {
    match e
    case XMin => NearX(co.x, box.xmin)
    case YMin => NearY(co.y, box.ymin)
    case XMax => NearX(co.x, box.xmax)
    case YMax => NearY(co.y, box.ymax)
  }

  /** The selection rule as a plain disjunction: the local position is
      strictly within the tolerance of xmin, ymin, xmax or ymax. */
  predicate OnBoundary(co: Point, box: Box) {
    NearX(co.x, box.xmin) || NearY(co.y, box.ymin) || NearX(co.x, box.xmax) || NearY(co.y, box.ymax)
  }

  /** What every branch of the chain does to a vertex. */
  function Dropped(v: MeshVertex): MeshVertex {
    v.(select := true).(co := v.co.(z := SkirtDepth))
  }

  /** The effect of the pass on one vertex. Only z and the selection flag can
      change, and they change exactly for the vertices on the boundary. */
  function Skirted(v: MeshVertex, box: Box): (r: MeshVertex)
    ensures r.co.x == v.co.x && r.co.y == v.co.y
    ensures r.select <==> v.select || OnBoundary(v.co, box)
    ensures OnBoundary(v.co, box) ==> r.co.z == SkirtDepth
    ensures !OnBoundary(v.co, box) ==> r == v
  {
    if OnBoundary(v.co, box) then Dropped(v) else v
  }

  /** The boundary pass over all vertices, in place, with the if/elif chain
      in the order of the source. */
  method DropBoundary(verts: array<MeshVertex>, box: Box)
    modifies verts
    ensures forall i :: 0 <= i < verts.Length ==> verts[i] == Skirted(old(verts[i]), box)
  {
    var i := 0;
    while i < verts.Length
      invariant 0 <= i <= verts.Length
      invariant forall k :: 0 <= k < i ==> verts[k] == Skirted(old(verts[k]), box)
      invariant forall k :: i <= k < verts.Length ==> verts[k] == old(verts[k])
    {
      var co := verts[i].co;
      if Lt(co.x, box.xmin + Tolerance) && Gt(co.x, box.xmin - Tolerance) {
        verts[i] := verts[i].(select := true);
        verts[i] := verts[i].(co := verts[i].co.(z := SkirtDepth));
      } else if co.y < box.ymin + Tolerance && co.y > box.ymin - Tolerance {
        verts[i] := verts[i].(select := true);
        verts[i] := verts[i].(co := verts[i].co.(z := SkirtDepth));
      } else if Lt(co.x, box.xmax + Tolerance) && Gt(co.x, box.xmax - Tolerance) {
        verts[i] := verts[i].(select := true);
        verts[i] := verts[i].(co := verts[i].co.(z := SkirtDepth));
      } else if co.y < box.ymax + Tolerance && co.y > box.ymax - Tolerance {
        verts[i] := verts[i].(select := true);
        verts[i] := verts[i].(co := verts[i].co.(z := SkirtDepth));
      }
      i := i + 1;
    }
  }

  /** A first-match chain that tests the sides in `order`. */
  function ElifChain(order: seq<Edge>, v: MeshVertex, box: Box): MeshVertex {
    if order == [] then v
    else if Near(v.co, box, order[0]) then Dropped(v)
    else ElifChain(order[1..], v, box)
  }

  /** A chain drops the vertex exactly when some tested side is near, since
      every branch does the same thing. */
  lemma {:induction false} ElifChainIsDisjunction(order: seq<Edge>, v: MeshVertex, box: Box)
    ensures ElifChain(order, v, box) ==
      if exists e :: e in order && Near(v.co, box, e) then Dropped(v) else v
  {
    if order != [] && !Near(v.co, box, order[0]) {
      ElifChainIsDisjunction(order[1..], v, box);
      assert forall e :: e in order ==> e == order[0] || e in order[1..];
    }
  }

  /** Any chain that tests all four sides, in whatever order, has the effect
      of the plain disjunction. */
  lemma ElifChainOrderIrrelevant(order: seq<Edge>, v: MeshVertex, box: Box)
    requires forall e: Edge :: e in order
    ensures ElifChain(order, v, box) == Skirted(v, box)
  {
    ElifChainIsDisjunction(order, v, box);
    assert OnBoundary(v.co, box) <==> exists e :: e in order && Near(v.co, box, e) by {
      assert Near(v.co, box, XMin) == NearX(v.co.x, box.xmin);
      assert Near(v.co, box, YMin) == NearY(v.co.y, box.ymin);
      assert Near(v.co, box, XMax) == NearX(v.co.x, box.xmax);
      assert Near(v.co, box, YMax) == NearY(v.co.y, box.ymax);
    }
  }

  /** The chain as the source writes it (x-min, y-min, x-max, y-max) has the
      effect of the plain disjunction. */
  lemma SourceChainIsSkirted(v: MeshVertex, box: Box)
    ensures ElifChain(SourceOrder, v, box) == Skirted(v, box)
  {
    forall e: Edge
      ensures e in SourceOrder
    {
      match e
      case XMin => assert SourceOrder[0] == e;
      case YMin => assert SourceOrder[1] == e;
      case XMax => assert SourceOrder[2] == e;
      case YMax => assert SourceOrder[3] == e;
    }
    ElifChainOrderIrrelevant(SourceOrder, v, box);
  }

  /** Running the pass again with the same rectangle changes nothing more. */
  lemma SkirtIdempotent(v: MeshVertex, box: Box)
    ensures Skirted(Skirted(v, box), box) == Skirted(v, box)
  {
  }

  /** A vertex whose x is NaN can only be caught by the two y tests. */
  lemma NaNXOnlyByY(co: Point, box: Box)
    requires co.x.NaN?
    ensures OnBoundary(co, box) <==> NearY(co.y, box.ymin) || NearY(co.y, box.ymax)
  {
  }

  /** A vertex lying on a side of the rectangle is always dropped. */
  lemma SidesAreDropped(co: Point, box: Box)
    requires co.x == Num(box.xmin) || co.x == Num(box.xmax) || co.y == box.ymin || co.y == box.ymax
    ensures OnBoundary(co, box)
  {
  }

  /** The band is open: a vertex at least the tolerance away from all four
      sides keeps its height. */
  lemma BandIsOpen(v: MeshVertex, box: Box)
    requires v.co.x.Num?
    requires v.co.x.v <= box.xmin - Tolerance || v.co.x.v >= box.xmin + Tolerance
    requires v.co.x.v <= box.xmax - Tolerance || v.co.x.v >= box.xmax + Tolerance
    requires v.co.y <= box.ymin - Tolerance || v.co.y >= box.ymin + Tolerance
    requires v.co.y <= box.ymax - Tolerance || v.co.y >= box.ymax + Tolerance
    ensures Skirted(v, box) == v
  {
  }
}
