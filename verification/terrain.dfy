/** The whole terrain post-processing step: clear the selection, compute the
    bounding rectangle of the world positions, drop the rim vertices, then
    select the faces whose normal is going side. */
module Terrain {
  import opened Geometry
  import opened Orientation
  import opened Bounds
  import opened Skirt

  /** A mesh face as the step sees it: its normal and its selection flag. */
  datatype Face = Face(normal: Vec3, select: bool)

  /** The world position of every vertex under the object's transform. */
  ghost function World(verts: seq<MeshVertex>, toWorld: Point -> Point): (r: seq<Point>)
    ensures |r| == |verts|
    ensures forall i :: 0 <= i < |verts| ==> r[i] == toWorld(verts[i].co)
  {
    seq(|verts|, i requires 0 <= i < |verts| => toWorld(verts[i].co))
  }

  /** The face loop: each flag becomes "going side" of that face's own normal;
      normals are untouched. */
  method SelectSideFaces(faces: array<Face>)
    modifies faces
    ensures forall i :: 0 <= i < faces.Length ==>
      faces[i] == Face(old(faces[i]).normal, GoingSide(old(faces[i]).normal))
  {
    var i := 0;
    while i < faces.Length
      invariant 0 <= i <= faces.Length
      invariant forall k :: 0 <= k < i ==> faces[k] == Face(old(faces[k]).normal, GoingSide(old(faces[k]).normal))
      invariant forall k :: i <= k < faces.Length ==> faces[k] == old(faces[k])
    {
      faces[i] := faces[i].(select := GoingSide(faces[i].normal));
      i := i + 1;
    }
  }

  /** The terrain step on one mesh. `toWorld` stands for the object's world
      matrix; the face normals are those the host holds when the face loop
      runs. Fails, after clearing the selection and before touching any
      coordinate, when no vertex has a numeric world x. */
  method AddSide(verts: array<MeshVertex>, faces: array<Face>, toWorld: Point -> Point)
    returns (r: Result<Box, BoxError>)
    modifies verts, faces
    ensures r.Failure? <==> NoFinite(World(old(verts[..]), toWorld))
    ensures r.Failure? ==> forall i :: 0 <= i < verts.Length ==> verts[i] == old(verts[i]).(select := false)
    ensures r.Failure? ==> forall i :: 0 <= i < faces.Length ==> faces[i] == old(faces[i]).(select := false)
    ensures r.Success? ==> IsBoundingBox(r.value, World(old(verts[..]), toWorld))
    ensures r.Success? ==> forall i :: 0 <= i < verts.Length ==>
      verts[i] == Skirted(old(verts[i]).(select := false), r.value)
    ensures r.Success? ==> forall i :: 0 <= i < verts.Length ==>
      (verts[i].select <==> OnBoundary(old(verts[i]).co, r.value))
    ensures r.Success? ==> forall i :: 0 <= i < faces.Length ==>
      faces[i] == Face(old(faces[i]).normal, GoingSide(old(faces[i]).normal))
  {
    // select_all(action="DESELECT")
    forall i | 0 <= i < verts.Length {
      verts[i] := verts[i].(select := false);
    }
    forall i | 0 <= i < faces.Length {
      faces[i] := faces[i].(select := false);
    }
    var local := verts[..];
    var world := seq(|local|, i requires 0 <= i < |local| => toWorld(local[i].co));
    assert world == World(old(verts[..]), toWorld);
    r := ComputeBox(world);
    if r.Failure? {
      return;
    }
    DropBoundary(verts, r.value);
    SelectSideFaces(faces);
  }
}
