/** The common extent of hazard data, exposure data and the requested
    viewport (`get_bounding_boxes`). */
module BoundingBoxes {
  import opened Wrappers

  /** An axis-aligned box `[west, south, east, north]`. */
  datatype BBox = BBox(west: real, south: real, east: real, north: real)

  /** A box with positive width and height. */
  predicate Proper(b: BBox)
  {
    b.west < b.east && b.south < b.north
  }

  /** `inner` lies inside `outer` (edges may touch). */
  predicate Within(inner: BBox, outer: BBox)
  {
    outer.west <= inner.west && inner.east <= outer.east &&
    outer.south <= inner.south && inner.north <= outer.north
  }

  /** The point `(x, y)` lies strictly inside `b`. */
  predicate Inside(b: BBox, x: real, y: real)
  {
    b.west < x < b.east && b.south < y < b.north
  }

  function Max3(a: real, b: real, c: real): real
  {
    if a >= b && a >= c then a else if b >= c then b else c
  }

  function Min3(a: real, b: real, c: real): real
  {
    if a <= b && a <= c then a else if b <= c then b else c
  }

  /** `bbox_intersection` of three boxes: the largest box inside all three,
      or `None` when they share no area. */
  function Intersection(a: BBox, b: BBox, c: BBox): (r: Option<BBox>)
    ensures r.Some? ==> Proper(r.value) && Within(r.value, a) && Within(r.value, b) && Within(r.value, c)
  {
    var common := BBox(Max3(a.west, b.west, c.west), Max3(a.south, b.south, c.south),
                       Min3(a.east, b.east, c.east), Min3(a.north, b.north, c.north));
    if Proper(common) then Some(common) else None
  }

  /** Every box inside all three is inside their intersection, which
      therefore exists as soon as one proper box is common to the three. */
  lemma IntersectionIsGreatest(a: BBox, b: BBox, c: BBox, box: BBox)
    requires Within(box, a) && Within(box, b) && Within(box, c)
    ensures Proper(box) ==> Intersection(a, b, c).Some?
    ensures Intersection(a, b, c).Some? ==> Within(box, Intersection(a, b, c).value)
  {
  }

  /** The three boxes overlap exactly when some point lies strictly inside all of them. */
  lemma IntersectionNoneIff(a: BBox, b: BBox, c: BBox)
    ensures Intersection(a, b, c).None?
        <==> !exists x: real, y: real :: Inside(a, x, y) && Inside(b, x, y) && Inside(c, x, y)
  {
    var w := Max3(a.west, b.west, c.west);
    var s := Max3(a.south, b.south, c.south);
    var e := Min3(a.east, b.east, c.east);
    var n := Min3(a.north, b.north, c.north);
    forall x: real, y: real | Inside(a, x, y) && Inside(b, x, y) && Inside(c, x, y)
      ensures Intersection(a, b, c).Some?
    {
      assert w < x < e && s < y < n;
    }
    if Intersection(a, b, c).Some? {
      var x, y := (w + e) / 2.0, (s + n) / 2.0;
      assert Inside(a, x, y) && Inside(b, x, y) && Inside(c, x, y);
    }
  }

  /** Which input a spatial-object check refers to. */
  datatype Role = Hazard | Exposure

  /** An object handed in as hazard or exposure data. `isRiabSpatialObject`
      is `None` when the object has no such attribute. */
  datatype SpatialObject = SpatialObject(isRiabSpatialObject: Option<bool>, boundingBox: BBox)

  datatype BBoxError =
    | NotSpatialObject(role: Role)
    | InvalidBoundingBox(given: seq<real>)
    | NoOverlap(hazard: BBox, exposure: BBox, viewport: BBox)

  predicate IsSpatial(o: SpatialObject)
  {
    o.isRiabSpatialObject == Some(true)
  }

  /** The requested viewport as a box; defined for four coordinates. */
  function Viewport(req: seq<real>): BBox
    requires |req| == 4
  {
    BBox(req[0], req[1], req[2], req[3])
  }

  /** The common bounding box and the (always empty) buffered-hazard slot. */
  function GetBoundingBoxes(hazard: SpatialObject, exposure: SpatialObject, req: seq<real>)
    : (r: Result<(BBox, Option<BBox>), BBoxError>)
    ensures !IsSpatial(hazard) ==> r == Failure(NotSpatialObject(Hazard))
    ensures IsSpatial(hazard) && !IsSpatial(exposure) ==> r == Failure(NotSpatialObject(Exposure))
    ensures IsSpatial(hazard) && IsSpatial(exposure) && |req| != 4 ==> r == Failure(InvalidBoundingBox(req))
    ensures IsSpatial(hazard) && IsSpatial(exposure) && |req| == 4 && r.Failure? ==> r.error.NoOverlap?
    ensures r.Failure? && r.error.NoOverlap? ==>
              |req| == 4 && r.error == NoOverlap(hazard.boundingBox, exposure.boundingBox, Viewport(req))
    ensures r.Success? ==>
              && IsSpatial(hazard) && IsSpatial(exposure) && |req| == 4
              && r.value.1 == None
              && Proper(r.value.0)
              && Within(r.value.0, Viewport(req))
              && Within(r.value.0, hazard.boundingBox)
              && Within(r.value.0, exposure.boundingBox)
  {
    if !IsSpatial(hazard) then Failure(NotSpatialObject(Hazard))
    else if !IsSpatial(exposure) then Failure(NotSpatialObject(Exposure))
    else if |req| != 4 then Failure(InvalidBoundingBox(req))
    else
      match Intersection(Viewport(req), hazard.boundingBox, exposure.boundingBox)
      case None => Failure(NoOverlap(hazard.boundingBox, exposure.boundingBox, Viewport(req)))
      case Some(common) => Success((common, None))
  }

  /** Once the inputs are well formed, `get_bounding_boxes` fails exactly
      when no point lies strictly inside the viewport, the hazard box and the
      exposure box, and otherwise returns the largest box common to the three. */
  lemma GetBoundingBoxesOverlap(hazard: SpatialObject, exposure: SpatialObject, req: seq<real>)
    requires IsSpatial(hazard) && IsSpatial(exposure) && |req| == 4
    ensures var v, h, e := Viewport(req), hazard.boundingBox, exposure.boundingBox;
            && (GetBoundingBoxes(hazard, exposure, req).Failure?
                <==> !exists x: real, y: real :: Inside(v, x, y) && Inside(h, x, y) && Inside(e, x, y))
            && (GetBoundingBoxes(hazard, exposure, req).Success? ==>
                  forall box | Within(box, v) && Within(box, h) && Within(box, e) ::
                    Within(box, GetBoundingBoxes(hazard, exposure, req).value.0))
  {
    var v, h, e := Viewport(req), hazard.boundingBox, exposure.boundingBox;
    IntersectionNoneIff(v, h, e);
    forall box | Within(box, v) && Within(box, h) && Within(box, e)
      ensures Intersection(v, h, e).Some? ==> Within(box, Intersection(v, h, e).value)
    {
      IntersectionIsGreatest(v, h, e, box);
    }
  }

  /** The three input boxes play symmetric roles: swapping hazard and
      exposure does not change a successful result. */
  lemma GetBoundingBoxesSymmetric(hazard: SpatialObject, exposure: SpatialObject, req: seq<real>)
    requires GetBoundingBoxes(hazard, exposure, req).Success?
    ensures GetBoundingBoxes(exposure, hazard, req) == GetBoundingBoxes(hazard, exposure, req)
  {
  }

  /** Viewport [0,0,10,10], hazard [2,2,8,8], exposure [4,4,12,12] give [4,4,8,8]. */
  lemma OverlapExample(hazard: SpatialObject, exposure: SpatialObject)
    requires hazard == SpatialObject(Some(true), BBox(2.0, 2.0, 8.0, 8.0))
    requires exposure == SpatialObject(Some(true), BBox(4.0, 4.0, 12.0, 12.0))
    ensures GetBoundingBoxes(hazard, exposure, [0.0, 0.0, 10.0, 10.0]) == Success((BBox(4.0, 4.0, 8.0, 8.0), None))
  {
  }

  /** Viewport [0,0,1,1] and hazard [5,5,6,6] never overlap, whatever the exposure. */
  lemma NoOverlapExample(hazard: SpatialObject, exposure: SpatialObject)
    requires hazard == SpatialObject(Some(true), BBox(5.0, 5.0, 6.0, 6.0))
    requires IsSpatial(exposure)
    ensures GetBoundingBoxes(hazard, exposure, [0.0, 0.0, 1.0, 1.0])
         == Failure(NoOverlap(hazard.boundingBox, exposure.boundingBox, BBox(0.0, 0.0, 1.0, 1.0)))
  {
  }
}
