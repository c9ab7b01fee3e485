/** Input layers of the risk engine and the tolerant numeric comparison
    (`numpy.allclose`) used to check that they are georeferenced alike. */
module Layers {

  /** A coordinate reference system, compared by value; its text is opaque here. */
  datatype Projection = Projection(wkt: string)

  datatype Point = Point(x: real, y: real)

  /** A layer as built by the reader: a raster grid or a set of vector
      features. Both kinds carry a name, keywords and a projection; only a
      raster has grid dimensions and a geotransform, only a vector has
      geometry and a feature count (what `len(layer)` returns). */
  datatype Layer =
    | Raster(name: string, keywords: map<string, string>, projection: Projection,
             rows: nat, columns: nat, geotransform: seq<real>)
    | Vector(name: string, keywords: map<string, string>, projection: Projection,
             geometry: seq<Point>, featureCount: nat)

  /** Relative tolerance used when comparing raster geotransforms. */
  const GeotransformRtol: real := 1.0e-12
  /** numpy's default relative and absolute tolerances. */
  const DefaultRtol: real := 1.0e-5
  const DefaultAtol: real := 1.0e-8

  function Abs(x: real): real
  {
    if x < 0.0 then -x else x
  }

  /** numpy's elementwise closeness test; note that it is relative to `b`. */
  predicate Close(a: real, b: real, rtol: real, atol: real)
  {
    Abs(a - b) <= atol + rtol * Abs(b)
  }

  /** `numpy.allclose(a, b, rtol, atol)` for arrays of the same shape; arrays
      of different lengths are never close. */
  predicate AllClose(a: seq<real>, b: seq<real>, rtol: real, atol: real)
  {
    |a| == |b| && forall i | 0 <= i < |a| :: Close(a[i], b[i], rtol, atol)
  }

  /** `numpy.allclose(a, b)` with default tolerances on two point lists. */
  predicate GeometryClose(a: seq<Point>, b: seq<Point>)
  {
    && |a| == |b|
    && forall i | 0 <= i < |a| ::
         Close(a[i].x, b[i].x, DefaultRtol, DefaultAtol) && Close(a[i].y, b[i].y, DefaultRtol, DefaultAtol)
  }

  lemma AllCloseReflexive(a: seq<real>, rtol: real, atol: real)
    requires 0.0 <= rtol && 0.0 <= atol
    ensures AllClose(a, a, rtol, atol)
  {
  }

  lemma GeometryCloseReflexive(a: seq<Point>)
    ensures GeometryClose(a, a)
  {
  }
}
