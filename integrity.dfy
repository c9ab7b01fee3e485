/** The layer-consistency gate that runs before any impact computation
    (`check_data_integrity`). The source asserts; the model returns the
    first failed check as a `ValidationError`.

    The specification is given twice: operationally, as the two passes
    (`FirstPass`, `AlignmentPass`, combined in `Validate`) that the method
    `CheckDataIntegrity` is proved to implement, and declaratively, as
    `Consistent`, with `ValidateSucceedsIff` connecting the two. */
module Integrity {
  import opened Wrappers
  import opened Layers

  datatype ValidationError =
    | MissingKeyword(layer: string, keyword: string)
    | EmptyKeyword(layer: string, keyword: string)
    | ProjectionMismatch(layer: string, expected: Projection, actual: Projection)
    | GeotransformMismatch(layer: string, referenceGeotransform: seq<real>, geotransform: seq<real>)
    | CoordinateMismatch(layer: string, referenceGeometry: seq<Point>, geometry: seq<Point>)
    | EmptyVectorLayer(layer: string)
      /** `layer_files[0]` of an empty list */
    | NoLayers
      /** the first layer is a vector, which has no `rows`/`columns` to read */
    | NoGridDimensions(layer: string)
    | RowMismatch(layer: string, rows: nat, referenceLayer: string, referenceRows: nat)
    | ColumnMismatch(layer: string, columns: nat, referenceLayer: string, referenceColumns: nat)

  // ---------------------------------------------------------------------
  // Operational specification: the checks in the order the source runs them
  // ---------------------------------------------------------------------

  /** Every required keyword, in the order listed, must be present and non-empty. */
  function KeywordCheck(l: Layer, required: seq<string>): Outcome<ValidationError>
    decreases |required|
  {
    if required == [] then Pass
    else if required[0] !in l.keywords then Fail(MissingKeyword(l.name, required[0]))
    else if l.keywords[required[0]] == "" then Fail(EmptyKeyword(l.name, required[0]))
    else KeywordCheck(l, required[1..])
  }

  /** The geotransform reference after `l` is seen: the first raster's is kept. */
  function AdoptGeotransform(geo: Option<seq<real>>, l: Layer): Option<seq<real>>
  {
    if geo.None? && l.Raster? then Some(l.geotransform) else geo
  }

  /** The geometry reference after `l` is seen: the first vector's is kept. */
  function AdoptGeometry(geom: Option<seq<Point>>, l: Layer): Option<seq<Point>>
  {
    if geom.None? && l.Vector? then Some(l.geometry) else geom
  }

  /** The first-pass checks of one layer, given the references in force
      (`None` while no raster, resp. vector, has been seen). */
  function LayerCheck(l: Layer, required: seq<string>, reference: Projection,
                      geo: Option<seq<real>>, geom: Option<seq<Point>>): Outcome<ValidationError>
  {
    var keywords := KeywordCheck(l, required);
    if keywords.Fail? then keywords
    else if l.projection != reference then Fail(ProjectionMismatch(l.name, reference, l.projection))
    else if l.Raster? && geo.Some? && !AllClose(geo.value, l.geotransform, GeotransformRtol, DefaultAtol) then
      Fail(GeotransformMismatch(l.name, geo.value, l.geotransform))
    else if l.Vector? && geom.Some? && !GeometryClose(geom.value, l.geometry) then
      Fail(CoordinateMismatch(l.name, geom.value, l.geometry))
    else if l.Vector? && l.featureCount == 0 then Fail(EmptyVectorLayer(l.name))
    else Pass
  }

  /** The first loop: each layer in turn, stopping at the first failure. */
  function FirstPass(ls: seq<Layer>, required: seq<string>, reference: Projection,
                     geo: Option<seq<real>>, geom: Option<seq<Point>>): Outcome<ValidationError>
    decreases |ls|
  {
    if ls == [] then Pass
    else
      var here := LayerCheck(ls[0], required, reference, geo, geom);
      if here.Fail? then here
      else FirstPass(ls[1..], required, reference, AdoptGeotransform(geo, ls[0]), AdoptGeometry(geom, ls[0]))
  }

  /** The second loop: every raster has the reference rows, then columns. */
  function AlignmentPass(ls: seq<Layer>, referenceName: string, rows: nat, columns: nat): Outcome<ValidationError>
    decreases |ls|
  {
    if ls == [] then Pass
    else if ls[0].Raster? && ls[0].rows != rows then
      Fail(RowMismatch(ls[0].name, ls[0].rows, referenceName, rows))
    else if ls[0].Raster? && ls[0].columns != columns then
      Fail(ColumnMismatch(ls[0].name, ls[0].columns, referenceName, columns))
    else AlignmentPass(ls[1..], referenceName, rows, columns)
  }

  /** Both passes. The projection reference starts at the default and is
      never replaced, so every layer is compared with the default. */
  function Validate(ls: seq<Layer>, required: seq<string>, defaultProjection: Projection): Outcome<ValidationError>
  {
    var first := FirstPass(ls, required, defaultProjection, None, None);
    if first.Fail? then first
    else if ls == [] then Fail(NoLayers)
    else if ls[0].Vector? then Fail(NoGridDimensions(ls[0].name))
    else AlignmentPass(ls, ls[0].name, ls[0].rows, ls[0].columns)
  }

  // ---------------------------------------------------------------------
  // The imperative check
  // ---------------------------------------------------------------------

  method CheckDataIntegrity(layers: seq<Layer>, required: seq<string>, defaultProjection: Projection)
    returns (r: Outcome<ValidationError>)
    ensures r == Validate(layers, required, defaultProjection)
  {
    // Seeded with the default; the branch that would adopt the first
    // layer's projection when no reference is set can never run.
    var referenceProjection := defaultProjection;
    var geotransform: Option<seq<real>> := None;
    var coordinates: Option<seq<Point>> := None;

    var i := 0;
    while i < |layers|
      invariant 0 <= i <= |layers|
      invariant FirstPass(layers, required, defaultProjection, None, None)
             == FirstPass(layers[i..], required, defaultProjection, geotransform, coordinates)
    {
      var layer := layers[i];
      assert layers[i..][0] == layer && layers[i..][1..] == layers[i + 1..];

      var k := 0;
      while k < |required|
        invariant 0 <= k <= |required|
        invariant KeywordCheck(layer, required) == KeywordCheck(layer, required[k..])
      {
        var kw := required[k];
        assert required[k..][0] == kw && required[k..][1..] == required[k + 1..];
        if kw !in layer.keywords {
          return Fail(MissingKeyword(layer.name, kw));
        }
        if layer.keywords[kw] == "" {
          return Fail(EmptyKeyword(layer.name, kw));
        }
        k := k + 1;
      }

      if layer.projection != referenceProjection {
        return Fail(ProjectionMismatch(layer.name, referenceProjection, layer.projection));
      }

      if layer.Raster? {
        if geotransform.None? {
          geotransform := Some(layer.geotransform);
        } else if !AllClose(geotransform.value, layer.geotransform, GeotransformRtol, DefaultAtol) {
          return Fail(GeotransformMismatch(layer.name, geotransform.value, layer.geotransform));
        }
      }

      if layer.Vector? {
        if coordinates.None? {
          coordinates := Some(layer.geometry);
        } else if !GeometryClose(coordinates.value, layer.geometry) {
          return Fail(CoordinateMismatch(layer.name, coordinates.value, layer.geometry));
        }
        if layer.featureCount == 0 {
          return Fail(EmptyVectorLayer(layer.name));
        }
      }
      i := i + 1;
    }

    if |layers| == 0 {
      return Fail(NoLayers);
    }
    var first := layers[0];
    if first.Vector? {
      return Fail(NoGridDimensions(first.name));
    }
    var m, n, refname := first.rows, first.columns, first.name;

    var j := 0;
    while j < |layers|
      invariant 0 <= j <= |layers|
      invariant AlignmentPass(layers, refname, m, n) == AlignmentPass(layers[j..], refname, m, n)
    {
      var layer := layers[j];
      assert layers[j..][0] == layer && layers[j..][1..] == layers[j + 1..];
      if layer.Raster? {
        if layer.rows != m {
          return Fail(RowMismatch(layer.name, layer.rows, refname, m));
        }
        if layer.columns != n {
          return Fail(ColumnMismatch(layer.name, layer.columns, refname, n));
        }
      }
      j := j + 1;
    }
    return Pass;
  }

  // ---------------------------------------------------------------------
  // Declarative specification
  // ---------------------------------------------------------------------

  predicate KeywordsComplete(l: Layer, required: seq<string>)
  {
    forall k | 0 <= k < |required| :: required[k] in l.keywords && l.keywords[required[k]] != ""
  }

  /** The geotransform of the first raster in `ls`, if any. */
  function FirstGeotransform(ls: seq<Layer>): Option<seq<real>>
    decreases |ls|
  {
    if ls == [] then None
    else if ls[0].Raster? then Some(ls[0].geotransform)
    else FirstGeotransform(ls[1..])
  }

  /** The geometry of the first vector in `ls`, if any. */
  function FirstGeometry(ls: seq<Layer>): Option<seq<Point>>
    decreases |ls|
  {
    if ls == [] then None
    else if ls[0].Vector? then Some(ls[0].geometry)
    else FirstGeometry(ls[1..])
  }

  /** What the first pass demands of one layer, given the geotransform and
      geometry it is compared with. */
  predicate LayerAcceptable(l: Layer, required: seq<string>, reference: Projection,
                            geoRef: Option<seq<real>>, geomRef: Option<seq<Point>>)
  {
    && KeywordsComplete(l, required)
    && l.projection == reference
    && (l.Raster? ==> geoRef.Some? && AllClose(geoRef.value, l.geotransform, GeotransformRtol, DefaultAtol))
    && (l.Vector? ==> geomRef.Some? && GeometryClose(geomRef.value, l.geometry) && l.featureCount > 0)
  }

  /** A layer list the gate accepts: non-empty with a raster first; every
      layer complete in keywords and in the default projection; every raster
      close to the first layer's geotransform and of its rows and columns;
      every vector close to the first vector's geometry and non-empty. */
  predicate Consistent(ls: seq<Layer>, required: seq<string>, defaultProjection: Projection)
  {
    && |ls| > 0
    && ls[0].Raster?
    && FirstPassAccepts(ls, required, defaultProjection)
    && RastersAligned(ls, ls[0].rows, ls[0].columns)
  }

  /** Every layer is acceptable against the default projection, the first
      raster's geotransform and the first vector's geometry: the first pass
      has nothing to report. */
  predicate FirstPassAccepts(ls: seq<Layer>, required: seq<string>, defaultProjection: Projection)
  {
    forall i | 0 <= i < |ls| ::
      LayerAcceptable(ls[i], required, defaultProjection, FirstGeotransform(ls), FirstGeometry(ls))
  }

  /** Every raster of `ls` has exactly these rows and columns. */
  predicate RastersAligned(ls: seq<Layer>, rows: nat, columns: nat)
  {
    forall i | 0 <= i < |ls| && ls[i].Raster? :: ls[i].rows == rows && ls[i].columns == columns
  }

  // ---------------------------------------------------------------------
  // Success: the operational and declarative specifications agree
  // ---------------------------------------------------------------------

  lemma {:induction false} KeywordCheckPasses(l: Layer, required: seq<string>)
    ensures KeywordCheck(l, required) == Pass <==> KeywordsComplete(l, required)
    decreases |required|
  {
    if required != [] {
      KeywordCheckPasses(l, required[1..]);
      assert forall k | 1 <= k < |required| :: required[k] == required[1..][k - 1];
    }
  }

  lemma LayerCheckPasses(l: Layer, required: seq<string>, reference: Projection,
                         geo: Option<seq<real>>, geom: Option<seq<Point>>)
    ensures LayerCheck(l, required, reference, geo, geom) == Pass
        <==> LayerAcceptable(l, required, reference, AdoptGeotransform(geo, l), AdoptGeometry(geom, l))
  {
    KeywordCheckPasses(l, required);
    if l.Raster? {
      AllCloseReflexive(l.geotransform, GeotransformRtol, DefaultAtol);
    } else {
      GeometryCloseReflexive(l.geometry);
    }
  }

  /** The first pass accepts exactly when every layer is acceptable against
      the first raster's geotransform and the first vector's geometry (or the
      references already in force). */
  lemma {:induction false} FirstPassPasses(ls: seq<Layer>, required: seq<string>, reference: Projection,
                                           geo: Option<seq<real>>, geom: Option<seq<Point>>)
    ensures FirstPass(ls, required, reference, geo, geom) == Pass
        <==> forall i | 0 <= i < |ls| ::
               LayerAcceptable(ls[i], required, reference,
                               OrElse(geo, FirstGeotransform(ls)), OrElse(geom, FirstGeometry(ls)))
    decreases |ls|
  {
    if ls != [] {
      var geo', geom' := AdoptGeotransform(geo, ls[0]), AdoptGeometry(geom, ls[0]);
      var geoAll, geomAll := OrElse(geo, FirstGeotransform(ls)), OrElse(geom, FirstGeometry(ls));
      LayerCheckPasses(ls[0], required, reference, geo, geom);
      FirstPassPasses(ls[1..], required, reference, geo', geom');
      assert OrElse(geo', FirstGeotransform(ls[1..])) == geoAll;
      assert OrElse(geom', FirstGeometry(ls[1..])) == geomAll;
      assert LayerAcceptable(ls[0], required, reference, geo', geom')
         <==> LayerAcceptable(ls[0], required, reference, geoAll, geomAll);
      assert forall i | 1 <= i < |ls| :: ls[i] == ls[1..][i - 1];
      if FirstPass(ls, required, reference, geo, geom) == Pass {
        forall i | 0 <= i < |ls|
          ensures LayerAcceptable(ls[i], required, reference, geoAll, geomAll)
        {
          if i > 0 {
            assert ls[i] == ls[1..][i - 1];
          }
        }
      }
    }
  }

  lemma {:induction false} AlignmentPassPasses(ls: seq<Layer>, referenceName: string, rows: nat, columns: nat)
    ensures AlignmentPass(ls, referenceName, rows, columns) == Pass
        <==> RastersAligned(ls, rows, columns)
    decreases |ls|
  {
    if ls != [] {
      AlignmentPassPasses(ls[1..], referenceName, rows, columns);
      assert forall i | 1 <= i < |ls| :: ls[i] == ls[1..][i - 1];
    }
  }

  /** The gate accepts a layer list exactly when it is `Consistent`. */
  lemma ValidateSucceedsIff(ls: seq<Layer>, required: seq<string>, defaultProjection: Projection)
    ensures Validate(ls, required, defaultProjection) == Pass <==> Consistent(ls, required, defaultProjection)
  {
    FirstPassPasses(ls, required, defaultProjection, None, None);
    if ls != [] && ls[0].Raster? {
      AlignmentPassPasses(ls, ls[0].name, ls[0].rows, ls[0].columns);
    }
  }

  /** In particular every accepted layer is in the default projection:
      the projection reference is never taken from a layer. */
  lemma AcceptedLayersUseDefaultProjection(ls: seq<Layer>, required: seq<string>, defaultProjection: Projection, i: nat)
    requires Validate(ls, required, defaultProjection) == Pass
    requires i < |ls|
    ensures ls[i].projection == defaultProjection
  {
    ValidateSucceedsIff(ls, required, defaultProjection);
  }

  /** A list whose first layer is a vector is never accepted, whatever
      follows: the second pass reads the grid dimensions of `layer_files[0]`. */
  lemma VectorFirstRejected(ls: seq<Layer>, required: seq<string>, defaultProjection: Projection)
    requires |ls| > 0 && ls[0].Vector?
    ensures Validate(ls, required, defaultProjection).Fail?
  {
  }

  // ---------------------------------------------------------------------
  // Failure: the error names the first failing layer and check
  // ---------------------------------------------------------------------

  /** Layer `i` is where the first pass stops with `e`: every earlier layer
      passes, each against the references in force when it was checked. */
  predicate FailsFirstAt(ls: seq<Layer>, required: seq<string>, reference: Projection,
                         geo: Option<seq<real>>, geom: Option<seq<Point>>, i: int, e: ValidationError)
  {
    && 0 <= i < |ls|
    && LayerCheck(ls[i], required, reference,
                  OrElse(geo, FirstGeotransform(ls[..i])), OrElse(geom, FirstGeometry(ls[..i]))) == Fail(e)
    && forall j | 0 <= j < i ::
         LayerCheck(ls[j], required, reference,
                    OrElse(geo, FirstGeotransform(ls[..j])), OrElse(geom, FirstGeometry(ls[..j]))) == Pass
  }

  lemma {:induction false} FirstPassFailsAt(ls: seq<Layer>, required: seq<string>, reference: Projection,
                                            geo: Option<seq<real>>, geom: Option<seq<Point>>, e: ValidationError)
    requires FirstPass(ls, required, reference, geo, geom) == Fail(e)
    ensures exists i :: FailsFirstAt(ls, required, reference, geo, geom, i, e)
    decreases |ls|
  {
    var geo', geom' := AdoptGeotransform(geo, ls[0]), AdoptGeometry(geom, ls[0]);
    assert ls[..0] == [];
    if LayerCheck(ls[0], required, reference, geo, geom).Fail? {
      assert FailsFirstAt(ls, required, reference, geo, geom, 0, e);
    } else {
      FirstPassFailsAt(ls[1..], required, reference, geo', geom', e);
      var i' :| FailsFirstAt(ls[1..], required, reference, geo', geom', i', e);
      forall j | 0 <= j <= i'
        ensures OrElse(geo, FirstGeotransform(ls[..j + 1])) == OrElse(geo', FirstGeotransform(ls[1..][..j]))
        ensures OrElse(geom, FirstGeometry(ls[..j + 1])) == OrElse(geom', FirstGeometry(ls[1..][..j]))
        ensures ls[j + 1] == ls[1..][j]
      {
        assert ls[..j + 1][0] == ls[0];
        assert ls[..j + 1][1..] == ls[1..][..j];
      }
      forall j | 0 <= j < i' + 1
        ensures LayerCheck(ls[j], required, reference,
                           OrElse(geo, FirstGeotransform(ls[..j])), OrElse(geom, FirstGeometry(ls[..j]))) == Pass
      {
        if j > 0 {
          var jj := j - 1;
          assert OrElse(geo, FirstGeotransform(ls[..jj + 1])) == OrElse(geo', FirstGeotransform(ls[1..][..jj]));
          assert OrElse(geom, FirstGeometry(ls[..jj + 1])) == OrElse(geom', FirstGeometry(ls[1..][..jj]));
        }
      }
      assert FailsFirstAt(ls, required, reference, geo, geom, i' + 1, e);
    }
  }

  /** What each error says is true of the input. A second-pass error also
      says that the first pass accepted the list and that it names the first
      misaligned raster; a column error names a raster whose rows agree. */
  predicate Witnessed(ls: seq<Layer>, required: seq<string>, defaultProjection: Projection, e: ValidationError)
  {
    match e
    case MissingKeyword(name, kw) =>
      kw in required && exists i | 0 <= i < |ls| :: ls[i].name == name && kw !in ls[i].keywords
    case EmptyKeyword(name, kw) =>
      kw in required &&
      exists i | 0 <= i < |ls| :: ls[i].name == name && kw in ls[i].keywords && ls[i].keywords[kw] == ""
    case ProjectionMismatch(name, expected, actual) =>
      expected == defaultProjection && actual != expected &&
      exists i | 0 <= i < |ls| :: ls[i].name == name && ls[i].projection == actual
    case GeotransformMismatch(name, refGeo, geo) =>
      !AllClose(refGeo, geo, GeotransformRtol, DefaultAtol) &&
      exists i | 0 <= i < |ls| ::
        ls[i].Raster? && ls[i].name == name && ls[i].geotransform == geo && FirstGeotransform(ls[..i]) == Some(refGeo)
    case CoordinateMismatch(name, refGeom, geom) =>
      !GeometryClose(refGeom, geom) &&
      exists i | 0 <= i < |ls| ::
        ls[i].Vector? && ls[i].name == name && ls[i].geometry == geom && FirstGeometry(ls[..i]) == Some(refGeom)
    case EmptyVectorLayer(name) =>
      exists i | 0 <= i < |ls| :: ls[i].Vector? && ls[i].name == name && ls[i].featureCount == 0
    case NoLayers =>
      ls == []
    case NoGridDimensions(name) =>
      |ls| > 0 && ls[0].Vector? && ls[0].name == name
    case RowMismatch(name, rows, refName, refRows) =>
      |ls| > 0 && ls[0].Raster? && refName == ls[0].name && refRows == ls[0].rows && rows != refRows &&
      FirstPassAccepts(ls, required, defaultProjection) &&
      exists i | 0 <= i < |ls| ::
        ls[i].Raster? && ls[i].name == name && ls[i].rows == rows && RastersAligned(ls[..i], refRows, ls[0].columns)
    case ColumnMismatch(name, columns, refName, refColumns) =>
      |ls| > 0 && ls[0].Raster? && refName == ls[0].name && refColumns == ls[0].columns && columns != refColumns &&
      FirstPassAccepts(ls, required, defaultProjection) &&
      exists i | 0 <= i < |ls| ::
        ls[i].Raster? && ls[i].name == name && ls[i].rows == ls[0].rows && ls[i].columns == columns &&
        RastersAligned(ls[..i], ls[0].rows, refColumns)
  }

  lemma {:induction false} KeywordCheckFailure(l: Layer, required: seq<string>, e: ValidationError)
    requires KeywordCheck(l, required) == Fail(e)
    ensures e.MissingKeyword? || e.EmptyKeyword?
    ensures e.layer == l.name && e.keyword in required && (e.MissingKeyword? <==> e.keyword !in l.keywords)
    ensures e.EmptyKeyword? ==> l.keywords[e.keyword] == ""
    decreases |required|
  {
    if required[0] in l.keywords && l.keywords[required[0]] != "" {
      KeywordCheckFailure(l, required[1..], e);
    }
  }

  lemma {:induction false} AlignmentPassFailure(ls: seq<Layer>, referenceName: string, rows: nat, columns: nat,
                                                e: ValidationError)
    requires AlignmentPass(ls, referenceName, rows, columns) == Fail(e)
    ensures e.RowMismatch? || e.ColumnMismatch?
    ensures e.RowMismatch? ==>
              && e.referenceLayer == referenceName && e.referenceRows == rows && e.rows != rows
              && exists i | 0 <= i < |ls| :: ls[i].Raster? && ls[i].name == e.layer && ls[i].rows == e.rows
    ensures e.ColumnMismatch? ==>
              && e.referenceLayer == referenceName && e.referenceColumns == columns && e.columns != columns
              && exists i | 0 <= i < |ls| :: ls[i].Raster? && ls[i].name == e.layer && ls[i].columns == e.columns
    decreases |ls|
  {
    if !(ls[0].Raster? && (ls[0].rows != rows || ls[0].columns != columns)) {
      AlignmentPassFailure(ls[1..], referenceName, rows, columns, e);
      assert forall i | 0 <= i < |ls| - 1 :: ls[1..][i] == ls[i + 1];
    }
  }

  /** The second pass reports the first raster out of line: every raster
      before it has the reference rows and columns, and a column error names
      a raster whose rows agree, since rows are checked first. */
  lemma {:induction false} AlignmentPassFailsAt(ls: seq<Layer>, referenceName: string, rows: nat, columns: nat,
                                                e: ValidationError)
    requires AlignmentPass(ls, referenceName, rows, columns) == Fail(e)
    ensures e.RowMismatch? || e.ColumnMismatch?
    ensures exists i | 0 <= i < |ls| ::
              && ls[i].Raster? && ls[i].name == e.layer
              && (e.RowMismatch? ==> ls[i].rows == e.rows)
              && (e.ColumnMismatch? ==> ls[i].rows == rows && ls[i].columns == e.columns)
              && RastersAligned(ls[..i], rows, columns)
    decreases |ls|
  {
    if ls[0].Raster? && (ls[0].rows != rows || ls[0].columns != columns) {
      assert ls[..0] == [];
    } else {
      AlignmentPassFailsAt(ls[1..], referenceName, rows, columns, e);
      var i :| 0 <= i < |ls[1..]|
               && ls[1..][i].Raster? && ls[1..][i].name == e.layer
               && (e.RowMismatch? ==> ls[1..][i].rows == e.rows)
               && (e.ColumnMismatch? ==> ls[1..][i].rows == rows && ls[1..][i].columns == e.columns)
               && RastersAligned(ls[1..][..i], rows, columns);
      assert ls[..i + 1] == [ls[0]] + ls[1..][..i];
      assert ls[i + 1] == ls[1..][i];
    }
  }

  /** Every error the gate reports is borne out by the input: it names a
      layer of the list that fails the check the error names. */
  lemma ValidateFailureWitnessed(ls: seq<Layer>, required: seq<string>, defaultProjection: Projection,
                                 e: ValidationError)
    requires Validate(ls, required, defaultProjection) == Fail(e)
    ensures Witnessed(ls, required, defaultProjection, e)
  {
    if FirstPass(ls, required, defaultProjection, None, None).Fail? {
      FirstPassFailsAt(ls, required, defaultProjection, None, None, e);
      var i :| FailsFirstAt(ls, required, defaultProjection, None, None, i, e);
      var l := ls[i];
      if KeywordCheck(l, required).Fail? {
        KeywordCheckFailure(l, required, e);
        assert e.keyword in required;
      }
    } else if ls != [] && ls[0].Raster? {
      FirstPassPasses(ls, required, defaultProjection, None, None);
      AlignmentPassFailure(ls, ls[0].name, ls[0].rows, ls[0].columns, e);
      AlignmentPassFailsAt(ls, ls[0].name, ls[0].rows, ls[0].columns, e);
    }
  }
}
