# Risk-engine gatekeeping core, modelled in Dafny

This project models the computational engine of the Risk in a Box impact
calculator (`engine/core.py`). The engine has three parts.

- **Layer-consistency gate** (`check_data_integrity`). Module `Integrity`.
  It checks a list of raster and vector layers in two passes. The first pass
  looks at each layer in turn:
  - every required keyword is present and non-empty;
  - the layer's projection equals the reference;
  - a raster's geotransform is close to the first raster's;
  - a vector's geometry is close to the first vector's, and the vector has
    at least one feature.

  The second pass checks that every raster has the `rows` and `columns` of
  the first layer of the list.

  The source stops on a failed `assert`. The model returns `Fail(e)`
  instead, where `e` names the failed check and the layer.

  The specification comes in two forms. `Validate` states the checks in the
  order the source runs them. `Consistent` is a declarative predicate. The
  imperative method `CheckDataIntegrity` has the source's nested loops and
  is proved to return `Validate`. `ValidateSucceedsIff` proves that
  `Validate` accepts exactly the `Consistent` lists.
  `ValidateFailureWitnessed` proves that every reported error is true of
  the input. `FirstPassFailsAt` and `AlignmentPassFailsAt` prove that it is
  the first failure of its pass. A second-pass error also comes only after
  the first pass accepted the whole list.
- **Common bounding box** (`get_bounding_boxes`). Module `BoundingBoxes`.
  It intersects the viewport, hazard and exposure boxes, or fails when they
  do not overlap. It is modelled as a pure function.
- **Impact orchestration** (`calculate_impact`). Module `Impact`. It
  validates, instantiates and runs the impact function, and rejects a
  `None` result. It picks `.tif` or `.shp`, takes a unique file name,
  assigns it and writes to it. Finally it builds a default name when the
  result has none. The result layer is a class whose `filename` and `name`
  are updated in place. The method also returns the list of calls it made
  to its collaborators, in order, so its contract can state the order of
  the steps.

`Layers` holds the `Layer` datatype and `numpy.allclose` over reals.
`Wrappers` holds `Option`, `Outcome` and `Result`.

Modelling choices:

- **Reference projection.** The reference is seeded with the default
  projection (engine/core.py:109) and never reassigned. The branch that
  would adopt the first layer's projection (engine/core.py:128-129) can
  never run. The model keeps this actual behaviour: every layer must equal
  the default projection. The default is a parameter of the gate.
- **Tolerant comparison.** `numpy.allclose(a, b, rtol, atol)` is modelled
  exactly on real numbers: `|a[i] - b[i]| <= atol + rtol * |b[i]|` for
  every `i`. It is relative to the second argument. Geotransforms use
  `rtol = 1e-12` and numpy's default `atol = 1e-8`. Geometries use numpy's
  defaults, `rtol = 1e-5` and `atol = 1e-8`.
- **Vectors have no grid dimensions.** The second pass reads
  `layer_files[0].rows` and `.columns` (engine/core.py:166-167), which only
  a raster has. So the model rejects a list whose first layer is a vector
  with `NoGridDimensions` (see `VectorFirstRejected`). It rejects an empty
  list with `NoLayers`, from the `IndexError` on `layer_files[0]`. The
  vector class is not part of this model, so whether a vector object has
  `rows` and `columns` cannot be seen here. The model's own `Layer`
  datatype (`Layers.Layer`) gives grid dimensions to `Raster` only.
- **Default name.** The code drops the last two characters of the
  accumulated `"A X B X "` when the impact function has no `plugin_name`.
  That leaves a trailing space: `"Flood X Population "`. The source's own
  comments describe the name as "layer1 X layer1 x impact_function"
  (engine/core.py:72) and the cut as stripping the trailing "X"
  (engine/core.py:81), which suggests no space was meant. The model follows
  the code (`DefaultNameWithoutPlugin`, `DefaultNameExample`).
- **Write before naming.** The result is written to file before its
  default name is set (engine/core.py:70 before 84). The `WriteToFile`
  call records the name the result had at that moment.
- **Bounding-box intersection.** `bbox_intersection` lives in
  `storage/utilities`, which is not part of this model. It is defined here
  as the largest common box: west and south are the maximum, east and north
  the minimum. There is no overlap unless west < east and south < north.
- **Request box.** The request box is a sequence of reals. In the source, a
  non-iterable request box fails at `list(req_bbox)` (engine/core.py:218-224).
  What `bbox_intersection` does with a list that is not four coordinates
  cannot be seen here. The model chooses to reject any length other than
  four with `InvalidBoundingBox`, the same error as the non-iterable case.
- **Collaborators.** These are parameters, not modelled code:
  - the impact function instance (`ImpactFunction`: its optional
    `plugin_name` and what `run` returns);
  - the unique-name generator (`uniqueFilename`);
  - the required-keyword list;
  - the default projection.

## Model

| member | source | states |
|---|---|---|
| `Integrity.CheckDataIntegrity` | engine/core.py:93-185 | The two loops return exactly `Validate`: the first failed check in source order, or `Pass`. |
| `Integrity.ValidateSucceedsIff` | engine/core.py:106-185 | The gate accepts iff the list is non-empty with a raster first, and every layer has all required keywords non-empty and the default projection. Every raster must be allclose (rtol 1e-12) to the first layer's geotransform, with the same rows and columns. Every vector must be allclose to the first vector's geometry and non-empty. |
| `Integrity.AcceptedLayersUseDefaultProjection` | engine/core.py:106-135 | In an accepted list, every layer's projection equals the default, because the reference is never taken from a layer. |
| `Integrity.VectorFirstRejected` | engine/core.py:165-167 | A list whose first layer is a vector is always rejected: the reference dimensions come from `layer_files[0]`, not from the first raster. |
| `Integrity.KeywordCheckPasses` | engine/core.py:115-125 | A layer's keyword check passes iff every required keyword is present with a non-empty value. |
| `Integrity.KeywordCheckFailure` | engine/core.py:116-125 | A keyword failure names the layer and a required keyword. It is MissingKeyword exactly when the keyword is absent; EmptyKeyword means the value is empty. |
| `Integrity.LayerCheckPasses` | engine/core.py:115-163 | One layer passes iff it is acceptable against the references in force after it is seen. The first raster or vector is its own reference and is trivially close to itself. |
| `Integrity.FirstPassPasses` | engine/core.py:113-163 | The first pass accepts iff every layer is acceptable against the first raster's geotransform and the first vector's geometry; the references are never replaced. |
| `Integrity.FirstPassFailsAt` | engine/core.py:113-163 | When the first pass fails with `e`, some layer `i` fails with `e` against the references of the layers before it, and every earlier layer passes. |
| `Integrity.AlignmentPassPasses` | engine/core.py:165-185 | The second pass accepts iff every raster has exactly the reference rows and columns. |
| `Integrity.AlignmentPassFailure` | engine/core.py:170-185 | A second-pass failure is a row or column mismatch. It names a raster of the list whose value differs from the reference layer's. |
| `Integrity.AlignmentPassFailsAt` | engine/core.py:170-185 | The second pass names the first raster out of line: every raster before it has the reference rows and columns. A column error names a raster whose rows agree, since rows are checked first. |
| `Integrity.ValidateFailureWitnessed` | engine/core.py:113-185 | Every error the gate reports is borne out by the input. It names a listed layer that really lacks the keyword, has an empty value, another projection, a geotransform or geometry not close to its reference, no features, or other dimensions. A row or column error comes only when every layer passes the first pass, and it names the first misaligned raster. `NoLayers` means the list is empty. |
| `BoundingBoxes.Intersection` | engine/core.py:230-233 | The intersection, when it exists, is a proper box inside the viewport, hazard and exposure boxes. |
| `BoundingBoxes.IntersectionIsGreatest` | engine/core.py:196-198 | Any box inside all three lies inside the intersection. Any proper such box means the intersection exists. |
| `BoundingBoxes.IntersectionNoneIff` | engine/core.py:232-234 | No overlap is reported iff no point lies strictly inside all three boxes. |
| `BoundingBoxes.GetBoundingBoxes` | engine/core.py:188-260 | A hazard, then an exposure, object without a true `is_riab_spatial_object` is rejected, and a request box that is not four coordinates is rejected. Well-formed inputs fail only with the no-overlap error, which carries the three boxes. Success returns a proper box inside all three, paired with `None`. |
| `BoundingBoxes.GetBoundingBoxesOverlap` | engine/core.py:226-243 | For well-formed inputs, failure happens iff the three boxes share no interior point. Success returns the largest common box. |
| `BoundingBoxes.GetBoundingBoxesSymmetric` | engine/core.py:230-232 | Swapping hazard and exposure does not change a successful result. |
| `BoundingBoxes.OverlapExample` | engine/core.py:188-260 | Viewport [0,0,10,10], hazard [2,2,8,8], exposure [4,4,12,12] give [4,4,8,8]. |
| `BoundingBoxes.NoOverlapExample` | engine/core.py:232-243 | Viewport [0,0,1,1] and hazard [5,5,6,6] fail with the no-overlap error, whatever the exposure. |
| `Impact.ImpactLayer.SetName` | engine/core.py:84 | Sets the name and leaves the file name and type unchanged. |
| `Impact.CalculateImpact` | engine/core.py:25-90 | If validation fails, the error is returned, no collaborator is called, and the object `run` would return is left unchanged. A `None` from `run` fails after instantiate and run only. Otherwise the calls are unique-name then write, in that order. The extension is `.tif` iff the result is a raster, else `.shp`. `filename` is the generated name, and the write goes to it. An existing name is kept; an empty one becomes `DefaultName`, set after the write. |
| `Impact.AccumulatedIsJoin` | engine/core.py:73-76 | The naming loop builds the layer names joined by `" X "`, followed by one more `" X "`. |
| `Impact.DefaultNameWithPlugin` | engine/core.py:78-79 | With a `plugin_name` the default name is `"L1 X ... X Ln X " + plugin_name`. |
| `Impact.DefaultNameWithoutPlugin` | engine/core.py:80-82 | Without one it is `"L1 X ... X Ln "`: dropping two characters leaves a trailing space. |
| `Impact.DefaultNameExample` | engine/core.py:72-84 | Layers named "Flood" and "Population" with no plugin name give `"Flood X Population "`. |

## Left out

- BoundingBoxes.GetBoundingBoxes: takes the request box only as a sequence of reals. The docstring also allows a string "as requested by HTML POST" (engine/core.py:194), but `list(req_bbox)` (engine/core.py:219) would split such a string into characters, not parse it. That string form is not modelled.
- Reading layers from file names (`read_layer` and the string dispatch at engine/core.py:202-213): file I/O in a module that is not part of this model. Hazard and exposure arrive as already-built objects.
- `write_to_file`: persistence is external. The model records the call and its path, but not a write failure.
- `unique_filename`: uniqueness of the generated name is external. It is a function parameter here.
- The impact function's computation: `run` is an abstract function of the layers. Instantiating the plugin appears only as a recorded call.
- `calculate_impact`'s `comment` argument: the source never uses it.
- Floating point: geotransforms, coordinates and bounding boxes are real numbers. IEEE rounding, NaN and infinities are not modelled.
- `numpy.allclose` broadcasting: arrays of different lengths count as not close. numpy raises an error for such arrays instead, or broadcasts an array of length one. Either way, the model does not follow numpy for these arrays.
- Projection internals and the value of `DEFAULT_PROJECTION`: a projection is compared by value, and the default is a parameter.
- The contents of `REQUIRED_KEYWORDS`: a parameter, checked in its listed order. Keyword values are strings; "truthy" means non-empty.
- Message texts, `bboxlist2string`, the manual link, the instructions text and logging.
- The commented-out buffered-bounding-box code (engine/core.py:245-258) and `get_linked_layers` (engine/core.py:263-316): inactive code. The second slot of the returned pair is always `None`.
- The unused imports `buffered_bounding_box`, `is_sequence`, `bboxstring2list` and `check_bbox_string`.
