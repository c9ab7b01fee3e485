/** Impact orchestration (`calculate_impact`): validate the input layers,
    run the impact function, name and store its result.

    The impact function, the unique-filename generator and the result's
    writer are collaborators outside this model. The method records every
    call it makes to them, in order, so that the order of the steps is part
    of its contract. */
module Impact {
  import opened Wrappers
  import opened Layers
  import opened Integrity

  /** The layer object an impact function returns; the orchestrator sets
      its file name and, when it has none, its name. */
  class ImpactLayer {
    var isRaster: bool
    var filename: string
    /** The empty string stands for "no name". */
    var name: string

    method SetName(newName: string)
      modifies this
      ensures name == newName
      ensures filename == old(filename) && isRaster == old(isRaster)
    {
      name := newName;
    }
  }

  /** An instance of an impact function: its optional `plugin_name` and
      what its `run` returns for a list of layers (`None` for Python's None). */
  datatype ImpactFunction = ImpactFunction(pluginName: Option<string>, run: seq<Layer> -> Option<ImpactLayer>)

  /** Calls to collaborators, in the order they are made. `WriteToFile`
      records the result's name at the time it is written. */
  datatype Call =
    | Instantiate
    | Run
    | UniqueFilename(suffix: string)
    | WriteToFile(path: string, nameWritten: string)
    | SetNameCall(newName: string)

  datatype ImpactError =
    | Invalid(cause: ValidationError)
      /** the impact function returned None */
    | NullResult

  /** The objects the orchestrator may update: the one `run` returns, if any. */
  function Produced(f: ImpactFunction, layers: seq<Layer>): set<ImpactLayer>
  {
    if f.run(layers).Some? then {f.run(layers).value} else {}
  }

  function Names(layers: seq<Layer>): seq<string>
  {
    seq(|layers|, i requires 0 <= i < |layers| => layers[i].name)
  }

  /** The default name as the loop builds it: every layer name followed by " X ". */
  function Accumulated(layers: seq<Layer>): string
    decreases |layers|
  {
    if layers == [] then ""
    else Accumulated(layers[..|layers| - 1]) + layers[|layers| - 1].name + " X "
  }

  /** Python's `s[:-2]`. */
  function DropLastTwo(s: string): string
  {
    if |s| >= 2 then s[..|s| - 2] else ""
  }

  /** The accumulated names followed by the plugin name, or, without one,
      with the last two characters ("X ") dropped. */
  function DefaultName(layers: seq<Layer>, pluginName: Option<string>): string
  {
    match pluginName
    case Some(p) => Accumulated(layers) + p
    case None => DropLastTwo(Accumulated(layers))
  }

  /** Reference definition: the names joined by a separator. */
  function Join(names: seq<string>, sep: string): string
    decreases |names|
  {
    if |names| == 0 then ""
    else if |names| == 1 then names[0]
    else names[0] + sep + Join(names[1..], sep)
  }

  lemma {:induction false} JoinSnoc(names: seq<string>, n: string, sep: string)
    requires |names| > 0
    ensures Join(names + [n], sep) == Join(names, sep) + sep + n
    decreases |names|
  {
    if |names| > 1 {
      assert (names + [n])[1..] == names[1..] + [n];
      JoinSnoc(names[1..], n, sep);
    }
  }

  /** What the naming loop accumulates is the names joined by " X ", plus one more " X ". */
  lemma {:induction false} AccumulatedIsJoin(layers: seq<Layer>)
    requires |layers| > 0
    ensures Accumulated(layers) == Join(Names(layers), " X ") + " X "
    decreases |layers|
  {
    var init := layers[..|layers| - 1];
    var last := layers[|layers| - 1];
    if |init| == 0 {
      assert Accumulated(init) == "";
      assert Names(layers) == [last.name];
    } else {
      AccumulatedIsJoin(init);
      assert Names(layers) == Names(init) + [last.name];
      JoinSnoc(Names(init), last.name, " X ");
    }
  }

  /** With a plugin name, the default name is "L1 X L2 X ... X Ln X plugin". */
  lemma DefaultNameWithPlugin(layers: seq<Layer>, pluginName: string)
    requires |layers| > 0
    ensures DefaultName(layers, Some(pluginName)) == Join(Names(layers), " X ") + " X " + pluginName
  {
    AccumulatedIsJoin(layers);
  }

  /** Without one, it is "L1 X L2 X ... X Ln " — dropping two characters
      leaves a trailing space. */
  lemma DefaultNameWithoutPlugin(layers: seq<Layer>)
    requires |layers| > 0
    ensures DefaultName(layers, None) == Join(Names(layers), " X ") + " "
  {
    AccumulatedIsJoin(layers);
    var joined := Join(Names(layers), " X ");
    assert Accumulated(layers) == (joined + " ") + "X ";
  }

  /** Layers named "Flood" and "Population", no plugin name: "Flood X Population ". */
  lemma DefaultNameExample(flood: Layer, population: Layer)
    requires flood.name == "Flood" && population.name == "Population"
    ensures DefaultName([flood, population], None) == "Flood X Population "
  {
    DefaultNameWithoutPlugin([flood, population]);
    assert Names([flood, population]) == ["Flood", "Population"];
  }

  /** `calculate_impact`. `impactFunction` is the instance the factory
      yields; `uniqueFilename` maps an extension to the fresh file name the
      generator hands out. The object `run` returns already exists when the
      orchestrator receives it, hence the `allocated` precondition. */
  method CalculateImpact(layers: seq<Layer>, required: seq<string>, defaultProjection: Projection,
                         impactFunction: ImpactFunction, uniqueFilename: string -> string)
    returns (r: Result<ImpactLayer, ImpactError>, calls: seq<Call>)
    requires impactFunction.run(layers).Some? ==> allocated(impactFunction.run(layers).value)
    modifies Produced(impactFunction, layers)
    ensures Validate(layers, required, defaultProjection).Fail? ==>
              && r == Failure(Invalid(Validate(layers, required, defaultProjection).error))
              && calls == []
              && unchanged(Produced(impactFunction, layers))
    ensures Validate(layers, required, defaultProjection).Pass? && impactFunction.run(layers).None? ==>
              && r == Failure(NullResult)
              && calls == [Instantiate, Run]
    ensures Validate(layers, required, defaultProjection).Pass? && impactFunction.run(layers).Some? ==>
              var f := impactFunction.run(layers).value;
              var extension := if f.isRaster then ".tif" else ".shp";
              && r == Success(f)
              && f.isRaster == old(f.isRaster)
              && f.filename == uniqueFilename(extension)
              && |calls| >= 4
              && calls[..4] == [Instantiate, Run, UniqueFilename(extension), WriteToFile(f.filename, old(f.name))]
              && (old(f.name) != "" ==> f.name == old(f.name) && |calls| == 4)
              && (old(f.name) == "" ==>
                    f.name == DefaultName(layers, impactFunction.pluginName) && calls[4..] == [SetNameCall(f.name)])
  {
    var valid := CheckDataIntegrity(layers, required, defaultProjection);
    if valid.Fail? {
      return Failure(Invalid(valid.error)), [];
    }

    calls := [Instantiate, Run];
    var result := impactFunction.run(layers);
    if result.None? {
      return Failure(NullResult), calls;
    }
    var f := result.value;

    var extension := if f.isRaster then ".tif" else ".shp";
    var outputFilename := uniqueFilename(extension);
    calls := calls + [UniqueFilename(extension)];
    f.filename := outputFilename;
    calls := calls + [WriteToFile(outputFilename, f.name)];

    if f.name == "" {
      var defaultName := "";
      var i := 0;
      while i < |layers|
        invariant 0 <= i <= |layers|
        invariant defaultName == Accumulated(layers[..i])
      {
        assert layers[..i + 1][..i] == layers[..i];
        defaultName := defaultName + layers[i].name + " X ";
        i := i + 1;
      }
      assert layers[..|layers|] == layers;
      match impactFunction.pluginName {
        case Some(p) =>
          defaultName := defaultName + p;
        case None =>
          defaultName := DropLastTwo(defaultName);
      }
      f.SetName(defaultName);
      calls := calls + [SetNameCall(defaultName)];
    }
    r := Success(f);
  }
}
