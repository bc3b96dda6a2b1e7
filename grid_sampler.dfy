/**
  The grid_sampler operator's compile-time parts: shape inference, the default
  of its one attribute, and the descriptor of its gradient operator.
 */
module GridSampler {
  import opened Wrappers
  import opened OpDescs

  /** What shape inference sees of an operator: its input dims, its declared outputs, and the output dims set so far. */
  datatype InferShapeContext = InferShapeContext(
    inputDims: map<string, seq<int>>,
    outputs: set<string>,
    outputDims: map<string, seq<int>>)

  /** The enforcement that failed, in the order the checks run. */
  datatype ShapeError =
    | MissingInput(slot: string)
    | MissingOutput(slot: string)
    | XNotFourD
    | GridNotFourD
    | GridLastDimNotTwo
    | BatchMismatch      // Grid dims[0] != X dims[0]
    | HeightMismatch     // Grid dims[1] != X dims[2]
    | WidthMismatch      // Grid dims[2] != X dims[3]

  /** X is [N, C, H, W] and Grid is [N, H, W, 2]. */
  predicate ShapesAgree(x: seq<int>, grid: seq<int>) {
    && |x| == 4 && |grid| == 4
    && grid[3] == 2
    && grid[0] == x[0] && grid[1] == x[2] && grid[2] == x[3]
  }

  /** The slots shape inference needs are all present. */
  predicate SlotsPresent(ctx: InferShapeContext) {
    "X" in ctx.inputDims && "Grid" in ctx.inputDims && "Output" in ctx.outputs
  }

  /**
    GridSampleOp::InferShape: check the slots, the ranks, the last grid
    dimension and the three cross-tensor equalities, then set Output's dims
    to X's.
   */
  function InferShape(ctx: InferShapeContext): (r: Result<InferShapeContext, ShapeError>)
    ensures r.Ok? <==> SlotsPresent(ctx) && ShapesAgree(ctx.inputDims["X"], ctx.inputDims["Grid"])
    ensures r.Ok? ==> r.value == ctx.(outputDims := ctx.outputDims["Output" := ctx.inputDims["X"]])
    ensures r == Err(MissingInput("X")) <==> "X" !in ctx.inputDims
    ensures r == Err(MissingInput("Grid")) <==> "X" in ctx.inputDims && "Grid" !in ctx.inputDims
    ensures r == Err(MissingOutput("Output")) <==>
      "X" in ctx.inputDims && "Grid" in ctx.inputDims && "Output" !in ctx.outputs
    ensures SlotsPresent(ctx) && |ctx.inputDims["X"]| != 4 ==> r == Err(XNotFourD)
    ensures SlotsPresent(ctx) && |ctx.inputDims["X"]| == 4 && |ctx.inputDims["Grid"]| != 4 ==> r == Err(GridNotFourD)
    ensures SlotsPresent(ctx) && |ctx.inputDims["X"]| == 4 && |ctx.inputDims["Grid"]| == 4 ==>
      var x, grid := ctx.inputDims["X"], ctx.inputDims["Grid"];
      && (grid[3] != 2 ==> r == Err(GridLastDimNotTwo))
      && (grid[3] == 2 && grid[0] != x[0] ==> r == Err(BatchMismatch))
      && (grid[3] == 2 && grid[0] == x[0] && grid[1] != x[2] ==> r == Err(HeightMismatch))
      && (grid[3] == 2 && grid[0] == x[0] && grid[1] == x[2] && grid[2] != x[3] ==> r == Err(WidthMismatch))
  {
    if "X" !in ctx.inputDims then Err(MissingInput("X"))
    else if "Grid" !in ctx.inputDims then Err(MissingInput("Grid"))
    else if "Output" !in ctx.outputs then Err(MissingOutput("Output"))
    else
      var x := ctx.inputDims["X"];
      var grid := ctx.inputDims["Grid"];
      if |x| != 4 then Err(XNotFourD)
      else if |grid| != 4 then Err(GridNotFourD)
      else if grid[3] != 2 then Err(GridLastDimNotTwo)
      else if grid[0] != x[0] then Err(BatchMismatch)
      else if grid[1] != x[2] then Err(HeightMismatch)
      else if grid[2] != x[3] then Err(WidthMismatch)
      else Ok(ctx.(outputDims := ctx.outputDims["Output" := x]))
  }

  /**
    Any X of shape [N, C, H, W] with a Grid of shape [N, H, W, 2] is accepted,
    and Output gets exactly [N, C, H, W].
   */
  lemma InferShapeAccepts(ctx: InferShapeContext, n: int, c: int, h: int, w: int)
    requires ctx.inputDims == map["X" := [n, c, h, w], "Grid" := [n, h, w, 2]]
    requires "Output" in ctx.outputs
    ensures InferShape(ctx).Ok?
    ensures InferShape(ctx).value.outputDims["Output"] == [n, c, h, w]
  {
  }

  /** The default the operator maker declares for use_cudnn (its description says false; the code sets true). */
  const UseCudnnDefault: bool := true

  /**
    The attribute map after the maker's defaults and type checks: use_cudnn,
    declared as a bool, is added with its default when absent. A present int or
    float is converted to a bool in place (non-zero is true), as the framework's
    bool attribute extractor does; a string or a list is rejected.
   */
  function WithAttrDefaults(attrs: map<string, Attr>): (r: Result<map<string, Attr>, AttrError>)
    ensures r.Err? <==>
      "use_cudnn" in attrs && (attrs["use_cudnn"].StringAttr? || attrs["use_cudnn"].IntsAttr?)
    ensures r.Err? ==> r.error == AttrTypeMismatch("use_cudnn")
    ensures r.Ok? ==> r.value.Keys == attrs.Keys + {"use_cudnn"}
    ensures r.Ok? ==> r.value["use_cudnn"].BoolAttr?
    ensures r.Ok? && "use_cudnn" !in attrs ==> r.value["use_cudnn"] == BoolAttr(UseCudnnDefault)
    ensures r.Ok? && "use_cudnn" in attrs ==>
      match attrs["use_cudnn"]
      case BoolAttr(b) => r.value["use_cudnn"].b == b
      case IntAttr(i) => r.value["use_cudnn"].b == (i != 0)
      case FloatAttr(f) => r.value["use_cudnn"].b == (f != 0.0)
      case _ => false
    ensures r.Ok? ==> forall k | k in attrs && k != "use_cudnn" :: r.value[k] == attrs[k]
  {
    if "use_cudnn" !in attrs then Ok(attrs["use_cudnn" := BoolAttr(UseCudnnDefault)])
    else
      match attrs["use_cudnn"]
      case BoolAttr(_) => Ok(attrs)
      case IntAttr(i) => Ok(attrs["use_cudnn" := BoolAttr(i != 0)])
      case FloatAttr(f) => Ok(attrs["use_cudnn" := BoolAttr(f != 0.0)])
      case _ => Err(AttrTypeMismatch("use_cudnn"))
  }

  /** Filling the defaults of an accepted map again accepts it unchanged. */
  lemma WithAttrDefaultsIdempotent(attrs: map<string, Attr>)
    requires WithAttrDefaults(attrs).Ok?
    ensures WithAttrDefaults(WithAttrDefaults(attrs).value) == WithAttrDefaults(attrs)
  {
  }

  // ---------------------------------------------------------------------------
  // Gradient operator
  // ---------------------------------------------------------------------------

  /** The gradient names of a list of variables, in order. */
  function GradNames(names: seq<string>): (r: seq<string>)
    ensures |r| == |names|
    ensures forall i | 0 <= i < |names| :: r[i] == GradVarName(names[i])
  {
    if names == [] then [] else [GradVarName(names[0])] + GradNames(names[1..])
  }

  /** The variable a gradient name is the gradient of, if it ends in the gradient suffix. */
  function ForwardName(g: string): (r: Option<string>)
    ensures r.Some? ==> g == GradVarName(r.value)
  {
    if |g| >= |GradVarSuffix| && g[|g| - |GradVarSuffix|..] == GradVarSuffix then
      Some(g[..|g| - |GradVarSuffix|])
    else None
  }

  /** Gradient naming is invertible: the forward name is recovered from the gradient name. */
  lemma ForwardNameOfGrad(name: string)
    ensures ForwardName(GradVarName(name)) == Some(name)
  {
    var g := GradVarName(name);
    assert g[|g| - |GradVarSuffix|..] == GradVarSuffix;
    assert g[..|g| - |GradVarSuffix|] == name;
  }

  /** Distinct forward variables have distinct gradient variables. */
  lemma GradNamesInjective(names: seq<string>)
    requires forall i, j | 0 <= i < j < |names| :: names[i] != names[j]
    ensures var r := GradNames(names); forall i, j | 0 <= i < j < |r| :: r[i] != r[j]
  {
    var r := GradNames(names);
    forall i, j | 0 <= i < j < |r| ensures r[i] != r[j] {
      ForwardNameOfGrad(names[i]);
      ForwardNameOfGrad(names[j]);
    }
  }

  /** The forward slot a gradient maker reads is missing. */
  datatype GradError = MissingForwardInput(slot: string) | MissingForwardOutput(slot: string)

  /**
    GridSampleGradMaker::Apply: a grid_sampler_grad descriptor reading the
    forward X, Grid and the gradient of Output, carrying the forward
    attributes, and writing the gradients of X and Grid.
   */
  function GridSamplerGradDesc(fwd: OpDesc): (r: Result<OpDesc, GradError>)
    ensures r.Ok? <==> "X" in fwd.inputs && "Grid" in fwd.inputs && "Output" in fwd.outputs
    ensures r.Ok? ==>
      && r.value.opType == "grid_sampler_grad"
      && r.value.inputs.Keys == {"X", "Grid", GradVarName("Output")}
      && r.value.inputs["X"] == fwd.inputs["X"]
      && r.value.inputs["Grid"] == fwd.inputs["Grid"]
      && r.value.inputs[GradVarName("Output")] == GradNames(fwd.outputs["Output"])
      && r.value.attrs == fwd.attrs
      && r.value.outputs.Keys == {GradVarName("X"), GradVarName("Grid")}
      && r.value.outputs[GradVarName("X")] == GradNames(fwd.inputs["X"])
      && r.value.outputs[GradVarName("Grid")] == GradNames(fwd.inputs["Grid"])
  {
    if "X" !in fwd.inputs then Err(MissingForwardInput("X"))
    else if "Grid" !in fwd.inputs then Err(MissingForwardInput("Grid"))
    else if "Output" !in fwd.outputs then Err(MissingForwardOutput("Output"))
    else
      var inputs := map[
        "X" := fwd.inputs["X"],
        "Grid" := fwd.inputs["Grid"],
        GradVarName("Output") := GradNames(fwd.outputs["Output"])];
      var outputs := map[
        GradVarName("X") := GradNames(fwd.inputs["X"]),
        GradVarName("Grid") := GradNames(fwd.inputs["Grid"])];
      Ok(OpDesc("grid_sampler_grad", inputs, outputs, fwd.attrs))
  }

  /**
    Every variable the gradient op writes is the gradient of a forward input
    it reads, one for one: stripping the suffix gives back the forward X and Grid.
   */
  lemma GradOutputsInvert(fwd: OpDesc)
    requires GridSamplerGradDesc(fwd).Ok?
    ensures var g := GridSamplerGradDesc(fwd).value;
      && (forall i | 0 <= i < |g.outputs[GradVarName("X")]| ::
            ForwardName(g.outputs[GradVarName("X")][i]) == Some(g.inputs["X"][i]))
      && (forall i | 0 <= i < |g.outputs[GradVarName("Grid")]| ::
            ForwardName(g.outputs[GradVarName("Grid")][i]) == Some(g.inputs["Grid"][i]))
  {
    var g := GridSamplerGradDesc(fwd).value;
    forall i | 0 <= i < |g.outputs[GradVarName("X")]|
      ensures ForwardName(g.outputs[GradVarName("X")][i]) == Some(g.inputs["X"][i])
    {
      ForwardNameOfGrad(g.inputs["X"][i]);
    }
    forall i | 0 <= i < |g.outputs[GradVarName("Grid")]|
      ensures ForwardName(g.outputs[GradVarName("Grid")][i]) == Some(g.inputs["Grid"][i])
    {
      ForwardNameOfGrad(g.inputs["Grid"][i]);
    }
  }
}
