# Matmul fusion passes and the grid_sampler operator, modelled in Dafny

This project models two pieces of PaddlePaddle's fluid framework.

**The five matmul-rewriting IR passes** of
`paddle/fluid/framework/ir/map_matmul_to_mul_pass.cc`:

- `map_matmul_to_mul_pass` rewrites a plain matmul as a mul;
- `map_matmul_v2_to_matmul_pass` rewrites matmul_v2 as matmul;
- `squeeze2_matmul_fuse_pass`, `reshape2_matmul_fuse_pass` and `flatten2_matmul_fuse_pass`
  fold a squeeze2, reshape2 or flatten2 in front of a matmul into one mul.

Each pass declares operator contracts (`OpCompat`) in its constructor. Its handler then runs
on every subgraph the pattern detector reports:

1. a structural filter over shapes, attributes and consumers;
2. a check of the matched operators against the contracts;
3. the build of the replacement operator descriptor;
4. the splice into the graph: create the node, link its edges, remove the obsolete nodes, and
   count one fusion.

**The grid_sampler operator's compile-time parts**, from
`paddle/fluid/operators/grid_sampler_op.cc`:

- shape inference;
- the default of its `use_cudnn` attribute;
- the descriptor of its gradient operator.

Modules:

- `Wrappers`: `Option` and `Result`.
- `OpDescs`: operator descriptors with a tagged attribute variant and typed attribute getters
  that fail where the framework's accessor raises; gradient variable names.
- `Graphs`: the IR graph as an arena of nodes with ordered input and output lists. A `Graph`
  class offers the three mutations the handlers call: `CreateOpNode`, `LinkTo` and
  `SafeRemoveNodes`.
- `OpCompats`: operator contracts as data, and the judgement of a descriptor against the
  contract registered for its type.
- `MatmulFusePasses` (pure): the contract tables and version capabilities, the role bindings
  a handler receives, the filters, the descriptor builders, and the outcome of one handler
  invocation. Also the lemmas about what the checks admit and what a rewrite does to the
  graph.
- `MatmulFuseApply` (imperative):
  - `Handle` mutates the graph like one handler invocation;
  - `ApplyPass` loops over the bindings and counts the fusions;
  - lemmas about the effect of a whole run.
- `GridSampler` (pure): `InferShape`, the attribute default and the gradient descriptor.

How source behaviour maps into the model:

- A raising attribute read (`BOOST_GET_CONST` on a missing or differently typed attribute)
  becomes the `Fatal` outcome. `ApplyPass` stops on it and returns an error.
- A failed `IsCompat` on the matched subgraph is the `PreCheckFailed` outcome. Nothing is
  mutated and nothing is counted.
- The reshape2 pass checks the new descriptor before splicing, so a failure there is
  `PostCheckFailed` with the graph unchanged.
- The other passes splice first. The `Fused` outcome records whether the new descriptor passed
  its check; a failing one stays in the graph with only a warning.

The contract judgement follows `OpCompat` as the passes use it:

- A declared tensor slot that holds names must hold exactly one name. An absent or empty slot
  passes only when declared optional.
- A declared attribute that is present must satisfy every condition. An absent one passes
  only when declared optional.
- An operator type with no registered contract fails the check.

The `use_cudnn` attribute's description text says its default is false. The code sets the
default to true (`grid_sampler_op.cc:79-82`), and the model follows the code
(`GridSampler.UseCudnnDefault`).

## Model

| member | source | states |
|---|---|---|
| OpDescs.GetAttr | paddle/fluid/framework/ir/map_matmul_to_mul_pass.cc:255-261 | reading an attribute succeeds exactly when it is present and yields its value; otherwise it fails with attribute-not-found |
| OpDescs.GetBool | paddle/fluid/framework/ir/map_matmul_to_mul_pass.cc:227-230 | the boolean read succeeds exactly when the attribute is present and boolean, returning its value |
| OpDescs.GetFloat | paddle/fluid/framework/ir/map_matmul_to_mul_pass.cc:231-234 | the float read succeeds exactly when the attribute is present and a float, returning its value |
| OpDescs.GetInts | paddle/fluid/framework/ir/map_matmul_to_mul_pass.cc:359-360 | the integer-list read succeeds exactly when the attribute is present and an integer list |
| OpDescs.GetInt | paddle/fluid/framework/ir/map_matmul_to_mul_pass.cc:585-586 | the integer read succeeds exactly when the attribute is present and an integer |
| Graphs.Without | paddle/fluid/framework/ir/map_matmul_to_mul_pass.cc:266 | erasing removed ids from an adjacency list keeps exactly the ids not removed and never lengthens it |
| Graphs.Linked | paddle/fluid/framework/ir/map_matmul_to_mul_pass.cc:263-265 | linking a to b appends b to a's outputs and a to b's inputs (both lists of a node linked to itself); every other node is unchanged |
| Graphs.LinkedKeepsEdgesLive | paddle/fluid/framework/ir/map_matmul_to_mul_pass.cc:263-265 | linking two live nodes leaves no dangling edge |
| Graphs.SafeRemoved | paddle/fluid/framework/ir/map_matmul_to_mul_pass.cc:266 | safe removal drops exactly the removed nodes and strips every reference to them from the survivors |
| Graphs.SafeRemovedKeepsEdgesLive | paddle/fluid/framework/ir/map_matmul_to_mul_pass.cc:266 | safe removal of any set of nodes leaves no dangling edge |
| Graphs.WiredShape | paddle/fluid/framework/ir/map_matmul_to_mul_pass.cc:262-265 | creating the node and linking x, y into it and it into out gives the node inputs [x, y] and outputs [out]; each boundary variable gains exactly that edge; nothing else changes; no edge dangles |
| Graphs.SplicedNodes | paddle/fluid/framework/ir/map_matmul_to_mul_pass.cc:262-266 | a splice removes exactly the obsolete nodes, adds exactly the new node, and leaves no dangling edge |
| Graphs.SplicedWiring | paddle/fluid/framework/ir/map_matmul_to_mul_pass.cc:262-266 | after a splice the new node reads x and y and writes out; each boundary variable keeps its kind, loses its edges to removed nodes and gains the edge to or from the new node |
| Graphs.SplicedSurvivors | paddle/fluid/framework/ir/map_matmul_to_mul_pass.cc:266 | every other surviving node only loses its edges to removed nodes |
| Graphs.SplicedKeepsKinds | paddle/fluid/framework/ir/map_matmul_to_mul_pass.cc:262-266 | every node a splice does not remove survives with its kind |
| Graphs.Graph.constructor | paddle/fluid/framework/ir/map_matmul_to_mul_pass.cc:207-211 | the graph a pass receives holds the given nodes with live edges and hands out ids from a fresh start; it is valid |
| Graphs.Graph.CreateOpNode | paddle/fluid/framework/ir/map_matmul_to_mul_pass.cc:262 | adds an operator node with no edges under the next id, which is fresh; the graph stays valid |
| Graphs.Graph.LinkTo | paddle/fluid/framework/ir/map_matmul_to_mul_pass.cc:263-265 | the graph becomes the linked graph; the next id is unchanged; the graph stays valid |
| Graphs.Graph.SafeRemoveNodes | paddle/fluid/framework/ir/map_matmul_to_mul_pass.cc:266 | the graph becomes the safely removed graph; the next id is unchanged; the graph stays valid |
| OpCompats.FindCompat | paddle/fluid/framework/ir/map_matmul_to_mul_pass.cc:32-69 | the lookup finds the first registered contract of the operator's type, and finds none exactly when no contract has that type |
| MatmulFusePasses.Registered | paddle/fluid/framework/ir/map_matmul_to_mul_pass.cc:652-692 | each pass kind has its pass, carrying the corrected contract table; its capability lists the matched operator first, the front op at version 0 next, and the created operator last |
| MatmulFusePasses.RegisteredCapability | paddle/fluid/framework/ir/map_matmul_to_mul_pass.cc:652-692 | each pass is registered under its own name (map_matmul_to_mul_pass, map_matmul_v2_to_matmul_pass, squeeze2_/reshape2_/flatten2_matmul_fuse_pass) with exactly two or, with a front op, three capability entries: matmul at most version 1 (matmul_v2 exactly 0), the front op exactly 0, and mul exactly 0 (matmul at least 0) |
| MatmulFusePasses.RegisteredCovers | paddle/fluid/framework/ir/map_matmul_to_mul_pass.cc:31-476 | every operator a pass matches (matmul or matmul_v2, and the front op) and the one it creates (mul, or matmul for the v2 pass) has a contract in the pass's table |
| MatmulFusePasses.CorrectedVersusDeclared | paddle/fluid/framework/ir/map_matmul_to_mul_pass.cc:31-476 | the corrected tables equal the declared ones for map_matmul_to_mul and map_matmul_v2_to_matmul; for squeeze2, reshape2 and flatten2 they differ only in the one entry each finding names: the type name "squeeze2", transposes expected false, and a flatten2 contract without "Y" |
| MatmulFusePasses.MapMatmulToMulFilter | paddle/fluid/framework/ir/map_matmul_to_mul_pass.cc:225-241 | the filter raises exactly when a transpose flag is missing or not boolean, or alpha is present but not a float. It accepts exactly when both transposes are false, alpha (one when absent) is within 1e-5 of one, x rank is at least 2 and y rank is 2 |
| MatmulFusePasses.MapMatmulToMulFusesOnlyIf | paddle/fluid/framework/ir/map_matmul_to_mul_pass.cc:225-243 | map_matmul_to_mul fuses only under its filter's conditions; otherwise the graph and the next id (the fusion count) are untouched |
| MatmulFusePasses.UnitMatmul2D | paddle/fluid/framework/ir/map_matmul_to_mul_pass.cc:365-374 | the matmul half of the front filters raises exactly when a transpose or alpha is missing or mistyped. It accepts exactly when both transposes are false, alpha is within 1e-5 of one, and both operands are 2-D |
| MatmulFusePasses.Squeeze2MatmulFilter | paddle/fluid/framework/ir/map_matmul_to_mul_pass.cc:356-378 | the squeeze2 filter raises exactly when axes or a matmul attribute is missing or mistyped. It accepts exactly when: the input is 4-D; axes is [2, 3]; matmul_in_x has one consumer; the matmul half holds; matmul_out's only consumer is elementwise_add |
| MatmulFusePasses.Reshape2MatmulFilter | paddle/fluid/framework/ir/map_matmul_to_mul_pass.cc:498-522 | the reshape2 filter raises exactly when shape or a matmul attribute is missing or mistyped. It accepts exactly when: reshape2 has one input; that input is 4-D with dims 2 and 3 equal to one; shape has two entries; matmul_in_x has one consumer; the matmul half holds; matmul_out's only consumer is elementwise_add |
| MatmulFusePasses.Flatten2MatmulFilter | paddle/fluid/framework/ir/map_matmul_to_mul_pass.cc:580-609 | the flatten2 filter raises exactly when axis is missing or not an integer, or a matmul attribute is. It accepts exactly when: flatten2 has one input; that input is 4-D; matmul_in_x has one consumer; the matmul half holds; matmul_out's only consumer is elementwise_add. The axis value is not constrained |
| MatmulFusePasses.WithInt8Attrs | paddle/fluid/framework/ir/map_matmul_to_mul_pass.cc:255-261 | the four quantization attributes are copied with identical values exactly when the matmul has enable_int8; otherwise none is set; the rest of the descriptor is unchanged. A missing scale raises |
| MatmulFusePasses.MulDesc | paddle/fluid/framework/ir/map_matmul_to_mul_pass.cc:248-261 | the built mul has type mul, the given X, Y and Out, the given x_num_col_dims and y_num_col_dims 1. Its only other attributes are the propagated quantization ones |
| MatmulFusePasses.MapMatmulToMulDesc | paddle/fluid/framework/ir/map_matmul_to_mul_pass.cc:248-254 | map_matmul_to_mul's mul reads the matmul's X and Y, writes its Out, and has x_num_col_dims equal to the x rank minus one |
| MatmulFusePasses.MatmulFromV2Desc | paddle/fluid/framework/ir/map_matmul_to_mul_pass.cc:305-318 | the new matmul has the same X, Y and Out; transpose_X and transpose_Y equal the matmul_v2's trans_x and trans_y; quantization attributes are propagated, and no other attribute is set. A missing trans_x or trans_y raises |
| MatmulFusePasses.FrontMulDesc | paddle/fluid/framework/ir/map_matmul_to_mul_pass.cc:385-398 | squeeze2's and reshape2's mul reads the front op's input as X, the matmul's Y, writes the matmul's Out, and has x_num_col_dims 1 |
| MatmulFusePasses.Flatten2MulDesc | paddle/fluid/framework/ir/map_matmul_to_mul_pass.cc:616-629 | flatten2's mul reads the flatten2 input as X, the matmul's Y, writes its Out, and has x_num_col_dims equal to the flatten2 axis |
| MatmulFusePasses.OutcomeOfSpec | paddle/fluid/framework/ir/map_matmul_to_mul_pass.cc:489-554 | for any contract table, one handler invocation fuses or fails its post-check only after the filter accepted, the matched operators passed their contracts and the build succeeded; conversely, when all of these pass (and, for reshape2, the new descriptor passes its contract) it fuses. It skips silently exactly when the filter rejects, fails the pre-check exactly when the filter accepted and the contracts do not hold, and aborts exactly when the filter raises or, after the pre-check, the build raises, with that error. A fused node carries the built descriptor and the result of the post-check. Only reshape2 can fail the post-check, and a fused reshape2 descriptor always passed it |
| MatmulFusePasses.SpliceShape | paddle/fluid/framework/ir/map_matmul_to_mul_pass.cc:262-266 | the handler's splice removes exactly the obsolete nodes and adds the new node reading x and y and writing out; every other node keeps its kind; no edge dangles; ids stay below the next id |
| MatmulFusePasses.RewriteShape | paddle/fluid/framework/ir/map_matmul_to_mul_pass.cc:399-404 | a handler that does not fuse leaves the graph untouched. One that fuses removes exactly {matmul} or {front op, matmul_in_x, matmul} and adds one node, reading the fused X input and the matmul's Y and writing its output |
| MatmulFusePasses.MulJudged | paddle/fluid/framework/ir/map_matmul_to_mul_pass.cc:189-204 | a built mul passes the mul contract exactly when its x_num_col_dims is 1 (for the squeeze2 and reshape2 contracts) or at least 1 (for the others) |
| MatmulFusePasses.BuiltCompat | paddle/fluid/framework/ir/map_matmul_to_mul_pass.cc:135-150 | a pass's new descriptor passes its own table, except flatten2's mul, which passes exactly when the flatten2 axis is at least 1 |
| MatmulFusePasses.PostCheck | paddle/fluid/framework/ir/map_matmul_to_mul_pass.cc:636-640 | with the corrected tables no handler fails the post-check. Every fused descriptor passed it, except a flatten2 mul with axis 0, which stays in the graph |
| MatmulFusePasses.UnitMatmulJudged | paddle/fluid/framework/ir/map_matmul_to_mul_pass.cc:32-52 | a matmul with one X, Y and Out that a fusing filter accepts satisfies the unit-matmul contract |
| MatmulFusePasses.NarrowMatmulJudged | paddle/fluid/framework/ir/map_matmul_to_mul_pass.cc:439-458 | the same matmul satisfies reshape2's narrower alpha contract when the transposes are expected false |
| MatmulFusePasses.FrontJudged | paddle/fluid/framework/ir/map_matmul_to_mul_pass.cc:175-187 | a squeeze2, reshape2 or flatten2 with its defined slots satisfies its contract when its one attribute does |
| MatmulFusePasses.PreCheckAdmits | paddle/fluid/framework/ir/map_matmul_to_mul_pass.cc:243-247 | with the corrected tables the pre-check admits every binding the filter accepted. This needs the matched operators to have their defined slots and, for flatten2, a non-negative axis |
| MatmulFusePasses.Squeeze2PreCheckAdmits | paddle/fluid/framework/ir/map_matmul_to_mul_pass.cc:380-384 | squeeze2's pre-check, with its contract under the op type squeeze2, admits every binding its filter accepted |
| MatmulFusePasses.Reshape2PreCheckAdmits | paddle/fluid/framework/ir/map_matmul_to_mul_pass.cc:524-528 | reshape2's pre-check, with the transposes expected false, admits every binding its filter accepted |
| MatmulFusePasses.Flatten2PreCheckAdmits | paddle/fluid/framework/ir/map_matmul_to_mul_pass.cc:611-615 | flatten2's pre-check, without a Y input slot, admits every binding its filter accepted that has a non-negative axis |
| MatmulFusePasses.WellFormedMatchFuses | paddle/fluid/framework/ir/map_matmul_to_mul_pass.cc:611-635 | with the corrected tables, every pass fuses a binding its filter accepts when the matched operators have their defined slots and the attributes the contracts and the builder read; the outcome is the built descriptor under the next id |
| MatmulFusePasses.Reshape2AsWrittenNeverFuses | paddle/fluid/framework/ir/map_matmul_to_mul_pass.cc:453-458 | with the transposes expected to equal "False" as declared (true), reshape2's pre-check rejects every binding its filter accepted: the pass never fuses |
| MatmulFusePasses.Squeeze2AsWrittenNeverFuses | paddle/fluid/framework/ir/map_matmul_to_mul_pass.cc:175-187 | with the contract filed under "Squeeze2", no squeeze2 op has a contract: the pass never fuses |
| MatmulFusePasses.Flatten2AsWrittenNeverFuses | paddle/fluid/framework/ir/map_matmul_to_mul_pass.cc:118-133 | with a mandatory Y input declared for flatten2, no flatten2 op without a Y input passes the pre-check: the pass never fuses |
| MatmulFuseApply.SpliceIn | paddle/fluid/framework/ir/map_matmul_to_mul_pass.cc:262-266 | create, three links and one safe removal leave the graph as the splice specifies, with the new node under the old next id |
| MatmulFuseApply.Handle | paddle/fluid/framework/ir/map_matmul_to_mul_pass.cc:218-642 | the five handlers (map_matmul_to_mul, map_matmul_v2_to_matmul with no structural filter, squeeze2, reshape2, flatten2): the outcome and the new graph are those of one invocation, and the next id advances exactly on a fusion. Reshape2's post-check runs before the splice, so its failure leaves the graph unchanged |
| MatmulFuseApply.FusedCount | paddle/fluid/framework/ir/map_matmul_to_mul_pass.cc:267 | the number of fusions is at most the number of invocations, and zero exactly when none fused |
| MatmulFuseApply.HandleNext | paddle/fluid/framework/ir/map_matmul_to_mul_pass.cc:276 | one detector callback extends the run by one step and the count by one exactly on a fusion; later bindings stay valid |
| MatmulFuseApply.ApplyPass | paddle/fluid/framework/ir/map_matmul_to_mul_pass.cc:207-278 | ApplyImpl's run is a sequence of handler invocations, each on the previous graph. On completion it covers every binding and returns found_count, the number of fusions. A raising attribute read aborts with that error as the last step |
| MatmulFuseApply.NextIdCounts | paddle/fluid/framework/ir/map_matmul_to_mul_pass.cc:262-267 | after k steps the next id is the start id plus the fusions among them: one node is created per counted fusion |
| MatmulFuseApply.StaysGone | paddle/fluid/framework/ir/map_matmul_to_mul_pass.cc:266 | a removed node never reappears later in the run |
| MatmulFuseApply.CreatedStays | paddle/fluid/framework/ir/map_matmul_to_mul_pass.cc:262 | a node the run created keeps its kind to the end of the run |
| MatmulFuseApply.SurvivorStays | paddle/fluid/framework/ir/map_matmul_to_mul_pass.cc:266 | a starting node no fusing step removes keeps its kind to the end |
| MatmulFuseApply.RemovedGone | paddle/fluid/framework/ir/map_matmul_to_mul_pass.cc:266 | every node any fusing step removed is absent from the final graph |
| MatmulFuseApply.CreatedPresent | paddle/fluid/framework/ir/map_matmul_to_mul_pass.cc:262 | every node a fusing step created is in the final graph with the descriptor that step built |
| MatmulFuseApply.RunEffect | paddle/fluid/framework/ir/map_matmul_to_mul_pass.cc:276-277 | a whole run advances the next id by found_count. It removes every obsolete node of every fusion and keeps every created node with its descriptor. Every other starting node keeps its kind |
| GridSampler.InferShape | paddle/fluid/operators/grid_sampler_op.cc:29-48 | inference succeeds exactly when X, Grid and Output are present, both tensors are 4-D, Grid's last dim is 2, and Grid dims 0, 1, 2 equal X dims 0, 2, 3. On success only Output's dims are set, to X's. Each failure is reported as the first check that fails, in source order |
| GridSampler.InferShapeAccepts | paddle/fluid/operators/grid_sampler_op.cc:39-46 | X of shape [N, C, H, W] with Grid of shape [N, H, W, 2] is accepted and Output gets [N, C, H, W] |
| GridSampler.WithAttrDefaults | paddle/fluid/operators/grid_sampler_op.cc:79-82 | use_cudnn is added as true when absent; a present int or float is converted to a bool (non-zero is true), a present string or list is rejected, and every other attribute is unchanged |
| GridSampler.WithAttrDefaultsIdempotent | paddle/fluid/operators/grid_sampler_op.cc:79-82 | filling the defaults of an accepted map twice is filling them once |
| GridSampler.GradNames | paddle/fluid/operators/grid_sampler_op.cc:122 | the gradient names of a list are, position by position, each name with the @GRAD suffix |
| GridSampler.ForwardNameOfGrad | paddle/fluid/operators/grid_sampler_op.cc:126-127 | stripping the gradient suffix recovers the forward variable name |
| GridSampler.GradNamesInjective | paddle/fluid/operators/grid_sampler_op.cc:126-127 | distinct forward variables have distinct gradient variables |
| GridSampler.GridSamplerGradDesc | paddle/fluid/operators/grid_sampler_op.cc:117-129 | the gradient maker succeeds exactly when the forward op has X, Grid and Output. The descriptor has type grid_sampler_grad and exactly the inputs X, Grid and Output@GRAD (the forward names, and the gradients of Output). It carries the forward attribute map unchanged and exactly the outputs X@GRAD and Grid@GRAD (the gradients of X and Grid) |
| GridSampler.GradOutputsInvert | paddle/fluid/operators/grid_sampler_op.cc:126-127 | every variable the gradient op writes is, position by position, the gradient of the forward X or Grid variable it reads |

## Left out

- paddle/fluid/framework/attribute.h is not part of this model; `GridSampler.WithAttrDefaults`
  follows its bool extractor, which converts an int or float in place and raises on any other type.
- The pattern detector (`GraphPatternDetector`) is not part of this model. Each handler takes
  the role-to-node binding as input (`Match`, with `Binds` saying the roles are live, of the
  right kind and operator type, and distinct).
- `MatmulFusePasses.Registered` carries the corrected contract tables of the "## Findings"
  rows, not the ones the squeeze2, reshape2 and flatten2 constructors declare; with the declared
  tables those three passes never fuse (the as-written lemmas). `CorrectedVersusDeclared`
  states exactly where the two differ.
- `MatmulFuseApply.ApplyPass` requires `Separated`: no node an earlier binding's rewrite would
  remove (its matmul, and for the front-op passes also the front op and matmul_in_x) is a role
  of a later binding. Binding lists where it fails are not covered, although the source runs
  them. One example: an earlier squeeze2, reshape2 or flatten2 binding whose matmul_in_x is
  also the Y or front-op input of a later binding. There the earlier filter rejects on the
  consumer count, but `Binds` records no edges, so the model cannot derive that rejection.
  `RunEffect` assumes every role is a node of the starting graph (`RolesIn`).
- `FusePassBase::Init`, `AddStatis` and the `LOG`/`VLOG` output are not modelled. The
  statistic is the count `ApplyPass` returns.
- alpha is a real number, and the 1e-5 tolerance is a real-valued comparison. IEEE float
  rounding is not modelled.
- op_compat_sensible_pass.cc is not part of this model. Its further checks are left out:
  rejecting non-empty undeclared slots, and comparing undeclared attributes with their
  registered defaults. The pre-check lemmas (`PreCheckAdmits` and the three per-kind lemmas)
  therefore assume the matched operators carry only their defined slots (`MatchedSlots`).
- `OpCompats.CondHolds`: a numeric condition on a non-numeric attribute fails. The real
  behaviour there is in op_compat_sensible_pass.cc, which is not part of this model.
- The graph's own implementation (`Graph::CreateOpNode`, `IR_NODE_LINK_TO`,
  `GraphSafeRemoveNodes`) is not part of this model. It is modelled from its documented
  behaviour on an arena of nodes with ordered adjacency lists. Variable descriptors and
  operator blocks are not modelled.
- The `REGISTER_PASS`, `REGISTER_OPERATOR` and kernel registration macros are left out, as
  global registration side effects. The version capabilities are a constant table in
  `Registered`.
- `GetExpectedKernelType` (CUDA and cuDNN dispatch) and the grid sampler kernels (floating-point
  numerics) are not modelled.
- `GridSampleOpGrad::InferShape` has an empty body and is not modelled.
- `ShareLoD("X", "Output")` in shape inference is not modelled; the model carries no LoD.
- `GridSampler.InferShape` models an input as present when the context has dims for it. The
  framework's further distinction (a slot that exists but is empty) is not modelled.
- `GridSampler.GridSamplerGradDesc` does not model the no-grad set, by which `InputGrad`
  replaces a name with the empty variable name. Every input gradient is produced.
- batch_norm_act_fuse_pass.h holds declarations only and is not modelled.

## Findings

| source | as written | input that shows it | evidently intended | confidence | as-written member | corrected member |
|---|---|---|---|---|---|---|
| paddle/fluid/framework/ir/map_matmul_to_mul_pass.cc:453-458 | reshape2's matmul contract passes the string literal "False" to `IsBoolEQ`, which takes a `bool`; the string literal's address (non-null) converts to true | any reshape2 + matmul binding the filter accepts, which needs transpose_X = transpose_Y = false; the contract then demands true | both transposes expected false, as the filter requires | not executed | MatmulFusePasses.Reshape2AsWrittenNeverFuses | MatmulFusePasses.Reshape2PreCheckAdmits |
| paddle/fluid/framework/ir/map_matmul_to_mul_pass.cc:175 | the squeeze2 contract is registered under the type name "Squeeze2", while the operator's type is "squeeze2" | any squeeze2 + matmul binding: the lookup for "squeeze2" finds no contract, so the pre-check fails | the contract registered under "squeeze2" | not executed | MatmulFusePasses.Squeeze2AsWrittenNeverFuses | MatmulFusePasses.Squeeze2PreCheckAdmits |
| paddle/fluid/framework/ir/map_matmul_to_mul_pass.cc:118-124 | the flatten2 contract declares a mandatory input "Y", which flatten2 does not have | any flatten2 + matmul binding whose flatten2 has no Y input | flatten2 declared with its X input only | not executed | MatmulFusePasses.Flatten2AsWrittenNeverFuses | MatmulFusePasses.Flatten2PreCheckAdmits |
