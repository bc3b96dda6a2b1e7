/**
  The five matmul-rewriting fusion passes, as values: each pass's contract
  table and version capability, the role bindings a handler receives, the
  structural filters, the replacement descriptors, and what one handler
  invocation decides and leaves in the graph.

  - map_matmul_to_mul_pass: matmul -> mul
  - map_matmul_v2_to_matmul_pass: matmul_v2 -> matmul
  - squeeze2_matmul_fuse_pass, reshape2_matmul_fuse_pass,
    flatten2_matmul_fuse_pass: front op + matmul -> mul reading the front op's input
 */
module MatmulFusePasses {
  import opened Wrappers
  import opened OpDescs
  import opened Graphs
  import opened OpCompats

  datatype PassKind =
    | MapMatmulToMul
    | MapMatmulV2ToMatmul
    | Squeeze2Matmul
    | Reshape2Matmul
    | Flatten2Matmul

  /** The three passes whose pattern has a squeeze2, reshape2 or flatten2 op in front of the matmul. */
  predicate HasFrontOp(kind: PassKind) {
    kind.Squeeze2Matmul? || kind.Reshape2Matmul? || kind.Flatten2Matmul?
  }

  function FrontOpType(kind: PassKind): string
    requires HasFrontOp(kind)
  {
    match kind
    case Squeeze2Matmul => "squeeze2"
    case Reshape2Matmul => "reshape2"
    case Flatten2Matmul => "flatten2"
  }

  function MatmulOpType(kind: PassKind): string {
    if kind.MapMatmulV2ToMatmul? then "matmul_v2" else "matmul"
  }

  // ---------------------------------------------------------------------------
  // Contract tables, as each pass's constructor declares them
  // ---------------------------------------------------------------------------

  const InX := SlotCompat("X", false)
  const InY := SlotCompat("Y", false)
  const OutOut := SlotCompat("Out", false)
  const OutXShape := SlotCompat("XShape", false)

  const UntransposedX := AttrCompat("transpose_X", [BoolEQ(false)], false)
  const UntransposedY := AttrCompat("transpose_Y", [BoolEQ(false)], false)

  /** matmul with alpha in [0.99, 1.01] and no transpose; `alphaOptional` for map_matmul_to_mul. */
  function UnitMatmulCompat(alphaOptional: bool): OpCompat {
    OpCompat("matmul", [InX, InY], [OutOut],
      [AttrCompat("alpha", [NumGE(0.99), NumLE(1.01)], alphaOptional), UntransposedX, UntransposedY])
  }

  /** mul with x_num_col_dims >= 1 (or == 1 when `xExactlyOne`) and y_num_col_dims == 1. */
  function MulCompat(xExactlyOne: bool): OpCompat {
    OpCompat("mul", [InX, InY], [OutOut],
      [AttrCompat("x_num_col_dims", if xExactlyOne then [NumEQ(1.0)] else [NumGE(1.0)], false),
       AttrCompat("y_num_col_dims", [NumEQ(1.0)], false)])
  }

  const MapMatmulToMulCompats: seq<OpCompat> := [UnitMatmulCompat(true), MulCompat(false)]

  const MapMatmulV2ToMatmulCompats: seq<OpCompat> :=
    [OpCompat("matmul_v2", [InX, InY], [OutOut], []), OpCompat("matmul", [InX, InY], [OutOut], [])]

  /** As declared: flatten2 is required to carry a "Y" input, which flatten2 ops do not have. */
  const Flatten2MatmulCompatsAsWritten: seq<OpCompat> :=
    [UnitMatmulCompat(false),
     OpCompat("flatten2", [InX, InY], [OutOut, OutXShape], [AttrCompat("axis", [NumGE(0.0)], false)]),
     MulCompat(false)]

  const Flatten2MatmulCompats: seq<OpCompat> :=
    [UnitMatmulCompat(false),
     OpCompat("flatten2", [InX], [OutOut, OutXShape], [AttrCompat("axis", [NumGE(0.0)], false)]),
     MulCompat(false)]

  /** As declared: the squeeze2 contract is registered under the type name "Squeeze2". */
  const Squeeze2MatmulCompatsAsWritten: seq<OpCompat> :=
    [UnitMatmulCompat(false),
     OpCompat("Squeeze2", [InX], [OutOut, OutXShape], [AttrCompat("axes", [IsIntList], false)]),
     MulCompat(true)]

  const Squeeze2MatmulCompats: seq<OpCompat> :=
    [UnitMatmulCompat(false),
     OpCompat("squeeze2", [InX], [OutOut, OutXShape], [AttrCompat("axes", [IsIntList], false)]),
     MulCompat(true)]

  /** reshape2 with optional Shape / ShapeTensor inputs and an integer-list shape attribute. */
  const Reshape2Compat :=
    OpCompat("reshape2", [InX, SlotCompat("Shape", true), SlotCompat("ShapeTensor", true)],
      [OutOut, OutXShape], [AttrCompat("shape", [IsIntList], false)])

  /** matmul with alpha in (0.99999, 1.00001) and both transposes equal to `transpose`. */
  function NarrowMatmulCompat(transpose: bool): OpCompat {
    OpCompat("matmul", [InX, InY], [OutOut],
      [AttrCompat("alpha", [NumGT(0.99999), NumLT(1.00001)], false),
       AttrCompat("transpose_X", [BoolEQ(transpose)], false),
       AttrCompat("transpose_Y", [BoolEQ(transpose)], false)])
  }

  /** As declared: the string literal "False" given as the expected boolean converts to true. */
  const Reshape2MatmulCompatsAsWritten: seq<OpCompat> :=
    [Reshape2Compat, NarrowMatmulCompat(true), MulCompat(true)]

  const Reshape2MatmulCompats: seq<OpCompat> :=
    [Reshape2Compat, NarrowMatmulCompat(false), MulCompat(true)]

  // ---------------------------------------------------------------------------
  // Registration: names and operator-version capabilities
  // ---------------------------------------------------------------------------

  datatype VersionCmp = LE | EQ | GE

  datatype OpVersionReq = OpVersionReq(opType: string, cmp: VersionCmp, version: nat)

  datatype FusePass = FusePass(
    name: string,
    kind: PassKind,
    compats: seq<OpCompat>,
    capability: seq<OpVersionReq>)

  const MapMatmulToMulPass := FusePass("map_matmul_to_mul_pass", MapMatmulToMul,
    MapMatmulToMulCompats, [OpVersionReq("matmul", LE, 1), OpVersionReq("mul", EQ, 0)])

  const MapMatmulV2ToMatmulPass := FusePass("map_matmul_v2_to_matmul_pass", MapMatmulV2ToMatmul,
    MapMatmulV2ToMatmulCompats, [OpVersionReq("matmul_v2", EQ, 0), OpVersionReq("matmul", GE, 0)])

  const Squeeze2MatmulFusePass := FusePass("squeeze2_matmul_fuse_pass", Squeeze2Matmul,
    Squeeze2MatmulCompats,
    [OpVersionReq("matmul", LE, 1), OpVersionReq("squeeze2", EQ, 0), OpVersionReq("mul", EQ, 0)])

  const Reshape2MatmulFusePass := FusePass("reshape2_matmul_fuse_pass", Reshape2Matmul,
    Reshape2MatmulCompats,
    [OpVersionReq("matmul", LE, 1), OpVersionReq("reshape2", EQ, 0), OpVersionReq("mul", EQ, 0)])

  const Flatten2MatmulFusePass := FusePass("flatten2_matmul_fuse_pass", Flatten2Matmul,
    Flatten2MatmulCompats,
    [OpVersionReq("matmul", LE, 1), OpVersionReq("flatten2", EQ, 0), OpVersionReq("mul", EQ, 0)])

  /** The operator type a pass's rewrite creates. */
  function FusedOpType(kind: PassKind): string {
    if kind.MapMatmulV2ToMatmul? then "matmul" else "mul"
  }

  /**
    The registered pass of each kind, with the contract tables as corrected in
    the three places where the declared ones cannot admit any match (see
    `CorrectedVersusDeclared`). The capability pins the matched matmul
    version first, the front op's version next, and the created operator's
    version last.
   */
  function Registered(kind: PassKind): (p: FusePass)
    ensures p.kind == kind
    ensures 2 <= |p.capability|
    ensures p.capability[0].opType == MatmulOpType(kind)
    ensures p.capability[|p.capability| - 1].opType == FusedOpType(kind)
    ensures HasFrontOp(kind) ==> p.capability[1] == OpVersionReq(FrontOpType(kind), EQ, 0)
  {
    match kind
    case MapMatmulToMul => MapMatmulToMulPass
    case MapMatmulV2ToMatmul => MapMatmulV2ToMatmulPass
    case Squeeze2Matmul => Squeeze2MatmulFusePass
    case Reshape2Matmul => Reshape2MatmulFusePass
    case Flatten2Matmul => Flatten2MatmulFusePass
  }

  /**
    Each pass's registered name and version capability: matmul at most
    version 1 (matmul_v2 exactly version 0), the front op exactly version 0,
    and the created operator exactly version 0 (matmul at least version 0).
   */
  lemma RegisteredCapability(kind: PassKind)
    ensures var p := Registered(kind);
      && p.name == (match kind
           case MapMatmulToMul => "map_matmul_to_mul_pass"
           case MapMatmulV2ToMatmul => "map_matmul_v2_to_matmul_pass"
           case Squeeze2Matmul => "squeeze2_matmul_fuse_pass"
           case Reshape2Matmul => "reshape2_matmul_fuse_pass"
           case Flatten2Matmul => "flatten2_matmul_fuse_pass")
      && |p.capability| == (if HasFrontOp(kind) then 3 else 2)
      && p.capability[0] == OpVersionReq(MatmulOpType(kind),
           if kind.MapMatmulV2ToMatmul? then EQ else LE, if kind.MapMatmulV2ToMatmul? then 0 else 1)
      && (HasFrontOp(kind) ==> p.capability[1] == OpVersionReq(FrontOpType(kind), EQ, 0))
      && p.capability[|p.capability| - 1] ==
           OpVersionReq(FusedOpType(kind), if kind.MapMatmulV2ToMatmul? then GE else EQ, 0)
  {
  }

  /** Every operator a pass matches or creates has a contract in its table. */
  lemma RegisteredCovers(kind: PassKind)
    ensures var table := Registered(kind).compats;
      && FindCompat(table, MatmulOpType(kind)).Some?
      && (HasFrontOp(kind) ==> FindCompat(table, FrontOpType(kind)).Some?)
      && FindCompat(table, FusedOpType(kind)).Some?
  {
    var table := Registered(kind).compats;
    match kind
    case MapMatmulToMul =>
      assert FindCompat(table[1..], "mul") == Some(table[1]);
    case MapMatmulV2ToMatmul =>
      assert FindCompat(table[1..], "matmul") == Some(table[1]);
    case Squeeze2Matmul =>
      assert FindCompat(table[1..], "squeeze2") == Some(table[1]);
      assert FindCompat(table[2..], "mul") == Some(table[2]);
    case Reshape2Matmul =>
      assert FindCompat(table[1..], "matmul") == Some(table[1]);
      assert FindCompat(table[2..], "mul") == Some(table[2]);
    case Flatten2Matmul =>
      assert FindCompat(table[1..], "flatten2") == Some(table[1]);
      assert FindCompat(table[2..], "mul") == Some(table[2]);
  }

  /** The contract table each pass's constructor declares, as written. */
  function DeclaredCompats(kind: PassKind): seq<OpCompat> {
    match kind
    case MapMatmulToMul => MapMatmulToMulCompats
    case MapMatmulV2ToMatmul => MapMatmulV2ToMatmulCompats
    case Squeeze2Matmul => Squeeze2MatmulCompatsAsWritten
    case Reshape2Matmul => Reshape2MatmulCompatsAsWritten
    case Flatten2Matmul => Flatten2MatmulCompatsAsWritten
  }

  /**
    The corrected tables are the declared ones, except for the one entry of
    the squeeze2, reshape2 and flatten2 tables that each finding names: the
    squeeze2 contract's type name, the reshape2 pass's expected transposes,
    and the flatten2 contract's inputs.
   */
  lemma CorrectedVersusDeclared(kind: PassKind)
    ensures var c, d := Registered(kind).compats, DeclaredCompats(kind);
      && |c| == |d|
      && (!HasFrontOp(kind) ==> c == d)
      && (HasFrontOp(kind) ==>
            && |c| == 3 && c[0] == d[0] && c[2] == d[2] && c[1] != d[1]
            && (kind.Squeeze2Matmul? ==> d[1].opType == "Squeeze2" && c[1] == d[1].(opType := "squeeze2"))
            && (kind.Reshape2Matmul? ==> d[1] == NarrowMatmulCompat(true) && c[1] == NarrowMatmulCompat(false))
            && (kind.Flatten2Matmul? ==> d[1].inputs == [InX, InY] && c[1] == d[1].(inputs := [InX])))
  {
  }

  // ---------------------------------------------------------------------------
  // Role bindings handed to a handler by the pattern detector
  // ---------------------------------------------------------------------------

  /**
    `MatmulMatch` binds matmul_in_x, matmul_in_y, matmul_op, matmul_out (the
    matmul_v2 roles for the v2 pass); `FrontMatmulMatch` adds the front op and
    its input variable.
   */
  datatype Match =
    | MatmulMatch(inX: NodeId, inY: NodeId, op: NodeId, out: NodeId)
    | FrontMatmulMatch(frontInX: NodeId, frontOp: NodeId, inX: NodeId, inY: NodeId, op: NodeId, out: NodeId)

  predicate IsVar(nodes: map<NodeId, Node>, id: NodeId) {
    id in nodes && nodes[id].kind.VarNode?
  }

  predicate IsOpOf(nodes: map<NodeId, Node>, id: NodeId, opType: string) {
    id in nodes && nodes[id].kind.OpNode? && nodes[id].kind.desc.opType == opType
  }

  /** The binding is live in the graph, each role has its kind and op type, and roles are distinct. */
  predicate Binds(nodes: map<NodeId, Node>, kind: PassKind, m: Match) {
    match m
    case MatmulMatch(x, y, op, out) =>
      && !HasFrontOp(kind)
      && IsVar(nodes, x) && IsVar(nodes, y) && IsVar(nodes, out)
      && x != y && x != out && y != out
      && IsOpOf(nodes, op, MatmulOpType(kind))
    case FrontMatmulMatch(fx, fop, x, y, op, out) =>
      && HasFrontOp(kind)
      && IsVar(nodes, fx) && IsVar(nodes, x) && IsVar(nodes, y) && IsVar(nodes, out)
      && fx != x && fx != y && fx != out && x != y && x != out && y != out
      && IsOpOf(nodes, fop, FrontOpType(kind)) && IsOpOf(nodes, op, "matmul")
  }

  function RoleNodes(m: Match): set<NodeId> {
    match m
    case MatmulMatch(x, y, op, out) => {x, y, op, out}
    case FrontMatmulMatch(fx, fop, x, y, op, out) => {fx, fop, x, y, op, out}
  }

  /** The nodes a successful rewrite removes. */
  function Obsolete(m: Match): set<NodeId> {
    match m
    case MatmulMatch(_, _, op, _) => {op}
    case FrontMatmulMatch(_, fop, x, _, op, _) => {fop, x, op}
  }

  /** The variable the new operator reads as its X input. */
  function FusedX(m: Match): NodeId {
    if m.MatmulMatch? then m.inX else m.frontInX
  }

  function DescAt(nodes: map<NodeId, Node>, id: NodeId): OpDesc
    requires id in nodes && nodes[id].kind.OpNode?
  {
    nodes[id].kind.desc
  }

  function ShapeAt(nodes: map<NodeId, Node>, id: NodeId): seq<int>
    requires IsVar(nodes, id)
  {
    nodes[id].kind.shape
  }

  function VarNameAt(nodes: map<NodeId, Node>, id: NodeId): string
    requires IsVar(nodes, id)
  {
    nodes[id].kind.name
  }

  /** The operator descriptors of the matched subgraph, which the pre-check judges. */
  function MatchedOps(nodes: map<NodeId, Node>, kind: PassKind, m: Match): seq<OpDesc>
    requires Binds(nodes, kind, m)
  {
    if m.MatmulMatch? then [DescAt(nodes, m.op)]
    else [DescAt(nodes, m.frontOp), DescAt(nodes, m.op)]
  }

  // ---------------------------------------------------------------------------
  // Structural filters
  // ---------------------------------------------------------------------------

  /** alpha is within 1e-5 of one. */
  predicate AlphaNearOne(alpha: real) {
    -0.00001 < alpha - 1.0 < 0.00001
  }

  predicate Has(attrs: map<string, Attr>, name: string, a: Attr) {
    name in attrs && attrs[name] == a
  }

  /**
    The matmul attributes every fusing filter accepts: both transposes present
    and false, and alpha a float within 1e-5 of one; an absent alpha counts as
    one only when `alphaOptional`.
   */
  predicate UnitUntransposed(attrs: map<string, Attr>, alphaOptional: bool) {
    && Has(attrs, "transpose_X", BoolAttr(false))
    && Has(attrs, "transpose_Y", BoolAttr(false))
    && if "alpha" in attrs then attrs["alpha"].FloatAttr? && AlphaNearOne(attrs["alpha"].f)
       else alphaOptional
  }

  /** Reading the matmul attributes raises: a transpose flag is absent or not boolean, or alpha is not a float. */
  predicate MatmulAttrsMistyped(attrs: map<string, Attr>, alphaOptional: bool) {
    || !("transpose_X" in attrs && attrs["transpose_X"].BoolAttr?)
    || !("transpose_Y" in attrs && attrs["transpose_Y"].BoolAttr?)
    || (if "alpha" in attrs then !attrs["alpha"].FloatAttr? else !alphaOptional)
  }

  function MatmulAttrs(nodes: map<NodeId, Node>, m: Match): map<string, Attr>
    requires m.op in nodes && nodes[m.op].kind.OpNode?
  {
    DescAt(nodes, m.op).attrs
  }

  /** map_matmul_to_mul's filter: no transpose, alpha (default one) near one, x rank >= 2, y rank == 2. */
  function MapMatmulToMulFilter(nodes: map<NodeId, Node>, m: Match): (r: Result<bool, AttrError>)
    requires Binds(nodes, MapMatmulToMul, m)
    ensures r.Err? <==> MatmulAttrsMistyped(MatmulAttrs(nodes, m), true)
    ensures r == Ok(true) <==>
      && UnitUntransposed(MatmulAttrs(nodes, m), true)
      && |ShapeAt(nodes, m.inX)| >= 2 && |ShapeAt(nodes, m.inY)| == 2
  {
    var op := DescAt(nodes, m.op);
    var transposeX :- GetBool(op, "transpose_X");
    var transposeY :- GetBool(op, "transpose_Y");
    var alpha :- if "alpha" in op.attrs then GetFloat(op, "alpha") else Ok(1.0);
    var xRank := |ShapeAt(nodes, m.inX)|;
    var yRank := |ShapeAt(nodes, m.inY)|;
    Ok(!transposeX && !transposeY && AlphaNearOne(alpha) && xRank >= 2 && yRank == 2)
  }

  /** The matmul half of the three front filters: no transpose, alpha near one, both operands 2-D. */
  function UnitMatmul2D(nodes: map<NodeId, Node>, m: Match): (r: Result<bool, AttrError>)
    requires m.FrontMatmulMatch? && IsOpOf(nodes, m.op, "matmul")
    requires IsVar(nodes, m.inX) && IsVar(nodes, m.inY)
    ensures r.Err? <==> MatmulAttrsMistyped(MatmulAttrs(nodes, m), false)
    ensures r == Ok(true) <==>
      && UnitUntransposed(MatmulAttrs(nodes, m), false)
      && |ShapeAt(nodes, m.inX)| == 2 && |ShapeAt(nodes, m.inY)| == 2
  {
    var op := DescAt(nodes, m.op);
    var transposeX :- GetBool(op, "transpose_X");
    var transposeY :- GetBool(op, "transpose_Y");
    var alpha :- GetFloat(op, "alpha");
    var xRank := |ShapeAt(nodes, m.inX)|;
    var yRank := |ShapeAt(nodes, m.inY)|;
    Ok(!transposeX && !transposeY && AlphaNearOne(alpha) && xRank == 2 && yRank == 2)
  }

  /** `v` has exactly one consumer and that node is named elementwise_add. */
  predicate FeedsOnlyElementwiseAdd(nodes: map<NodeId, Node>, v: NodeId)
    requires v in nodes && EdgesLive(nodes)
  {
    var next := nodes[v].outputs;
    |next| == 1 && (assert next[0] in next && AdjacencyIn(nodes[v], nodes.Keys);
                    Name(nodes[next[0]]) == "elementwise_add")
  }

  /** The consumers of matmul_in_x: the front pattern requires the matmul to be the only one. */
  function ConsumerCount(nodes: map<NodeId, Node>, v: NodeId): nat
    requires v in nodes
  {
    |nodes[v].outputs|
  }

  /** squeeze2_matmul's filter. */
  function Squeeze2MatmulFilter(nodes: map<NodeId, Node>, m: Match): (r: Result<bool, AttrError>)
    requires EdgesLive(nodes) && Binds(nodes, Squeeze2Matmul, m)
    ensures var front := DescAt(nodes, m.frontOp).attrs;
      r.Err? <==> !("axes" in front && front["axes"].IntsAttr?) || MatmulAttrsMistyped(MatmulAttrs(nodes, m), false)
    ensures r == Ok(true) <==>
      && |ShapeAt(nodes, m.frontInX)| == 4
      && Has(DescAt(nodes, m.frontOp).attrs, "axes", IntsAttr([2, 3]))
      && ConsumerCount(nodes, m.inX) == 1
      && UnitUntransposed(MatmulAttrs(nodes, m), false)
      && |ShapeAt(nodes, m.inX)| == 2 && |ShapeAt(nodes, m.inY)| == 2
      && FeedsOnlyElementwiseAdd(nodes, m.out)
  {
    var axes :- GetInts(DescAt(nodes, m.frontOp), "axes");
    var front := |ShapeAt(nodes, m.frontInX)| == 4 && axes == [2, 3] && ConsumerCount(nodes, m.inX) == 1;
    var matmul :- UnitMatmul2D(nodes, m);
    Ok(front && matmul && FeedsOnlyElementwiseAdd(nodes, m.out))
  }

  /** reshape2_matmul's filter. */
  function Reshape2MatmulFilter(nodes: map<NodeId, Node>, m: Match): (r: Result<bool, AttrError>)
    requires EdgesLive(nodes) && Binds(nodes, Reshape2Matmul, m)
    ensures var front := DescAt(nodes, m.frontOp).attrs;
      r.Err? <==> !("shape" in front && front["shape"].IntsAttr?) || MatmulAttrsMistyped(MatmulAttrs(nodes, m), false)
    ensures r == Ok(true) <==>
      && |nodes[m.frontOp].inputs| == 1
      && |ShapeAt(nodes, m.frontInX)| == 4
      && ShapeAt(nodes, m.frontInX)[2] == 1 && ShapeAt(nodes, m.frontInX)[3] == 1
      && "shape" in DescAt(nodes, m.frontOp).attrs
      && DescAt(nodes, m.frontOp).attrs["shape"].IntsAttr?
      && |DescAt(nodes, m.frontOp).attrs["shape"].ints| == 2
      && ConsumerCount(nodes, m.inX) == 1
      && UnitUntransposed(MatmulAttrs(nodes, m), false)
      && |ShapeAt(nodes, m.inX)| == 2 && |ShapeAt(nodes, m.inY)| == 2
      && FeedsOnlyElementwiseAdd(nodes, m.out)
  {
    var shape :- GetInts(DescAt(nodes, m.frontOp), "shape");
    var inShape := ShapeAt(nodes, m.frontInX);
    var front := |nodes[m.frontOp].inputs| == 1 && |inShape| == 4 && inShape[2] == 1 && inShape[3] == 1
      && |shape| == 2 && ConsumerCount(nodes, m.inX) == 1;
    var matmul :- UnitMatmul2D(nodes, m);
    Ok(front && matmul && FeedsOnlyElementwiseAdd(nodes, m.out))
  }

  /** flatten2_matmul's filter; the axis is read (and must be an integer) but not constrained. */
  function Flatten2MatmulFilter(nodes: map<NodeId, Node>, m: Match): (r: Result<bool, AttrError>)
    requires EdgesLive(nodes) && Binds(nodes, Flatten2Matmul, m)
    ensures var front := DescAt(nodes, m.frontOp).attrs;
      r.Err? <==> !("axis" in front && front["axis"].IntAttr?) || MatmulAttrsMistyped(MatmulAttrs(nodes, m), false)
    ensures r == Ok(true) <==>
      && "axis" in DescAt(nodes, m.frontOp).attrs && DescAt(nodes, m.frontOp).attrs["axis"].IntAttr?
      && |nodes[m.frontOp].inputs| == 1
      && |ShapeAt(nodes, m.frontInX)| == 4
      && ConsumerCount(nodes, m.inX) == 1
      && UnitUntransposed(MatmulAttrs(nodes, m), false)
      && |ShapeAt(nodes, m.inX)| == 2 && |ShapeAt(nodes, m.inY)| == 2
      && FeedsOnlyElementwiseAdd(nodes, m.out)
  {
    var axis :- GetInt(DescAt(nodes, m.frontOp), "axis");
    var front := |nodes[m.frontOp].inputs| == 1 && |ShapeAt(nodes, m.frontInX)| == 4
      && ConsumerCount(nodes, m.inX) == 1;
    var matmul :- UnitMatmul2D(nodes, m);
    Ok(front && matmul && FeedsOnlyElementwiseAdd(nodes, m.out))
  }

  /** The structural filter of a pass; map_matmul_v2_to_matmul has none. */
  function Filter(kind: PassKind, nodes: map<NodeId, Node>, m: Match): Result<bool, AttrError>
    requires EdgesLive(nodes) && Binds(nodes, kind, m)
  {
    match kind
    case MapMatmulToMul => MapMatmulToMulFilter(nodes, m)
    case MapMatmulV2ToMatmul => Ok(true)
    case Squeeze2Matmul => Squeeze2MatmulFilter(nodes, m)
    case Reshape2Matmul => Reshape2MatmulFilter(nodes, m)
    case Flatten2Matmul => Flatten2MatmulFilter(nodes, m)
  }

  // ---------------------------------------------------------------------------
  // Replacement descriptors
  // ---------------------------------------------------------------------------

  /** The quantization attributes carried over from a matmul. */
  const Int8Attrs: set<string> := {"enable_int8", "X_scale", "weight_scale", "out_threshold"}

  /** `dst` carries each quantization attribute exactly when `src` has enable_int8, with `src`'s value. */
  predicate Int8Propagated(src: map<string, Attr>, dst: map<string, Attr>) {
    forall k | k in Int8Attrs ::
      && (k in dst <==> "enable_int8" in src)
      && (k in dst ==> k in src && dst[k] == src[k])
  }

  /** Reading the quantization attributes raises: enable_int8 is set but another one is missing. */
  predicate Int8Incomplete(src: map<string, Attr>) {
    "enable_int8" in src && !(Int8Attrs <= src.Keys)
  }

  /** `dst` with the quantization attributes of `src` copied when `src` has enable_int8. */
  function WithInt8Attrs(src: OpDesc, dst: OpDesc): (r: Result<OpDesc, AttrError>)
    requires dst.attrs.Keys !! Int8Attrs
    ensures r.Err? <==> Int8Incomplete(src.attrs)
    ensures r.Ok? ==> Int8Propagated(src.attrs, r.value.attrs)
    ensures r.Ok? ==> r.value == dst.(attrs := r.value.attrs)
    ensures r.Ok? ==> forall k | k in dst.attrs :: k in r.value.attrs && r.value.attrs[k] == dst.attrs[k]
    ensures r.Ok? ==> r.value.attrs.Keys == dst.attrs.Keys + (if "enable_int8" in src.attrs then Int8Attrs else {})
  {
    if "enable_int8" !in src.attrs then Ok(dst)
    else
      var enable := src.attrs["enable_int8"];
      var xScale :- GetAttr(src, "X_scale");
      var weightScale :- GetAttr(src, "weight_scale");
      var outThreshold :- GetAttr(src, "out_threshold");
      Ok(dst.(attrs := dst.attrs["enable_int8" := enable]["X_scale" := xScale]
                                ["weight_scale" := weightScale]["out_threshold" := outThreshold]))
  }

  /** `d` is a mul over X = x, Y = y, Out = out with the given flattening attributes. */
  predicate IsMulOver(d: OpDesc, x: string, y: string, out: string, xNumColDims: int) {
    && d.opType == "mul"
    && d.inputs == map["X" := [x], "Y" := [y]]
    && d.outputs == map["Out" := [out]]
    && Has(d.attrs, "x_num_col_dims", IntAttr(xNumColDims))
    && Has(d.attrs, "y_num_col_dims", IntAttr(1))
  }

  /** The mul descriptor the four mul-producing passes build from a matmul. */
  function MulDesc(matmul: OpDesc, x: string, y: string, out: string, xNumColDims: int): (r: Result<OpDesc, AttrError>)
    ensures r.Err? <==> Int8Incomplete(matmul.attrs)
    ensures r.Ok? ==> IsMulOver(r.value, x, y, out, xNumColDims)
    ensures r.Ok? ==> Int8Propagated(matmul.attrs, r.value.attrs)
    ensures r.Ok? ==>
      r.value.attrs.Keys == {"x_num_col_dims", "y_num_col_dims"} + (if "enable_int8" in matmul.attrs then Int8Attrs else {})
  {
    var desc := OpDesc("mul", map["X" := [x], "Y" := [y]], map["Out" := [out]],
      map["x_num_col_dims" := IntAttr(xNumColDims), "y_num_col_dims" := IntAttr(1)]);
    WithInt8Attrs(matmul, desc)
  }

  /** map_matmul_to_mul's mul: same X, Y and Out as the matmul, x_num_col_dims = x rank - 1. */
  function MapMatmulToMulDesc(nodes: map<NodeId, Node>, m: Match): (r: Result<OpDesc, AttrError>)
    requires Binds(nodes, MapMatmulToMul, m)
    ensures r.Err? <==> Int8Incomplete(MatmulAttrs(nodes, m))
    ensures r.Ok? ==> IsMulOver(r.value, VarNameAt(nodes, m.inX), VarNameAt(nodes, m.inY),
                                VarNameAt(nodes, m.out), |ShapeAt(nodes, m.inX)| - 1)
    ensures r.Ok? ==> Int8Propagated(MatmulAttrs(nodes, m), r.value.attrs)
  {
    MulDesc(DescAt(nodes, m.op), VarNameAt(nodes, m.inX), VarNameAt(nodes, m.inY),
            VarNameAt(nodes, m.out), |ShapeAt(nodes, m.inX)| - 1)
  }

  /** map_matmul_v2_to_matmul's matmul: same operands, trans_x / trans_y renamed to transpose_X / transpose_Y. */
  function MatmulFromV2Desc(nodes: map<NodeId, Node>, m: Match): (r: Result<OpDesc, AttrError>)
    requires Binds(nodes, MapMatmulV2ToMatmul, m)
    ensures var v2 := MatmulAttrs(nodes, m);
      r.Err? <==> "trans_x" !in v2 || "trans_y" !in v2 || Int8Incomplete(v2)
    ensures r.Ok? ==>
      && r.value.opType == "matmul"
      && r.value.inputs == map["X" := [VarNameAt(nodes, m.inX)], "Y" := [VarNameAt(nodes, m.inY)]]
      && r.value.outputs == map["Out" := [VarNameAt(nodes, m.out)]]
    ensures r.Ok? ==>
      && Has(r.value.attrs, "transpose_X", MatmulAttrs(nodes, m)["trans_x"])
      && Has(r.value.attrs, "transpose_Y", MatmulAttrs(nodes, m)["trans_y"])
    ensures r.Ok? ==> Int8Propagated(MatmulAttrs(nodes, m), r.value.attrs)
    ensures r.Ok? ==>
      r.value.attrs.Keys == {"transpose_X", "transpose_Y"} + (if "enable_int8" in MatmulAttrs(nodes, m) then Int8Attrs else {})
  {
    var v2 := DescAt(nodes, m.op);
    var transX :- GetAttr(v2, "trans_x");
    var transY :- GetAttr(v2, "trans_y");
    var desc := OpDesc("matmul",
      map["X" := [VarNameAt(nodes, m.inX)], "Y" := [VarNameAt(nodes, m.inY)]],
      map["Out" := [VarNameAt(nodes, m.out)]],
      map["transpose_X" := transX, "transpose_Y" := transY]);
    WithInt8Attrs(v2, desc)
  }

  /**
    The mul built by the squeeze2 and reshape2 passes: X is the front op's input,
    Y and Out the matmul's, x_num_col_dims = 1.
   */
  function FrontMulDesc(nodes: map<NodeId, Node>, kind: PassKind, m: Match): (r: Result<OpDesc, AttrError>)
    requires (kind.Squeeze2Matmul? || kind.Reshape2Matmul?) && Binds(nodes, kind, m)
    ensures r.Err? <==> Int8Incomplete(MatmulAttrs(nodes, m))
    ensures r.Ok? ==> IsMulOver(r.value, VarNameAt(nodes, m.frontInX), VarNameAt(nodes, m.inY),
                                VarNameAt(nodes, m.out), 1)
    ensures r.Ok? ==> Int8Propagated(MatmulAttrs(nodes, m), r.value.attrs)
  {
    MulDesc(DescAt(nodes, m.op), VarNameAt(nodes, m.frontInX), VarNameAt(nodes, m.inY),
            VarNameAt(nodes, m.out), 1)
  }

  /** The mul built by the flatten2 pass: as `FrontMulDesc`, with x_num_col_dims = the flatten2 axis. */
  function Flatten2MulDesc(nodes: map<NodeId, Node>, m: Match): (r: Result<OpDesc, AttrError>)
    requires Binds(nodes, Flatten2Matmul, m)
    ensures var front := DescAt(nodes, m.frontOp).attrs;
      r.Err? <==> !("axis" in front && front["axis"].IntAttr?) || Int8Incomplete(MatmulAttrs(nodes, m))
    ensures r.Ok? ==> IsMulOver(r.value, VarNameAt(nodes, m.frontInX), VarNameAt(nodes, m.inY),
                                VarNameAt(nodes, m.out), DescAt(nodes, m.frontOp).attrs["axis"].i)
    ensures r.Ok? ==> Int8Propagated(MatmulAttrs(nodes, m), r.value.attrs)
  {
    var axis :- GetInt(DescAt(nodes, m.frontOp), "axis");
    MulDesc(DescAt(nodes, m.op), VarNameAt(nodes, m.frontInX), VarNameAt(nodes, m.inY),
            VarNameAt(nodes, m.out), axis)
  }

  function Build(kind: PassKind, nodes: map<NodeId, Node>, m: Match): Result<OpDesc, AttrError>
    requires Binds(nodes, kind, m)
  {
    match kind
    case MapMatmulToMul => MapMatmulToMulDesc(nodes, m)
    case MapMatmulV2ToMatmul => MatmulFromV2Desc(nodes, m)
    case Squeeze2Matmul => FrontMulDesc(nodes, kind, m)
    case Reshape2Matmul => FrontMulDesc(nodes, kind, m)
    case Flatten2Matmul => Flatten2MulDesc(nodes, m)
  }

  // ---------------------------------------------------------------------------
  // One handler invocation
  // ---------------------------------------------------------------------------

  datatype Outcome =
    | NotMatched                               // a structural filter failed: silent skip
    | PreCheckFailed                           // the matched operators break their contracts: warning, skip
    | PostCheckFailed                          // reshape2 only: the new descriptor breaks its contract, nothing spliced
    | Fused(node: NodeId, desc: OpDesc, descCompat: bool)  // spliced desc as node; descCompat: the post-check
    | Fatal(error: AttrError)                  // an attribute read raised: the pass aborts

  /**
    What one handler invocation decides: filter, pre-check, build, then either
    splice (checking the new descriptor afterwards) or, for reshape2, check the
    new descriptor first and splice only if it passes.
   */
  function OutcomeOf(kind: PassKind, table: seq<OpCompat>, nodes: map<NodeId, Node>,
                     nextId: NodeId, m: Match): (o: Outcome)
    requires EdgesLive(nodes) && Binds(nodes, kind, m)
    ensures o.Fused? ==> o.node == nextId
  {
    var filter := Filter(kind, nodes, m);
    if filter.Err? then Fatal(filter.error)
    else if !filter.value then NotMatched
    else if !SubgraphCompat(table, MatchedOps(nodes, kind, m)) then PreCheckFailed
    else
      var built := Build(kind, nodes, m);
      if built.Err? then Fatal(built.error)
      else if kind.Reshape2Matmul? && !DescCompat(table, built.value) then PostCheckFailed
      else Fused(nextId, built.value, DescCompat(table, built.value))
  }

  /**
    A handler invocation fuses or fails its post-check only after the filter
    accepted, the matched operators passed their contracts and the build
    succeeded; it skips silently exactly when the filter rejects, and fails
    the pre-check exactly when the filter accepted and the contracts do not
    hold. Only reshape2 can fail the post-check. Conversely, when all of these
    pass it fuses, and it aborts exactly when the filter or the build raises,
    with that error.
   */
  lemma OutcomeOfSpec(kind: PassKind, table: seq<OpCompat>, nodes: map<NodeId, Node>,
                      nextId: NodeId, m: Match)
    requires EdgesLive(nodes) && Binds(nodes, kind, m)
    ensures var o := OutcomeOf(kind, table, nodes, nextId, m);
      && (o.Fused? || o.PostCheckFailed? ==>
            && Filter(kind, nodes, m) == Ok(true)
            && SubgraphCompat(table, MatchedOps(nodes, kind, m))
            && Build(kind, nodes, m).Ok?)
      && (o.Fused? ==> o.desc == Build(kind, nodes, m).value && o.descCompat == DescCompat(table, o.desc))
      && (o.PostCheckFailed? ==> kind.Reshape2Matmul? && !DescCompat(table, Build(kind, nodes, m).value))
      && (kind.Reshape2Matmul? && o.Fused? ==> o.descCompat)
      && (o.NotMatched? <==> Filter(kind, nodes, m) == Ok(false))
      && (o.PreCheckFailed? <==> Filter(kind, nodes, m) == Ok(true) && !SubgraphCompat(table, MatchedOps(nodes, kind, m)))
      && (&& Filter(kind, nodes, m) == Ok(true)
          && SubgraphCompat(table, MatchedOps(nodes, kind, m))
          && Build(kind, nodes, m).Ok?
          && (kind.Reshape2Matmul? ==> DescCompat(table, Build(kind, nodes, m).value))
          ==> o.Fused?)
      && (o.Fatal? <==>
            || Filter(kind, nodes, m).Err?
            || (Filter(kind, nodes, m) == Ok(true) && SubgraphCompat(table, MatchedOps(nodes, kind, m))
                && Build(kind, nodes, m).Err?))
      && (o.Fatal? ==>
            o.error == if Filter(kind, nodes, m).Err? then Filter(kind, nodes, m).error else Build(kind, nodes, m).error)
  {
  }

  /** The graph one handler invocation leaves: spliced when fused, untouched otherwise. */
  function Rewritten(kind: PassKind, table: seq<OpCompat>, nodes: map<NodeId, Node>,
                     nextId: NodeId, m: Match): map<NodeId, Node>
    requires EdgesLive(nodes) && FreshFrom(nodes, nextId) && Binds(nodes, kind, m)
  {
    var o := OutcomeOf(kind, table, nodes, nextId, m);
    if o.Fused? then
      Spliced(nodes, nextId, o.desc, FusedX(m), m.inY, m.out, Obsolete(m))
    else nodes
  }

  /** Ids stay below the next id when the only new node is the one just handed out. */
  lemma FreshAfterSplice(before: map<NodeId, Node>, after: map<NodeId, Node>, nextId: NodeId, rm: set<NodeId>)
    requires FreshFrom(before, nextId) && after.Keys == before.Keys - rm + {nextId}
    ensures FreshFrom(after, nextId + 1)
  {
    forall k | k in after ensures k < nextId + 1 {
      assert k in before.Keys - rm + {nextId};
    }
  }

  /** The splice a fusing handler performs, for a binding's boundary variables and obsolete nodes. */
  lemma SpliceShape(nodes: map<NodeId, Node>, nextId: NodeId, desc: OpDesc,
                    x: NodeId, y: NodeId, out: NodeId, rm: set<NodeId>)
    requires EdgesLive(nodes) && FreshFrom(nodes, nextId)
    requires x in nodes && y in nodes && out in nodes
    requires x != y && x != out && y != out && x !in rm && y !in rm && out !in rm
    requires rm <= nodes.Keys
    ensures nextId !in nodes
    ensures var r := Spliced(nodes, nextId, desc, x, y, out, rm);
      && r.Keys == nodes.Keys - rm + {nextId}
      && r[nextId] == Node(OpNode(desc), [x, y], [out])
      && KeepsKinds(nodes, r, rm)
      && EdgesLive(r)
      && FreshFrom(r, nextId + 1)
  {
    assert nextId !in nodes && nextId !in rm;
    var r := Spliced(nodes, nextId, desc, x, y, out, rm);
    SplicedNodes(nodes, nextId, desc, x, y, out, rm);
    SplicedWiring(nodes, nextId, desc, x, y, out, rm);
    SplicedKeepsKinds(nodes, nextId, desc, x, y, out, rm);
    FreshAfterSplice(nodes, r, nextId, rm);
  }

  /** The boundary variables a rewrite wires the new node to are distinct and survive it. */
  lemma BoundaryOfMatch(nodes: map<NodeId, Node>, kind: PassKind, m: Match)
    requires Binds(nodes, kind, m)
    ensures FusedX(m) in nodes && m.inY in nodes && m.out in nodes
    ensures FusedX(m) != m.inY && FusedX(m) != m.out && m.inY != m.out
    ensures FusedX(m) !in Obsolete(m) && m.inY !in Obsolete(m) && m.out !in Obsolete(m)
    ensures Obsolete(m) <= nodes.Keys
  {
  }

  /**
    A rewrite removes exactly the obsolete nodes and adds exactly one operator
    node, which reads the fused X input and the matmul's Y and writes the
    matmul's output; every other node keeps its kind and no edge dangles. A
    handler that does not fuse leaves the graph as it was.
   */
  lemma RewriteShape(kind: PassKind, table: seq<OpCompat>, nodes: map<NodeId, Node>,
                     nextId: NodeId, m: Match)
    requires EdgesLive(nodes) && FreshFrom(nodes, nextId) && Binds(nodes, kind, m)
    ensures var o := OutcomeOf(kind, table, nodes, nextId, m);
      var r := Rewritten(kind, table, nodes, nextId, m);
      && (!o.Fused? ==> r == nodes)
      && (o.Fused? ==>
          && r.Keys == nodes.Keys - Obsolete(m) + {nextId}
          && r[nextId] == Node(OpNode(o.desc), [FusedX(m), m.inY], [m.out]))
      && KeepsKinds(nodes, r, Obsolete(m))
      && EdgesLive(r)
      && FreshFrom(r, if o.Fused? then nextId + 1 else nextId)
  {
    var o := OutcomeOf(kind, table, nodes, nextId, m);
    if o.Fused? {
      BoundaryOfMatch(nodes, kind, m);
      SpliceShape(nodes, nextId, o.desc, FusedX(m), m.inY, m.out, Obsolete(m));
    }
  }

  /**
    map_matmul_to_mul rewrites only an untransposed matmul whose alpha (one
    when absent) is within 1e-5 of one, with x rank at least 2 and y rank 2;
    any other binding leaves the graph and the next id as they were.
   */
  lemma MapMatmulToMulFusesOnlyIf(table: seq<OpCompat>, nodes: map<NodeId, Node>, nextId: NodeId, m: Match)
    requires EdgesLive(nodes) && FreshFrom(nodes, nextId) && Binds(nodes, MapMatmulToMul, m)
    ensures var o := OutcomeOf(MapMatmulToMul, table, nodes, nextId, m);
      && (o.Fused? ==>
            && UnitUntransposed(MatmulAttrs(nodes, m), true)
            && |ShapeAt(nodes, m.inX)| >= 2 && |ShapeAt(nodes, m.inY)| == 2)
      && (!(UnitUntransposed(MatmulAttrs(nodes, m), true)
            && |ShapeAt(nodes, m.inX)| >= 2 && |ShapeAt(nodes, m.inY)| == 2) ==>
            !o.Fused? && Rewritten(MapMatmulToMul, table, nodes, nextId, m) == nodes)
  {
    var o := OutcomeOf(MapMatmulToMul, table, nodes, nextId, m);
    OutcomeOfSpec(MapMatmulToMul, table, nodes, nextId, m);
    assert o.Fused? ==> MapMatmulToMulFilter(nodes, m) == Ok(true);
  }

  /** A binding stays valid across a rewrite that keeps its roles. */
  lemma BindsKept(kind: PassKind, before: map<NodeId, Node>, after: map<NodeId, Node>,
                  rm: set<NodeId>, m: Match)
    requires Binds(before, kind, m) && KeepsKinds(before, after, rm) && rm !! RoleNodes(m)
    ensures Binds(after, kind, m)
  {
  }

  // ---------------------------------------------------------------------------
  // What the contract checks admit
  // ---------------------------------------------------------------------------

  /** The slot holds exactly one variable name. */
  predicate Single(slots: VarNameMap, name: string) {
    name in slots && |slots[name]| == 1
  }

  predicate AtMostOne(slots: VarNameMap, name: string) {
    name in slots ==> |slots[name]| <= 1
  }

  /** A matmul or matmul_v2 descriptor with one X, one Y and one Out. */
  predicate MatmulSlots(d: OpDesc) {
    Single(d.inputs, "X") && Single(d.inputs, "Y") && Single(d.outputs, "Out")
  }

  /** A squeeze2, reshape2 or flatten2 descriptor as its operator defines it: one X, one Out, one XShape. */
  predicate FrontSlots(d: OpDesc) {
    && Single(d.inputs, "X") && Single(d.outputs, "Out") && Single(d.outputs, "XShape")
    && AtMostOne(d.inputs, "Shape") && AtMostOne(d.inputs, "ShapeTensor")
  }

  /** The matched operators have the slots their operator definitions give them. */
  predicate MatchedSlots(nodes: map<NodeId, Node>, kind: PassKind, m: Match)
    requires Binds(nodes, kind, m)
  {
    && MatmulSlots(DescAt(nodes, m.op))
    && (m.FrontMatmulMatch? ==> FrontSlots(DescAt(nodes, m.frontOp)))
  }

  /** The operator attributes a pass's contracts demand beyond its structural filter. */
  predicate ContractAttrs(nodes: map<NodeId, Node>, kind: PassKind, m: Match)
    requires Binds(nodes, kind, m)
  {
    && !Int8Incomplete(MatmulAttrs(nodes, m))
    && (kind.MapMatmulV2ToMatmul? ==> "trans_x" in MatmulAttrs(nodes, m) && "trans_y" in MatmulAttrs(nodes, m))
    && (kind.Flatten2Matmul? ==>
          var front := DescAt(nodes, m.frontOp).attrs;
          "axis" in front && front["axis"].IntAttr? && front["axis"].i >= 0)
  }

  /** A one-condition attribute contract on a present attribute holds exactly when its condition does. */
  lemma AttrOkSingle(ac: AttrCompat, attrs: map<string, Attr>)
    requires |ac.conds| == 1 && ac.name in attrs
    ensures AttrOk(ac, attrs) <==> CondHolds(ac.conds[0], attrs[ac.name])
  {
  }

  lemma MulJudged(table: seq<OpCompat>, xExactlyOne: bool, d: OpDesc, x: string, y: string, out: string, n: int)
    requires FindCompat(table, "mul") == Some(MulCompat(xExactlyOne))
    requires IsMulOver(d, x, y, out, n)
    ensures DescCompat(table, d) <==> if xExactlyOne then n == 1 else n >= 1
  {
    var c := MulCompat(xExactlyOne);
    assert SlotOk(c.inputs[0], d.inputs) && SlotOk(c.inputs[1], d.inputs) && SlotOk(c.outputs[0], d.outputs);
    AttrOkSingle(c.attrs[1], d.attrs);
    assert AttrOk(c.attrs[1], d.attrs);
    AttrOkSingle(c.attrs[0], d.attrs);
    assert d.attrs[c.attrs[0].name] == IntAttr(n);
    assert NumValue(IntAttr(n)) == Some(n as real);
    assert AttrOk(c.attrs[0], d.attrs) <==> if xExactlyOne then n == 1 else n >= 1;
  }

  /** The mul contract each mul-producing pass registers: x_num_col_dims exactly one for squeeze2 and reshape2. */
  lemma MulLookup(kind: PassKind)
    requires !kind.MapMatmulV2ToMatmul?
    ensures FindCompat(Registered(kind).compats, "mul")
      == Some(MulCompat(kind.Squeeze2Matmul? || kind.Reshape2Matmul?))
  {
    var table := Registered(kind).compats;
    var last := |table| - 1;
    assert table[last] == MulCompat(kind.Squeeze2Matmul? || kind.Reshape2Matmul?);
    assert FindCompat(table[last..], "mul") == Some(table[last]);
    if last == 2 {
      assert table[1..][1..] == table[2..];
      assert FindCompat(table[1..], "mul") == FindCompat(table[2..], "mul");
    }
  }

  /** The x_num_col_dims a mul-producing pass gives its mul. */
  function MulColDims(kind: PassKind, nodes: map<NodeId, Node>, m: Match): int
    requires !kind.MapMatmulV2ToMatmul? && Binds(nodes, kind, m) && Build(kind, nodes, m).Ok?
  {
    match kind
    case MapMatmulToMul => |ShapeAt(nodes, m.inX)| - 1
    case Flatten2Matmul => DescAt(nodes, m.frontOp).attrs["axis"].i
    case _ => 1
  }

  /** The descriptor a mul-producing pass builds is a mul over the fused X, the matmul's Y and its output. */
  lemma BuiltMul(kind: PassKind, nodes: map<NodeId, Node>, m: Match)
    requires !kind.MapMatmulV2ToMatmul? && Binds(nodes, kind, m) && Build(kind, nodes, m).Ok?
    ensures IsMulOver(Build(kind, nodes, m).value, VarNameAt(nodes, FusedX(m)), VarNameAt(nodes, m.inY),
                      VarNameAt(nodes, m.out), MulColDims(kind, nodes, m))
  {
  }

  /** The new descriptor of a pass, judged against the pass's own table (map_matmul_to_mul's filter guarantees x rank >= 2). */
  lemma BuiltCompat(kind: PassKind, nodes: map<NodeId, Node>, m: Match)
    requires Binds(nodes, kind, m) && Build(kind, nodes, m).Ok?
    requires kind.MapMatmulToMul? ==> |ShapeAt(nodes, m.inX)| >= 2
    ensures DescCompat(Registered(kind).compats, Build(kind, nodes, m).value) <==>
      (kind.Flatten2Matmul? ==> DescAt(nodes, m.frontOp).attrs["axis"].i >= 1)
  {
    var table := Registered(kind).compats;
    var d := Build(kind, nodes, m).value;
    if kind.MapMatmulV2ToMatmul? {
      var c := table[1];
      assert FindCompat(table, "matmul") == Some(c);
      assert SlotOk(c.inputs[0], d.inputs) && SlotOk(c.inputs[1], d.inputs) && SlotOk(c.outputs[0], d.outputs);
    } else {
      MulLookup(kind);
      BuiltMul(kind, nodes, m);
      MulJudged(table, kind.Squeeze2Matmul? || kind.Reshape2Matmul?, d, VarNameAt(nodes, FusedX(m)),
                VarNameAt(nodes, m.inY), VarNameAt(nodes, m.out), MulColDims(kind, nodes, m));
    }
  }

  /**
    The check run on the new descriptor after (for reshape2: before) the
    splice. The new mul passes whenever its x_num_col_dims is 1 or, for
    map_matmul_to_mul, the x rank minus one; the new matmul of
    map_matmul_v2_to_matmul always passes; flatten2's mul passes exactly when
    the flatten2 axis is at least one, and an axis-0 mul stays in the graph
    with only a warning.
   */
  lemma PostCheck(kind: PassKind, nodes: map<NodeId, Node>, nextId: NodeId, m: Match)
    requires EdgesLive(nodes) && Binds(nodes, kind, m)
    ensures var o := OutcomeOf(kind, Registered(kind).compats, nodes, nextId, m);
      && !o.PostCheckFailed?
      && (o.Fused? && !kind.Flatten2Matmul? ==> o.descCompat)
      && (o.Fused? && kind.Flatten2Matmul? ==> (o.descCompat <==> DescAt(nodes, m.frontOp).attrs["axis"].i >= 1))
  {
    var o := OutcomeOf(kind, Registered(kind).compats, nodes, nextId, m);
    OutcomeOfSpec(kind, Registered(kind).compats, nodes, nextId, m);
    if o.Fused? || o.PostCheckFailed? {
      assert kind.MapMatmulToMul? ==> MapMatmulToMulFilter(nodes, m) == Ok(true);
      BuiltCompat(kind, nodes, m);
    }
  }

  /** A matmul accepted by a fusing filter satisfies the unit-matmul contract. */
  lemma UnitMatmulJudged(alphaOptional: bool, d: OpDesc)
    requires MatmulSlots(d) && UnitUntransposed(d.attrs, alphaOptional)
    ensures Judge(UnitMatmulCompat(alphaOptional), d)
  {
    var c := UnitMatmulCompat(alphaOptional);
    assert SlotOk(c.inputs[0], d.inputs) && SlotOk(c.inputs[1], d.inputs) && SlotOk(c.outputs[0], d.outputs);
    assert AttrOk(c.attrs[0], d.attrs) && AttrOk(c.attrs[1], d.attrs) && AttrOk(c.attrs[2], d.attrs);
  }

  /** The same matmul satisfies reshape2's narrower contract once its transposes are expected false. */
  lemma NarrowMatmulJudged(d: OpDesc)
    requires MatmulSlots(d) && UnitUntransposed(d.attrs, false)
    ensures Judge(NarrowMatmulCompat(false), d)
  {
    var c := NarrowMatmulCompat(false);
    assert SlotOk(c.inputs[0], d.inputs) && SlotOk(c.inputs[1], d.inputs) && SlotOk(c.outputs[0], d.outputs);
    assert AttrOk(c.attrs[0], d.attrs) && AttrOk(c.attrs[1], d.attrs) && AttrOk(c.attrs[2], d.attrs);
  }

  /** A front op with its defined slots satisfies its contract when its one attribute does. */
  lemma FrontJudged(c: OpCompat, d: OpDesc)
    requires FrontSlots(d) && |c.outputs| == 2 && |c.attrs| == 1
    requires forall i | 0 <= i < |c.inputs| ::
      c.inputs[i] in {InX, SlotCompat("Shape", true), SlotCompat("ShapeTensor", true)}
    requires c.outputs[0].name == "Out" && c.outputs[1].name == "XShape"
    requires AttrOk(c.attrs[0], d.attrs)
    ensures Judge(c, d)
  {
    assert SlotOk(c.outputs[0], d.outputs) && SlotOk(c.outputs[1], d.outputs);
  }

  /**
    The pre-check admits every binding a filter accepted, provided the matched
    operators have their defined slots and (for flatten2) the axis is not
    negative, which the filter does not look at.
   */
  lemma PreCheckAdmits(kind: PassKind, nodes: map<NodeId, Node>, m: Match)
    requires EdgesLive(nodes) && Binds(nodes, kind, m)
    requires Filter(kind, nodes, m) == Ok(true) && MatchedSlots(nodes, kind, m)
    requires kind.Flatten2Matmul? ==> NumValue(DescAt(nodes, m.frontOp).attrs["axis"]).value >= 0.0
    ensures SubgraphCompat(Registered(kind).compats, MatchedOps(nodes, kind, m))
  {
    var mm := DescAt(nodes, m.op);
    match kind
    case MapMatmulToMul =>
      UnitMatmulJudged(true, mm);
    case MapMatmulV2ToMatmul =>
      var c := MapMatmulV2ToMatmulCompats[0];
      assert SlotOk(c.inputs[0], mm.inputs) && SlotOk(c.inputs[1], mm.inputs) && SlotOk(c.outputs[0], mm.outputs);
    case Squeeze2Matmul =>
      Squeeze2PreCheckAdmits(nodes, m);
    case Reshape2Matmul =>
      Reshape2PreCheckAdmits(nodes, m);
    case Flatten2Matmul =>
      Flatten2PreCheckAdmits(nodes, m);
  }

  lemma Squeeze2PreCheckAdmits(nodes: map<NodeId, Node>, m: Match)
    requires EdgesLive(nodes) && Binds(nodes, Squeeze2Matmul, m)
    requires Squeeze2MatmulFilter(nodes, m) == Ok(true) && MatchedSlots(nodes, Squeeze2Matmul, m)
    ensures SubgraphCompat(Squeeze2MatmulCompats, MatchedOps(nodes, Squeeze2Matmul, m))
  {
    var table := Squeeze2MatmulCompats;
    var ops := MatchedOps(nodes, Squeeze2Matmul, m);
    UnitMatmulJudged(false, ops[1]);
    assert table[1].attrs[0].conds == [IsIntList];
    FrontJudged(table[1], ops[0]);
    assert FindCompat(table[1..], "squeeze2") == Some(table[1]);
  }

  lemma Reshape2PreCheckAdmits(nodes: map<NodeId, Node>, m: Match)
    requires EdgesLive(nodes) && Binds(nodes, Reshape2Matmul, m)
    requires Reshape2MatmulFilter(nodes, m) == Ok(true) && MatchedSlots(nodes, Reshape2Matmul, m)
    ensures SubgraphCompat(Reshape2MatmulCompats, MatchedOps(nodes, Reshape2Matmul, m))
  {
    var table := Reshape2MatmulCompats;
    var ops := MatchedOps(nodes, Reshape2Matmul, m);
    assert table[0].attrs[0].conds == [IsIntList];
    FrontJudged(table[0], ops[0]);
    NarrowMatmulJudged(ops[1]);
    assert FindCompat(table[1..], "matmul") == Some(table[1]);
  }

  lemma Flatten2PreCheckAdmits(nodes: map<NodeId, Node>, m: Match)
    requires EdgesLive(nodes) && Binds(nodes, Flatten2Matmul, m)
    requires Flatten2MatmulFilter(nodes, m) == Ok(true) && MatchedSlots(nodes, Flatten2Matmul, m)
    requires NumValue(DescAt(nodes, m.frontOp).attrs["axis"]).value >= 0.0
    ensures SubgraphCompat(Flatten2MatmulCompats, MatchedOps(nodes, Flatten2Matmul, m))
  {
    var table := Flatten2MatmulCompats;
    var ops := MatchedOps(nodes, Flatten2Matmul, m);
    UnitMatmulJudged(false, ops[1]);
    assert table[1].attrs[0].conds == [NumGE(0.0)];
    FrontJudged(table[1], ops[0]);
    assert FindCompat(table[1..], "flatten2") == Some(table[1]);
  }

  /**
    With the corrected tables, every pass fuses a binding its filter accepts when the matched operators
    have their defined slots and carry the attributes its contracts and its
    builder read; the outcome is then `Fused` with the new node's id.
   */
  lemma WellFormedMatchFuses(kind: PassKind, nodes: map<NodeId, Node>, nextId: NodeId, m: Match)
    requires EdgesLive(nodes) && Binds(nodes, kind, m)
    requires Filter(kind, nodes, m) == Ok(true)
    requires MatchedSlots(nodes, kind, m) && ContractAttrs(nodes, kind, m)
    ensures var built := Build(kind, nodes, m);
      && built.Ok?
      && OutcomeOf(kind, Registered(kind).compats, nodes, nextId, m)
           == Fused(nextId, built.value, DescCompat(Registered(kind).compats, built.value))
  {
    PreCheckAdmits(kind, nodes, m);
    assert Build(kind, nodes, m).Ok?;
    if kind.Reshape2Matmul? {
      BuiltCompat(kind, nodes, m);
    }
  }

  // ---------------------------------------------------------------------------
  // The contract tables as declared
  // ---------------------------------------------------------------------------

  /**
    With transpose_X and transpose_Y expected to be true, reshape2's pre-check
    rejects every matmul its filter accepted: reshape2_matmul_fuse_pass never
    fuses.
   */
  lemma Reshape2AsWrittenNeverFuses(nodes: map<NodeId, Node>, nextId: NodeId, m: Match)
    requires EdgesLive(nodes) && Binds(nodes, Reshape2Matmul, m)
    ensures var o := OutcomeOf(Reshape2Matmul, Reshape2MatmulCompatsAsWritten, nodes, nextId, m);
      !o.Fused? && !o.PostCheckFailed?
  {
    var table := Reshape2MatmulCompatsAsWritten;
    if Filter(Reshape2Matmul, nodes, m) == Ok(true) {
      var mm := DescAt(nodes, m.op);
      var c := NarrowMatmulCompat(true);
      assert Reshape2MatmulFilter(nodes, m) == Ok(true);
      assert FindCompat(table[1..], "matmul") == Some(c);
      assert c.attrs[1].conds[0] == BoolEQ(true);
      assert !AttrOk(c.attrs[1], mm.attrs);
      assert !DescCompat(table, MatchedOps(nodes, Reshape2Matmul, m)[1]);
    }
  }

  /** With the squeeze2 contract filed under "Squeeze2", no squeeze2 op has a contract: the pass never fuses. */
  lemma Squeeze2AsWrittenNeverFuses(nodes: map<NodeId, Node>, nextId: NodeId, m: Match)
    requires EdgesLive(nodes) && Binds(nodes, Squeeze2Matmul, m)
    ensures var o := OutcomeOf(Squeeze2Matmul, Squeeze2MatmulCompatsAsWritten, nodes, nextId, m);
      !o.Fused? && !o.PostCheckFailed?
  {
    var table := Squeeze2MatmulCompatsAsWritten;
    assert FindCompat(table, "squeeze2").None?;
    assert !DescCompat(table, MatchedOps(nodes, Squeeze2Matmul, m)[0]);
  }

  /** With a mandatory "Y" input in the flatten2 contract, no flatten2 op without one passes: the pass never fuses. */
  lemma Flatten2AsWrittenNeverFuses(nodes: map<NodeId, Node>, nextId: NodeId, m: Match)
    requires EdgesLive(nodes) && Binds(nodes, Flatten2Matmul, m)
    requires var front := DescAt(nodes, m.frontOp); "Y" !in front.inputs || front.inputs["Y"] == []
    ensures var o := OutcomeOf(Flatten2Matmul, Flatten2MatmulCompatsAsWritten, nodes, nextId, m);
      !o.Fused? && !o.PostCheckFailed?
  {
    var table := Flatten2MatmulCompatsAsWritten;
    var c := table[1];
    assert FindCompat(table[1..], "flatten2") == Some(c);
    assert !SlotOk(c.inputs[1], DescAt(nodes, m.frontOp).inputs);
    assert !DescCompat(table, MatchedOps(nodes, Flatten2Matmul, m)[0]);
  }
}
