/**
  Operator contracts: for one operator type, the input and output slots that
  must hold exactly one tensor (unless optional and absent or empty) and the predicates
  its attributes must satisfy (unless optional and absent). A pass keeps a
  table of contracts and judges operator descriptors against the one
  registered for their type.
 */
module OpCompats {
  import opened Wrappers
  import opened OpDescs

  /** One predicate on an attribute value. */
  datatype AttrCond =
    | NumGE(bound: real)
    | NumLE(bound: real)
    | NumGT(bound: real)
    | NumLT(bound: real)
    | NumEQ(bound: real)
    | BoolEQ(value: bool)
    | IsIntList

  datatype AttrCompat = AttrCompat(name: string, conds: seq<AttrCond>, optional: bool)

  /** A slot declared as holding a tensor. */
  datatype SlotCompat = SlotCompat(name: string, optional: bool)

  datatype OpCompat = OpCompat(
    opType: string,
    inputs: seq<SlotCompat>,
    outputs: seq<SlotCompat>,
    attrs: seq<AttrCompat>)

  /** The numeric value of an integer or floating-point attribute. */
  function NumValue(a: Attr): Option<real> {
    match a
    case IntAttr(i) => Some(i as real)
    case FloatAttr(f) => Some(f)
    case _ => None
  }

  predicate CondHolds(c: AttrCond, a: Attr) {
    match c
    case NumGE(b) => NumValue(a).Some? && NumValue(a).value >= b
    case NumLE(b) => NumValue(a).Some? && NumValue(a).value <= b
    case NumGT(b) => NumValue(a).Some? && NumValue(a).value > b
    case NumLT(b) => NumValue(a).Some? && NumValue(a).value < b
    case NumEQ(b) => NumValue(a).Some? && NumValue(a).value == b
    case BoolEQ(v) => a == BoolAttr(v)
    case IsIntList => a.IntsAttr?
  }

  predicate AttrOk(ac: AttrCompat, attrs: map<string, Attr>) {
    if ac.name in attrs then forall i | 0 <= i < |ac.conds| :: CondHolds(ac.conds[i], attrs[ac.name])
    else ac.optional
  }

  /** A slot holding some names must hold exactly one; an absent or empty slot is acceptable only if optional. */
  predicate SlotOk(sc: SlotCompat, slots: VarNameMap) {
    if sc.name in slots && |slots[sc.name]| > 0 then |slots[sc.name]| == 1 else sc.optional
  }

  /** Whether a descriptor satisfies a contract: every declared slot and attribute is acceptable. */
  predicate Judge(c: OpCompat, d: OpDesc) {
    && (forall i | 0 <= i < |c.inputs| :: SlotOk(c.inputs[i], d.inputs))
    && (forall i | 0 <= i < |c.outputs| :: SlotOk(c.outputs[i], d.outputs))
    && (forall i | 0 <= i < |c.attrs| :: AttrOk(c.attrs[i], d.attrs))
  }

  /** The contract registered for an operator type, if any. */
  function FindCompat(table: seq<OpCompat>, opType: string): (r: Option<OpCompat>)
    ensures r.Some? ==> r.value in table && r.value.opType == opType
    ensures r.None? <==> forall i | 0 <= i < |table| :: table[i].opType != opType
    ensures r.Some? ==>
      exists i | 0 <= i < |table| :: table[i] == r.value && forall j | 0 <= j < i :: table[j].opType != opType
  {
    if table == [] then None
    else if table[0].opType == opType then Some(table[0])
    else FindCompat(table[1..], opType)
  }

  /** The check on one descriptor: a contract is registered for its type and it holds. */
  predicate DescCompat(table: seq<OpCompat>, d: OpDesc) {
    var c := FindCompat(table, d.opType);
    c.Some? && Judge(c.value, d)
  }

  /** The check on a matched subgraph: every operator it binds passes its own contract. */
  predicate SubgraphCompat(table: seq<OpCompat>, ops: seq<OpDesc>) {
    forall i | 0 <= i < |ops| :: DescCompat(table, ops[i])
  }
}
