/**
  Operator descriptors: an operator type, named input and output slots (each a
  list of variable names) and a map of attributes. Attribute values are a closed
  tagged variant; the typed getters fail with an error where the framework's
  typed attribute accessor would raise.
 */
module OpDescs {
  import opened Wrappers

  /** The attribute types the modelled passes and operators read or write. */
  datatype Attr =
    | BoolAttr(b: bool)
    | IntAttr(i: int)
    | FloatAttr(f: real)
    | StringAttr(s: string)
    | IntsAttr(ints: seq<int>)

  type VarNameMap = map<string, seq<string>>

  datatype OpDesc = OpDesc(
    opType: string,
    inputs: VarNameMap,
    outputs: VarNameMap,
    attrs: map<string, Attr>)

  /** Why an attribute lookup raised: missing attribute, or one of another type. */
  datatype AttrError = AttrNotFound(name: string) | AttrTypeMismatch(name: string)

  /** The attribute under `name`, failing when it is absent. */
  function GetAttr(d: OpDesc, name: string): (r: Result<Attr, AttrError>)
    ensures r.Ok? <==> name in d.attrs
    ensures r.Ok? ==> r.value == d.attrs[name]
    ensures r.Err? ==> r.error == AttrNotFound(name)
  {
    if name in d.attrs then Ok(d.attrs[name]) else Err(AttrNotFound(name))
  }

  /** A boolean attribute; absent or non-boolean values are errors. */
  function GetBool(d: OpDesc, name: string): (r: Result<bool, AttrError>)
    ensures r.Ok? <==> name in d.attrs && d.attrs[name].BoolAttr?
    ensures r.Ok? ==> d.attrs[name] == BoolAttr(r.value)
  {
    var a :- GetAttr(d, name);
    if a.BoolAttr? then Ok(a.b) else Err(AttrTypeMismatch(name))
  }

  /** An integer attribute; absent or non-integer values are errors. */
  function GetInt(d: OpDesc, name: string): (r: Result<int, AttrError>)
    ensures r.Ok? <==> name in d.attrs && d.attrs[name].IntAttr?
    ensures r.Ok? ==> d.attrs[name] == IntAttr(r.value)
  {
    var a :- GetAttr(d, name);
    if a.IntAttr? then Ok(a.i) else Err(AttrTypeMismatch(name))
  }

  /** A floating-point attribute; absent or non-float values are errors. */
  function GetFloat(d: OpDesc, name: string): (r: Result<real, AttrError>)
    ensures r.Ok? <==> name in d.attrs && d.attrs[name].FloatAttr?
    ensures r.Ok? ==> d.attrs[name] == FloatAttr(r.value)
  {
    var a :- GetAttr(d, name);
    if a.FloatAttr? then Ok(a.f) else Err(AttrTypeMismatch(name))
  }

  /** An integer-list attribute; absent or differently typed values are errors. */
  function GetInts(d: OpDesc, name: string): (r: Result<seq<int>, AttrError>)
    ensures r.Ok? <==> name in d.attrs && d.attrs[name].IntsAttr?
    ensures r.Ok? ==> d.attrs[name] == IntsAttr(r.value)
  {
    var a :- GetAttr(d, name);
    if a.IntsAttr? then Ok(a.ints) else Err(AttrTypeMismatch(name))
  }

  /** The suffix the framework appends to a variable name to name its gradient. */
  const GradVarSuffix: string := "@GRAD"

  function GradVarName(name: string): string {
    name + GradVarSuffix
  }
}
