/**
 * Tool declarations as constant data: a tool's name, its description and
 * its ordered parameter list. Both deployments declare their tools in this
 * shape (zod objects in the stdio server, `MCPParameter` lists over HTTP).
 */
module Schema {

  datatype ParamKind = StringParam | NumberParam | BooleanParam

  datatype Param = Param(name: string, description: string, kind: ParamKind, required: bool)

  datatype ToolSpec = ToolSpec(name: string, description: string, params: seq<Param>)

  /** The names of a tool's required string parameters, in declaration order. */
  function RequiredStrings(params: seq<Param>): (names: seq<string>)
    ensures |names| <= |params|
    ensures forall n :: n in names <==>
      exists i :: 0 <= i < |params| && params[i].name == n
                  && params[i].kind == StringParam && params[i].required
    decreases |params|
  {
    if |params| == 0 then []
    else
      var rest := RequiredStrings(params[1..]);
      var p := params[0];
      assert forall i :: 1 <= i < |params| ==> params[i] == params[1..][i - 1];
      if p.kind == StringParam && p.required then [p.name] + rest else rest
  }

  /** The required string names of a concatenation are those of each part, in order. */
  lemma {:induction false} RequiredStringsAppend(a: seq<Param>, b: seq<Param>)
    ensures RequiredStrings(a + b) == RequiredStrings(a) + RequiredStrings(b)
    decreases |a|
  {
    if |a| > 0 {
      assert (a + b)[1..] == a[1..] + b;
      RequiredStringsAppend(a[1..], b);
    } else {
      assert a + b == b;
    }
  }

  /** A single parameter contributes its name exactly when it is a required string. */
  lemma RequiredStringsSingle(p: Param)
    ensures RequiredStrings([p]) == if p.kind == StringParam && p.required then [p.name] else []
  {
  }

  /** No two tools in `tools` share a name. */
  predicate NamesDistinct(tools: seq<ToolSpec>) {
    forall i, j :: 0 <= i < j < |tools| ==> tools[i].name != tools[j].name
  }
}
