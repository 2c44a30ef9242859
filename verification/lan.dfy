/**
 * The bookkeeping of the likelihood-approximation-network (LAN) bridge: how
 * the vectorisation axes are chosen, how the vector-Jacobian product is
 * trimmed, the arity and types of the two graph nodes, how their `perform`
 * steps fill the output cells, and how the network's input matrix is laid out.
 * The network itself, JAX and the tensor library are opaque: the network and
 * its VJP are function parameters, and graph variables are plain values.
 */
module Lan {
  import opened Wrappers

  // ---------------------------------------------------------------------------
  // Vectorisation axes
  // ---------------------------------------------------------------------------

  /**
   * The `in_axes` argument given to `vmap`: the data is mapped over axis 0,
   * and parameter `i` is mapped over axis 0 exactly when it is a regression
   * (`None`, i.e. broadcast, otherwise).
   */
  function InAxes(paramsIsReg: seq<bool>): (axes: seq<Option<nat>>)
    ensures |axes| == 1 + |paramsIsReg|
    ensures axes[0] == Some(0)
    ensures forall i :: 0 <= i < |paramsIsReg| ==> (axes[i + 1] == Some(0) <==> paramsIsReg[i])
    ensures forall i :: 0 <= i < |paramsIsReg| ==> (axes[i + 1] == None <==> !paramsIsReg[i])
  {
    [Some(0)] + seq(|paramsIsReg|, i requires 0 <= i < |paramsIsReg| => if paramsIsReg[i] then Some(0) else None)
  }

  /** The positions of the parameters that `vmap` maps over. */
  function MappedParams(axes: seq<Option<nat>>): set<nat>
  {
    set k | 1 <= k < |axes| && axes[k].Some? :: k - 1
  }

  /** The parameters `vmap` maps over are exactly the regressions. */
  lemma MappedParamsAreRegressions(paramsIsReg: seq<bool>)
    ensures MappedParams(InAxes(paramsIsReg)) == set i: nat | i < |paramsIsReg| && paramsIsReg[i]
  {
    var axes := InAxes(paramsIsReg);
    forall i: nat | i < |paramsIsReg|
      ensures i in MappedParams(axes) <==> paramsIsReg[i]
    {
      assert axes[i + 1].Some? <==> axes[i + 1] == Some(0);
    }
  }

  /**
   * The vector the network sees for one data row inside the vectorised
   * `logp`: the parameters first, then the row (response time, response).
   */
  function NetworkInput(params: seq<real>, dataRow: seq<real>): (v: seq<real>)
    ensures |v| == |params| + |dataRow|
    ensures forall i :: 0 <= i < |params| ==> v[i] == params[i]
    ensures forall i :: 0 <= i < |dataRow| ==> v[|params| + i] == dataRow[i]
  {
    params + dataRow
  }

  // ---------------------------------------------------------------------------
  // Vector-Jacobian product
  // ---------------------------------------------------------------------------

  /** The primal input a cotangent belongs to. */
  datatype Primal = Data | Param(index: nat)

  /** A cotangent returned by the VJP, tagged with the primal it is the gradient for. */
  datatype Cotangent<G> = Cotangent(wrt: Primal, value: G)

  /** The cotangents of the vectorised `logp`: one per primal input, data first. */
  predicate IsFullVjp<G>(cotangents: seq<Cotangent<G>>, nParams: nat)
  {
    |cotangents| == 1 + nParams
    && cotangents[0].wrt == Data
    && forall i :: 0 <= i < nParams ==> cotangents[i + 1].wrt == Param(i)
  }

  /** `vjp_vmap_logp`: the VJP of the vectorised `logp` without the data's cotangent. */
  function VjpVmapLogp<G>(cotangents: seq<Cotangent<G>>): (r: seq<Cotangent<G>>)
    requires |cotangents| >= 1
    ensures |r| == |cotangents| - 1
    ensures forall i :: 0 <= i < |r| ==> r[i] == cotangents[i + 1]
  {
    cotangents[1..]
  }

  /** Of a full VJP, exactly one gradient per parameter is kept, in parameter order. */
  lemma VjpKeepsParamsInOrder<G>(cotangents: seq<Cotangent<G>>, nParams: nat)
    requires IsFullVjp(cotangents, nParams)
    ensures |VjpVmapLogp(cotangents)| == nParams
    ensures forall i :: 0 <= i < nParams ==> VjpVmapLogp(cotangents)[i].wrt == Param(i)
    ensures forall c :: c in VjpVmapLogp(cotangents) ==> c.wrt != Data
  {
    var r := VjpVmapLogp(cotangents);
    forall c | c in r
      ensures c.wrt != Data
    {
      var i :| 0 <= i < |r| && r[i] == c;
      assert r[i].wrt == Param(i);
    }
  }

  // ---------------------------------------------------------------------------
  // Graph nodes
  // ---------------------------------------------------------------------------

  /** The element type and number of dimensions of a tensor. */
  datatype TensorType = TensorType(dtype: string, ndim: nat)

  /** The library's default float type. */
  const FloatX: string := "float64"

  /** `pt.vector()`: a one-dimensional tensor of the default float type. */
  const Vector: TensorType := TensorType(FloatX, 1)

  /** The two operations of the bridge. */
  datatype OpKind = LanLogp | LanLogpVjp

  /** A graph variable: an input given by the caller, or output `index` of a node. */
  datatype Variable =
    | Given(name: string, vtype: TensorType)
    | Output(node: Node, index: nat, vtype: TensorType)

  /** An `Apply` node: an operation, its inputs and the types of its outputs. */
  datatype Node = Node(op: OpKind, inputs: seq<Variable>, outputTypes: seq<TensorType>)

  /** The output variables of a node, one per output type. */
  function Outputs(node: Node): (vs: seq<Variable>)
    ensures |vs| == |node.outputTypes|
    ensures forall i :: 0 <= i < |vs| ==> vs[i] == Output(node, i, node.outputTypes[i])
  {
    seq(|node.outputTypes|, i requires 0 <= i < |node.outputTypes| => Output(node, i, node.outputTypes[i]))
  }

  /** `LANLogpOp.make_node`: inputs are the data then each parameter; one vector output. */
  function MakeNode(data: Variable, params: seq<Variable>): (node: Node)
    ensures node.op == LanLogp
    ensures |node.inputs| == 1 + |params| && node.inputs[0] == data
    ensures forall i :: 0 <= i < |params| ==> node.inputs[i + 1] == params[i]
    ensures node.outputTypes == [Vector]
  {
    Node(LanLogp, [data] + params, [Vector])
  }

  /**
   * `LANLogpVJPOp.make_node`: inputs are the data, each parameter, then `gz`;
   * one output per parameter, of that parameter's type.
   */
  function MakeVjpNode(data: Variable, params: seq<Variable>, gz: Variable): (node: Node)
    ensures node.op == LanLogpVjp
    ensures |node.inputs| == |params| + 2
    ensures node.inputs[0] == data && node.inputs[|params| + 1] == gz
    ensures forall i :: 0 <= i < |params| ==> node.inputs[i + 1] == params[i]
    ensures |node.outputTypes| == |params|
    ensures forall i :: 0 <= i < |params| ==> node.outputTypes[i] == params[i].vtype
  {
    var inputs := [data] + params + [gz];
    Node(LanLogpVjp, inputs, seq(|inputs| - 2, i requires 0 <= i < |inputs| - 2 => inputs[i + 1].vtype))
  }

  /** An entry of the gradient list: the not-implemented marker for an input, or a variable. */
  datatype GradEntry = NotImplemented(op: OpKind, inputIndex: nat) | Gradient(v: Variable)

  /**
   * `LANLogpOp.grad`: the marker for the data input, then the outputs of the
   * VJP node built on the same inputs with `gz` the first output gradient.
   */
  function Grad(inputs: seq<Variable>, outputGradients: seq<Variable>): (r: seq<GradEntry>)
    requires |inputs| >= 1 && |outputGradients| >= 1
    ensures |r| == |inputs|
    ensures r[0] == NotImplemented(LanLogp, 0)
  {
    var vjpNode := MakeVjpNode(inputs[0], inputs[1..], outputGradients[0]);
    [NotImplemented(LanLogp, 0)] + seq(|Outputs(vjpNode)|, i requires 0 <= i < |Outputs(vjpNode)| => Gradient(Outputs(vjpNode)[i]))
  }

  /**
   * Each gradient after the first is output `i - 1` of one VJP node, whose
   * inputs are the forward node's inputs followed by `gz`, and it has the type
   * of the input it is the gradient for.
   */
  lemma GradMatchesInputs(data: Variable, params: seq<Variable>, gz: Variable)
    ensures var node := MakeNode(data, params);
            var r := Grad(node.inputs, [gz]);
            |r| == 1 + |params|
            && forall i :: 1 <= i < |r| ==>
                 r[i].Gradient? && r[i].v.Output?
                 && r[i].v.node.op == LanLogpVjp
                 && r[i].v.node.inputs == node.inputs + [gz]
                 && r[i].v.index == i - 1
                 && r[i].v.vtype == node.inputs[i].vtype
  {
    var node := MakeNode(data, params);
    assert node.inputs[1..] == params;
    var vjpNode := MakeVjpNode(data, params, gz);
    assert vjpNode.inputs == node.inputs + [gz];
  }

  // ---------------------------------------------------------------------------
  // perform
  // ---------------------------------------------------------------------------

  /**
   * `LANLogpOp.perform`: evaluates the network on the inputs and stores the
   * result in the single output cell.
   */
  method PerformLogp<V>(logp: seq<V> -> V, inputs: seq<V>, outputStorage: array<Option<V>>)
    requires outputStorage.Length == 1
    modifies outputStorage
    ensures outputStorage[0] == Some(logp(inputs))
  {
    var result := logp(inputs);
    outputStorage[0] := Some(result);
  }

  /**
   * `LANLogpVJPOp.perform`: evaluates the VJP on (data, parameters, gz) and
   * stores result `i` in output cell `i`. When there are more results than
   * cells, the cells are filled and the next write fails (`ok` is false).
   */
  method PerformVjp<V>(logpVjp: (V, seq<V>, V) -> seq<V>, inputs: seq<V>, outputs: array<Option<V>>)
    returns (ok: bool)
    requires |inputs| >= 2
    modifies outputs
    ensures var results := logpVjp(inputs[0], inputs[1..|inputs| - 1], inputs[|inputs| - 1]);
            (ok <==> |results| <= outputs.Length)
            && (forall i :: 0 <= i < outputs.Length && i < |results| ==> outputs[i] == Some(results[i]))
            && (forall i :: |results| <= i < outputs.Length ==> outputs[i] == old(outputs[i]))
  {
    var results := logpVjp(inputs[0], inputs[1..|inputs| - 1], inputs[|inputs| - 1]);
    var i := 0;
    while i < |results|
      invariant 0 <= i <= |results| && i <= outputs.Length
      invariant forall j :: 0 <= j < i ==> outputs[j] == Some(results[j])
      invariant forall j :: i <= j < outputs.Length ==> outputs[j] == old(outputs[j])
    {
      if i >= outputs.Length {
        return false;
      }
      outputs[i] := Some(results[i]);
      i := i + 1;
    }
    return true;
  }

  // ---------------------------------------------------------------------------
  // The network's input matrix
  // ---------------------------------------------------------------------------

  /** A distribution parameter: one value for all rows, or a column of values. */
  datatype ParamValue = Scalar(x: real) | Column(xs: seq<real>)

  /** A parameter can be written into a column of `rows` rows (a length-1 column broadcasts). */
  predicate Fits(p: ParamValue, rows: nat)
  {
    p.Scalar? || |p.xs| == rows || |p.xs| == 1
  }

  /** The value a fitting parameter gives row `j`. */
  function ParamAt(p: ParamValue, j: nat): real
  {
    match p
    case Scalar(x) => x
    case Column(xs) => if |xs| == 1 then xs[0] else if j < |xs| then xs[j] else 0.0
  }

  /**
   * Why the matrix cannot be built: the data has an odd number of values, or
   * the first parameter (from `i` on) that has no column or does not fit one.
   */
  function InputMatrixError(data: seq<real>, params: seq<ParamValue>, nParams: nat): Option<string>
  {
    if |data| % 2 != 0 then Some("cannot reshape data into two columns")
    else ParamsError(params, |data| / 2, nParams + 2, 0)
  }

  /** The first failing write of the parameter loop, from parameter `i` on. */
  function ParamsError(params: seq<ParamValue>, rows: nat, cols: nat, i: nat): Option<string>
    decreases |params| - i
  {
    if i >= |params| then None
    else if i >= cols then Some("parameter index out of bounds")
    else if !Fits(params[i], rows) then Some("parameter shape mismatch")
    else ParamsError(params, rows, cols, i + 1)
  }

  /** No failing write from `i` on means every later parameter has a column and fits it. */
  lemma {:induction false} NoParamsError(params: seq<ParamValue>, rows: nat, cols: nat, i: nat)
    requires ParamsError(params, rows, cols, i).None?
    ensures forall k :: i <= k < |params| ==> k < cols && Fits(params[k], rows)
    ensures i < |params| ==> |params| <= cols
    decreases |params| - i
  {
    if i < |params| {
      NoParamsError(params, rows, cols, i + 1);
    }
  }

  /** A parameter list with no failing write fits into the matrix. */
  lemma ParamsFit(data: seq<real>, params: seq<ParamValue>, nParams: nat)
    requires InputMatrixError(data, params, nParams).None?
    ensures |params| <= nParams + 2
    ensures forall k :: 0 <= k < |params| ==> Fits(params[k], |data| / 2)
  {
    NoParamsError(params, |data| / 2, nParams + 2, 0);
  }

  /**
   * Entry (`j`, `c`) of the input matrix: the last two columns are data row
   * `j`; otherwise column `c` is parameter `c` when one was given, else 0.
   */
  function InputEntry(data: seq<real>, params: seq<ParamValue>, nParams: nat, j: nat, c: nat): real
    requires InputMatrixError(data, params, nParams).None?
    requires j < |data| / 2 && c < nParams + 2
  {
    ParamsFit(data, params, nParams);
    if c >= nParams then data[2 * j + (c - nParams)]
    else if c < |params| then ParamAt(params[c], j)
    else 0.0
  }

  /** The inner `logp` of `make_pytensor_logp`, up to the network: builds its input matrix column by column. */
  method BuildInputMatrix(data: seq<real>, params: seq<ParamValue>, nParams: nat)
    returns (r: Result<seq<seq<real>>>)
    ensures r.Failure? <==> InputMatrixError(data, params, nParams).Some?
    ensures r.Failure? ==> r.error == InputMatrixError(data, params, nParams).value
    ensures r.Success? ==>
              |r.value| == |data| / 2
              && forall j :: 0 <= j < |r.value| ==>
                   |r.value[j]| == nParams + 2
                   && forall c :: 0 <= c < nParams + 2 ==> r.value[j][c] == InputEntry(data, params, nParams, j, c)
  {
    if |data| % 2 != 0 {
      return Failure("cannot reshape data into two columns");
    }
    var rows := |data| / 2;
    var cols := nParams + 2;
    var inputs := seq(rows, j => seq(cols, c => 0.0));
    forall j | 0 <= j < rows
      ensures inputs[j] == Filled(params, rows, cols, 0)[j]
    {
    }
    var i := 0;
    while i < |params|
      invariant 0 <= i <= |params|
      invariant |inputs| == rows
      invariant forall j :: 0 <= j < rows ==> |inputs[j]| == cols
      invariant forall k :: 0 <= k < i ==> k < cols && Fits(params[k], rows)
      invariant InputMatrixError(data, params, nParams) == ParamsError(params, rows, cols, i)
      invariant inputs == Filled(params, rows, cols, i)
    {
      if i >= cols {
        return Failure("parameter index out of bounds");
      }
      if !Fits(params[i], rows) {
        return Failure("parameter shape mismatch");
      }
      var next := SetColumn(inputs, i, params[i]);
      FillNext(params, rows, cols, i);
      inputs := next;
      i := i + 1;
    }
    var matrix := SetDataColumns(inputs, data, nParams);
    ParamsFit(data, params, nParams);
    forall j, c | 0 <= j < rows && 0 <= c < cols
      ensures matrix[j][c] == InputEntry(data, params, nParams, j, c)
    {
      assert matrix[j][c] == if c >= nParams then data[2 * j + (c - nParams)] else inputs[j][c];
      assert inputs[j][c] == if c < |params| then ParamAt(params[c], j) else 0.0;
    }
    return Success(matrix);
  }

  /** The matrix after the first `i` parameters are written into their columns. */
  function Filled(params: seq<ParamValue>, rows: nat, cols: nat, i: nat): (r: seq<seq<real>>)
    requires i <= |params|
    ensures |r| == rows
    ensures forall j :: 0 <= j < rows ==> |r[j]| == cols
    ensures forall j, c :: 0 <= j < rows && 0 <= c < cols ==> r[j][c] == if c < i then ParamAt(params[c], j) else 0.0
  {
    seq(rows, j requires 0 <= j < rows => seq(cols, c requires 0 <= c < cols => if c < i then ParamAt(params[c], j) else 0.0))
  }

  /** Writing parameter `i` into column `i` extends the filled prefix by one column. */
  lemma FillNext(params: seq<ParamValue>, rows: nat, cols: nat, i: nat)
    requires i < |params| && i < cols && Fits(params[i], rows)
    ensures SetColumn(Filled(params, rows, cols, i), i, params[i]) == Filled(params, rows, cols, i + 1)
  {
    var before := Filled(params, rows, cols, i);
    var after := SetColumn(before, i, params[i]);
    var want := Filled(params, rows, cols, i + 1);
    forall j | 0 <= j < rows
      ensures after[j] == want[j]
    {
      forall c | 0 <= c < cols
        ensures after[j][c] == want[j][c]
      {
      }
    }
  }

  /** `set_subtensor(inputs[:, c], p)`: column `c` takes the parameter's values, all else is kept. */
  function SetColumn(inputs: seq<seq<real>>, c: nat, p: ParamValue): (r: seq<seq<real>>)
    requires Fits(p, |inputs|)
    ensures |r| == |inputs|
    ensures forall j :: 0 <= j < |r| ==> |r[j]| == |inputs[j]|
    ensures forall j, k :: 0 <= j < |r| && 0 <= k < |r[j]| ==>
              r[j][k] == if k == c then ParamAt(p, j) else inputs[j][k]
  {
    seq(|inputs|, j requires 0 <= j < |inputs| =>
      seq(|inputs[j]|, k requires 0 <= k < |inputs[j]| => if k == c then ParamAt(p, j) else inputs[j][k]))
  }

  /** `set_subtensor(inputs[:, -2:], data)`: the last two columns take the data rows. */
  function SetDataColumns(inputs: seq<seq<real>>, data: seq<real>, nParams: nat): (r: seq<seq<real>>)
    requires |data| == 2 * |inputs|
    requires forall j :: 0 <= j < |inputs| ==> |inputs[j]| == nParams + 2
    ensures |r| == |inputs|
    ensures forall j :: 0 <= j < |r| ==> |r[j]| == nParams + 2
    ensures forall j, k :: 0 <= j < |r| && 0 <= k < nParams + 2 ==>
              r[j][k] == if k >= nParams then data[2 * j + (k - nParams)] else inputs[j][k]
  {
    seq(|inputs|, j requires 0 <= j < |inputs| =>
      seq(nParams + 2, k requires 0 <= k < nParams + 2 =>
        if k >= nParams then data[2 * j + (k - nParams)] else inputs[j][k]))
  }

  /**
   * When every parameter is given, each row of the matrix is exactly the
   * vector the vectorised `logp` feeds the network for that row: the
   * parameters' values at the row, then the row's response time and response.
   */
  lemma InputLayoutsAgree(data: seq<real>, params: seq<ParamValue>, j: nat)
    requires InputMatrixError(data, params, |params|).None?
    requires j < |data| / 2
    ensures var row := seq(|params| + 2, c requires 0 <= c < |params| + 2 => InputEntry(data, params, |params|, j, c));
            var values := seq(|params|, i requires 0 <= i < |params| => ParamAt(params[i], j));
            row == NetworkInput(values, data[2 * j..2 * j + 2])
  {
    var n := |params|;
    var row := seq(n + 2, c requires 0 <= c < n + 2 => InputEntry(data, params, n, j, c));
    ParamsFit(data, params, n);
    var values := seq(n, i requires 0 <= i < n => ParamAt(params[i], j));
    var v := NetworkInput(values, data[2 * j..2 * j + 2]);
    forall c | 0 <= c < n + 2
      ensures row[c] == v[c]
    {
      if c < n {
        assert row[c] == values[c];
      } else {
        assert v[c] == data[2 * j..2 * j + 2][c - n];
      }
    }
  }

  /** Parameter columns beyond the given ones stay 0, and the data columns override parameters written there. */
  lemma UnwrittenColumnsAreZero(data: seq<real>, params: seq<ParamValue>, nParams: nat, j: nat, c: nat)
    requires InputMatrixError(data, params, nParams).None?
    requires j < |data| / 2 && |params| <= c < nParams
    ensures InputEntry(data, params, nParams, j, c) == 0.0
  {
  }
}
