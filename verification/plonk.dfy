/**
 * The PLONK arithmetisation the example circuit is written against: a grid
 * of advice, instance and selector columns over `rows` rows, polynomial
 * expressions that query it at rotations relative to a row, and named gates.
 */
module Plonk {
  import opened Wrappers
  import opened Field

  /** Errors synthesis can raise. */
  datatype Error =
    | SynthesisError   // a witness value was absent, or a copy named a column outside the permutation
    | BoundsFailure    // a cell beyond the last row of the grid

  /** The number of rows of the grid, `2^k`; never zero. */
  type RowCount = n: nat | n > 0 witness 1

  function Pow2(k: nat): (n: RowCount)
    ensures k >= 3 <==> n >= 8
    ensures k > 0 <==> n > 1
  {
    if k == 0 then 1 else 2 * Pow2(k - 1)
  }

  /** An advice cell at an absolute row. */
  datatype AbsCell = AbsCell(column: nat, row: nat)

  /** A selector at an absolute row. */
  datatype SelectorCell = SelectorCell(selector: nat, row: nat)

  /** A copy constraint between two advice cells. */
  datatype CopyEdge = CopyEdge(left: AbsCell, right: AbsCell)

  /**
   * A finished assignment: the advice cells written so far (a cell missing
   * from `advice` was never assigned), the rows where each selector is
   * enabled, and the copy constraints in the order they were recorded.
   */
  datatype Grid = Grid(rows: RowCount, advice: map<AbsCell, Fp>, enabled: set<SelectorCell>, copies: seq<CopyEdge>)

  /** The row a rotation reaches from `row`; rotations wrap around the grid. */
  function Rotate(row: nat, rotation: int, rows: RowCount): (r: nat)
    ensures r < rows
    ensures 0 <= row + rotation < rows ==> r == row + rotation
  {
    (row + rotation) % rows
  }

  /** A polynomial over column queries, built by the `create_gate` closures. */
  datatype Expression =
    | SelectorQuery(selector: nat, rotation: int)
    | AdviceQuery(column: nat, rotation: int)
    | InstanceQuery(column: nat, rotation: int)
    | Sum(left: Expression, right: Expression)
    | Product(left: Expression, right: Expression)
    | Scaled(inner: Expression, factor: Fp)

  /** `Rotation::cur()` and `Rotation::next()`. */
  const Cur: int := 0
  const Next: int := 1

  /** A named gate: the polynomials that must vanish where it is active. */
  datatype Gate = Gate(name: string, polys: seq<Expression>)

  /** The advice cells `e` queries at `row`. */
  function AdviceReads(e: Expression, row: nat, rows: RowCount): set<AbsCell> {
    match e
    case SelectorQuery(_, _) => {}
    case AdviceQuery(c, rot) => {AbsCell(c, Rotate(row, rot, rows))}
    case InstanceQuery(_, _) => {}
    case Sum(l, r) => AdviceReads(l, row, rows) + AdviceReads(r, row, rows)
    case Product(l, r) => AdviceReads(l, row, rows) + AdviceReads(r, row, rows)
    case Scaled(inner, _) => AdviceReads(inner, row, rows)
  }

  /** The instance cells, as (column, row), `e` queries at `row`. */
  function InstanceReads(e: Expression, row: nat, rows: RowCount): set<(nat, nat)> {
    match e
    case SelectorQuery(_, _) => {}
    case AdviceQuery(_, _) => {}
    case InstanceQuery(c, rot) => {(c, Rotate(row, rot, rows))}
    case Sum(l, r) => InstanceReads(l, row, rows) + InstanceReads(r, row, rows)
    case Product(l, r) => InstanceReads(l, row, rows) + InstanceReads(r, row, rows)
    case Scaled(inner, _) => InstanceReads(inner, row, rows)
  }

  /** Every instance cell in `cells` was supplied. */
  predicate Supplied(instance: seq<seq<Fp>>, cells: set<(nat, nat)>) {
    forall q :: q in cells ==> q.0 < |instance| && q.1 < |instance[q.0]|
  }

  /**
   * The value of `e` at `row`. A selector reads 1 where it is enabled and 0
   * elsewhere; an advice cell that was never assigned, or an instance value
   * that was not supplied, has no value, and neither has anything built on it.
   */
  function Eval(e: Expression, g: Grid, instance: seq<seq<Fp>>, row: nat): (r: Option<Fp>)
    ensures r.Some? <==> AdviceReads(e, row, g.rows) <= g.advice.Keys && Supplied(instance, InstanceReads(e, row, g.rows))
  {
    match e
    case SelectorQuery(s, rot) =>
      Some(if SelectorCell(s, Rotate(row, rot, g.rows)) in g.enabled then One else Zero)
    case AdviceQuery(c, rot) =>
      var cell := AbsCell(c, Rotate(row, rot, g.rows));
      if cell in g.advice then Some(g.advice[cell]) else None
    case InstanceQuery(c, rot) =>
      var r := Rotate(row, rot, g.rows);
      if c < |instance| && r < |instance[c]| then Some(instance[c][r]) else None
    case Sum(l, r) =>
      var x, y := Eval(l, g, instance, row), Eval(r, g, instance, row);
      if x.Some? && y.Some? then Some(Add(x.value, y.value)) else None
    case Product(l, r) =>
      var x, y := Eval(l, g, instance, row), Eval(r, g, instance, row);
      if x.Some? && y.Some? then Some(Mul(x.value, y.value)) else None
    case Scaled(inner, k) =>
      var x := Eval(inner, g, instance, row);
      if x.Some? then Some(Mul(x.value, k)) else None
  }

  // One step of `Eval` on each compound expression. These restate `Eval`'s
  // own cases; callers use them to unfold one level without the solver
  // unfolding the whole expression.

  lemma EvalSum(l: Expression, r: Expression, g: Grid, instance: seq<seq<Fp>>, row: nat)
    ensures var x, y := Eval(l, g, instance, row), Eval(r, g, instance, row);
      Eval(Sum(l, r), g, instance, row) == if x.Some? && y.Some? then Some(Add(x.value, y.value)) else None
  {
  }

  lemma EvalProduct(l: Expression, r: Expression, g: Grid, instance: seq<seq<Fp>>, row: nat)
    ensures var x, y := Eval(l, g, instance, row), Eval(r, g, instance, row);
      Eval(Product(l, r), g, instance, row) == if x.Some? && y.Some? then Some(Mul(x.value, y.value)) else None
  {
  }

  lemma EvalScaled(e: Expression, k: Fp, g: Grid, instance: seq<seq<Fp>>, row: nat)
    ensures var x := Eval(e, g, instance, row);
      Eval(Scaled(e, k), g, instance, row) == if x.Some? then Some(Mul(x.value, k)) else None
  {
  }

  /** The selector queries (selector, rotation) that occur in `e`. */
  function Selectors(e: Expression): set<(nat, int)> {
    match e
    case SelectorQuery(s, rot) => {(s, rot)}
    case AdviceQuery(_, _) => {}
    case InstanceQuery(_, _) => {}
    case Sum(l, r) => Selectors(l) + Selectors(r)
    case Product(l, r) => Selectors(l) + Selectors(r)
    case Scaled(inner, _) => Selectors(inner)
  }

  /** Some selector that `e` queries is enabled at the row its rotation reaches from `row`. */
  predicate QueriesEnabled(e: Expression, g: Grid, row: nat) {
    match e
    case SelectorQuery(s, rot) => SelectorCell(s, Rotate(row, rot, g.rows)) in g.enabled
    case AdviceQuery(_, _) => false
    case InstanceQuery(_, _) => false
    case Sum(l, r) => QueriesEnabled(l, g, row) || QueriesEnabled(r, g, row)
    case Product(l, r) => QueriesEnabled(l, g, row) || QueriesEnabled(r, g, row)
    case Scaled(inner, _) => QueriesEnabled(inner, g, row)
  }

  predicate AnyQueriesEnabled(polys: seq<Expression>, g: Grid, row: nat) {
    if polys == [] then false
    else AnyQueriesEnabled(polys[..|polys| - 1], g, row) || QueriesEnabled(polys[|polys| - 1], g, row)
  }

  /** An expression that queries no selector enables nothing. */
  lemma {:induction false} SelectorFreeQuiet(e: Expression, g: Grid, row: nat)
    requires Selectors(e) == {}
    ensures !QueriesEnabled(e, g, row)
  {
    match e
    case SelectorQuery(_, _) =>
      assert false;
    case AdviceQuery(_, _) =>
    case InstanceQuery(_, _) =>
    case Sum(l, r) =>
      SelectorFreeQuiet(l, g, row);
      SelectorFreeQuiet(r, g, row);
    case Product(l, r) =>
      SelectorFreeQuiet(l, g, row);
      SelectorFreeQuiet(r, g, row);
    case Scaled(inner, _) =>
      SelectorFreeQuiet(inner, g, row);
  }

  /** A gate is active at a row when one of the selectors it queries is enabled there. */
  predicate Active(gate: Gate, g: Grid, row: nat) {
    AnyQueriesEnabled(gate.polys, g, row)
  }

  /** Constraint `k` of `gate` vanishes at `row`. */
  predicate PolyHolds(gate: Gate, k: nat, g: Grid, instance: seq<seq<Fp>>, row: nat)
    requires k < |gate.polys|
  {
    Eval(gate.polys[k], g, instance, row) == Some(Zero)
  }

  /** The gate imposes nothing where it is inactive, and every constraint where it is active. */
  predicate GateHolds(gate: Gate, g: Grid, instance: seq<seq<Fp>>, row: nat) {
    Active(gate, g, row) ==> forall k :: 0 <= k < |gate.polys| ==> PolyHolds(gate, k, g, instance, row)
  }

  /** A copy constraint holds when both cells are assigned and equal. */
  predicate CopyHolds(g: Grid, e: CopyEdge) {
    e.left in g.advice && e.right in g.advice && g.advice[e.left] == g.advice[e.right]
  }
}
