/**
 * The three gates of the two-chip example as the `create_gate` closures
 * build them, what each one demands of the grid, and the optional-value
 * combinators the chips use to compute their outputs.
 */
module TwoChipGates {
  import opened Wrappers
  import opened Field
  import opened Plonk

  /**
   * `s * (t + v * -1)` at the current row: the shape of all three gates.
   * Where `s` is enabled, `t` and `v` must agree.
   */
  function GatedGate(name: string, s: nat, t: Expression, v: Expression): (r: Gate)
    ensures r.name == name && |r.polys| == 1
    ensures Selectors(t) == {} && Selectors(v) == {} ==> Selectors(r.polys[0]) == {(s, Cur)}
    ensures forall row: nat, rows: RowCount ::
      && AdviceReads(r.polys[0], row, rows) == AdviceReads(t, row, rows) + AdviceReads(v, row, rows)
      && InstanceReads(r.polys[0], row, rows) == InstanceReads(t, row, rows) + InstanceReads(v, row, rows)
  {
    var diff := Sum(t, Scaled(v, MinusOne));
    assert Selectors(diff) == Selectors(t) + Selectors(v);
    assert forall row: nat, rows: RowCount ::
      && AdviceReads(Product(SelectorQuery(s, Cur), diff), row, rows) == AdviceReads(t, row, rows) + AdviceReads(v, row, rows)
      && InstanceReads(Product(SelectorQuery(s, Cur), diff), row, rows) == InstanceReads(t, row, rows) + InstanceReads(v, row, rows)
    by {
      forall row: nat, rows: RowCount {
        GatedReads(s, t, v, row, rows);
      }
    }
    Gate(name, [Product(SelectorQuery(s, Cur), diff)])
  }

  lemma GatedReads(s: nat, t: Expression, v: Expression, row: nat, rows: RowCount)
    ensures var e := Product(SelectorQuery(s, Cur), Sum(t, Scaled(v, MinusOne)));
      && AdviceReads(e, row, rows) == AdviceReads(t, row, rows) + AdviceReads(v, row, rows)
      && InstanceReads(e, row, rows) == InstanceReads(t, row, rows) + InstanceReads(v, row, rows)
  {
    assert AdviceReads(Scaled(v, MinusOne), row, rows) == AdviceReads(v, row, rows);
    assert InstanceReads(Scaled(v, MinusOne), row, rows) == InstanceReads(v, row, rows);
  }

  /** The operands of the add and mul gates query both advice columns at the current row. */
  lemma OperandReads(advice: (nat, nat), row: nat, rows: RowCount)
    requires row < rows
    ensures var lhs, rhs := AdviceQuery(advice.0, Cur), AdviceQuery(advice.1, Cur);
      && AdviceReads(Sum(lhs, rhs), row, rows) == AdviceReads(Product(lhs, rhs), row, rows) == {AbsCell(advice.0, row), AbsCell(advice.1, row)}
      && InstanceReads(Sum(lhs, rhs), row, rows) == InstanceReads(Product(lhs, rhs), row, rows) == {}
  {
    assert Rotate(row, Cur, rows) == row;
  }

  /** `s * (p + a * -1)` over advice column `advice1` and instance column `instance`. */
  function PublicInputGate(advice1: nat, instance: nat, sPub: nat): (r: Gate)
    ensures r.name == "public input" && |r.polys| == 1 && Selectors(r.polys[0]) == {(sPub, Cur)}
    ensures forall row: nat, rows: RowCount :: row < rows ==>
      AdviceReads(r.polys[0], row, rows) == {AbsCell(advice1, row)} && InstanceReads(r.polys[0], row, rows) == {(instance, row)}
  {
    GatedGate("public input", sPub, InstanceQuery(instance, Cur), AdviceQuery(advice1, Cur))
  }

  /** `s_add * (lhs + rhs + out * -1)`; `out` is the first advice column on the next row. */
  function AddGate(advice: (nat, nat), sAdd: nat): (r: Gate)
    ensures r.name == "add" && |r.polys| == 1 && Selectors(r.polys[0]) == {(sAdd, Cur)}
    ensures forall row: nat, rows: RowCount :: row < rows ==>
      && AdviceReads(r.polys[0], row, rows) == {AbsCell(advice.0, row), AbsCell(advice.1, row), AbsCell(advice.0, (row + 1) % rows)}
      && InstanceReads(r.polys[0], row, rows) == {}
  {
    var t := Sum(AdviceQuery(advice.0, Cur), AdviceQuery(advice.1, Cur));
    assert Selectors(t) == {};
    assert forall row: nat, rows: RowCount :: row < rows ==>
      AdviceReads(t, row, rows) == {AbsCell(advice.0, row), AbsCell(advice.1, row)} && InstanceReads(t, row, rows) == {}
    by {
      forall row: nat, rows: RowCount | row < rows {
        OperandReads(advice, row, rows);
      }
    }
    GatedGate("add", sAdd, t, AdviceQuery(advice.0, Next))
  }

  /** `s_mul * (lhs * rhs + out * -1)`; `out` is the first advice column on the next row. */
  function MulGate(advice: (nat, nat), sMul: nat): (r: Gate)
    ensures r.name == "mul" && |r.polys| == 1 && Selectors(r.polys[0]) == {(sMul, Cur)}
    ensures forall row: nat, rows: RowCount :: row < rows ==>
      && AdviceReads(r.polys[0], row, rows) == {AbsCell(advice.0, row), AbsCell(advice.1, row), AbsCell(advice.0, (row + 1) % rows)}
      && InstanceReads(r.polys[0], row, rows) == {}
  {
    var t := Product(AdviceQuery(advice.0, Cur), AdviceQuery(advice.1, Cur));
    assert Selectors(t) == {};
    assert forall row: nat, rows: RowCount :: row < rows ==>
      AdviceReads(t, row, rows) == {AbsCell(advice.0, row), AbsCell(advice.1, row)} && InstanceReads(t, row, rows) == {}
    by {
      forall row: nat, rows: RowCount | row < rows {
        OperandReads(advice, row, rows);
      }
    }
    GatedGate("mul", sMul, t, AdviceQuery(advice.0, Next))
  }

  /** A gated gate over selector-free `t` and `v` is active exactly where its selector is enabled. */
  lemma GatedActive(name: string, s: nat, t: Expression, v: Expression, g: Grid, row: nat)
    requires Selectors(t) == {} && Selectors(v) == {} && row < g.rows
    ensures Active(GatedGate(name, s, t, v), g, row) <==> SelectorCell(s, row) in g.enabled
  {
    SelectorFreeQuiet(t, g, row);
    SelectorFreeQuiet(v, g, row);
    assert Rotate(row, Cur, g.rows) == row;
    var diff := Sum(t, Scaled(v, MinusOne));
    assert !QueriesEnabled(Scaled(v, MinusOne), g, row);
    assert !QueriesEnabled(diff, g, row);
    assert QueriesEnabled(Product(SelectorQuery(s, Cur), diff), g, row) <==> SelectorCell(s, row) in g.enabled;
    var polys := GatedGate(name, s, t, v).polys;
    assert polys[..0] == [] && polys[0] == Product(SelectorQuery(s, Cur), diff);
    assert AnyQueriesEnabled(polys, g, row) <==> AnyQueriesEnabled([], g, row) || QueriesEnabled(polys[0], g, row);
  }

  /**
   * A gated gate holds wherever its selector is off, and where it is on
   * exactly when `t` and `v` both have values and they are equal.
   */
  lemma GatedGateHolds(name: string, s: nat, t: Expression, v: Expression, g: Grid, inst: seq<seq<Fp>>, row: nat)
    requires Selectors(t) == {} && Selectors(v) == {} && row < g.rows
    ensures var et, ev := Eval(t, g, inst, row), Eval(v, g, inst, row);
      GateHolds(GatedGate(name, s, t, v), g, inst, row) <==>
        SelectorCell(s, row) !in g.enabled || (et.Some? && ev.Some? && ev.value == et.value)
  {
    GatedActive(name, s, t, v, g, row);
    if SelectorCell(s, row) in g.enabled {
      GatedDifference(s, t, v, g, inst, row);
      assert GateHolds(GatedGate(name, s, t, v), g, inst, row) <==> PolyHolds(GatedGate(name, s, t, v), 0, g, inst, row);
    }
  }

  /** `s * (t + v * -1)` with `s` enabled vanishes exactly when `t` and `v` both have the same value. */
  lemma GatedDifference(s: nat, t: Expression, v: Expression, g: Grid, inst: seq<seq<Fp>>, row: nat)
    requires row < g.rows && SelectorCell(s, row) in g.enabled
    ensures var et, ev := Eval(t, g, inst, row), Eval(v, g, inst, row);
      Eval(Product(SelectorQuery(s, Cur), Sum(t, Scaled(v, MinusOne))), g, inst, row) == Some(Zero) <==>
        et.Some? && ev.Some? && ev.value == et.value
  {
    var et, ev := Eval(t, g, inst, row), Eval(v, g, inst, row);
    EvalGatedDifference(s, t, v, g, inst, row);
    if et.Some? && ev.Some? {
      EnabledDifferenceZero(et.value, ev.value);
    }
  }

  lemma EvalGatedDifference(s: nat, t: Expression, v: Expression, g: Grid, inst: seq<seq<Fp>>, row: nat)
    requires row < g.rows && SelectorCell(s, row) in g.enabled
    ensures var et, ev := Eval(t, g, inst, row), Eval(v, g, inst, row);
      Eval(Product(SelectorQuery(s, Cur), Sum(t, Scaled(v, MinusOne))), g, inst, row) ==
        if et.Some? && ev.Some? then Some(Mul(One, Add(et.value, Mul(ev.value, MinusOne)))) else None
  {
    assert Rotate(row, Cur, g.rows) == row;
    assert Eval(SelectorQuery(s, Cur), g, inst, row) == Some(One);
    EvalScaled(v, MinusOne, g, inst, row);
    EvalSum(t, Scaled(v, MinusOne), g, inst, row);
    EvalProduct(SelectorQuery(s, Cur), Sum(t, Scaled(v, MinusOne)), g, inst, row);
  }

  /**
   * Where `s_pub` is enabled the public-input gate holds exactly when the
   * advice cell is assigned, the public input is supplied, and they are
   * equal; elsewhere it holds whatever the cells contain.
   */
  lemma PublicInputGateHolds(advice1: nat, instance: nat, sPub: nat, g: Grid, inst: seq<seq<Fp>>, row: nat)
    requires row < g.rows
    ensures GateHolds(PublicInputGate(advice1, instance, sPub), g, inst, row) <==>
      || SelectorCell(sPub, row) !in g.enabled
      || (&& AbsCell(advice1, row) in g.advice
          && instance < |inst| && row < |inst[instance]|
          && g.advice[AbsCell(advice1, row)] == inst[instance][row])
  {
    GatedGateHolds("public input", sPub, InstanceQuery(instance, Cur), AdviceQuery(advice1, Cur), g, inst, row);
    assert Rotate(row, Cur, g.rows) == row;
  }

  /**
   * Where `s_add` is enabled at `row` the add gate holds exactly when the
   * cells at `row` and the next row are assigned and
   * `advice0[row + 1] == advice0[row] + advice1[row]`; elsewhere it holds
   * whatever the cells contain.
   */
  lemma AddGateHolds(advice: (nat, nat), sAdd: nat, g: Grid, inst: seq<seq<Fp>>, row: nat)
    requires row < g.rows
    ensures var lhs, rhs, out := AbsCell(advice.0, row), AbsCell(advice.1, row), AbsCell(advice.0, Rotate(row, Next, g.rows));
      GateHolds(AddGate(advice, sAdd), g, inst, row) <==>
        || SelectorCell(sAdd, row) !in g.enabled
        || (lhs in g.advice && rhs in g.advice && out in g.advice
            && g.advice[out] == Add(g.advice[lhs], g.advice[rhs]))
  {
    var t, v := Sum(AdviceQuery(advice.0, Cur), AdviceQuery(advice.1, Cur)), AdviceQuery(advice.0, Next);
    GatedGateHolds("add", sAdd, t, v, g, inst, row);
    assert Rotate(row, Cur, g.rows) == row;
    EvalSum(AdviceQuery(advice.0, Cur), AdviceQuery(advice.1, Cur), g, inst, row);
  }

  /**
   * Where `s_mul` is enabled at `row` the mul gate holds exactly when the
   * cells at `row` and the next row are assigned and
   * `advice0[row + 1] == advice0[row] * advice1[row]`; elsewhere it holds
   * whatever the cells contain.
   */
  lemma MulGateHolds(advice: (nat, nat), sMul: nat, g: Grid, inst: seq<seq<Fp>>, row: nat)
    requires row < g.rows
    ensures var lhs, rhs, out := AbsCell(advice.0, row), AbsCell(advice.1, row), AbsCell(advice.0, Rotate(row, Next, g.rows));
      GateHolds(MulGate(advice, sMul), g, inst, row) <==>
        || SelectorCell(sMul, row) !in g.enabled
        || (lhs in g.advice && rhs in g.advice && out in g.advice
            && g.advice[out] == Mul(g.advice[lhs], g.advice[rhs]))
  {
    var t, v := Product(AdviceQuery(advice.0, Cur), AdviceQuery(advice.1, Cur)), AdviceQuery(advice.0, Next);
    GatedGateHolds("mul", sMul, t, v, g, inst, row);
    assert Rotate(row, Cur, g.rows) == row;
    EvalProduct(AdviceQuery(advice.0, Cur), AdviceQuery(advice.1, Cur), g, inst, row);
  }

  /** `a.value.and_then(|a| b.value.map(|b| a + b))`. */
  function AddValues(a: Option<Fp>, b: Option<Fp>): (r: Option<Fp>)
    ensures r.Some? <==> a.Some? && b.Some?
    ensures r.Some? ==> r.value == Add(a.value, b.value)
  {
    AndThen(a, (x: Fp) => MapOption(b, (y: Fp) => Add(x, y)))
  }

  /** `a.value.and_then(|a| b.value.map(|b| a * b))`. */
  function MulValues(a: Option<Fp>, b: Option<Fp>): (r: Option<Fp>)
    ensures r.Some? <==> a.Some? && b.Some?
    ensures r.Some? ==> r.value == Mul(a.value, b.value)
  {
    AndThen(a, (x: Fp) => MapOption(b, (y: Fp) => Mul(x, y)))
  }
}
