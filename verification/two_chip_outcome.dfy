/**
 * What `MockProver::verify` reports for the two-chip circuit: the exact
 * failure list for any public inputs, the two outcomes `main` asserts, and
 * what a satisfied assignment of this layout guarantees about its values.
 */
module TwoChipOutcome {
  import opened Wrappers
  import opened Field
  import opened Plonk
  import opened Dev
  import opened TwoChipGates
  import opened TwoChip

  /**
   * A gated gate whose selector is enabled at the single row `r0` reports
   * at most one failure, at `r0`.
   */
  lemma {:induction false} FailuresAtOnlyRow(gi: nat, name: string, s: nat, t: Expression, v: Expression,
                                             g: Grid, inst: seq<seq<Fp>>, r0: nat)
    requires Selectors(t) == {} && Selectors(v) == {} && r0 < g.rows
    requires forall row :: SelectorCell(s, row) in g.enabled <==> row == r0
    ensures GateFailures(gi, GatedGate(name, s, t, v), g, inst, g.rows) ==
      if GateHolds(GatedGate(name, s, t, v), g, inst, r0) then [] else [Constraint(gi, name, 0, "", r0)]
  {
    var gate := GatedGate(name, s, t, v);
    forall row | 0 <= row < g.rows
      ensures Active(gate, g, row) <==> row == r0
    {
      GatedActive(name, s, t, v, g, row);
    }
    OneActiveRow(gi, gate, g, inst, r0);
  }

  /** The copy constraints of the layout hold in the synthesized grid. */
  lemma SynthesizedCopiesHold(n: RowCount, a: Fp, b: Fp, c: Fp)
    ensures CopyFailures(SynthesizedGrid(n, a, b, c), LayoutCopies) == []
  {
    var g := SynthesizedGrid(n, a, b, c);
    forall e | e in LayoutCopies
      ensures CopyHolds(g, e)
    {
    }
    CopyFailuresEmpty(g, LayoutCopies);
  }

  /** The public-input gate fails at row 7 unless the instance value there is `d`. */
  lemma PublicInputFailures(n: RowCount, a: Fp, b: Fp, c: Fp, inst: seq<seq<Fp>>)
    requires n >= 8
    ensures GateFailures(0, MyGates()[0], SynthesizedGrid(n, a, b, c), inst, n) ==
      if 0 < |inst| && 7 < |inst[0]| && inst[0][7] == Mul(Add(a, b), c) then []
      else [Constraint(0, "public input", 0, "", 7)]
  {
    var g := SynthesizedGrid(n, a, b, c);
    FailuresAtOnlyRow(0, "public input", 0, InstanceQuery(0, Cur), AdviceQuery(1, Cur), g, inst, 7);
    PublicInputGateHolds(1, 0, 0, g, inst, 7);
  }

  /** The add gate holds at row 3, the only row where `s_add` is enabled. */
  lemma AddFailures(n: RowCount, a: Fp, b: Fp, c: Fp, inst: seq<seq<Fp>>)
    requires n >= 8
    ensures GateFailures(1, MyGates()[1], SynthesizedGrid(n, a, b, c), inst, n) == []
  {
    var g := SynthesizedGrid(n, a, b, c);
    FailuresAtOnlyRow(1, "add", 1, Sum(AdviceQuery(0, Cur), AdviceQuery(1, Cur)), AdviceQuery(0, Next), g, inst, 3);
    AddGateHolds((0, 1), 1, g, inst, 3);
    assert Rotate(3, Next, n) == 4;
  }

  /** The mul gate holds at row 5, the only row where `s_mul` is enabled. */
  lemma MulFailures(n: RowCount, a: Fp, b: Fp, c: Fp, inst: seq<seq<Fp>>)
    requires n >= 8
    ensures GateFailures(2, MyGates()[2], SynthesizedGrid(n, a, b, c), inst, n) == []
  {
    var g := SynthesizedGrid(n, a, b, c);
    FailuresAtOnlyRow(2, "mul", 2, Product(AdviceQuery(0, Cur), AdviceQuery(1, Cur)), AdviceQuery(0, Next), g, inst, 5);
    MulGateHolds((0, 1), 2, g, inst, 5);
    assert Rotate(5, Next, n) == 6;
  }

  /**
   * `verify` on the grid synthesis produces reports nothing when row 7 of
   * the first instance column holds `(a + b) * c`, and otherwise exactly one
   * failure: constraint 0 of gate 0, "public input", at row 7.
   */
  lemma SynthesizedVerify(n: RowCount, a: Fp, b: Fp, c: Fp, inst: seq<seq<Fp>>)
    requires n >= 8
    ensures Verify(Prover(MyGates(), SynthesizedGrid(n, a, b, c), inst)) ==
      if 0 < |inst| && 7 < |inst[0]| && inst[0][7] == Mul(Add(a, b), c) then []
      else [Constraint(0, "public input", 0, "", 7)]
  {
    var g, gates := SynthesizedGrid(n, a, b, c), MyGates();
    PublicInputFailures(n, a, b, c, inst);
    AddFailures(n, a, b, c, inst);
    MulFailures(n, a, b, c, inst);
    SynthesizedCopiesHold(n, a, b, c);
    var scans := GateScans(gates, g, inst);
    FlattenThree(scans);
  }

  /** Three scans laid end to end. */
  lemma FlattenThree(parts: seq<seq<VerifyFailure>>)
    requires |parts| == 3
    ensures Flatten(parts) == parts[0] + parts[1] + parts[2]
  {
    var first, firstTwo := parts[..1], parts[..2];
    assert first[..0] == [] && first[0] == parts[0];
    assert Flatten(first) == parts[0];
    assert firstTwo[..1] == first && firstTwo[1] == parts[1];
    assert Flatten(firstTwo) == parts[0] + parts[1];
    assert parts[..2] == firstTwo;
  }

  /**
   * The synthesized assignment satisfies every gate and copy constraint
   * exactly when row 7 of the first instance column holds `(a + b) * c`.
   */
  lemma SynthesizedSatisfiedIff(n: RowCount, a: Fp, b: Fp, c: Fp, inst: seq<seq<Fp>>)
    requires n >= 8
    ensures Satisfied(MyGates(), SynthesizedGrid(n, a, b, c), inst) <==>
      0 < |inst| && 7 < |inst[0]| && inst[0][7] == Mul(Add(a, b), c)
  {
    SynthesizedVerify(n, a, b, c, inst);
    VerifyOkIffSatisfied(Prover(MyGates(), SynthesizedGrid(n, a, b, c), inst));
  }

  /** Adding one changes a field element. */
  lemma AddOneChanges(x: Fp)
    ensures Add(x, One) != x
  {
    if x + 1 == P {
      assert Add(x, One) == 0;
    }
  }

  /** The public inputs `main` prepares: zero everywhere except row 7. */
  function PublicInputs(k: nat, v: Fp): (pub: seq<Fp>)
    requires k >= 3
    ensures |pub| == Pow2(k) && pub[7] == v
    ensures forall i :: 0 <= i < |pub| && i != 7 ==> pub[i] == Zero
  {
    seq(Pow2(k), (i: int) => if i == 7 then v else Zero)
  }

  /**
   * `main`: with `d = (a + b) * c` in row 7 of the public inputs the
   * circuit verifies; with `d + 1` there, `verify` reports exactly the
   * public-input constraint at row 7.
   */
  method RunMain(a: Fp, b: Fp, c: Fp) returns (first: seq<VerifyFailure>, second: seq<VerifyFailure>)
    ensures first == []
    ensures second == [Constraint(0, "public input", 0, "", 7)]
  {
    var k := 3;
    var circuit := MyCircuit(Some(a), Some(b), Some(c));
    var d := Mul(Add(a, b), c);
    var prover := Run(k, circuit, [PublicInputs(k, d)]);
    SynthesizedVerify(Pow2(k), a, b, c, [PublicInputs(k, d)]);
    first := Verify(prover.value);
    var wrong := Add(d, One);
    AddOneChanges(d);
    prover := Run(k, circuit, [PublicInputs(k, wrong)]);
    SynthesizedVerify(Pow2(k), a, b, c, [PublicInputs(k, wrong)]);
    second := Verify(prover.value);
  }

  /**
   * What the circuit enforces: in any assignment with this layout that
   * satisfies every gate and copy constraint, the loaded cells are assigned
   * and the public input at row 7 equals `(a + b) * c` of the values loaded
   * in rows 0, 1 and 2.
   */
  lemma LayoutSound(g: Grid, inst: seq<seq<Fp>>)
    requires g.rows >= 8 && g.enabled == LayoutSelectors && g.copies == LayoutCopies
    requires Satisfied(MyGates(), g, inst)
    ensures var a, b, c := AbsCell(0, 0), AbsCell(0, 1), AbsCell(0, 2);
      && a in g.advice && b in g.advice && c in g.advice
      && 0 < |inst| && 7 < |inst[0]|
      && inst[0][7] == Mul(Add(g.advice[a], g.advice[b]), g.advice[c])
  {
    var gates := MyGates();
    assert GateHolds(gates[0], g, inst, 7);
    assert GateHolds(gates[1], g, inst, 3);
    assert GateHolds(gates[2], g, inst, 5);
    PublicInputGateHolds(1, 0, 0, g, inst, 7);
    AddGateHolds((0, 1), 1, g, inst, 3);
    MulGateHolds((0, 1), 2, g, inst, 5);
    assert Rotate(3, Next, g.rows) == 4 && Rotate(5, Next, g.rows) == 6;
    assert CopyHolds(g, LayoutCopies[0]) && CopyHolds(g, LayoutCopies[1]) && CopyHolds(g, LayoutCopies[2]);
    assert CopyHolds(g, LayoutCopies[3]) && CopyHolds(g, LayoutCopies[4]);
  }
}
