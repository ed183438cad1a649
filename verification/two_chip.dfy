/**
 * The two-chip example circuit: `AddChip`, `MulChip` and the `FieldChip`
 * built on them, the circuit `MyCircuit` computing `d = (a + b) * c` and
 * exposing `d` as a public input, and `MockProver::run` on it.
 */
module TwoChip {
  import opened Wrappers
  import opened Field
  import opened Plonk
  import opened ConstraintSystems
  import opened Dev
  import opened Circuit
  import opened TwoChipGates

  /** A number in the circuit: where it was assigned and its value, if known. */
  datatype Number = Number(cell: Cell, value: Option<Fp>)

  datatype AddConfig = AddConfig(advice: (nat, nat), perm: Permutation, sAdd: nat)

  datatype MulConfig = MulConfig(advice: (nat, nat), perm: Permutation, sMul: nat)

  datatype FieldConfig = FieldConfig(advice: (nat, nat), perm: Permutation, sPub: nat, addConfig: AddConfig, mulConfig: MulConfig)

  /** The private inputs; absent during key generation. */
  datatype MyCircuit = MyCircuit(a: Option<Fp>, b: Option<Fp>, c: Option<Fp>)

  // ---------------------------------------------------------------------
  // Configuration

  /** `AddChip::configure`: one new selector and the gate "add". */
  method AddChipConfigure(meta: ConstraintSystem, advice: (nat, nat), perm: Permutation) returns (config: AddConfig)
    modifies meta
    ensures config == AddConfig(advice, perm, old(meta.numSelectors))
    ensures meta.gates == old(meta.gates) + [AddGate(advice, config.sAdd)]
    ensures meta.numSelectors == old(meta.numSelectors) + 1
    ensures meta.numAdvice == old(meta.numAdvice) && meta.numInstance == old(meta.numInstance)
    ensures meta.permutations == old(meta.permutations)
  {
    var sAdd := meta.NewSelector();
    meta.CreateGate("add", AddGate(advice, sAdd).polys);
    config := AddConfig(advice, perm, sAdd);
  }

  /** `MulChip::configure`: one new selector and the gate "mul". */
  method MulChipConfigure(meta: ConstraintSystem, advice: (nat, nat), perm: Permutation) returns (config: MulConfig)
    modifies meta
    ensures config == MulConfig(advice, perm, old(meta.numSelectors))
    ensures meta.gates == old(meta.gates) + [MulGate(advice, config.sMul)]
    ensures meta.numSelectors == old(meta.numSelectors) + 1
    ensures meta.numAdvice == old(meta.numAdvice) && meta.numInstance == old(meta.numInstance)
    ensures meta.permutations == old(meta.permutations)
  {
    var sMul := meta.NewSelector();
    meta.CreateGate("mul", MulGate(advice, sMul).polys);
    config := MulConfig(advice, perm, sMul);
  }

  /**
   * `FieldChip::configure`: a permutation over both advice columns, then the
   * gates "public input", "add" and "mul", in that order, each with a
   * selector of its own.
   */
  method FieldChipConfigure(meta: ConstraintSystem, advice: (nat, nat), instance: nat) returns (config: FieldConfig)
    modifies meta
    ensures var s := old(meta.numSelectors);
            var perm := Permutation(|old(meta.permutations)|, [advice.0, advice.1]);
      config == FieldConfig(advice, perm, s, AddConfig(advice, perm, s + 1), MulConfig(advice, perm, s + 2))
    ensures meta.gates == old(meta.gates) + [
      PublicInputGate(advice.1, instance, config.sPub),
      AddGate(advice, config.addConfig.sAdd),
      MulGate(advice, config.mulConfig.sMul)]
    ensures meta.permutations == old(meta.permutations) + [[advice.0, advice.1]]
    ensures meta.numSelectors == old(meta.numSelectors) + 3
    ensures meta.numAdvice == old(meta.numAdvice) && meta.numInstance == old(meta.numInstance)
  {
    var perm := meta.NewPermutation([advice.0, advice.1]);
    var sPub := meta.NewSelector();
    meta.CreateGate("public input", PublicInputGate(advice.1, instance, sPub).polys);
    var addConfig := AddChipConfigure(meta, advice, perm);
    var mulConfig := MulChipConfigure(meta, advice, perm);
    config := FieldConfig(advice, perm, sPub, addConfig, mulConfig);
  }

  /** `MyCircuit::configure`: two advice columns and an instance column for the chip. */
  method MyCircuitConfigure(meta: ConstraintSystem) returns (config: FieldConfig)
    modifies meta
    ensures var a0, i, s := old(meta.numAdvice), old(meta.numInstance), old(meta.numSelectors);
            var perm := Permutation(|old(meta.permutations)|, [a0, a0 + 1]);
      && config == FieldConfig((a0, a0 + 1), perm, s, AddConfig((a0, a0 + 1), perm, s + 1), MulConfig((a0, a0 + 1), perm, s + 2))
      && meta.gates == old(meta.gates) + [
           PublicInputGate(a0 + 1, i, s), AddGate((a0, a0 + 1), s + 1), MulGate((a0, a0 + 1), s + 2)]
    ensures meta.numAdvice == old(meta.numAdvice) + 2 && meta.numInstance == old(meta.numInstance) + 1
    ensures meta.numSelectors == old(meta.numSelectors) + 3
  {
    var advice0 := meta.AdviceColumn();
    var advice1 := meta.AdviceColumn();
    var instance := meta.InstanceColumn();
    config := FieldChipConfigure(meta, (advice0, advice1), instance);
  }

  /** The configuration `MyCircuit::configure` produces on an empty constraint system. */
  function MyConfig(): FieldConfig {
    var perm := Permutation(0, [0, 1]);
    FieldConfig((0, 1), perm, 0, AddConfig((0, 1), perm, 1), MulConfig((0, 1), perm, 2))
  }

  /** The gates it registers, by gate index. */
  function MyGates(): seq<Gate> {
    [PublicInputGate(1, 0, 0), AddGate((0, 1), 1), MulGate((0, 1), 2)]
  }

  // ---------------------------------------------------------------------
  // Synthesis

  /** `load_private`: a one-row region writing the value to the first advice column. */
  method LoadPrivate(config: FieldConfig, layouter: SingleChipLayouter, value: Option<Fp>) returns (r: Result<Number, Error>)
    requires layouter.Valid()
    modifies layouter, layouter.cs
    ensures layouter.Valid()
    ensures var start := old(layouter.cursor);
      && layouter.regions == old(layouter.regions) + [start] && layouter.cursor == start + 1
      && (r.Success? <==> value.Some? && start < layouter.cs.rows)
      && (value.None? ==> r == Failure(SynthesisError))
      && (r.Failure? && value.Some? ==> r.error == BoundsFailure)
      && (r.Success? ==>
           && r.value == Number(Cell(|old(layouter.regions)|, 0, config.advice.0), value)
           && layouter.cs.advice == old(layouter.cs.advice)[AbsCell(config.advice.0, start) := value.value]
           && layouter.cs.enabled == old(layouter.cs.enabled)
           && layouter.cs.copies == old(layouter.cs.copies))
  {
    var _ := layouter.BeginRegion(1);
    var cell := layouter.AssignAdvice(config.advice.0, 0, value);
    if cell.Failure? {
      return Failure(cell.error);
    }
    r := Success(Number(cell.value, value));
  }

  /**
   * The region shared by `AddChip::add` and `MulChip::mul`: two rows;
   * the selector at offset 0, the inputs copied to offset 0 of the two
   * advice columns, the result at offset 1 of the first.
   */
  method ArithmeticRegion(layouter: SingleChipLayouter, advice: (nat, nat), perm: Permutation, selector: nat,
                          a: Number, b: Number, value: Option<Fp>) returns (r: Result<Number, Error>)
    requires layouter.Valid()
    requires a.cell.regionIndex < |layouter.regions| && b.cell.regionIndex < |layouter.regions|
    requires layouter.Resolve(a.cell).row < layouter.cursor && layouter.Resolve(b.cell).row < layouter.cursor
    requires value.Some? ==> a.value.Some? && b.value.Some?
    modifies layouter, layouter.cs
    ensures layouter.Valid()
    ensures var start, ca, cb := old(layouter.cursor), old(layouter.Resolve(a.cell)), old(layouter.Resolve(b.cell));
            var lhs, rhs, out := AbsCell(advice.0, start), AbsCell(advice.1, start), AbsCell(advice.0, start + 1);
      && layouter.regions == old(layouter.regions) + [start] && layouter.cursor == start + 2
      && (r.Success? <==>
           && a.value.Some? && b.value.Some? && value.Some? && start + 1 < layouter.cs.rows
           && CopyAllowed(perm, ca, lhs) && CopyAllowed(perm, cb, rhs))
      && (start >= layouter.cs.rows ==> r == Failure(BoundsFailure))
      && (start < layouter.cs.rows && (a.value.None? || b.value.None?) ==> r == Failure(SynthesisError))
      && (start < layouter.cs.rows && a.value.Some? && b.value.Some? && !(CopyAllowed(perm, ca, lhs) && CopyAllowed(perm, cb, rhs)) ==>
            r == Failure(SynthesisError))
      && (start < layouter.cs.rows && value.None? ==> r == Failure(SynthesisError))
      && (r.Failure? && value.Some? && CopyAllowed(perm, ca, lhs) && CopyAllowed(perm, cb, rhs) ==> r.error == BoundsFailure)
      && (r.Success? ==>
           && r.value == Number(Cell(|old(layouter.regions)|, 1, advice.0), value)
           && layouter.cs.enabled == old(layouter.cs.enabled) + {SelectorCell(selector, start)}
           && layouter.cs.advice == old(layouter.cs.advice)[lhs := a.value.value][rhs := b.value.value][out := value.value]
           && layouter.cs.copies == old(layouter.cs.copies) + [CopyEdge(ca, lhs), CopyEdge(cb, rhs)])
  {
    var index := layouter.BeginRegion(2);
    var inputs := ArithmeticInputs(layouter, advice, perm, selector, a, b);
    if inputs.Failure? {
      return Failure(inputs.error);
    }
    var cell := layouter.AssignAdvice(advice.0, 1, value);
    if cell.Failure? {
      return Failure(cell.error);
    }
    r := Success(Number(cell.value, value));
  }

  /**
   * The first row of an arithmetic region, just opened: enables the
   * selector and copies both inputs into offset 0.
   */
  method ArithmeticInputs(layouter: SingleChipLayouter, advice: (nat, nat), perm: Permutation, selector: nat,
                          a: Number, b: Number) returns (r: Result<(), Error>)
    requires layouter.Valid() && |layouter.regions| > 0
    requires layouter.regions[|layouter.regions| - 1] + 1 < layouter.cursor
    requires a.cell.regionIndex < |layouter.regions| - 1 && b.cell.regionIndex < |layouter.regions| - 1
    requires layouter.Resolve(a.cell).row < layouter.regions[|layouter.regions| - 1]
    requires layouter.Resolve(b.cell).row < layouter.regions[|layouter.regions| - 1]
    modifies layouter.cs
    ensures layouter.Valid()
    ensures var start, ca, cb := layouter.regions[|layouter.regions| - 1], layouter.Resolve(a.cell), layouter.Resolve(b.cell);
            var lhs, rhs := AbsCell(advice.0, start), AbsCell(advice.1, start);
      && (r.Success? <==>
           a.value.Some? && b.value.Some? && start < layouter.cs.rows && CopyAllowed(perm, ca, lhs) && CopyAllowed(perm, cb, rhs))
      && (start >= layouter.cs.rows ==> r == Failure(BoundsFailure))
      && (start < layouter.cs.rows && (a.value.None? || b.value.None?) ==> r == Failure(SynthesisError))
      && (start < layouter.cs.rows && a.value.Some? && b.value.Some? && !(CopyAllowed(perm, ca, lhs) && CopyAllowed(perm, cb, rhs)) ==>
            r == Failure(SynthesisError))
      && (r.Failure? && a.value.Some? && b.value.Some? && CopyAllowed(perm, ca, lhs) && CopyAllowed(perm, cb, rhs) ==>
            r.error == BoundsFailure)
      && (r.Success? ==>
           && layouter.cs.enabled == old(layouter.cs.enabled) + {SelectorCell(selector, start)}
           && layouter.cs.advice == old(layouter.cs.advice)[lhs := a.value.value][rhs := b.value.value]
           && layouter.cs.copies == old(layouter.cs.copies) + [CopyEdge(ca, lhs), CopyEdge(cb, rhs)])
  {
    ghost var start := layouter.regions[|layouter.regions| - 1];
    var cells := AssignInputs(layouter, advice, selector, a.value, b.value);
    if cells.Failure? {
      return Failure(cells.error);
    }
    assert layouter.Resolve(cells.value.0) == AbsCell(advice.0, start);
    assert layouter.Resolve(cells.value.1) == AbsCell(advice.1, start);
    var copyA := layouter.ConstrainEqual(perm, a.cell, cells.value.0);
    if copyA.Failure? {
      return Failure(copyA.error);
    }
    r := layouter.ConstrainEqual(perm, b.cell, cells.value.1);
  }

  /** Enables the selector and writes both inputs at offset 0 of the open region. */
  method AssignInputs(layouter: SingleChipLayouter, advice: (nat, nat), selector: nat, a: Option<Fp>, b: Option<Fp>)
    returns (r: Result<(Cell, Cell), Error>)
    requires layouter.Valid() && |layouter.regions| > 0
    requires layouter.regions[|layouter.regions| - 1] < layouter.cursor
    modifies layouter.cs
    ensures layouter.Valid()
    ensures var start, last := layouter.regions[|layouter.regions| - 1], |layouter.regions| - 1;
      && (r.Success? <==> a.Some? && b.Some? && start < layouter.cs.rows)
      && (start >= layouter.cs.rows ==> r == Failure(BoundsFailure))
      && (start < layouter.cs.rows && (a.None? || b.None?) ==> r == Failure(SynthesisError))
      && (r.Failure? && a.Some? && b.Some? ==> r.error == BoundsFailure)
      && (r.Success? ==>
           && r.value == (Cell(last, 0, advice.0), Cell(last, 0, advice.1))
           && layouter.cs.enabled == old(layouter.cs.enabled) + {SelectorCell(selector, start)}
           && layouter.cs.advice == old(layouter.cs.advice)[AbsCell(advice.0, start) := a.value][AbsCell(advice.1, start) := b.value]
           && layouter.cs.copies == old(layouter.cs.copies))
  {
    var enabled := layouter.EnableSelector(selector, 0);
    if enabled.Failure? {
      return Failure(enabled.error);
    }
    r := AssignPair(layouter, advice, a, b);
  }

  /** Writes both inputs at offset 0 of the open region. */
  method AssignPair(layouter: SingleChipLayouter, advice: (nat, nat), a: Option<Fp>, b: Option<Fp>)
    returns (r: Result<(Cell, Cell), Error>)
    requires layouter.Valid() && |layouter.regions| > 0
    requires layouter.regions[|layouter.regions| - 1] < layouter.cursor
    modifies layouter.cs
    ensures layouter.Valid()
    ensures var start, last := layouter.regions[|layouter.regions| - 1], |layouter.regions| - 1;
      && (r.Success? <==> a.Some? && b.Some? && start < layouter.cs.rows)
      && (a.None? ==> r == Failure(SynthesisError))
      && (a.Some? && start >= layouter.cs.rows ==> r == Failure(BoundsFailure))
      && (start < layouter.cs.rows && (a.None? || b.None?) ==> r == Failure(SynthesisError))
      && (r.Failure? && a.Some? && b.Some? ==> r.error == BoundsFailure)
      && (r.Success? ==>
           && r.value == (Cell(last, 0, advice.0), Cell(last, 0, advice.1))
           && layouter.cs.advice == old(layouter.cs.advice)[AbsCell(advice.0, start) := a.value][AbsCell(advice.1, start) := b.value])
    ensures layouter.cs.enabled == old(layouter.cs.enabled) && layouter.cs.copies == old(layouter.cs.copies)
  {
    var lhs := layouter.AssignAdvice(advice.0, 0, a);
    if lhs.Failure? {
      return Failure(lhs.error);
    }
    var rhs := layouter.AssignAdvice(advice.1, 0, b);
    if rhs.Failure? {
      return Failure(rhs.error);
    }
    r := Success((lhs.value, rhs.value));
  }

  /** `AddChip::add`: returns a number holding `a + b`. */
  method AddChipAdd(config: AddConfig, layouter: SingleChipLayouter, a: Number, b: Number) returns (r: Result<Number, Error>)
    requires layouter.Valid()
    requires a.cell.regionIndex < |layouter.regions| && b.cell.regionIndex < |layouter.regions|
    requires layouter.Resolve(a.cell).row < layouter.cursor && layouter.Resolve(b.cell).row < layouter.cursor
    modifies layouter, layouter.cs
    ensures layouter.Valid()
    ensures var start, ca, cb := old(layouter.cursor), old(layouter.Resolve(a.cell)), old(layouter.Resolve(b.cell));
            var lhs, rhs, out := AbsCell(config.advice.0, start), AbsCell(config.advice.1, start), AbsCell(config.advice.0, start + 1);
      && layouter.regions == old(layouter.regions) + [start] && layouter.cursor == start + 2
      && (r.Success? <==>
           && a.value.Some? && b.value.Some? && start + 1 < layouter.cs.rows
           && CopyAllowed(config.perm, ca, lhs) && CopyAllowed(config.perm, cb, rhs))
      && (start >= layouter.cs.rows ==> r == Failure(BoundsFailure))
      && (start < layouter.cs.rows && (a.value.None? || b.value.None?) ==> r == Failure(SynthesisError))
      && (start < layouter.cs.rows && a.value.Some? && b.value.Some? && !(CopyAllowed(config.perm, ca, lhs) && CopyAllowed(config.perm, cb, rhs)) ==>
            r == Failure(SynthesisError))
      && (r.Failure? && a.value.Some? && b.value.Some? && CopyAllowed(config.perm, ca, lhs) && CopyAllowed(config.perm, cb, rhs) ==>
            r.error == BoundsFailure)
      && (r.Success? ==>
           && r.value == Number(Cell(|old(layouter.regions)|, 1, config.advice.0), Some(Add(a.value.value, b.value.value)))
           && layouter.cs.enabled == old(layouter.cs.enabled) + {SelectorCell(config.sAdd, start)}
           && layouter.cs.advice == old(layouter.cs.advice)[lhs := a.value.value][rhs := b.value.value][out := Add(a.value.value, b.value.value)]
           && layouter.cs.copies == old(layouter.cs.copies) + [CopyEdge(ca, lhs), CopyEdge(cb, rhs)])
  {
    r := ArithmeticRegion(layouter, config.advice, config.perm, config.sAdd, a, b, AddValues(a.value, b.value));
  }

  /** `MulChip::mul`: returns a number holding `a * b`. */
  method MulChipMul(config: MulConfig, layouter: SingleChipLayouter, a: Number, b: Number) returns (r: Result<Number, Error>)
    requires layouter.Valid()
    requires a.cell.regionIndex < |layouter.regions| && b.cell.regionIndex < |layouter.regions|
    requires layouter.Resolve(a.cell).row < layouter.cursor && layouter.Resolve(b.cell).row < layouter.cursor
    modifies layouter, layouter.cs
    ensures layouter.Valid()
    ensures var start, ca, cb := old(layouter.cursor), old(layouter.Resolve(a.cell)), old(layouter.Resolve(b.cell));
            var lhs, rhs, out := AbsCell(config.advice.0, start), AbsCell(config.advice.1, start), AbsCell(config.advice.0, start + 1);
      && layouter.regions == old(layouter.regions) + [start] && layouter.cursor == start + 2
      && (r.Success? <==>
           && a.value.Some? && b.value.Some? && start + 1 < layouter.cs.rows
           && CopyAllowed(config.perm, ca, lhs) && CopyAllowed(config.perm, cb, rhs))
      && (start >= layouter.cs.rows ==> r == Failure(BoundsFailure))
      && (start < layouter.cs.rows && (a.value.None? || b.value.None?) ==> r == Failure(SynthesisError))
      && (start < layouter.cs.rows && a.value.Some? && b.value.Some? && !(CopyAllowed(config.perm, ca, lhs) && CopyAllowed(config.perm, cb, rhs)) ==>
            r == Failure(SynthesisError))
      && (r.Failure? && a.value.Some? && b.value.Some? && CopyAllowed(config.perm, ca, lhs) && CopyAllowed(config.perm, cb, rhs) ==>
            r.error == BoundsFailure)
      && (r.Success? ==>
           && r.value == Number(Cell(|old(layouter.regions)|, 1, config.advice.0), Some(Mul(a.value.value, b.value.value)))
           && layouter.cs.enabled == old(layouter.cs.enabled) + {SelectorCell(config.sMul, start)}
           && layouter.cs.advice == old(layouter.cs.advice)[lhs := a.value.value][rhs := b.value.value][out := Mul(a.value.value, b.value.value)]
           && layouter.cs.copies == old(layouter.cs.copies) + [CopyEdge(ca, lhs), CopyEdge(cb, rhs)])
  {
    r := ArithmeticRegion(layouter, config.advice, config.perm, config.sMul, a, b, MulValues(a.value, b.value));
  }

  /** `add_and_mul`: `d = (a + b) * c`, an add region followed by a mul region. */
  method AddAndMul(config: FieldConfig, layouter: SingleChipLayouter, a: Number, b: Number, c: Number) returns (r: Result<Number, Error>)
    requires layouter.Valid()
    requires a.cell.regionIndex < |layouter.regions| && b.cell.regionIndex < |layouter.regions| && c.cell.regionIndex < |layouter.regions|
    requires layouter.Resolve(a.cell).row < layouter.cursor && layouter.Resolve(b.cell).row < layouter.cursor
    requires layouter.Resolve(c.cell).row < layouter.cursor
    modifies layouter, layouter.cs
    ensures layouter.Valid()
    ensures var start, ca, cb, cc := old(layouter.cursor), old(layouter.Resolve(a.cell)), old(layouter.Resolve(b.cell)), old(layouter.Resolve(c.cell));
            var x, y, pa, pm := config.addConfig.advice, config.mulConfig.advice, config.addConfig.perm, config.mulConfig.perm;
            var lhs, rhs, ab := AbsCell(x.0, start), AbsCell(x.1, start), AbsCell(x.0, start + 1);
            var mlhs, mrhs, out := AbsCell(y.0, start + 2), AbsCell(y.1, start + 2), AbsCell(y.0, start + 3);
            var addCopies, mulCopies := CopyAllowed(pa, ca, lhs) && CopyAllowed(pa, cb, rhs), CopyAllowed(pm, ab, mlhs) && CopyAllowed(pm, cc, mrhs);
            var copiesAllowed := addCopies && mulCopies;
      && (|| (layouter.regions == old(layouter.regions) + [start] && layouter.cursor == start + 2 && r.Failure?)
          || (layouter.regions == old(layouter.regions) + [start, start + 2] && layouter.cursor == start + 4))
      && (r.Success? <==> a.value.Some? && b.value.Some? && c.value.Some? && start + 3 < layouter.cs.rows && copiesAllowed)
      && (start >= layouter.cs.rows ==> r == Failure(BoundsFailure))
      && (start < layouter.cs.rows && (a.value.None? || b.value.None?) ==> r == Failure(SynthesisError))
      && (start < layouter.cs.rows && a.value.Some? && b.value.Some? && !addCopies ==> r == Failure(SynthesisError))
      && (a.value.Some? && b.value.Some? && addCopies && start + 2 >= layouter.cs.rows ==> r == Failure(BoundsFailure))
      && (a.value.Some? && b.value.Some? && addCopies && start + 2 < layouter.cs.rows && (c.value.None? || !mulCopies) ==>
            r == Failure(SynthesisError))
      && (r.Failure? && a.value.Some? && b.value.Some? && c.value.Some? && copiesAllowed ==> r.error == BoundsFailure)
      && (r.Success? ==>
           var va, vb, vc := a.value.value, b.value.value, c.value.value;
           && r.value == Number(Cell(|old(layouter.regions)| + 1, 1, y.0), Some(Mul(Add(va, vb), vc)))
           && layouter.cs.enabled == old(layouter.cs.enabled) + {SelectorCell(config.addConfig.sAdd, start)}
                                                            + {SelectorCell(config.mulConfig.sMul, start + 2)}
           && layouter.cs.advice == old(layouter.cs.advice)[lhs := va][rhs := vb][ab := Add(va, vb)]
                                      [mlhs := Add(va, vb)][mrhs := vc][out := Mul(Add(va, vb), vc)]
           && layouter.cs.copies == old(layouter.cs.copies) + [CopyEdge(ca, lhs), CopyEdge(cb, rhs)]
                                                         + [CopyEdge(ab, mlhs), CopyEdge(cc, mrhs)])
  {
    ghost var cc := layouter.Resolve(c.cell);
    var sum := AddChipAdd(config.addConfig, layouter, a, b);
    assert layouter.Resolve(c.cell) == cc;
    if sum.Failure? {
      return Failure(sum.error);
    }
    assert layouter.Resolve(sum.value.cell) == AbsCell(config.addConfig.advice.0, old(layouter.cursor) + 1);
    r := MulChipMul(config.mulConfig, layouter, sum.value, c);
  }

  /**
   * `expose_public`: a one-row region enabling `s_pub`, copying the number
   * into the second advice column, where the public-input gate compares it
   * with the instance column.
   */
  method ExposePublic(config: FieldConfig, layouter: SingleChipLayouter, num: Number) returns (r: Result<(), Error>)
    requires layouter.Valid()
    requires num.cell.regionIndex < |layouter.regions| && layouter.Resolve(num.cell).row < layouter.cursor
    modifies layouter, layouter.cs
    ensures layouter.Valid()
    ensures var start, cn := old(layouter.cursor), old(layouter.Resolve(num.cell));
            var out := AbsCell(config.advice.1, start);
      && layouter.regions == old(layouter.regions) + [start] && layouter.cursor == start + 1
      && (r.Success? <==> num.value.Some? && start < layouter.cs.rows && CopyAllowed(config.perm, cn, out))
      && (start >= layouter.cs.rows ==> r == Failure(BoundsFailure))
      && (start < layouter.cs.rows && num.value.None? ==> r == Failure(SynthesisError))
      && (start < layouter.cs.rows && num.value.Some? && !CopyAllowed(config.perm, cn, out) ==> r == Failure(SynthesisError))
      && (r.Failure? && num.value.Some? && CopyAllowed(config.perm, cn, out) ==> r.error == BoundsFailure)
      && (r.Success? ==>
           && layouter.cs.enabled == old(layouter.cs.enabled) + {SelectorCell(config.sPub, start)}
           && layouter.cs.advice == old(layouter.cs.advice)[out := num.value.value]
           && layouter.cs.copies == old(layouter.cs.copies) + [CopyEdge(cn, out)])
  {
    ghost var cn := layouter.Resolve(num.cell);
    var _ := layouter.BeginRegion(1);
    assert layouter.Resolve(num.cell) == cn;
    r := ExposeRow(config, layouter, num);
  }

  /** The row of an expose region, just opened: enables `s_pub` and copies the number into the second advice column. */
  method ExposeRow(config: FieldConfig, layouter: SingleChipLayouter, num: Number) returns (r: Result<(), Error>)
    requires layouter.Valid() && |layouter.regions| > 0
    requires layouter.regions[|layouter.regions| - 1] < layouter.cursor
    requires num.cell.regionIndex < |layouter.regions| - 1
    requires layouter.Resolve(num.cell).row < layouter.regions[|layouter.regions| - 1]
    modifies layouter.cs
    ensures layouter.Valid()
    ensures var start, cn := layouter.regions[|layouter.regions| - 1], layouter.Resolve(num.cell);
            var out := AbsCell(config.advice.1, start);
      && (r.Success? <==> num.value.Some? && start < layouter.cs.rows && CopyAllowed(config.perm, cn, out))
      && (start >= layouter.cs.rows ==> r == Failure(BoundsFailure))
      && (start < layouter.cs.rows && num.value.None? ==> r == Failure(SynthesisError))
      && (start < layouter.cs.rows && num.value.Some? && !CopyAllowed(config.perm, cn, out) ==> r == Failure(SynthesisError))
      && (r.Failure? && num.value.Some? && CopyAllowed(config.perm, cn, out) ==> r.error == BoundsFailure)
      && (r.Success? ==>
           && layouter.cs.enabled == old(layouter.cs.enabled) + {SelectorCell(config.sPub, start)}
           && layouter.cs.advice == old(layouter.cs.advice)[out := num.value.value]
           && layouter.cs.copies == old(layouter.cs.copies) + [CopyEdge(cn, out)])
  {
    ghost var start := layouter.regions[|layouter.regions| - 1];
    var enabled := layouter.EnableSelector(config.sPub, 0);
    if enabled.Failure? {
      return Failure(enabled.error);
    }
    var out := layouter.AssignAdvice(config.advice.1, 0, num.value);
    if out.Failure? {
      return Failure(out.error);
    }
    assert layouter.Resolve(out.value) == AbsCell(config.advice.1, start);
    r := layouter.ConstrainEqual(config.perm, num.cell, out.value);
  }

  // ---------------------------------------------------------------------
  // The circuit

  /**
   * The assignment `MyCircuit::synthesize` leaves in a grid of `n` rows:
   * loads in rows 0, 1, 2, the add region in rows 3-4, the mul region in
   * rows 5-6 and the exposed result in row 7.
   */
  function SynthesizedGrid(n: RowCount, a: Fp, b: Fp, c: Fp): (g: Grid)
    ensures g.rows == n && g.enabled == LayoutSelectors && g.copies == LayoutCopies
    ensures forall row :: 0 <= row < 3 ==> AbsCell(0, row) in g.advice && g.advice[AbsCell(0, row)] == [a, b, c][row]
    ensures var lhs, rhs, out := AbsCell(0, 3), AbsCell(1, 3), AbsCell(0, 4);
      lhs in g.advice && rhs in g.advice && out in g.advice && g.advice[out] == Add(g.advice[lhs], g.advice[rhs])
    ensures var lhs, rhs, out := AbsCell(0, 5), AbsCell(1, 5), AbsCell(0, 6);
      lhs in g.advice && rhs in g.advice && out in g.advice && g.advice[out] == Mul(g.advice[lhs], g.advice[rhs])
    ensures AbsCell(1, 7) in g.advice && g.advice[AbsCell(1, 7)] == Mul(Add(a, b), c)
  {
    var ab := Add(a, b);
    var d := Mul(ab, c);
    Grid(n,
         map[AbsCell(0, 0) := a, AbsCell(0, 1) := b, AbsCell(0, 2) := c,
             AbsCell(0, 3) := a, AbsCell(1, 3) := b, AbsCell(0, 4) := ab,
             AbsCell(0, 5) := ab, AbsCell(1, 5) := c, AbsCell(0, 6) := d,
             AbsCell(1, 7) := d],
         LayoutSelectors, LayoutCopies)
  }

  /** `s_add` at row 3, `s_mul` at row 5, `s_pub` at row 7. */
  const LayoutSelectors: set<SelectorCell> := {SelectorCell(1, 3), SelectorCell(2, 5), SelectorCell(0, 7)}

  /** The copies into the add, mul and expose regions, in the order they are recorded. */
  const LayoutCopies: seq<CopyEdge> :=
    [CopyEdge(AbsCell(0, 0), AbsCell(0, 3)), CopyEdge(AbsCell(0, 1), AbsCell(1, 3)),
     CopyEdge(AbsCell(0, 4), AbsCell(0, 5)), CopyEdge(AbsCell(0, 2), AbsCell(1, 5)),
     CopyEdge(AbsCell(0, 6), AbsCell(1, 7))]

  /** The three `load_private` calls that open synthesis, on a fresh layouter. */
  method LoadInputs(config: FieldConfig, layouter: SingleChipLayouter, circuit: MyCircuit) returns (r: Result<(Number, Number, Number), Error>)
    requires layouter.Valid() && layouter.regions == [] && layouter.cursor == 0
    requires layouter.cs.advice == map[] && layouter.cs.enabled == {} && layouter.cs.copies == []
    modifies layouter, layouter.cs
    ensures layouter.Valid()
    ensures r.Success? <==> circuit.a.Some? && circuit.b.Some? && circuit.c.Some? && 2 < layouter.cs.rows
    ensures circuit.a.None? || circuit.b.None? ==> r == Failure(SynthesisError)
    ensures circuit.a.Some? && circuit.b.Some? && layouter.cs.rows < 2 ==> r == Failure(BoundsFailure)
    ensures circuit.c.None? && 1 < layouter.cs.rows ==> r == Failure(SynthesisError)
    ensures r.Failure? && circuit.a.Some? && circuit.b.Some? && circuit.c.Some? ==> r.error == BoundsFailure
    ensures r.Success? ==>
      var x := config.advice.0;
      && layouter.regions == [0, 1, 2] && layouter.cursor == 3
      && r.value == (Number(Cell(0, 0, x), circuit.a), Number(Cell(1, 0, x), circuit.b), Number(Cell(2, 0, x), circuit.c))
      && layouter.cs.advice == map[AbsCell(x, 0) := circuit.a.value, AbsCell(x, 1) := circuit.b.value, AbsCell(x, 2) := circuit.c.value]
      && layouter.cs.enabled == {} && layouter.cs.copies == []
  {
    var a := LoadPrivate(config, layouter, circuit.a);
    if a.Failure? {
      return Failure(a.error);
    }
    var b := LoadPrivate(config, layouter, circuit.b);
    if b.Failure? {
      return Failure(b.error);
    }
    var c := LoadPrivate(config, layouter, circuit.c);
    if c.Failure? {
      return Failure(c.error);
    }
    r := Success((a.value, b.value, c.value));
  }

  /**
   * `MyCircuit::synthesize`: loads `a`, `b` and `c`, computes
   * `d = (a + b) * c` and exposes `d`. It succeeds exactly when every
   * private input is present and the grid has room for the eight rows.
   */
  method Synthesize(circuit: MyCircuit, cs: MockProver, config: FieldConfig) returns (r: Result<(), Error>)
    requires config == MyConfig()
    requires cs.advice == map[] && cs.enabled == {} && cs.copies == []
    modifies cs
    ensures r.Success? <==> circuit.a.Some? && circuit.b.Some? && circuit.c.Some? && cs.rows >= 8
    ensures circuit.a.None? || circuit.b.None? ==> r == Failure(SynthesisError)
    ensures circuit.a.Some? && circuit.b.Some? && cs.rows < 2 ==> r == Failure(BoundsFailure)
    ensures circuit.c.None? && 1 < cs.rows ==> r == Failure(SynthesisError)
    ensures circuit.a.Some? && circuit.b.Some? && circuit.c.Some? && cs.rows < 8 ==> r == Failure(BoundsFailure)
    ensures r.Success? ==> cs.Snapshot() == SynthesizedGrid(cs.rows, circuit.a.value, circuit.b.value, circuit.c.value)
  {
    var layouter := new SingleChipLayouter(cs);
    var inputs := LoadInputs(config, layouter, circuit);
    if inputs.Failure? {
      return Failure(inputs.error);
    }
    r := ComputeAndExpose(config, layouter, circuit.a.value, circuit.b.value, circuit.c.value);
  }

  /** The rest of synthesis, once the three inputs are loaded: `add_and_mul`, then `expose_public`. */
  method ComputeAndExpose(config: FieldConfig, layouter: SingleChipLayouter, a: Fp, b: Fp, c: Fp) returns (r: Result<(), Error>)
    requires config == MyConfig()
    requires layouter.Valid() && layouter.regions == [0, 1, 2] && layouter.cursor == 3
    requires layouter.cs.advice == map[AbsCell(0, 0) := a, AbsCell(0, 1) := b, AbsCell(0, 2) := c]
    requires layouter.cs.enabled == {} && layouter.cs.copies == []
    modifies layouter, layouter.cs
    ensures r.Success? <==> layouter.cs.rows >= 8
    ensures r.Failure? ==> r.error == BoundsFailure
    ensures r.Success? ==> layouter.cs.Snapshot() == SynthesizedGrid(layouter.cs.rows, a, b, c)
  {
    var d := ComputeProduct(config, layouter, a, b, c);
    if d.Failure? {
      return Failure(d.error);
    }
    r := ExposeResult(config, layouter, a, b, c, d.value);
  }

  /** `field_chip.mul(layouter, field_chip.add(layouter, a, b), c)` on the three loaded inputs. */
  method ComputeProduct(config: FieldConfig, layouter: SingleChipLayouter, a: Fp, b: Fp, c: Fp) returns (d: Result<Number, Error>)
    requires config == MyConfig()
    requires layouter.Valid() && layouter.regions == [0, 1, 2] && layouter.cursor == 3
    requires layouter.cs.advice == map[AbsCell(0, 0) := a, AbsCell(0, 1) := b, AbsCell(0, 2) := c]
    requires layouter.cs.enabled == {} && layouter.cs.copies == []
    modifies layouter, layouter.cs
    ensures layouter.Valid()
    ensures d.Success? <==> layouter.cs.rows >= 7
    ensures d.Failure? ==> d.error == BoundsFailure
    ensures d.Success? ==>
      && layouter.regions == [0, 1, 2, 3, 5] && layouter.cursor == 7
      && d.value == Number(Cell(4, 1, 0), Some(Mul(Add(a, b), c)))
      && layouter.cs.advice == SynthesizedGrid(layouter.cs.rows, a, b, c).advice - {AbsCell(1, 7)}
      && layouter.cs.enabled == LayoutSelectors - {SelectorCell(0, 7)}
      && layouter.cs.copies == LayoutCopies[..4]
  {
    assert config.addConfig.perm.columns == config.mulConfig.perm.columns == [0, 1];
    assert layouter.Resolve(Cell(0, 0, 0)) == AbsCell(0, 0) && layouter.Resolve(Cell(1, 0, 0)) == AbsCell(0, 1);
    assert layouter.Resolve(Cell(2, 0, 0)) == AbsCell(0, 2);
    d := AddAndMul(config, layouter, Number(Cell(0, 0, 0), Some(a)), Number(Cell(1, 0, 0), Some(b)), Number(Cell(2, 0, 0), Some(c)));
    ComputedState(layouter.cs.rows, a, b, c);
  }

  /**
   * The grid that `add_and_mul` leaves behind, written the way `AddAndMul`
   * builds it, equals the displays `ComputeProduct` promises. This is only
   * an identity between literal maps, sets and sequences, kept apart so the
   * method's proof stays small; it states nothing new about the circuit.
   */
  lemma ComputedState(n: RowCount, a: Fp, b: Fp, c: Fp)
    ensures var ab := Add(a, b);
      map[AbsCell(0, 0) := a, AbsCell(0, 1) := b, AbsCell(0, 2) := c]
        [AbsCell(0, 3) := a][AbsCell(1, 3) := b][AbsCell(0, 4) := ab]
        [AbsCell(0, 5) := ab][AbsCell(1, 5) := c][AbsCell(0, 6) := Mul(ab, c)]
      == SynthesizedGrid(n, a, b, c).advice - {AbsCell(1, 7)}
    ensures {} + {SelectorCell(1, 3)} + {SelectorCell(2, 5)} == LayoutSelectors - {SelectorCell(0, 7)}
    ensures [] + [CopyEdge(AbsCell(0, 0), AbsCell(0, 3)), CopyEdge(AbsCell(0, 1), AbsCell(1, 3))]
               + [CopyEdge(AbsCell(0, 4), AbsCell(0, 5)), CopyEdge(AbsCell(0, 2), AbsCell(1, 5))] == LayoutCopies[..4]
  {
  }

  /** The last step of synthesis: `expose_public` on the result of the mul region. */
  method ExposeResult(config: FieldConfig, layouter: SingleChipLayouter, a: Fp, b: Fp, c: Fp, d: Number) returns (r: Result<(), Error>)
    requires config == MyConfig()
    requires layouter.Valid() && layouter.regions == [0, 1, 2, 3, 5] && layouter.cursor == 7
    requires d == Number(Cell(4, 1, 0), Some(Mul(Add(a, b), c)))
    requires layouter.cs.advice == SynthesizedGrid(layouter.cs.rows, a, b, c).advice - {AbsCell(1, 7)}
    requires layouter.cs.enabled == LayoutSelectors - {SelectorCell(0, 7)}
    requires layouter.cs.copies == LayoutCopies[..4]
    modifies layouter, layouter.cs
    ensures r.Success? <==> layouter.cs.rows >= 8
    ensures r.Failure? ==> r.error == BoundsFailure
    ensures r.Success? ==> layouter.cs.Snapshot() == SynthesizedGrid(layouter.cs.rows, a, b, c)
  {
    r := ExposePublic(config, layouter, d);
    if r.Success? {
      assert LayoutCopies == LayoutCopies[..4] + [LayoutCopies[4]];
      assert layouter.cs.advice == SynthesizedGrid(layouter.cs.rows, a, b, c).advice;
    }
  }

  /**
   * `MockProver::run(k, circuit, instance)`: configures the circuit,
   * synthesizes it into a grid of `2^k` rows and pairs the result with the
   * public inputs.
   */
  method Run(k: nat, circuit: MyCircuit, instance: seq<seq<Fp>>) returns (r: Result<Prover, Error>)
    ensures r.Success? <==> circuit.a.Some? && circuit.b.Some? && circuit.c.Some? && k >= 3
    ensures circuit.a.None? || circuit.b.None? ==> r == Failure(SynthesisError)
    ensures circuit.a.Some? && circuit.b.Some? && k == 0 ==> r == Failure(BoundsFailure)
    ensures circuit.c.None? && k > 0 ==> r == Failure(SynthesisError)
    ensures circuit.a.Some? && circuit.b.Some? && circuit.c.Some? && k < 3 ==> r == Failure(BoundsFailure)
    ensures r.Success? ==>
      r.value == Prover(MyGates(), SynthesizedGrid(Pow2(k), circuit.a.value, circuit.b.value, circuit.c.value), instance)
  {
    var meta := new ConstraintSystem();
    var config := MyCircuitConfigure(meta);
    var cs := new MockProver(k);
    var res := Synthesize(circuit, cs, config);
    if res.Failure? {
      return Failure(res.error);
    }
    r := Success(Prover(meta.gates, cs.Snapshot(), instance));
  }
}
