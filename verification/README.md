# Two-chip halo2 circuit, modelled in Dafny

This project models the halo2 example circuit `examples/two-chip.rs`. The circuit computes
`d = (a + b) * c` from three private inputs and exposes `d` as a public input.
It is built from three pieces:
- an `AddChip` with an "add" gate;
- a `MulChip` with a "mul" gate;
- a `FieldChip` that owns both and adds a "public input" gate.

The model covers the whole path from configuration to the outcome of the development prover:
- **Configuration.** `configure` registers two advice columns, one instance column, one permutation over the advice columns, and three gates with their selectors, in the order "public input", "add", "mul".
- **Synthesis.** `synthesize` assigns six regions one after the other: load `a`, load `b`, load `c`, add, mul, expose. Each region writes advice cells. The add, mul and expose regions also enable a selector and record copy constraints; the three load regions do neither. Witness values are optional. Assigning an absent value raises `SynthesisError`. The three loads, the inputs of `add` and `mul`, and the exposed value all fail this way when their value is absent, and the `and_then`/`map` combinator that computes a sum or product gives an absent result for an absent operand. Because `add` and `mul` assign their inputs before computing the result, an absent value never leaves either of them.
- **Checking.** `MockProver::verify` checks every gate at every row and every copy constraint of the finished grid against the public inputs. It reports every violation.

Modules, one per file:
- `Wrappers` (`wrappers.dfy`): `Option` and `Result`.
- `Field` (`field.dfy`): the prime field. It is integers modulo an abstract prime `P`, with ring operations only.
- `Plonk` (`plonk.dfy`): the grid, rotations, polynomial expressions, their evaluation, and when a gate or a copy constraint holds.
- `Dev` (`mock_prover.dfy`):
  - the `MockProver` assignment as a class whose methods update its cells, selectors and copies;
  - `Verify`, the pure scan over gates × rows × constraints and then the copy constraints;
  - proofs that the scan reports exactly the violations present.
- `ConstraintSystems` (`constraint_system.dfy`): the configuration-time constraint system as a class.
- `Circuit` (`layouter.dfy`): the layouter as a class with a table of region starts and a row cursor. It provides the region operations (`assign_advice`, `enable`, `constrain_equal`).
- `TwoChipGates` (`two_chip_gates.dfy`): the three gate polynomials, what each demands of the grid, and the optional-value combinators.
- `TwoChip` (`two_chip.dfy`): the chip configurations and instructions, `MyCircuit::configure`, `synthesize`, and `MockProver::run`.
- `TwoChipOutcome` (`two_chip_outcome.dfy`): what `verify` returns for the synthesized grid, the two outcomes `main` asserts, and what any satisfying assignment of this layout guarantees.

The layouter's placement rule is an assumption, because the code of `SingleChipLayouter` is not part of this model:
- regions are stacked in the order they are assigned;
- each region starts at the first free row;
- a region's height is its largest offset plus one.

This gives loads at rows 0, 1 and 2, the add region at rows 3–4, the mul region at rows 5–6, and the exposed value at row 7.
The comment at `examples/two-chip.rs:616` says the result is exposed in row 6. The code at `examples/two-chip.rs:619` and the expected failure at `examples/two-chip.rs:635` both use row 7. The model follows the code.

The semantics of the grid:
- An advice cell that was never assigned has no value, and a public input that was not supplied has none either. Any constraint that reads such a cell fails where its gate is active.
- Rotations wrap around the `2^k` rows.
- A gate is active at a row when a selector it queries is enabled at the row that query reaches.

## Model

| member | source | states |
|---|---|---|
| Field.EnabledDifferenceZero | examples/two-chip.rs:462 | with the selector at 1, `s * (p + a * -1)` is zero exactly when `a == p` |
| Plonk.Pow2 | examples/two-chip.rs:618 | a grid of `2^k` rows has the eight rows the circuit needs exactly when `k >= 3` |
| Plonk.Rotate | examples/two-chip.rs:181 | a rotation reaches a row of the grid, and `Rotation::next()` from a row that is not the last reaches the following row |
| Plonk.Eval | examples/two-chip.rs:179-184 | the value of a gate polynomial at a row is present exactly when every advice cell it queries has been assigned and every instance cell it queries was supplied |
| Dev.VerifyExact | examples/two-chip.rs:628-636 | `verify` lists a failure exactly when it is genuine: a constraint of an active gate that does not vanish at that row, named by the gate's index and name, or a recorded copy whose cells are unassigned or differ |
| Dev.Verify | examples/two-chip.rs:628-636 | the report lists every constraint failure before every copy failure; which failures it holds is stated by `Dev.VerifyExact` and `Dev.VerifyOkIffSatisfied` |
| Dev.PolyFailuresExact | examples/two-chip.rs:630-635 | the constraints scanned at one row are reported exactly when they do not vanish, each tagged with its gate index, gate name, constraint index, the empty constraint name and row |
| Dev.RowFailuresExact | examples/two-chip.rs:630-635 | one row contributes failures only where the gate is active, and then exactly its violated constraints |
| Dev.GateFailuresExact | examples/two-chip.rs:630-635 | scanning rows `0 .. m - 1` reports exactly the violated constraints of active rows below `m` |
| Dev.GateFailuresTagged | examples/two-chip.rs:630-631 | every failure from a gate's scan is a constraint failure carrying that gate's index |
| Dev.GateScanExact | examples/two-chip.rs:628-636 | the scan of gate `gi` over the whole grid reports exactly the genuine constraint failures with gate index `gi` |
| Dev.FlattenMembers | examples/two-chip.rs:628-636 | a failure is in the concatenated gate scans exactly when it is in the scan of some gate |
| Dev.CopyFailuresExact | examples/two-chip.rs:248-249 | the copy scan reports a recorded copy, such as those of the add region here, of the mul region (`examples/two-chip.rs:390-391`) and of the expose region (`examples/two-chip.rs:539`), exactly when its cells are unassigned or differ |
| Dev.VerifyOkIffSatisfied | examples/two-chip.rs:623 | `verify` returns no failures exactly when every gate holds at every row and every copy constraint holds |
| Dev.CopyFailuresEmpty | examples/two-chip.rs:539 | no copy failure is reported exactly when every recorded copy constraint holds, including the expose edge here and the region edges at `examples/two-chip.rs:248-249` and `:390-391` |
| Dev.InactiveRowsQuiet | examples/two-chip.rs:228-230 | rows where a gate's selector is off contribute no failures |
| Dev.OneActiveRow | examples/two-chip.rs:228-230 | a gate with one constraint that is active at a single row reports that constraint at that row if the gate fails there, and nothing else |
| Dev.MockProver.constructor | examples/two-chip.rs:622 | `run(k, ...)` starts from a grid of `2^k` rows with nothing assigned, enabled or copied |
| Dev.MockProver.AssignAdvice | examples/two-chip.rs:236-241 | an absent value is `SynthesisError`; a row past the grid is a bounds failure; otherwise exactly that cell is set and nothing else changes |
| Dev.MockProver.EnableSelector | examples/two-chip.rs:230 | the selector is enabled at that row and nothing else changes; a row past the grid is a bounds failure |
| Dev.MockProver.Copy | examples/two-chip.rs:248-249 | a copy is recorded only between columns of the permutation, with a `SynthesisError` otherwise; exactly one edge is appended on success |
| ConstraintSystems.ConstraintSystem.AdviceColumn | examples/two-chip.rs:568 | hands out the next advice column index and changes nothing else |
| ConstraintSystems.ConstraintSystem.InstanceColumn | examples/two-chip.rs:571 | hands out the next instance column index and changes nothing else |
| ConstraintSystems.ConstraintSystem.NewSelector | examples/two-chip.rs:175 | hands out the next selector index and changes nothing else |
| ConstraintSystems.ConstraintSystem.CreateGate | examples/two-chip.rs:178-185 | appends the named gate after those already registered |
| ConstraintSystems.ConstraintSystem.NewPermutation | examples/two-chip.rs:443-449 | registers a permutation over the given columns |
| Circuit.SingleChipLayouter.constructor | examples/two-chip.rs:577 | a layouter over an empty assignment, with no regions and the cursor at row 0 |
| Circuit.SingleChipLayouter.BeginRegion | examples/two-chip.rs:224-226 | a new region starts at the first free row and claims `height` rows; regions never overlap |
| Circuit.SingleChipLayouter.AssignAdvice | examples/two-chip.rs:236-247 | writes the resolved cell of the open region and returns its region-relative cell; an absent value is `SynthesisError` |
| Circuit.SingleChipLayouter.EnableSelector | examples/two-chip.rs:230 | enables the selector at the resolved row of the open region |
| Circuit.SingleChipLayouter.ConstrainEqual | examples/two-chip.rs:248-249 | records a copy between the two resolved cells; a cell outside the permutation is `SynthesisError` |
| Plonk.SelectorFreeQuiet | examples/two-chip.rs:179-181 | an expression that queries only advice and instance cells never makes a gate active |
| TwoChipGates.GatedGate | examples/two-chip.rs:184 | `s * (t + v * -1)` is one polynomial; when `t` and `v` query no selector its only selector query is `s` at the current row, and it queries exactly the cells `t` and `v` query |
| TwoChipGates.PublicInputGate | examples/two-chip.rs:453-463 | the gate named "public input" has one constraint, gated by `s_pub` at the current row, and at row r reads only `advice1[r]` and `instance[r]`; `TwoChipGates.PublicInputGateHolds` states what it demands |
| TwoChipGates.AddGate | examples/two-chip.rs:178-185 | the gate named "add" has one constraint, gated by `s_add` at the current row, and at row r reads only `advice0[r]`, `advice1[r]` and `advice0[r + 1]` (wrapping at the last row), and no instance cell; `TwoChipGates.AddGateHolds` states what it demands |
| TwoChipGates.MulGate | examples/two-chip.rs:304-328 | the gate named "mul" has one constraint, gated by `s_mul` at the current row, and at row r reads only `advice0[r]`, `advice1[r]` and `advice0[r + 1]` (wrapping at the last row), and no instance cell; `TwoChipGates.MulGateHolds` states what it demands |
| TwoChipGates.GatedActive | examples/two-chip.rs:182-184 | a gate of the form `s * (t + v * -1)`, with no selector in `t` or `v`, is active at a row exactly when `s` is enabled there |
| TwoChipGates.GatedGateHolds | examples/two-chip.rs:182-184 | such a gate holds wherever `s` is off, and where it is on exactly when `t` and `v` both have values and they are equal |
| TwoChipGates.GatedDifference | examples/two-chip.rs:184 | `s * (t + v * -1)` with `s` on vanishes exactly when `t` and `v` both have values and they are equal |
| TwoChipGates.PublicInputGateHolds | examples/two-chip.rs:453-463 | where `s_pub` is on at row r, the gate holds exactly when `advice1[r]` is assigned, `instance[r]` is supplied, and they are equal; where it is off, any values are allowed |
| TwoChipGates.AddGateHolds | examples/two-chip.rs:178-185 | where `s_add` is on at row r, the gate holds exactly when `advice0[r+1] == advice0[r] + advice1[r]` with all three assigned; where it is off, any values are allowed |
| TwoChipGates.MulGateHolds | examples/two-chip.rs:304-328 | where `s_mul` is on at row r, the gate holds exactly when `advice0[r+1] == advice0[r] * advice1[r]` with all three assigned; where it is off, any values are allowed |
| TwoChipGates.AddValues | examples/two-chip.rs:252 | the sum is present exactly when both inputs are, and is then `a + b` |
| TwoChipGates.MulValues | examples/two-chip.rs:394 | the product is present exactly when both inputs are, and is then `a * b` |
| TwoChip.AddChipConfigure | examples/two-chip.rs:170-192 | takes the next selector as `s_add` and appends the "add" gate over it |
| TwoChip.MulChipConfigure | examples/two-chip.rs:296-335 | takes the next selector as `s_mul` and appends the "mul" gate over it |
| TwoChip.FieldChipConfigure | examples/two-chip.rs:438-475 | one permutation over both advice columns; the gates "public input", "add", "mul" are appended in that order, each with a fresh selector |
| TwoChip.MyCircuitConfigure | examples/two-chip.rs:566-574 | two advice columns and one instance column, then the field chip's configuration; from an empty system this puts "public input" at gate index 0 |
| TwoChip.LoadPrivate | examples/two-chip.rs:483-505 | a one-row region that writes only advice0 at offset 0 with the given value, enables nothing and copies nothing; an absent value is `SynthesisError` |
| TwoChip.ArithmeticRegion | examples/two-chip.rs:224-267 | a two-row region that enables its selector only at offset 0; writes lhs to advice0 and rhs to advice1 at offset 0 and the result to advice0 at offset 1; records exactly the copies a↔lhs and b↔rhs; changes nothing else. Every failure's error is stated in the order the region runs: a start past the grid is a bounds failure; inside it a missing input, a copy outside the permutation or a missing result is `SynthesisError`; otherwise a result row past the grid is a bounds failure |
| TwoChip.ArithmeticInputs | examples/two-chip.rs:230-249 | the selector, the two input cells and the two copy edges of offset 0; a start past the grid is a bounds failure, and inside it a missing input or a copy outside the permutation is `SynthesisError` |
| TwoChip.AssignInputs | examples/two-chip.rs:230-247 | the selector and the two input cells of offset 0; a start past the grid is a bounds failure (the selector comes first), and inside it an absent input is `SynthesisError` |
| TwoChip.AssignPair | examples/two-chip.rs:236-247 | writes lhs to advice0 and rhs to advice1 at offset 0 and leaves selectors and copies alone; a missing lhs is `SynthesisError` wherever the row is, a present lhs past the grid is a bounds failure, and inside the grid a missing rhs is `SynthesisError` |
| TwoChip.AddChipAdd | examples/two-chip.rs:215-268 | the add region; its result is `Some(a + b)` exactly when both inputs are present; a start past the grid is a bounds failure, and inside it a missing input or a copy outside the permutation is `SynthesisError` |
| TwoChip.MulChipMul | examples/two-chip.rs:357-410 | the mul region; its result is `Some(a * b)` exactly when both inputs are present; a start past the grid is a bounds failure, and inside it a missing input or a copy outside the permutation is `SynthesisError` |
| TwoChip.AddAndMul | examples/two-chip.rs:508-517 | an add region then a mul region; the returned number holds `(a + b) * c` in the mul region's output cell. The error of every failure is stated: a bounds failure when the add region starts past the grid or the mul region does after a sound add region, and `SynthesisError` for a missing input or a copy outside the permutation in whichever region meets it first |
| TwoChip.ExposePublic | examples/two-chip.rs:519-545 | a one-row region enabling `s_pub` at offset 0, writing the number to advice1 at offset 0, and recording the edge number↔out; a start past the grid is a bounds failure, and inside it a missing number or a copy outside the permutation is `SynthesisError` |
| TwoChip.ExposeRow | examples/two-chip.rs:529-539 | the row of the expose region just opened: `s_pub`, the advice1 cell and the edge number↔out, with the same errors as `TwoChip.ExposePublic` |
| TwoChip.LoadInputs | examples/two-chip.rs:580-583 | the three loads put `a`, `b`, `c` in rows 0, 1, 2 of advice0; a missing `a` or `b` is `SynthesisError`, a grid of one row then fails on `b`'s row, and a missing `c` in a grid of two rows or more is `SynthesisError` |
| TwoChip.ComputeAndExpose | examples/two-chip.rs:585-589 | after the loads, the rest of synthesis leaves exactly the synthesized grid, or fails on bounds |
| TwoChip.ComputeProduct | examples/two-chip.rs:585-586 | after the loads, `add_and_mul` opens regions at rows 3 and 5 and returns the cell holding `(a + b) * c`, with the grid synthesis has built so far; it fails only on bounds, exactly when the grid has fewer than 7 rows |
| TwoChip.ExposeResult | examples/two-chip.rs:587-589 | exposing that cell completes the synthesized grid exactly when the grid has eight rows, and fails on bounds otherwise |
| TwoChip.Synthesize | examples/two-chip.rs:576-590 | succeeds exactly when all three inputs are present and the grid has eight rows, leaving the synthesized grid; which error each failing case raises follows the order of the loads: a missing `a` or `b` is `SynthesisError`, a one-row grid then fails on bounds, a missing `c` is `SynthesisError`, and too few rows is otherwise a bounds failure |
| TwoChip.Run | examples/two-chip.rs:622 | `MockProver::run` succeeds exactly when all inputs are present and `k >= 3`, giving the gates in registration order, the synthesized grid and the public inputs; its errors are those of `TwoChip.Synthesize`, with `k == 0` as the one-row grid |
| TwoChip.SynthesizedGrid | examples/two-chip.rs:576-590 | the grid synthesis leaves: `a`, `b`, `c` in rows 0 to 2; row 4 holds the sum of row 3's cells and row 6 the product of row 5's cells; advice1 at row 7 holds `(a + b) * c`; the layout's selectors and copies. `TwoChipOutcome.SynthesizedVerify` states how `verify` judges it |
| TwoChipOutcome.FailuresAtOnlyRow | examples/two-chip.rs:228-230 | a gate whose selector is enabled at one row reports at most one failure, at that row |
| TwoChipOutcome.SynthesizedCopiesHold | examples/two-chip.rs:248-249 | every copy constraint of the synthesized grid holds |
| TwoChipOutcome.PublicInputFailures | examples/two-chip.rs:628-636 | the public-input gate fails only at row 7, and only when the instance value there is not `(a + b) * c` |
| TwoChipOutcome.AddFailures | examples/two-chip.rs:178-185 | the add gate holds everywhere in the synthesized grid |
| TwoChipOutcome.MulFailures | examples/two-chip.rs:304-328 | the mul gate holds everywhere in the synthesized grid |
| TwoChipOutcome.SynthesizedVerify | examples/two-chip.rs:618-637 | `verify` returns no failures when `instance[0][7] == (a + b) * c`, and otherwise exactly `[Constraint(0, "public input", 0, "", 7)]`: gate index 0, gate name "public input", constraint index 0, constraint name "", row 7 |
| TwoChipOutcome.SynthesizedSatisfiedIff | examples/two-chip.rs:618-637 | the synthesized grid satisfies every gate and copy constraint exactly when `instance[0][7] == (a + b) * c` |
| TwoChipOutcome.AddOneChanges | examples/two-chip.rs:626 | adding one to a public input makes it a different value |
| TwoChipOutcome.PublicInputs | examples/two-chip.rs:618-619 | `2^k` public inputs, zero everywhere except `d` at row 7 |
| TwoChipOutcome.RunMain | examples/two-chip.rs:595-637 | with the right public input `verify` succeeds; with `d + 1` it reports exactly `[Constraint(0, "public input", 0, "", 7)]`, the failure `main` expects |
| TwoChipOutcome.LayoutSound | examples/two-chip.rs:507 | in any assignment with this layout that satisfies every gate and copy constraint, the public input at row 7 equals `(a + b) * c` of the values loaded in rows 0, 1 and 2 |

## Left out

- Sampling `a`, `b` and `c` with `Fp::rand()` is left out. The inputs are arbitrary field elements passed as parameters.
- The Pasta field is not modelled. The field is the integers modulo an abstract prime `P`, with only addition, multiplication and negation.
- The code of halo2's `ConstraintSystem`, `SingleChipLayouter`, `Permutation` and `MockProver` is not part of this model. Only the behaviour the example relies on is modelled, and the layouter's placement rule is an assumption (see above).
- Unassigned cells are modelled as having no value, so any active constraint that reads one fails. halo2's development prover may instead read such a cell as zero.
- A public input that was not supplied is likewise read as absent. This is a choice of the model. So `TwoChipOutcome.SynthesizedVerify` reports the public-input failure at row 7 when no instance column is supplied (`instance == []`) or it has fewer than eight rows, because the gate's instance query has no value there.
- Enabling a selector twice, and writing a cell twice, are not reported as errors. The last write wins.
- A permutation failure (`Dev.VerifyFailure.CopyViolation`) is reported as the pair of cells. halo2 reports the permutation index, column and row.
- A constraint failure always carries the empty constraint name. This matches the gates of this circuit, whose `create_gate` closures name no constraints. Named constraints are not modelled.
- Gates are checked only at rows where a selector they query is enabled. A gate that queries no selector is therefore never checked, whereas halo2's development prover evaluates every gate at every row. The results agree for the three gates of this circuit, since each is multiplied by its selector at `cur`. This restriction follows from reading unassigned cells as absent (see the line on unassigned cells).
- `SingleChipLayouter::new` cannot fail in this model.
- Namespaces and annotation strings (`layouter.namespace`, the `|| "lhs"` closures) are left out because they are diagnostic only.
- The `Chip` boilerplate (`config`, `loaded`, `construct`, `PhantomData`, derives) is left out. `FieldChip::add` and `FieldChip::mul`, which only forward to the sub-chips with their configuration, are folded into `TwoChip.AddAndMul`.
- The proof system itself (commitments, transcript, key generation) is left out.
