/**
 * The development prover: the assignment that synthesis writes into, and
 * `verify`, which checks every gate at every row and every copy constraint
 * of a finished assignment against the public inputs, reporting every
 * violation it finds.
 */
module Dev {
  import opened Wrappers
  import opened Field
  import opened Plonk

  /**
   * One violated constraint, as `verify` reports it. The gates of this
   * circuit give their constraints no names, so `constraintName` is always
   * the empty string.
   */
  datatype VerifyFailure =
    | Constraint(gateIndex: nat, gateName: string, constraintIndex: nat, constraintName: string, row: nat)
    | CopyViolation(left: AbsCell, right: AbsCell)

  /** A finished run: the gates of the constraint system, the assignment and the public inputs. */
  datatype Prover = Prover(gates: seq<Gate>, grid: Grid, instance: seq<seq<Fp>>)

  // ---------------------------------------------------------------------
  // What a failure means, stated without reference to how `Verify` scans.

  /** Constraint `k` of gate `gi` is violated at `row`. */
  predicate ConstraintViolated(gates: seq<Gate>, g: Grid, instance: seq<seq<Fp>>, gi: nat, k: nat, row: nat) {
    && gi < |gates|
    && k < |gates[gi].polys|
    && row < g.rows
    && Active(gates[gi], g, row)
    && !PolyHolds(gates[gi], k, g, instance, row)
  }

  /** `f` describes a violation that really is present in the assignment. */
  predicate Genuine(gates: seq<Gate>, g: Grid, instance: seq<seq<Fp>>, f: VerifyFailure) {
    match f
    case Constraint(gi, name, k, constraintName, row) =>
      ConstraintViolated(gates, g, instance, gi, k, row) && name == gates[gi].name && constraintName == ""
    case CopyViolation(l, r) =>
      CopyEdge(l, r) in g.copies && !CopyHolds(g, CopyEdge(l, r))
  }

  /** Every gate holds at every row and every copy constraint holds. */
  predicate Satisfied(gates: seq<Gate>, g: Grid, instance: seq<seq<Fp>>) {
    && (forall gi, row :: 0 <= gi < |gates| && 0 <= row < g.rows ==> GateHolds(gates[gi], g, instance, row))
    && (forall e :: e in g.copies ==> CopyHolds(g, e))
  }

  // ---------------------------------------------------------------------
  // The scan: gates in registration order, rows in increasing order,
  // constraints in order, then copy constraints in the order recorded.

  /** The failures of the first `j` constraints of `gate` at `row`. */
  function PolyFailures(gi: nat, gate: Gate, g: Grid, instance: seq<seq<Fp>>, row: nat, j: nat): seq<VerifyFailure>
    requires j <= |gate.polys|
  {
    if j == 0 then []
    else
      PolyFailures(gi, gate, g, instance, row, j - 1)
      + (if PolyHolds(gate, j - 1, g, instance, row) then [] else [Constraint(gi, gate.name, j - 1, "", row)])
  }

  function RowFailures(gi: nat, gate: Gate, g: Grid, instance: seq<seq<Fp>>, row: nat): seq<VerifyFailure> {
    if Active(gate, g, row) then PolyFailures(gi, gate, g, instance, row, |gate.polys|) else []
  }

  /** The failures of `gate` in rows `0 .. m - 1`. */
  function GateFailures(gi: nat, gate: Gate, g: Grid, instance: seq<seq<Fp>>, m: nat): seq<VerifyFailure> {
    if m == 0 then []
    else GateFailures(gi, gate, g, instance, m - 1) + RowFailures(gi, gate, g, instance, m - 1)
  }

  /** The scan of each gate over all rows, by gate index. */
  function GateScans(gates: seq<Gate>, g: Grid, instance: seq<seq<Fp>>): (scans: seq<seq<VerifyFailure>>)
    ensures |scans| == |gates|
    ensures forall gi :: 0 <= gi < |gates| ==> scans[gi] == GateFailures(gi, gates[gi], g, instance, g.rows)
  {
    seq(|gates|, (gi: int) requires 0 <= gi < |gates| => GateFailures(gi, gates[gi], g, instance, g.rows))
  }

  /** The scans one after the other. */
  function Flatten(parts: seq<seq<VerifyFailure>>): seq<VerifyFailure> {
    if parts == [] then [] else Flatten(parts[..|parts| - 1]) + parts[|parts| - 1]
  }

  function CopyFailures(g: Grid, edges: seq<CopyEdge>): seq<VerifyFailure> {
    if edges == [] then []
    else
      var e := edges[|edges| - 1];
      CopyFailures(g, edges[..|edges| - 1]) + (if CopyHolds(g, e) then [] else [CopyViolation(e.left, e.right)])
  }

  /**
   * `MockProver::verify`: the empty list means success. Every constraint
   * failure is listed before every copy failure.
   */
  function Verify(p: Prover): (r: seq<VerifyFailure>)
    ensures forall i, j :: 0 <= i < j < |r| ==> r[i].Constraint? || r[j].CopyViolation?
  {
    var gateFailures, copyFailures := Flatten(GateScans(p.gates, p.grid, p.instance)), CopyFailures(p.grid, p.grid.copies);
    ReportTagged(p);
    ConstraintsFirst(gateFailures, copyFailures);
    gateFailures + copyFailures
  }

  /** Constraint failures followed by copy failures keep that order. */
  lemma ConstraintsFirst(a: seq<VerifyFailure>, b: seq<VerifyFailure>)
    requires forall f :: f in a ==> f.Constraint?
    requires forall f :: f in b ==> f.CopyViolation?
    ensures forall i, j :: 0 <= i < j < |a + b| ==> (a + b)[i].Constraint? || (a + b)[j].CopyViolation?
  {
    forall i, j | 0 <= i < j < |a + b|
      ensures (a + b)[i].Constraint? || (a + b)[j].CopyViolation?
    {
      if j < |a| {
        assert (a + b)[i] == a[i] && a[i] in a;
      } else {
        assert (a + b)[j] == b[j - |a|] && b[j - |a|] in b;
      }
    }
  }

  /** The gate scans report only constraint failures, the copy scan only copy failures. */
  lemma ReportTagged(p: Prover)
    ensures forall f :: f in Flatten(GateScans(p.gates, p.grid, p.instance)) ==> f.Constraint?
    ensures forall f :: f in CopyFailures(p.grid, p.grid.copies) ==> f.CopyViolation?
  {
    var scans := GateScans(p.gates, p.grid, p.instance);
    forall f | f in Flatten(scans)
      ensures f.Constraint?
    {
      FlattenMembers(scans, f);
      var gi :| 0 <= gi < |scans| && f in scans[gi];
      GateFailuresTagged(gi, p.gates[gi], p.grid, p.instance, p.grid.rows, f);
    }
    forall f | f in CopyFailures(p.grid, p.grid.copies)
      ensures f.CopyViolation?
    {
      CopyFailuresExact(p.grid, p.grid.copies, f);
    }
  }

  // ---------------------------------------------------------------------
  // The scan reports exactly the genuine violations.

  lemma {:induction false} PolyFailuresExact(gi: nat, gate: Gate, g: Grid, instance: seq<seq<Fp>>, row: nat, j: nat, f: VerifyFailure)
    requires j <= |gate.polys|
    ensures f in PolyFailures(gi, gate, g, instance, row, j) <==>
              && f.Constraint? && f.gateIndex == gi && f.gateName == gate.name && f.constraintName == "" && f.row == row
              && f.constraintIndex < j && !PolyHolds(gate, f.constraintIndex, g, instance, row)
  {
    if j > 0 {
      PolyFailuresExact(gi, gate, g, instance, row, j - 1, f);
    }
  }

  /**
   * `f` reports constraint `f.constraintIndex` of gate `gi`, named as `verify`
   * names it, at a row where the gate is active and that constraint does not
   * vanish.
   */
  predicate Violation(gi: nat, gate: Gate, g: Grid, instance: seq<seq<Fp>>, f: VerifyFailure) {
    && f.Constraint? && f.gateIndex == gi && f.gateName == gate.name && f.constraintName == ""
    && Active(gate, g, f.row)
    && f.constraintIndex < |gate.polys| && !PolyHolds(gate, f.constraintIndex, g, instance, f.row)
  }

  lemma {:induction false} GateFailuresExact(gi: nat, gate: Gate, g: Grid, instance: seq<seq<Fp>>, m: nat, f: VerifyFailure)
    ensures f in GateFailures(gi, gate, g, instance, m) <==> Violation(gi, gate, g, instance, f) && f.row < m
  {
    if m > 0 {
      var scan, prefix, here := GateFailures(gi, gate, g, instance, m), GateFailures(gi, gate, g, instance, m - 1), RowFailures(gi, gate, g, instance, m - 1);
      var violation := Violation(gi, gate, g, instance, f);
      assert f in scan <==> f in prefix || f in here by {
        InConcat(prefix, here, f);
      }
      assert f in prefix <==> violation && f.row < m - 1 by {
        GateFailuresExact(gi, gate, g, instance, m - 1, f);
      }
      assert f in here <==> violation && f.row == m - 1 by {
        RowFailuresExact(gi, gate, g, instance, m - 1, f);
      }
    }
  }

  /** Membership in a concatenation, stated apart so the scan proofs need not unfold anything to use it. */
  lemma InConcat(a: seq<VerifyFailure>, b: seq<VerifyFailure>, f: VerifyFailure)
    ensures f in a + b <==> f in a || f in b
  {
  }

  /** The scan of one row reports the violated constraints of the gate there, if it is active. */
  lemma RowFailuresExact(gi: nat, gate: Gate, g: Grid, instance: seq<seq<Fp>>, row: nat, f: VerifyFailure)
    ensures f in RowFailures(gi, gate, g, instance, row) <==> Violation(gi, gate, g, instance, f) && f.row == row
  {
    if Active(gate, g, row) {
      PolyFailuresExact(gi, gate, g, instance, row, |gate.polys|, f);
    }
  }

  lemma {:induction false} FlattenMembers(parts: seq<seq<VerifyFailure>>, f: VerifyFailure)
    ensures f in Flatten(parts) <==> exists i :: 0 <= i < |parts| && f in parts[i]
  {
    if parts != [] {
      var init, last := parts[..|parts| - 1], parts[|parts| - 1];
      FlattenMembers(init, f);
      assert f in Flatten(parts) <==> f in Flatten(init) || f in last;
      if f in Flatten(init) {
        var i :| 0 <= i < |init| && f in init[i];
        assert parts[i] == init[i];
      }
      if exists i :: 0 <= i < |parts| && f in parts[i] {
        var i :| 0 <= i < |parts| && f in parts[i];
        if i < |init| {
          assert parts[i] == init[i];
        }
      }
    }
  }

  /** Every failure the scan of gate `gi` reports is a constraint failure of gate `gi`. */
  lemma GateFailuresTagged(gi: nat, gate: Gate, g: Grid, instance: seq<seq<Fp>>, m: nat, f: VerifyFailure)
    ensures f in GateFailures(gi, gate, g, instance, m) ==> f.Constraint? && f.gateIndex == gi
  {
    GateFailuresExact(gi, gate, g, instance, m, f);
  }

  /** The scan of gate `gi` over all rows reports exactly the genuine failures of that gate. */
  lemma GateScanExact(gates: seq<Gate>, g: Grid, instance: seq<seq<Fp>>, gi: nat, f: VerifyFailure)
    requires gi < |gates|
    ensures f in GateFailures(gi, gates[gi], g, instance, g.rows) <==>
      f.Constraint? && f.gateIndex == gi && Genuine(gates, g, instance, f)
  {
    GateFailuresExact(gi, gates[gi], g, instance, g.rows, f);
  }

  lemma {:induction false} CopyFailuresExact(g: Grid, edges: seq<CopyEdge>, f: VerifyFailure)
    ensures f in CopyFailures(g, edges) <==>
              f.CopyViolation? && CopyEdge(f.left, f.right) in edges && !CopyHolds(g, CopyEdge(f.left, f.right))
  {
    if edges != [] {
      var init := edges[..|edges| - 1];
      CopyFailuresExact(g, init, f);
      assert edges == init + [edges[|edges| - 1]];
    }
  }

  /** No copy failure is reported exactly when every copy constraint holds. */
  lemma CopyFailuresEmpty(g: Grid, edges: seq<CopyEdge>)
    ensures CopyFailures(g, edges) == [] <==> forall e :: e in edges ==> CopyHolds(g, e)
  {
    forall e | e in edges
      ensures CopyFailures(g, edges) == [] ==> CopyHolds(g, e)
    {
      CopyFailuresExact(g, edges, CopyViolation(e.left, e.right));
    }
    if CopyFailures(g, edges) != [] {
      CopyFailuresExact(g, edges, CopyFailures(g, edges)[0]);
    }
  }

  /** Soundness and completeness of `verify`: it lists a failure exactly when that violation is present. */
  lemma VerifyExact(p: Prover, f: VerifyFailure)
    ensures f in Verify(p) <==> Genuine(p.gates, p.grid, p.instance, f)
  {
    var gates, g, instance := p.gates, p.grid, p.instance;
    var scans := GateScans(gates, g, instance);
    FlattenMembers(scans, f);
    CopyFailuresExact(g, g.copies, f);
    forall gi | 0 <= gi < |scans| && f in scans[gi]
      ensures f.Constraint? && f.gateIndex == gi
    {
      GateFailuresTagged(gi, gates[gi], g, instance, g.rows, f);
    }
    if f.Constraint? && f.gateIndex < |gates| {
      GateScanExact(gates, g, instance, f.gateIndex, f);
    }
  }

  /** `verify` succeeds exactly when the assignment satisfies every gate and copy constraint. */
  lemma VerifyOkIffSatisfied(p: Prover)
    ensures Verify(p) == [] <==> Satisfied(p.gates, p.grid, p.instance)
  {
    if Verify(p) == [] {
      NoFailuresSatisfied(p);
    } else {
      FailureUnsatisfied(p);
    }
  }

  /** An empty report means every gate holds at every row and every copy holds. */
  lemma NoFailuresSatisfied(p: Prover)
    requires Verify(p) == []
    ensures Satisfied(p.gates, p.grid, p.instance)
  {
    var gates, g, instance := p.gates, p.grid, p.instance;
    forall gi, row | 0 <= gi < |gates| && 0 <= row < g.rows
      ensures GateHolds(gates[gi], g, instance, row)
    {
      forall k | 0 <= k < |gates[gi].polys| && Active(gates[gi], g, row)
        ensures PolyHolds(gates[gi], k, g, instance, row)
      {
        VerifyExact(p, Constraint(gi, gates[gi].name, k, "", row));
      }
    }
    forall e | e in g.copies
      ensures CopyHolds(g, e)
    {
      VerifyExact(p, CopyViolation(e.left, e.right));
    }
  }

  /** The first failure reported names a gate or a copy that does not hold. */
  lemma FailureUnsatisfied(p: Prover)
    requires Verify(p) != []
    ensures !Satisfied(p.gates, p.grid, p.instance)
  {
    var gates, g, instance := p.gates, p.grid, p.instance;
    var f := Verify(p)[0];
    VerifyExact(p, f);
    match f
    case Constraint(gi, _, k, _, row) =>
      assert !GateHolds(gates[gi], g, instance, row);
    case CopyViolation(l, r) =>
      assert !CopyHolds(g, CopyEdge(l, r));
  }

  /** Rows where a gate is inactive contribute no failures. */
  /**
   * A gate with one constraint that is active at the single row `r0`
   * reports that constraint at `r0` if it fails there, and nothing else.
   */
  lemma OneActiveRow(gi: nat, gate: Gate, g: Grid, instance: seq<seq<Fp>>, r0: nat)
    requires |gate.polys| == 1 && r0 < g.rows
    requires forall row :: 0 <= row < g.rows ==> (Active(gate, g, row) <==> row == r0)
    ensures GateFailures(gi, gate, g, instance, g.rows) ==
      if GateHolds(gate, g, instance, r0) then [] else [Constraint(gi, gate.name, 0, "", r0)]
  {
    var here := if GateHolds(gate, g, instance, r0) then [] else [Constraint(gi, gate.name, 0, "", r0)];
    assert GateFailures(gi, gate, g, instance, r0) == [] by {
      InactiveRowsQuiet(gi, gate, g, instance, 0, r0);
    }
    assert RowFailures(gi, gate, g, instance, r0) == here by {
      assert GateHolds(gate, g, instance, r0) <==> PolyHolds(gate, 0, g, instance, r0);
      assert PolyFailures(gi, gate, g, instance, r0, 1) == PolyFailures(gi, gate, g, instance, r0, 0) + here;
    }
    assert GateFailures(gi, gate, g, instance, r0 + 1) == here;
    InactiveRowsQuiet(gi, gate, g, instance, r0 + 1, g.rows);
  }

  lemma {:induction false} InactiveRowsQuiet(gi: nat, gate: Gate, g: Grid, instance: seq<seq<Fp>>, lo: nat, hi: nat)
    requires lo <= hi
    requires forall row :: lo <= row < hi ==> !Active(gate, g, row)
    ensures GateFailures(gi, gate, g, instance, hi) == GateFailures(gi, gate, g, instance, lo)
  {
    if lo < hi {
      InactiveRowsQuiet(gi, gate, g, instance, lo, hi - 1);
    }
  }

  // ---------------------------------------------------------------------
  // The assignment synthesis writes into.

  /**
   * The grid of a `MockProver` while the circuit is synthesised: fixed size
   * `rows`, advice cells, enabled selectors and the copy constraints recorded.
   */
  class MockProver {
    const rows: RowCount
    var advice: map<AbsCell, Fp>
    var enabled: set<SelectorCell>
    var copies: seq<CopyEdge>

    /** The grid of `2^k` rows with nothing assigned. */
    constructor (k: nat)
      ensures rows == Pow2(k)
      ensures advice == map[] && enabled == {} && copies == []
    {
      rows := Pow2(k);
      advice := map[];
      enabled := {};
      copies := [];
    }

    function Snapshot(): Grid
      reads this
    {
      Grid(rows, advice, enabled, copies)
    }

    /** Writes `value` into an advice cell; an absent value is a synthesis error. */
    method AssignAdvice(column: nat, row: nat, value: Option<Fp>) returns (r: Result<(), Error>)
      modifies this
      ensures value.None? ==> r == Failure(SynthesisError)
      ensures value.Some? && row >= rows ==> r == Failure(BoundsFailure)
      ensures r.Success? <==> value.Some? && row < rows
      ensures r.Success? ==> advice == old(advice)[AbsCell(column, row) := value.value]
      ensures r.Failure? ==> advice == old(advice)
      ensures enabled == old(enabled) && copies == old(copies)
    {
      var v := OkOr(value, SynthesisError);
      if v.Failure? {
        r := Failure(v.error);
      } else if row >= rows {
        r := Failure(BoundsFailure);
      } else {
        advice := advice[AbsCell(column, row) := v.value];
        r := Success(());
      }
    }

    /** Sets a selector to 1 at `row`. */
    method EnableSelector(selector: nat, row: nat) returns (r: Result<(), Error>)
      modifies this
      ensures r.Success? <==> row < rows
      ensures r.Failure? ==> r.error == BoundsFailure
      ensures enabled == if r.Success? then old(enabled) + {SelectorCell(selector, row)} else old(enabled)
      ensures advice == old(advice) && copies == old(copies)
    {
      if row >= rows {
        r := Failure(BoundsFailure);
      } else {
        enabled := enabled + {SelectorCell(selector, row)};
        r := Success(());
      }
    }

    /**
     * Records a copy constraint between two cells of the columns of the
     * permutation `columns`; a cell outside them is a synthesis error.
     */
    method Copy(columns: seq<nat>, left: AbsCell, right: AbsCell) returns (r: Result<(), Error>)
      modifies this
      ensures r.Success? <==> left.column in columns && right.column in columns && left.row < rows && right.row < rows
      ensures !(left.column in columns && right.column in columns) ==> r == Failure(SynthesisError)
      ensures r.Failure? && left.column in columns && right.column in columns ==> r.error == BoundsFailure
      ensures copies == if r.Success? then old(copies) + [CopyEdge(left, right)] else old(copies)
      ensures advice == old(advice) && enabled == old(enabled)
    {
      if left.column !in columns || right.column !in columns {
        r := Failure(SynthesisError);
      } else if left.row >= rows || right.row >= rows {
        r := Failure(BoundsFailure);
      } else {
        copies := copies + [CopyEdge(left, right)];
        r := Success(());
      }
    }
  }
}
