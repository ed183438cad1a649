/**
 * The layouter that places the circuit's regions on the grid, and the
 * region operations a chip uses inside a region. Cells are addressed
 * relative to the region that assigned them and resolved to absolute rows
 * through the table of region starts.
 *
 * Placement rule (an assumption: the layouter's own code is not part of
 * this model): regions are stacked in the order they are assigned, each
 * taking the next free rows; a region's height is its largest offset plus
 * one, which the chip states when it opens the region.
 */
module Circuit {
  import opened Wrappers
  import opened Field
  import opened Plonk
  import opened ConstraintSystems
  import opened Dev

  /** A cell handed out by a region: its region, offset inside it, and advice column. */
  datatype Cell = Cell(regionIndex: nat, rowOffset: nat, column: nat)

  /** A copy between these two cells would be accepted by the prover. */
  predicate CopyAllowed(perm: Permutation, left: AbsCell, right: AbsCell) {
    left.column in perm.columns && right.column in perm.columns
  }

  class SingleChipLayouter {
    const cs: MockProver
    /** The start row of each region assigned so far, by region index. */
    var regions: seq<nat>
    /** The first row no region has claimed. */
    var cursor: nat

    /**
     * Regions start at increasing rows below the cursor, and every cell
     * written and selector enabled lies in a row some region has claimed:
     * a new region never shares a row with an earlier one.
     */
    ghost predicate Valid()
      reads this, cs
    {
      && (forall i, j :: 0 <= i < j < |regions| ==> regions[i] < regions[j])
      && (forall i :: 0 <= i < |regions| ==> regions[i] < cursor)
      && (forall c :: c in cs.advice ==> c.row < cursor)
      && (forall s :: s in cs.enabled ==> s.row < cursor)
      && (forall e :: e in cs.copies ==> e.left.row < cursor && e.right.row < cursor)
    }

    /** `SingleChipLayouter::new(cs)` over an assignment nothing was written to. */
    constructor (cs: MockProver)
      requires cs.advice == map[] && cs.enabled == {} && cs.copies == []
      ensures Valid()
      ensures this.cs == cs && regions == [] && cursor == 0
    {
      this.cs := cs;
      regions := [];
      cursor := 0;
    }

    /** The absolute position of a cell. */
    function Resolve(c: Cell): AbsCell
      reads this
      requires c.regionIndex < |regions|
    {
      AbsCell(c.column, regions[c.regionIndex] + c.rowOffset)
    }

    /** Opens the next region, `height` rows tall, at the first free row. */
    method BeginRegion(height: nat) returns (index: nat)
      requires Valid() && height > 0
      modifies this
      ensures Valid()
      ensures index == |old(regions)|
      ensures regions == old(regions) + [old(cursor)] && cursor == old(cursor) + height
    {
      index := |regions|;
      regions := regions + [cursor];
      cursor := cursor + height;
    }

    /** `region.assign_advice(column, offset, value)` in the open region. */
    method AssignAdvice(column: nat, offset: nat, value: Option<Fp>) returns (r: Result<Cell, Error>)
      requires Valid() && |regions| > 0 && regions[|regions| - 1] + offset < cursor
      modifies cs
      ensures Valid()
      ensures var row := regions[|regions| - 1] + offset;
        && (r.Success? <==> value.Some? && row < cs.rows)
        && (value.None? ==> r == Failure(SynthesisError))
        && (value.Some? && r.Failure? ==> r.error == BoundsFailure)
        && (r.Success? ==> r.value == Cell(|regions| - 1, offset, column))
        && cs.advice == (if r.Success? then old(cs.advice)[AbsCell(column, row) := value.value] else old(cs.advice))
      ensures cs.enabled == old(cs.enabled) && cs.copies == old(cs.copies)
    {
      var row := regions[|regions| - 1] + offset;
      var res := cs.AssignAdvice(column, row, value);
      if res.Failure? {
        return Failure(res.error);
      }
      r := Success(Cell(|regions| - 1, offset, column));
    }

    /** `selector.enable(region, offset)` in the open region. */
    method EnableSelector(selector: nat, offset: nat) returns (r: Result<(), Error>)
      requires Valid() && |regions| > 0 && regions[|regions| - 1] + offset < cursor
      modifies cs
      ensures Valid()
      ensures var row := regions[|regions| - 1] + offset;
        && (r.Success? <==> row < cs.rows)
        && (r.Failure? ==> r.error == BoundsFailure)
        && cs.enabled == (if r.Success? then old(cs.enabled) + {SelectorCell(selector, row)} else old(cs.enabled))
      ensures cs.advice == old(cs.advice) && cs.copies == old(cs.copies)
    {
      r := cs.EnableSelector(selector, regions[|regions| - 1] + offset);
    }

    /** `region.constrain_equal(perm, left, right)`: records a copy between the resolved cells. */
    method ConstrainEqual(perm: Permutation, left: Cell, right: Cell) returns (r: Result<(), Error>)
      requires Valid() && left.regionIndex < |regions| && right.regionIndex < |regions|
      requires Resolve(left).row < cursor && Resolve(right).row < cursor
      modifies cs
      ensures Valid()
      ensures r.Success? <==> CopyAllowed(perm, Resolve(left), Resolve(right)) && Resolve(left).row < cs.rows && Resolve(right).row < cs.rows
      ensures !CopyAllowed(perm, Resolve(left), Resolve(right)) ==> r == Failure(SynthesisError)
      ensures r.Failure? && CopyAllowed(perm, Resolve(left), Resolve(right)) ==> r.error == BoundsFailure
      ensures cs.copies == if r.Success? then old(cs.copies) + [CopyEdge(Resolve(left), Resolve(right))] else old(cs.copies)
      ensures cs.advice == old(cs.advice) && cs.enabled == old(cs.enabled)
    {
      r := cs.Copy(perm.columns, Resolve(left), Resolve(right));
    }
  }
}
