/**
 * The configuration-time constraint system a circuit registers its columns,
 * selectors, gates and permutation arguments with. Each registration hands
 * out the next index of its kind.
 */
module ConstraintSystems {
  import opened Plonk

  /** A permutation argument over the advice columns it names. */
  datatype Permutation = Permutation(index: nat, columns: seq<nat>)

  class ConstraintSystem {
    var numAdvice: nat
    var numInstance: nat
    var numSelectors: nat
    var gates: seq<Gate>
    var permutations: seq<seq<nat>>

    constructor ()
      ensures numAdvice == 0 && numInstance == 0 && numSelectors == 0
      ensures gates == [] && permutations == []
    {
      numAdvice, numInstance, numSelectors := 0, 0, 0;
      gates, permutations := [], [];
    }

    /** `advice_column()`. */
    method AdviceColumn() returns (column: nat)
      modifies this
      ensures column == old(numAdvice) && numAdvice == old(numAdvice) + 1
      ensures numInstance == old(numInstance) && numSelectors == old(numSelectors)
      ensures gates == old(gates) && permutations == old(permutations)
    {
      column := numAdvice;
      numAdvice := numAdvice + 1;
    }

    /** `instance_column()`. */
    method InstanceColumn() returns (column: nat)
      modifies this
      ensures column == old(numInstance) && numInstance == old(numInstance) + 1
      ensures numAdvice == old(numAdvice) && numSelectors == old(numSelectors)
      ensures gates == old(gates) && permutations == old(permutations)
    {
      column := numInstance;
      numInstance := numInstance + 1;
    }

    /** `selector()`. */
    method NewSelector() returns (selector: nat)
      modifies this
      ensures selector == old(numSelectors) && numSelectors == old(numSelectors) + 1
      ensures numAdvice == old(numAdvice) && numInstance == old(numInstance)
      ensures gates == old(gates) && permutations == old(permutations)
    {
      selector := numSelectors;
      numSelectors := numSelectors + 1;
    }

    /** `create_gate(name, builder)`, with the polynomials the builder returns. */
    method CreateGate(name: string, polys: seq<Expression>)
      modifies this
      ensures gates == old(gates) + [Gate(name, polys)]
      ensures numAdvice == old(numAdvice) && numInstance == old(numInstance) && numSelectors == old(numSelectors)
      ensures permutations == old(permutations)
    {
      gates := gates + [Gate(name, polys)];
    }

    /** `Permutation::new(meta, columns)`. */
    method NewPermutation(columns: seq<nat>) returns (perm: Permutation)
      modifies this
      ensures perm == Permutation(|old(permutations)|, columns)
      ensures permutations == old(permutations) + [columns]
      ensures numAdvice == old(numAdvice) && numInstance == old(numInstance) && numSelectors == old(numSelectors)
      ensures gates == old(gates)
    {
      perm := Permutation(|permutations|, columns);
      permutations := permutations + [columns];
    }
  }
}
