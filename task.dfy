/**
 * A recording stand-in for the native solver task: a task of fixed size that
 * remembers, slot by slot, what the translation layer put into it. `None`
 * marks a slot still in the solver's default state.
 */
module NativeTask {

  import opened Wrappers
  import opened Bounds
  import opened Coefficients

  /** What `putvarbound` / `putconbound` receive: a bound key and the two limit values. */
  datatype Bound = Bound(key: BoundKey, lower: real, upper: real)

  /** MOSEK variable types. */
  datatype VariableType = TypeInt | TypeCont

  /** MOSEK objective senses. */
  datatype Sense = Minimize | Maximize

  class Task {
    const numCon: nat
    const numVar: nat

    /** Per column: the bound and the type put for it. */
    const varBounds: array<Option<Bound>>
    const varTypes: array<Option<VariableType>>

    /** Per row: the bound, the linear row and the quadratic block put for it. */
    const conBounds: array<Option<Bound>>
    const rowLinear: array<Option<SparseVector>>
    const rowQuadratic: array<Option<SparseTriplets>>

    /** The objective's linear part, quadratic part and sense. */
    var objLinear: Option<SparseVector>
    var objQuadratic: Option<SparseTriplets>
    var objSense: Option<Sense>

    ghost predicate Valid()
      reads this
    {
      && varBounds.Length == numVar
      && varTypes.Length == numVar
      && conBounds.Length == numCon
      && rowLinear.Length == numCon
      && rowQuadratic.Length == numCon
      && varBounds != conBounds
    }

    /** `new Task(env, numcon, numvar)` followed by `appendcons` and `appendvars`: nothing put yet. */
    constructor (numberOfConstraints: nat, numberOfVariables: nat)
      ensures Valid()
      ensures numCon == numberOfConstraints && numVar == numberOfVariables
      ensures fresh(varBounds) && fresh(varTypes) && fresh(conBounds) && fresh(rowLinear) && fresh(rowQuadratic)
      ensures forall j :: 0 <= j < numVar ==> varBounds[j] == None && varTypes[j] == None
      ensures forall i :: 0 <= i < numCon ==> conBounds[i] == None && rowLinear[i] == None && rowQuadratic[i] == None
      ensures objLinear == None && objQuadratic == None && objSense == None
    {
      numCon := numberOfConstraints;
      numVar := numberOfVariables;
      varBounds := new Option<Bound>[numberOfVariables](_ => None);
      varTypes := new Option<VariableType>[numberOfVariables](_ => None);
      conBounds := new Option<Bound>[numberOfConstraints](_ => None);
      rowLinear := new Option<SparseVector>[numberOfConstraints](_ => None);
      rowQuadratic := new Option<SparseTriplets>[numberOfConstraints](_ => None);
      objLinear, objQuadratic, objSense := None, None, None;
    }

    method PutVarBound(j: nat, key: BoundKey, lower: real, upper: real)
      requires Valid() && j < numVar
      modifies varBounds
      ensures varBounds[j] == Some(Bound(key, lower, upper))
      ensures forall k :: 0 <= k < numVar && k != j ==> varBounds[k] == old(varBounds[k])
    {
      varBounds[j] := Some(Bound(key, lower, upper));
    }

    method PutVarType(j: nat, t: VariableType)
      requires Valid() && j < numVar
      modifies varTypes
      ensures varTypes[j] == Some(t)
      ensures forall k :: 0 <= k < numVar && k != j ==> varTypes[k] == old(varTypes[k])
    {
      varTypes[j] := Some(t);
    }

    method PutConBound(i: nat, key: BoundKey, lower: real, upper: real)
      requires Valid() && i < numCon
      modifies conBounds
      ensures conBounds[i] == Some(Bound(key, lower, upper))
      ensures forall k :: 0 <= k < numCon && k != i ==> conBounds[k] == old(conBounds[k])
    {
      conBounds[i] := Some(Bound(key, lower, upper));
    }

    method PutArow(i: nat, row: SparseVector)
      requires Valid() && i < numCon
      modifies rowLinear
      ensures rowLinear[i] == Some(row)
      ensures forall k :: 0 <= k < numCon && k != i ==> rowLinear[k] == old(rowLinear[k])
    {
      rowLinear[i] := Some(row);
    }

    method PutQconk(i: nat, block: SparseTriplets)
      requires Valid() && i < numCon
      modifies rowQuadratic
      ensures rowQuadratic[i] == Some(block)
      ensures forall k :: 0 <= k < numCon && k != i ==> rowQuadratic[k] == old(rowQuadratic[k])
    {
      rowQuadratic[i] := Some(block);
    }

    method PutClist(c: SparseVector)
      modifies this`objLinear
      ensures objLinear == Some(c)
    {
      objLinear := Some(c);
    }

    method PutQobj(block: SparseTriplets)
      modifies this`objQuadratic
      ensures objQuadratic == Some(block)
    {
      objQuadratic := Some(block);
    }

    method PutObjSense(sense: Sense)
      modifies this`objSense
      ensures objSense == Some(sense)
    {
      objSense := Some(sense);
    }
  }

}
