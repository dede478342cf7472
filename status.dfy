/**
 * The solution type requested from the solver and the mapping of the solver's
 * solution status to a model-level state.
 */
module Status {

  /** MOSEK solution types: basic, interior-point, integer. */
  datatype SolutionType = Bas | Itr | Itg

  /**
   * MOSEK solution statuses. The six the translation layer names are listed;
   * every other member of the native enumeration is an `Other` value.
   */
  datatype Solsta =
    | Optimal
    | NearOptimal
    | DualInfeasCer
    | PrimInfeasCer
    | NearDualInfeasCer
    | NearPrimInfeasCer
    | Other(code: nat)

  /** Model-level outcome of a solve. */
  datatype State = OPTIMAL | INFEASIBLE | FAILED

  /** Integer if any variable is integer, else interior-point if anything is quadratic, else basic. */
  function SelectSolutionType(anyVariableInteger: bool, anyExpressionQuadratic: bool): (t: SolutionType)
    ensures t == Itg <==> anyVariableInteger
    ensures t == Itr <==> !anyVariableInteger && anyExpressionQuadratic
    ensures t == Bas <==> !anyVariableInteger && !anyExpressionQuadratic
  {
    if anyVariableInteger then Itg else if anyExpressionQuadratic then Itr else Bas
  }

  /** An infeasibility certificate, primal or dual, exact or near. */
  predicate IsInfeasibilityCertificate(s: Solsta)
  {
    s == DualInfeasCer || s == PrimInfeasCer || s == NearDualInfeasCer || s == NearPrimInfeasCer
  }

  /** The status switch: exhaustive, with every unlisted status falling through to FAILED. */
  function ClassifyStatus(s: Solsta): (st: State)
    ensures st == OPTIMAL <==> s == Optimal || s == NearOptimal
    ensures st == INFEASIBLE <==> IsInfeasibilityCertificate(s)
    ensures st == FAILED <==> s.Other?
  {
    match s
    case Optimal | NearOptimal => OPTIMAL
    case DualInfeasCer | PrimInfeasCer | NearDualInfeasCer | NearPrimInfeasCer => INFEASIBLE
    case Other(_) => FAILED
  }

}
