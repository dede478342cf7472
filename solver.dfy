/**
 * The MOSEK integration of the host optimisation model: loading a model into a
 * task (columns, rows, objective, solution type) and reading the outcome of a
 * solve back as a model-level result.
 */
module Mosek {

  import opened Wrappers
  import opened Bounds
  import opened Coefficients
  import opened Status
  import opened NativeTask

  /**
   * A free variable as the host model reports it: its limits (either may be
   * absent), the unadjusted limit values the host hands to the solver, and
   * whether it is integer.
   */
  datatype Variable = Variable(
    lower: Option<real>,
    upper: Option<real>,
    unadjustedLower: real,
    unadjustedUpper: real,
    isInteger: bool)

  /**
   * A constraint or objective expression as the host model reports it: its
   * linear and quadratic key sets with adjusted factors, its limits, and the
   * adjusted limit values the host hands to the solver.
   */
  datatype Expression = Expression(
    linear: seq<LinearTerm>,
    quadratic: seq<QuadraticTerm>,
    lower: Option<real>,
    upper: Option<real>,
    adjustedLower: real,
    adjustedUpper: real)

  /** What the loader reads from the host model. */
  datatype HostModel = HostModel(
    freeVariables: seq<Variable>,
    constraints: seq<Expression>,
    objective: Expression,
    isMinimisation: bool,
    anyVariableInteger: bool,
    anyExpressionQuadratic: bool)

  /** The result of a solve; a `None` value stands for NaN. */
  datatype Result = Result(state: State, value: Option<real>, solution: seq<real>)

  /** The bound a column is registered with: the key from the limits, the unadjusted limit values. */
  function VariableBound(v: Variable): Bound
  {
    Bound(GetBoundKey(v.lower, v.upper), v.unadjustedLower, v.unadjustedUpper)
  }

  /** The column type: integer iff the variable is integer. */
  function VariableTypeOf(v: Variable): VariableType
  {
    if v.isInteger then TypeInt else TypeCont
  }

  /** The bound a row is registered with: the key from the limits, the adjusted limit values. */
  function ConstraintBound(e: Expression): Bound
  {
    Bound(GetBoundKey(e.lower, e.upper), e.adjustedLower, e.adjustedUpper)
  }

  /** What a fresh task records for a linear key set: nothing when the set is empty. */
  function LinearRecord(keys: seq<LinearTerm>): Option<SparseVector>
  {
    if |keys| > 0 then Some(LinearVector(keys)) else None
  }

  /** What a fresh task records for a quadratic key set: nothing when the set is empty. */
  function QuadraticRecord(keys: seq<QuadraticTerm>): Option<SparseTriplets>
  {
    if |keys| > 0 then Some(QuadraticTriplets(keys)) else None
  }

  /** The objective sense: minimise iff the model is a minimisation. */
  function SenseOf(isMinimisation: bool): Sense
  {
    if isMinimisation then Minimize else Maximize
  }

  class SolverMosek {
    const task: Task
    var solutionType: SolutionType

    /** A solver around a task; the solution type starts as basic. */
    constructor (task: Task)
      ensures this.task == task && solutionType == Bas
    {
      this.task := task;
      solutionType := Bas;
    }

    /** Registers column `index`: its bound key, its unadjusted limits and its type. */
    method PutVariable(index: nat, variable: Variable)
      requires task.Valid() && index < task.numVar
      modifies task.varBounds, task.varTypes
      ensures task.varBounds[index] == Some(VariableBound(variable))
      ensures task.varTypes[index] == Some(VariableTypeOf(variable))
      ensures forall j :: 0 <= j < task.numVar && j != index ==>
        task.varBounds[j] == old(task.varBounds[j]) && task.varTypes[j] == old(task.varTypes[j])
    {
      var boundType := GetBoundKey(variable.lower, variable.upper);
      var lowerBound := variable.unadjustedLower;
      var upperBound := variable.unadjustedUpper;
      var variableType := VariableTypeOf(variable);
      task.PutVarBound(index, boundType, lowerBound, upperBound);
      task.PutVarType(index, variableType);
    }

    /**
     * Registers row `index`: its linear row and its quadratic block (each only
     * when its key set is non-empty) and its bound key with adjusted limits.
     */
    method PutConstraint(index: nat, constraint: Expression)
      requires task.Valid() && index < task.numCon
      modifies task.rowLinear, task.rowQuadratic, task.conBounds
      ensures task.rowLinear[index]
        == if |constraint.linear| > 0 then Some(LinearVector(constraint.linear)) else old(task.rowLinear[index])
      ensures task.rowQuadratic[index]
        == if |constraint.quadratic| > 0 then Some(QuadraticTriplets(constraint.quadratic)) else old(task.rowQuadratic[index])
      ensures task.conBounds[index] == Some(ConstraintBound(constraint))
      ensures forall i :: 0 <= i < task.numCon && i != index ==>
        && task.rowLinear[i] == old(task.rowLinear[i])
        && task.rowQuadratic[i] == old(task.rowQuadratic[i])
        && task.conBounds[i] == old(task.conBounds[i])
    {
      if |constraint.linear| > 0 {
        var row := ExtractLinear(constraint.linear);
        task.PutArow(index, row);
      }
      if |constraint.quadratic| > 0 {
        var block := ExtractQuadratic(constraint.quadratic);
        task.PutQconk(index, block);
      }
      var boundType := GetBoundKey(constraint.lower, constraint.upper);
      task.PutConBound(index, boundType, constraint.adjustedLower, constraint.adjustedUpper);
    }

    /**
     * Registers the objective: its linear and quadratic parts (each only when
     * its key set is non-empty) and the sense, minimise iff the model minimises.
     */
    method PutObjective(objective: Expression, model: HostModel)
      modifies task`objLinear, task`objQuadratic, task`objSense
      ensures task.objLinear
        == if |objective.linear| > 0 then Some(LinearVector(objective.linear)) else old(task.objLinear)
      ensures task.objQuadratic
        == if |objective.quadratic| > 0 then Some(QuadraticTriplets(objective.quadratic)) else old(task.objQuadratic)
      ensures task.objSense == Some(SenseOf(model.isMinimisation))
    {
      if |objective.linear| > 0 {
        var c := ExtractLinear(objective.linear);
        task.PutClist(c);
      }
      if |objective.quadratic| > 0 {
        var block := ExtractQuadratic(objective.quadratic);
        task.PutQobj(block);
      }
      task.PutObjSense(SenseOf(model.isMinimisation));
    }

    /** Chooses the solution type that the status and the solution are later read with. */
    method SetSolutionType(model: HostModel)
      modifies this`solutionType
      ensures solutionType == SelectSolutionType(model.anyVariableInteger, model.anyExpressionQuadratic)
    {
      solutionType := SelectSolutionType(model.anyVariableInteger, model.anyExpressionQuadratic);
    }

    /**
     * Reads the outcome of a solve. The native side is given as inputs: whether
     * `optimize` returned ok, and the status, primal objective and primal vector
     * it reports for each solution type. Nothing is read unless `optimize` was
     * ok, and everything read is read with the chosen solution type.
     */
    method Solve(optimizeOk: bool, solsta: SolutionType -> Solsta, primalObj: SolutionType -> real,
                 xx: SolutionType -> seq<real>) returns (r: Result)
      requires |xx(solutionType)| == task.numVar
      ensures |r.solution| == task.numVar
      ensures !optimizeOk ==> r.state == FAILED && r.value == None
      ensures !optimizeOk ==> forall i :: 0 <= i < |r.solution| ==> r.solution[i] == 0.0
      ensures optimizeOk ==> r.state == ClassifyStatus(solsta(solutionType)) && r.solution == xx(solutionType)
      ensures r.value == if optimizeOk && r.state == OPTIMAL then Some(primalObj(solutionType)) else None
    {
      var numberOfVariables := task.numVar;
      var state := FAILED;
      var value: Option<real> := None;
      var solution := new real[numberOfVariables](_ => 0.0);
      if optimizeOk {
        var status := solsta(solutionType);
        var primal := xx(solutionType);
        forall i | 0 <= i < numberOfVariables {
          solution[i] := primal[i];
        }
        assert solution[..] == primal;
        match status
        case Optimal | NearOptimal =>
          state := OPTIMAL;
          value := Some(primalObj(solutionType));
        case DualInfeasCer | PrimInfeasCer | NearDualInfeasCer | NearPrimInfeasCer =>
          state := INFEASIBLE;
        case Other(_) =>
          state := FAILED;
      }
      r := Result(state, value, solution[..]);
    }
  }

  /** A task sized for the model, with nothing put yet, inside a fresh solver. */
  method MakeSolver(numberOfConstraints: nat, numberOfVariables: nat) returns (solver: SolverMosek)
    ensures fresh(solver) && fresh(solver.task)
    ensures fresh(solver.task.varBounds) && fresh(solver.task.varTypes) && fresh(solver.task.conBounds)
    ensures fresh(solver.task.rowLinear) && fresh(solver.task.rowQuadratic)
    ensures solver.task.Valid()
    ensures solver.task.numCon == numberOfConstraints && solver.task.numVar == numberOfVariables
    ensures solver.solutionType == Bas
    ensures forall j :: 0 <= j < numberOfVariables ==>
      solver.task.varBounds[j] == None && solver.task.varTypes[j] == None
    ensures forall i :: 0 <= i < numberOfConstraints ==>
      solver.task.conBounds[i] == None && solver.task.rowLinear[i] == None && solver.task.rowQuadratic[i] == None
    ensures solver.task.objLinear == None && solver.task.objQuadratic == None && solver.task.objSense == None
  {
    var task := new Task(numberOfConstraints, numberOfVariables);
    solver := new SolverMosek(task);
  }

  /**
   * Loads a host model: every free variable into its column, every constraint
   * (compensated for the fixed variables) into its row, then the compensated
   * objective and the solution type. `compensate` is the host's compensation
   * for its fixed variables.
   */
  method Build(model: HostModel, compensate: Expression -> Expression) returns (solver: SolverMosek)
    ensures fresh(solver) && fresh(solver.task)
    ensures solver.task.Valid()
    ensures solver.task.numVar == |model.freeVariables| && solver.task.numCon == |model.constraints|
    ensures forall v :: 0 <= v < |model.freeVariables| ==>
      && solver.task.varBounds[v] == Some(VariableBound(model.freeVariables[v]))
      && solver.task.varTypes[v] == Some(VariableTypeOf(model.freeVariables[v]))
    ensures forall c :: 0 <= c < |model.constraints| ==>
      && solver.task.conBounds[c] == Some(ConstraintBound(compensate(model.constraints[c])))
      && solver.task.rowLinear[c] == LinearRecord(compensate(model.constraints[c]).linear)
      && solver.task.rowQuadratic[c] == QuadraticRecord(compensate(model.constraints[c]).quadratic)
    ensures solver.task.objLinear == LinearRecord(compensate(model.objective).linear)
    ensures solver.task.objQuadratic == QuadraticRecord(compensate(model.objective).quadratic)
    ensures solver.task.objSense == Some(SenseOf(model.isMinimisation))
    ensures solver.solutionType == SelectSolutionType(model.anyVariableInteger, model.anyExpressionQuadratic)
  {
    var freeVariables := model.freeVariables;
    var constraints := model.constraints;
    var numberOfVariables := |freeVariables|;
    var numberOfConstraints := |constraints|;

    solver := MakeSolver(numberOfConstraints, numberOfVariables);
    var task := solver.task;

    for v := 0 to numberOfVariables
      invariant forall j :: 0 <= j < v ==>
        task.varBounds[j] == Some(VariableBound(freeVariables[j])) && task.varTypes[j] == Some(VariableTypeOf(freeVariables[j]))
      invariant forall i :: 0 <= i < numberOfConstraints ==>
        task.conBounds[i] == None && task.rowLinear[i] == None && task.rowQuadratic[i] == None
      invariant task.objLinear == None && task.objQuadratic == None && task.objSense == None
    {
      solver.PutVariable(v, freeVariables[v]);
    }

    for c := 0 to numberOfConstraints
      invariant forall j :: 0 <= j < numberOfVariables ==>
        task.varBounds[j] == Some(VariableBound(freeVariables[j])) && task.varTypes[j] == Some(VariableTypeOf(freeVariables[j]))
      invariant forall i :: 0 <= i < c ==>
        && task.conBounds[i] == Some(ConstraintBound(compensate(constraints[i])))
        && task.rowLinear[i] == LinearRecord(compensate(constraints[i]).linear)
        && task.rowQuadratic[i] == QuadraticRecord(compensate(constraints[i]).quadratic)
      invariant forall i :: c <= i < numberOfConstraints ==>
        task.conBounds[i] == None && task.rowLinear[i] == None && task.rowQuadratic[i] == None
      invariant task.objLinear == None && task.objQuadratic == None && task.objSense == None
    {
      var constraint := compensate(constraints[c]);
      solver.PutConstraint(c, constraint);
    }

    var objective := compensate(model.objective);
    solver.PutObjective(objective, model);

    solver.SetSolutionType(model);
  }

}
