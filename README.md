# ojAlgo–MOSEK translation layer, modelled in Dafny

This project models the translation layer of `SolverMosek`, the ojAlgo
integration with the MOSEK solver. The layer loads a host
`ExpressionsBasedModel` into a MOSEK task of fixed size:

- each free variable becomes a column with a bound key, its unadjusted limits and a type;
- each constraint, after the host has compensated it for its fixed variables,
  becomes a row with a linear row, a quadratic block and a bound key with adjusted limits;
- the objective gets its linear part, its quadratic part and a sense.

It then picks the solution type to read back (integer, interior-point or
basic). After a solve it maps MOSEK's solution status to an ojAlgo state
(OPTIMAL, INFEASIBLE or FAILED).

Files, one module each:

- `wrappers.dfy` (`Wrappers`): `Option`, used for limits that may be absent and for a NaN objective value.
- `bounds.dfy` (`Bounds`): the five bound keys and `getBoundKey`.
- `coefficients.dfy` (`Coefficients`): extraction of linear key sets into
  `(subj, vals)` arrays and of quadratic key sets into lower-triangular
  `(subi, subj, vals)` triplets with a doubled diagonal. It holds the
  specification functions, the array-filling loops proved against them, and
  the lemmas that the emitted arrays evaluate to the same linear and
  quadratic forms as the host's key sets.
- `status.dfy` (`Status`): solution types, solution statuses, the
  solution-type choice and the status switch.
- `task.dfy` (`NativeTask`): `Task`, a recording class standing in for
  `mosek.Task`. Each column and row slot holds what was put into it, and
  `None` marks a slot still at the solver's default.
- `solver.dfy` (`Mosek`): the host model as values, the `SolverMosek`
  class (`putVariable`, `putConstraint`, `putObjective`,
  `setSolutionType`, `solve`), `makeSolver` and `Integration.build`.

Modelling conventions:

- A key set is the sequence of its keys in iteration order. Each key is
  paired with the adjusted factor the host expression reports for it. A
  negative index is the host's mark for a coefficient of a fixed variable.
- Coefficients and limits are `real`. A limit the host may leave out is an
  `Option<real>`. Limit equality in `getBoundKey` is exact. The source
  compares with `BigDecimal.compareTo`, which ignores scale, and real
  equality does the same.
- The quadratic form of the emitted triplets is `½·xᵀQx` of the symmetric
  matrix the solver builds from the lower triangle. Each triplet is expanded
  into its mirrored pair.
- Repeated positions are read additively. `Dot` sums the emitted linear
  entries and `HalfQuadraticForm` sums the emitted triplets. An entry given
  twice at the same position therefore counts twice. This reading covers
  both linear calls (`putarow`, `putclist`) and both quadratic calls
  (`putqconk`, `putqobj`).
- Repeated positions do occur. Every placeholder sits at column 0 or at
  (0, 0), so two placeholders collide with each other. A placeholder also
  collides with a live key at that position.
- `CanonicalPositionsDistinct` shows that repeats are avoided for one kind of
  key set: every key live, no two keys at the same position, and no mirrored
  pair (r, c) and (c, r). For such a key set, no triangle position is given
  twice, so summing the triplets and assigning them into a matrix describe
  the same Q.
- The native side of `solve` is given as inputs: whether `optimize`
  returned ok, and, for each solution type, the status, the primal objective
  and the primal vector MOSEK reports.

## Model

| member | source | states |
|---|---|---|
| Bounds.GetBoundKey | src/main/java/org/ojalgo/optimisation/solver/mosek/SolverMosek.java:253-272 | fx iff both limits are present and equal; ra iff both are present and unequal; lo iff only the lower one is; up iff only the upper one is; fr iff neither is |
| Bounds.BoundKeyKeepsSides | src/main/java/org/ojalgo/optimisation/solver/mosek/SolverMosek.java:253-272 | the key makes the solver read the lower limit iff it is present, and the upper limit iff it is present |
| Coefficients.LinearVector | src/main/java/org/ojalgo/optimisation/solver/mosek/SolverMosek.java:276-295 | one slot per key in key order; a live key gives (index, factor); a fixed-away key gives the placeholder (0, 0.0) |
| Coefficients.ExtractLinear | src/main/java/org/ojalgo/optimisation/solver/mosek/SolverMosek.java:280-294 | the loop that fills the column and value arrays produces exactly LinearVector of the key set |
| Coefficients.LinearFormPreserved | src/main/java/org/ojalgo/optimisation/solver/mosek/SolverMosek.java:283-295 | at every point, the emitted linear arrays evaluate to the sum of factor·x[index] over the live keys |
| Coefficients.PlaceholdersCarryNoMass | src/main/java/org/ojalgo/optimisation/solver/mosek/SolverMosek.java:289-292 | the emitted values sum to the factors of the live keys: placeholders add nothing and drop nothing |
| Coefficients.CanonicalTerm | src/main/java/org/ojalgo/optimisation/solver/mosek/SolverMosek.java:310-324 | the per-key branch: a live diagonal key becomes (r, r, 2·v), a live off-diagonal key becomes (max(r, c), min(r, c), v), and any other key becomes (0, 0, 0.0); its own contract states that the result lies in the lower triangle, and CanonicalTermLowerTriangle states the mapping |
| Coefficients.CanonicalTermLowerTriangle | src/main/java/org/ojalgo/optimisation/solver/mosek/SolverMosek.java:310-324 | a live key is stored at its own position or its mirror, with row ≥ column, and its value is doubled exactly on the diagonal; any other key becomes (0, 0, 0.0) |
| Coefficients.QuadraticTriplets | src/main/java/org/ojalgo/optimisation/solver/mosek/SolverMosek.java:302-326 | exactly one triplet per key, so the three arrays have the key set's length; slot i is the canonical form of key i |
| Coefficients.QuadraticTripletsShape | src/main/java/org/ojalgo/optimisation/solver/mosek/SolverMosek.java:302-326 | every emitted triplet has row ≥ column ≥ 0; a key with a negative row or column gives (0, 0, 0.0) |
| Coefficients.CanonicalPositionsDiffer | src/main/java/org/ojalgo/optimisation/solver/mosek/SolverMosek.java:311-319 | two live keys at different positions that are not each other's mirror land on different triangle positions |
| Coefficients.CanonicalPositionsDistinct | src/main/java/org/ojalgo/optimisation/solver/mosek/SolverMosek.java:307-326 | for a live key set with no mirrored pair, the emitted triplets have pairwise distinct positions |
| Coefficients.QuadraticFormPreserved | src/main/java/org/ojalgo/optimisation/solver/mosek/SolverMosek.java:307-326 | at every point, ½·xᵀQx of the emitted lower triangle equals the sum of factor·x[row]·x[column] over the live keys |
| Coefficients.ExtractQuadratic | src/main/java/org/ojalgo/optimisation/solver/mosek/SolverMosek.java:302-326 | the loop that fills the row, column and value arrays produces exactly QuadraticTriplets of the key set |
| Status.SelectSolutionType | src/main/java/org/ojalgo/optimisation/solver/mosek/SolverMosek.java:407-409 | itg iff some variable is integer; itr iff none is and some expression is quadratic; bas iff neither holds |
| Status.ClassifyStatus | src/main/java/org/ojalgo/optimisation/solver/mosek/SolverMosek.java:220-235 | optimal and near_optimal give OPTIMAL; the four infeasibility certificates give INFEASIBLE; every other status gives FAILED |
| NativeTask.Task.constructor | src/main/java/org/ojalgo/optimisation/solver/mosek/SolverMosek.java:138-141 | a task of numcon rows and numvar columns with nothing put into any slot |
| NativeTask.Task.PutVarBound | src/main/java/org/ojalgo/optimisation/solver/mosek/SolverMosek.java:403 | records the bound of one column and leaves every other column alone |
| NativeTask.Task.PutVarType | src/main/java/org/ojalgo/optimisation/solver/mosek/SolverMosek.java:404 | records the type of one column and leaves every other column alone |
| NativeTask.Task.PutConBound | src/main/java/org/ojalgo/optimisation/solver/mosek/SolverMosek.java:334 | records the bound of one row and leaves every other row alone |
| NativeTask.Task.PutArow | src/main/java/org/ojalgo/optimisation/solver/mosek/SolverMosek.java:295 | records the linear row of one row and leaves every other row alone |
| NativeTask.Task.PutQconk | src/main/java/org/ojalgo/optimisation/solver/mosek/SolverMosek.java:327 | records the quadratic block of one row and leaves every other row alone |
| NativeTask.Task.PutClist | src/main/java/org/ojalgo/optimisation/solver/mosek/SolverMosek.java:358 | records the objective's linear part |
| NativeTask.Task.PutQobj | src/main/java/org/ojalgo/optimisation/solver/mosek/SolverMosek.java:390 | records the objective's quadratic part |
| NativeTask.Task.PutObjSense | src/main/java/org/ojalgo/optimisation/solver/mosek/SolverMosek.java:393 | records the objective sense |
| Mosek.SolverMosek.constructor | src/main/java/org/ojalgo/optimisation/solver/mosek/SolverMosek.java:174-184 | the solver wraps the given task, and its solution type starts as bas |
| Mosek.SolverMosek.PutVariable | src/main/java/org/ojalgo/optimisation/solver/mosek/SolverMosek.java:396-405 | column index gets the variable's bound key and unadjusted limits, and type int iff the variable is integer; no other column changes |
| Mosek.SolverMosek.PutConstraint | src/main/java/org/ojalgo/optimisation/solver/mosek/SolverMosek.java:274-335 | row index gets LinearVector and QuadraticTriplets of its key sets, each only when that set is non-empty, and the bound key with adjusted limits; no other row changes |
| Mosek.SolverMosek.PutObjective | src/main/java/org/ojalgo/optimisation/solver/mosek/SolverMosek.java:337-394 | the objective gets LinearVector and QuadraticTriplets of its key sets, each only when that set is non-empty, and the sense minimise iff the model minimises |
| Mosek.SolverMosek.SetSolutionType | src/main/java/org/ojalgo/optimisation/solver/mosek/SolverMosek.java:407-409 | the solution type becomes SelectSolutionType of the model's two flags |
| Mosek.SolverMosek.Solve | src/main/java/org/ojalgo/optimisation/solver/mosek/SolverMosek.java:195-243 | if optimize is not ok: FAILED, NaN and a zero vector of getnumvar() entries; if it is ok: the state is ClassifyStatus of the status read with the chosen solution type, the value is the primal objective exactly when the state is OPTIMAL, and the solution is the primal vector |
| Mosek.MakeSolver | src/main/java/org/ojalgo/optimisation/solver/mosek/SolverMosek.java:136-146 | a fresh solver over a fresh task of the requested size, with every slot unset and solution type bas |
| Mosek.Build | src/main/java/org/ojalgo/optimisation/solver/mosek/SolverMosek.java:79-107 | every column v in [0, n) holds the bound and type of free variable v; every row c in [0, m) holds the bound and the linear and quadratic records of compensated constraint c; the objective holds the compensated objective's records and the model's sense; the solution type is chosen from the model's flags |

## Left out

- The native `mosek.Env` and `mosek.Task`: foreign code. `Task` records the
  `put…` calls instead. For `optimize`, `getsolsta`, `getxx` and
  `getprimalobj`, their results are inputs of `Solve`.
- Configuration (`Configurator`, `DEFAULT`, `getConfigurator`, the time limit
  and the log flag): these are parameters passed through to the native library.
- Logging: the log `Stream`, `PrinterBuffer`, `printToLog` and `flushLog` are I/O.
- `dispose` and both `finalize` methods: native resource lifecycle driven by the garbage collector.
- `isCapable` and `isSolutionMapped`: both are constants with no logic.
- The `catch … throw` in `solve`: it rethrows unchanged and has no behaviour of its own.
- Exceptions from native calls. In the source, `optimize`, `getsolsta`,
  `getxx`, `getprimalobj` and the `put…` calls can raise, and the exception
  propagates out of `solve` and `build`. The model treats every native call
  as never raising.
- LinearFormPreserved: holds only under the additive reading of repeated
  positions. It says nothing about a solver that assigns a repeated column.
  Under assignment, a placeholder `(0, 0.0)` that follows a live key at
  column 0 would overwrite that key's factor.
- QuadraticFormPreserved: holds only under the additive reading of repeated
  positions. It says nothing about a solver that assigns a repeated triangle
  position. Under assignment, a placeholder `(0, 0, 0.0)` that follows a live
  key at (0, 0) would overwrite it. How MOSEK itself treats repeated
  positions is not part of this model.
- Host-model internals (`compensate`, `getAdjusted…`, `getUnadjusted…`,
  `getFreeVariables`, `isAnyVariableInteger`, `isAnyExpressionQuadratic`).
  They are taken as given. `compensate` is a function parameter of `Build`,
  and the rest are fields of the host-model values.
- IEEE doubles. Values are `real`, so the rounding of `2.0 * v` is not
  modelled and NaN is `None`. For an absent side the host passes ±∞ as the
  limit value. A `real` cannot hold that, so the model carries whatever
  `real` the host gives; the bound key tells the solver to ignore that side.
- Type widths: indices are unbounded `int` and sizes are `nat`, not Java's 32-bit `int`.
- Solution statuses other than the six that `solve` names are represented
  by one constructor, `Other`. The remaining members of MOSEK's enumeration
  are not listed.
- The order in which a Java `Set` iterates its keys is the host's. The model
  takes it as the order of the key sequence.
- The test sources `CasePortfolio3.java` and `ExampleMosek.java`: one holds
  an empty `main`, the other loads an MPS file and prints debug output.
