/**
 * Extraction of an expression's linear and quadratic coefficients into the
 * flat arrays a solver task takes: `(subj, vals)` for a linear part and
 * `(subi, subj, vals)` triplets for a quadratic part.
 *
 * A key set is the sequence of its keys in iteration order, each paired with
 * the adjusted factor the host expression reports for it. A negative index
 * marks a coefficient of a variable fixed out of the model.
 */
module Coefficients {

  /** One linear key: a column index (negative when fixed away) and its adjusted factor. */
  datatype LinearTerm = LinearTerm(index: int, factor: real)

  /** One quadratic key: a (row, column) pair of variable indices and its adjusted factor. */
  datatype QuadraticTerm = QuadraticTerm(row: int, column: int, factor: real)

  /** The two parallel arrays given to `putarow` or `putclist`. */
  datatype SparseVector = SparseVector(subj: seq<int>, vals: seq<real>)

  /** The three parallel arrays given to `putqconk` or `putqobj`. */
  datatype SparseTriplets = SparseTriplets(subi: seq<int>, subj: seq<int>, vals: seq<real>)

  /** One emitted quadratic entry. */
  datatype Triplet = Triplet(row: int, column: int, value: real)

  /** A point at which expressions are evaluated: a value for every variable index. */
  type Point = int -> real

  predicate IsLiveLinear(k: LinearTerm)
  {
    k.index >= 0
  }

  predicate IsLiveQuadratic(k: QuadraticTerm)
  {
    k.row >= 0 && k.column >= 0
  }

  function Max(a: int, b: int): int { if a >= b then a else b }

  function Min(a: int, b: int): int { if a <= b then a else b }

  // ---------------------------------------------------------------- linear

  /**
   * The linear arrays for a key set: one slot per key, in key order; a live
   * key keeps its index and factor, a fixed-away key becomes the placeholder
   * `(0, 0.0)` so that the slot is never dropped.
   */
  function LinearVector(keys: seq<LinearTerm>): (v: SparseVector)
    ensures |v.subj| == |keys| && |v.vals| == |keys|
    ensures forall i :: 0 <= i < |keys| && IsLiveLinear(keys[i]) ==>
      v.subj[i] == keys[i].index && v.vals[i] == keys[i].factor
    ensures forall i :: 0 <= i < |keys| && !IsLiveLinear(keys[i]) ==>
      v.subj[i] == 0 && v.vals[i] == 0.0
  {
    if keys == [] then
      SparseVector([], [])
    else
      var rest := LinearVector(keys[1..]);
      if keys[0].index >= 0 then
        SparseVector([keys[0].index] + rest.subj, [keys[0].factor] + rest.vals)
      else
        SparseVector([0] + rest.subj, [0.0] + rest.vals)
  }

  function LinearTail(v: SparseVector): SparseVector
    requires |v.subj| == |v.vals| > 0
  {
    SparseVector(v.subj[1..], v.vals[1..])
  }

  /** `Σ vals[i] · x[subj[i]]`: how the solver evaluates the emitted linear arrays. */
  function Dot(v: SparseVector, x: Point): real
    requires |v.subj| == |v.vals|
    decreases |v.subj|
  {
    if |v.subj| == 0 then 0.0 else v.vals[0] * x(v.subj[0]) + Dot(LinearTail(v), x)
  }

  /** `Σ factor · x[index]` over the live keys: the linear part the host expression means. */
  function LinearForm(keys: seq<LinearTerm>, x: Point): real
  {
    if keys == [] then 0.0
    else (if IsLiveLinear(keys[0]) then keys[0].factor * x(keys[0].index) else 0.0)
         + LinearForm(keys[1..], x)
  }

  function Sum(s: seq<real>): real
  {
    if s == [] then 0.0 else s[0] + Sum(s[1..])
  }

  /** The total factor on live keys. */
  function LiveMass(keys: seq<LinearTerm>): real
  {
    if keys == [] then 0.0
    else (if IsLiveLinear(keys[0]) then keys[0].factor else 0.0) + LiveMass(keys[1..])
  }

  lemma LinearVectorTail(keys: seq<LinearTerm>)
    requires keys != []
    ensures LinearTail(LinearVector(keys)) == LinearVector(keys[1..])
  {
  }

  /** The emitted linear arrays evaluate to the host's linear part at every point. */
  lemma {:induction false} LinearFormPreserved(keys: seq<LinearTerm>, x: Point)
    ensures Dot(LinearVector(keys), x) == LinearForm(keys, x)
  {
    if keys != [] {
      LinearVectorTail(keys);
      LinearFormPreserved(keys[1..], x);
    }
  }

  /** Placeholders carry no coefficient mass: the emitted values sum to the live factors. */
  lemma {:induction false} PlaceholdersCarryNoMass(keys: seq<LinearTerm>)
    ensures Sum(LinearVector(keys).vals) == LiveMass(keys)
  {
    if keys != [] {
      LinearVectorTail(keys);
      PlaceholdersCarryNoMass(keys[1..]);
    }
  }

  /** The loop of `putConstraint` / `putObjective` that fills the two linear arrays. */
  method ExtractLinear(keys: seq<LinearTerm>) returns (v: SparseVector)
    ensures v == LinearVector(keys)
  {
    var n := |keys|;
    var cols := new int[n];
    var vals := new real[n];
    var i := 0;
    while i < n
      invariant 0 <= i <= n
      invariant forall k :: 0 <= k < i && IsLiveLinear(keys[k]) ==> cols[k] == keys[k].index && vals[k] == keys[k].factor
      invariant forall k :: 0 <= k < i && !IsLiveLinear(keys[k]) ==> cols[k] == 0 && vals[k] == 0.0
    {
      var key := keys[i];
      if key.index >= 0 {
        cols[i] := key.index;
        vals[i] := key.factor;
      } else {
        cols[i] := 0;
        vals[i] := 0.0;
      }
      i := i + 1;
    }
    ghost var target := LinearVector(keys);
    assert cols[..] == target.subj;
    assert vals[..] == target.vals;
    v := SparseVector(cols[..], vals[..]);
  }


  // ------------------------------------------------------------- quadratic

  /** The canonical form of one quadratic key, as the solver stores it: always in the lower triangle. */
  function CanonicalTerm(k: QuadraticTerm): (t: Triplet)
    ensures t.row >= t.column >= 0
  {
    if k.row >= 0 && k.column >= 0 then
      if k.row == k.column then
        Triplet(k.row, k.column, 2.0 * k.factor)
      else
        Triplet(Max(k.row, k.column), Min(k.row, k.column), k.factor)
    else
      Triplet(0, 0, 0.0)
  }

  /**
   * A live key is stored in the lower triangle at its own position or its
   * mirror, its value doubled exactly when it is on the diagonal; a key with a
   * negative index becomes the placeholder `(0, 0, 0.0)`.
   */
  lemma CanonicalTermLowerTriangle(k: QuadraticTerm)
    ensures var t := CanonicalTerm(k);
      && t.row >= t.column >= 0
      && (!IsLiveQuadratic(k) ==> t == Triplet(0, 0, 0.0))
      && (IsLiveQuadratic(k) ==>
            (t.row == k.row && t.column == k.column) || (t.row == k.column && t.column == k.row))
      && (IsLiveQuadratic(k) ==> t.value == if k.row == k.column then 2.0 * k.factor else k.factor)
  {
  }

  /** The quadratic arrays for a key set: exactly one canonical triplet per key, in key order. */
  function QuadraticTriplets(keys: seq<QuadraticTerm>): (q: SparseTriplets)
    ensures |q.subi| == |keys| && |q.subj| == |keys| && |q.vals| == |keys|
    ensures forall i :: 0 <= i < |keys| ==> q.subi[i] == CanonicalTerm(keys[i]).row
    ensures forall i :: 0 <= i < |keys| ==> q.subj[i] == CanonicalTerm(keys[i]).column
    ensures forall i :: 0 <= i < |keys| ==> q.vals[i] == CanonicalTerm(keys[i]).value
  {
    if keys == [] then
      SparseTriplets([], [], [])
    else
      var rest := QuadraticTriplets(keys[1..]);
      var t := CanonicalTerm(keys[0]);
      SparseTriplets([t.row] + rest.subi, [t.column] + rest.subj, [t.value] + rest.vals)
  }

  predicate WellShaped(q: SparseTriplets)
  {
    |q.subi| == |q.subj| == |q.vals|
  }

  function TripletsTail(q: SparseTriplets): SparseTriplets
    requires WellShaped(q) && |q.subi| > 0
  {
    SparseTriplets(q.subi[1..], q.subj[1..], q.vals[1..])
  }

  /**
   * What one lower-triangle triplet adds to `½·xᵀQx` once the solver mirrors it
   * into a symmetric Q: a diagonal entry `v` adds `½·v·x_r²`; an off-diagonal
   * entry fills both `Q[r][c]` and `Q[c][r]` and adds `v·x_r·x_c`.
   */
  function TripletContribution(r: int, c: int, v: real, x: Point): real
  {
    if r == c then 0.5 * v * x(r) * x(r) else v * x(r) * x(c)
  }

  /** `½·xᵀQx` of the symmetric expansion of the emitted triplets. */
  function HalfQuadraticForm(q: SparseTriplets, x: Point): real
    requires WellShaped(q)
    decreases |q.subi|
  {
    if |q.subi| == 0 then 0.0
    else TripletContribution(q.subi[0], q.subj[0], q.vals[0], x) + HalfQuadraticForm(TripletsTail(q), x)
  }

  /** `Σ factor · x[row] · x[column]` over the live keys: the quadratic part the host means. */
  function QuadraticForm(keys: seq<QuadraticTerm>, x: Point): real
  {
    if keys == [] then 0.0
    else (if IsLiveQuadratic(keys[0]) then keys[0].factor * x(keys[0].row) * x(keys[0].column) else 0.0)
         + QuadraticForm(keys[1..], x)
  }

  /**
   * Every emitted triplet lies in the lower triangle, and a key with a negative
   * row or column is emitted as the placeholder `(0, 0, 0.0)` in its own slot.
   */
  lemma {:induction false} QuadraticTripletsShape(keys: seq<QuadraticTerm>)
    ensures var q := QuadraticTriplets(keys);
      forall i :: 0 <= i < |keys| ==> q.subi[i] >= q.subj[i] >= 0
    ensures var q := QuadraticTriplets(keys);
      forall i :: 0 <= i < |keys| && !IsLiveQuadratic(keys[i]) ==>
        q.subi[i] == 0 && q.subj[i] == 0 && q.vals[i] == 0.0
  {
    forall i | 0 <= i < |keys| {
      CanonicalTermLowerTriangle(keys[i]);
    }
  }

  /** One key: its canonical triplet contributes what the key means. */
  lemma CanonicalTermPreservesValue(k: QuadraticTerm, x: Point)
    ensures var t := CanonicalTerm(k);
      TripletContribution(t.row, t.column, t.value, x)
        == if IsLiveQuadratic(k) then k.factor * x(k.row) * x(k.column) else 0.0
  {
  }

  lemma QuadraticTripletsTail(keys: seq<QuadraticTerm>)
    requires keys != []
    ensures TripletsTail(QuadraticTriplets(keys)) == QuadraticTriplets(keys[1..])
  {
  }

  /**
   * Folding into the lower triangle with a doubled diagonal preserves the
   * quadratic form: under the solver's `½·xᵀQx` convention the emitted
   * triplets evaluate to the host's quadratic part at every point.
   */
  lemma {:induction false} QuadraticFormPreserved(keys: seq<QuadraticTerm>, x: Point)
    ensures HalfQuadraticForm(QuadraticTriplets(keys), x) == QuadraticForm(keys, x)
  {
    if keys != [] {
      QuadraticTripletsTail(keys);
      CanonicalTermPreservesValue(keys[0], x);
      QuadraticFormPreserved(keys[1..], x);
    }
  }

  /** No two keys sit at the same position (the key set is a set). */
  predicate DistinctPositions(keys: seq<QuadraticTerm>)
  {
    forall i, j :: 0 <= i < j < |keys| ==>
      keys[i].row != keys[j].row || keys[i].column != keys[j].column
  }

  /** The key set never holds both (r, c) and (c, r). */
  predicate NoMirroredPair(keys: seq<QuadraticTerm>)
  {
    forall i, j :: 0 <= i < |keys| && 0 <= j < |keys| && keys[i].row != keys[i].column ==>
      keys[j].row != keys[i].column || keys[j].column != keys[i].row
  }

  /** Two live keys at different, non-mirrored positions land on different triangle positions. */
  lemma CanonicalPositionsDiffer(a: QuadraticTerm, b: QuadraticTerm)
    requires IsLiveQuadratic(a) && IsLiveQuadratic(b)
    requires a.row != b.row || a.column != b.column
    requires a.row != a.column ==> b.row != a.column || b.column != a.row
    ensures CanonicalTerm(a).row != CanonicalTerm(b).row || CanonicalTerm(a).column != CanonicalTerm(b).column
  {
  }

  /**
   * Under those two conditions, and with every key live, no lower-triangle
   * position is given twice, so summing the triplets and assigning them into
   * a matrix describe the same Q.
   */
  lemma {:induction false} CanonicalPositionsDistinct(keys: seq<QuadraticTerm>)
    requires DistinctPositions(keys) && NoMirroredPair(keys)
    requires forall i :: 0 <= i < |keys| ==> IsLiveQuadratic(keys[i])
    ensures var q := QuadraticTriplets(keys);
      forall i, j :: 0 <= i < j < |keys| ==> q.subi[i] != q.subi[j] || q.subj[i] != q.subj[j]
  {
    var q := QuadraticTriplets(keys);
    forall i, j | 0 <= i < j < |keys|
      ensures q.subi[i] != q.subi[j] || q.subj[i] != q.subj[j]
    {
      CanonicalPositionsDiffer(keys[i], keys[j]);
    }
  }

  /** The loop of `putConstraint` / `putObjective` that fills the three quadratic arrays. */
  method ExtractQuadratic(keys: seq<QuadraticTerm>) returns (q: SparseTriplets)
    ensures q == QuadraticTriplets(keys)
  {
    var n := |keys|;
    var rows := new int[n];
    var cols := new int[n];
    var vals := new real[n];
    var i := 0;
    while i < n
      invariant 0 <= i <= n
      invariant forall k :: 0 <= k < i ==> Triplet(rows[k], cols[k], vals[k]) == CanonicalTerm(keys[k])
    {
      var key := keys[i];
      if key.row >= 0 && key.column >= 0 {
        if key.row == key.column {
          rows[i] := key.row;
          cols[i] := key.column;
          vals[i] := 2.0 * key.factor;
        } else {
          rows[i] := Max(key.row, key.column);
          cols[i] := Min(key.row, key.column);
          vals[i] := key.factor;
        }
      } else {
        rows[i] := 0;
        cols[i] := 0;
        vals[i] := 0.0;
      }
      i := i + 1;
    }
    ghost var target := QuadraticTriplets(keys);
    assert rows[..] == target.subi;
    assert cols[..] == target.subj;
    assert vals[..] == target.vals;
    q := SparseTriplets(rows[..], cols[..], vals[..]);
  }


}
