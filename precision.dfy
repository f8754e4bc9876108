/**
 * Numeric precision rules: the working dtype inferred from a collection of
 * values, and the validation of weights.
 *
 * A value is classified by its type alone: a plain Python literal or a
 * value carrying a numpy type tag.
 */
module Precision {
  import opened Wrappers

  /** The numpy type tags a value can carry. */
  datatype Tag = NpInt32 | NpInt64 | NpFloat32 | NpFloat64 | NpComplex64 | NpComplex128

  /** The type of a value: a plain Python literal, or a numpy scalar or array with its tag. */
  datatype NumType = PyInt | PyFloat | PyComplex | Numpy(tag: Tag)

  /** The working dtypes the solver can run in. */
  datatype DType = Float32 | Float64 | Complex64 | Complex128

  /** Where a value sits in the precision lattice: is it complex, is it high precision. */
  datatype Kind = Kind(complex: bool, high: bool)

  /** Plain literals are low precision and complex only when of complex type;
      64-bit float tags and every integer tag force high precision. */
  function Classify(t: NumType): (k: Kind)
    ensures t.PyInt? || t.PyFloat? || t.PyComplex? ==> !k.high
    ensures k.complex <==> t.PyComplex? || (t.Numpy? && (t.tag.NpComplex64? || t.tag.NpComplex128?))
  {
    match t
    case PyInt => Kind(false, false)
    case PyFloat => Kind(false, false)
    case PyComplex => Kind(true, false)
    case Numpy(NpInt32) => Kind(false, true)
    case Numpy(NpInt64) => Kind(false, true)
    case Numpy(NpFloat32) => Kind(false, false)
    case Numpy(NpFloat64) => Kind(false, true)
    case Numpy(NpComplex64) => Kind(true, false)
    case Numpy(NpComplex128) => Kind(true, true)
  }

  /** The least upper bound of two kinds. */
  function Join(a: Kind, b: Kind): Kind {
    Kind(a.complex || b.complex, a.high || b.high)
  }

  /** The lattice order: b is at least as complex and at least as precise as a. */
  predicate Below(a: Kind, b: Kind) {
    (a.complex ==> b.complex) && (a.high ==> b.high)
  }

  /** The dtype that stands for a kind. */
  function ToDType(k: Kind): (d: DType)
    ensures KindOf(d) == k
  {
    match k
    case Kind(false, false) => Float32
    case Kind(false, true) => Float64
    case Kind(true, false) => Complex64
    case Kind(true, true) => Complex128
  }

  /** The kind a dtype stands for. */
  function KindOf(d: DType): Kind {
    match d
    case Float32 => Kind(false, false)
    case Float64 => Kind(false, true)
    case Complex64 => Kind(true, false)
    case Complex128 => Kind(true, true)
  }

  /**
   * The join of the kinds of all values, starting from 32-bit real: the
   * result is complex exactly when some value is complex, and high precision
   * exactly when some value is high precision.
   */
  function InferKind(vs: seq<NumType>): (k: Kind)
    ensures k.complex <==> exists i :: 0 <= i < |vs| && Classify(vs[i]).complex
    ensures k.high <==> exists i :: 0 <= i < |vs| && Classify(vs[i]).high
  {
    if |vs| == 0 then Kind(false, false)
    else
      var rest := InferKind(vs[1..]);
      assert forall i :: 1 <= i < |vs| ==> vs[i] == vs[1..][i - 1];
      Join(Classify(vs[0]), rest)
  }

  /** The working dtype of a collection of values. */
  function InferDType(vs: seq<NumType>): (d: DType)
    ensures KindOf(d) == InferKind(vs)
  {
    ToDType(InferKind(vs))
  }

  /** Inferring over a concatenation joins the two inferences. */
  lemma {:induction false} InferConcat(us: seq<NumType>, ws: seq<NumType>)
    ensures InferKind(us + ws) == Join(InferKind(us), InferKind(ws))
  {
    if |us| > 0 {
      assert (us + ws)[1..] == us[1..] + ws;
      InferConcat(us[1..], ws);
    } else {
      assert us + ws == ws;
    }
  }

  /** The order the values come in does not matter. */
  lemma InferPermutation(us: seq<NumType>, ws: seq<NumType>)
    requires multiset(us) == multiset(ws)
    ensures InferDType(us) == InferDType(ws)
  {
    forall v ensures v in us <==> v in ws {
      assert v in us <==> v in multiset(us);
      assert v in ws <==> v in multiset(ws);
    }
    SameValuesSameKind(us, ws);
    KindOfInjective(InferDType(us), InferDType(ws));
  }

  /** Only which values occur matters, not how often or where. */
  lemma SameValuesSameKind(us: seq<NumType>, ws: seq<NumType>)
    requires forall v :: v in us <==> v in ws
    ensures InferKind(us) == InferKind(ws)
  {
    if InferKind(us).complex {
      var i :| 0 <= i < |us| && Classify(us[i]).complex;
      assert us[i] in ws;
    }
    if InferKind(ws).complex {
      var i :| 0 <= i < |ws| && Classify(ws[i]).complex;
      assert ws[i] in us;
    }
    if InferKind(us).high {
      var i :| 0 <= i < |us| && Classify(us[i]).high;
      assert us[i] in ws;
    }
    if InferKind(ws).high {
      var i :| 0 <= i < |ws| && Classify(ws[i]).high;
      assert ws[i] in us;
    }
  }

  /** Inference is commutative over concatenation. */
  lemma InferCommutes(us: seq<NumType>, ws: seq<NumType>)
    ensures InferDType(us + ws) == InferDType(ws + us)
  {
    InferConcat(us, ws);
    InferConcat(ws, us);
    KindOfInjective(InferDType(us + ws), InferDType(ws + us));
  }

  /** Repeating values changes nothing. */
  lemma InferIdempotent(us: seq<NumType>)
    ensures InferDType(us + us) == InferDType(us)
  {
    InferConcat(us, us);
    KindOfInjective(InferDType(us + us), InferDType(us));
  }

  /** Adding values never lowers the dtype. */
  lemma InferMonotone(us: seq<NumType>, ws: seq<NumType>)
    ensures Below(KindOf(InferDType(us)), KindOf(InferDType(us + ws)))
  {
    InferConcat(us, ws);
  }

  lemma KindOfInjective(d: DType, e: DType)
    requires KindOf(d) == KindOf(e)
    ensures d == e
  {
  }

  /** Real values: plain literals and 32-bit floats stay single precision, a 64-bit float makes it double. */
  lemma ExampleInferReal()
    ensures InferDType([PyFloat, PyFloat]) == Float32
    ensures InferDType([PyInt, PyInt]) == Float32
    ensures InferDType([Numpy(NpFloat32), PyInt]) == Float32
    ensures InferDType([Numpy(NpFloat64), PyInt]) == Float64
  {
  }

  /** A complex literal makes the result complex, of the precision of the other values. */
  lemma ExampleInferComplex()
    ensures InferDType([Numpy(NpFloat32), PyComplex]) == Complex64
    ensures InferDType([Numpy(NpFloat64), PyComplex]) == Complex128
    ensures InferDType([Numpy(NpComplex64), PyComplex]) == Complex64
    ensures InferDType([Numpy(NpComplex64), PyFloat]) == Complex64
  {
  }

  /** A 64-bit complex value next to a double or an integer array is promoted to 128 bits. */
  lemma ExampleInferMixed()
    ensures InferDType([Numpy(NpComplex128), Numpy(NpFloat64)]) == Complex128
    ensures InferDType([Numpy(NpComplex64), Numpy(NpFloat64)]) == Complex128
    ensures InferDType([Numpy(NpComplex64), Numpy(NpInt32)]) == Complex128
    ensures InferDType([Numpy(NpComplex64), Numpy(NpInt64)]) == Complex128
  {
  }

  /**
   * Inference over the data, weights and constants of each of two solvers,
   * one solver at a time: a complex constant makes the values complex, a 64-bit weight
   * makes them double. This is not the solver's own dtype in general: a
   * solver whose equations use only conjugated unknowns stays real with
   * complex data, and that rule is not part of this model.
   */
  lemma ExampleSolverDTypes()
    ensures InferDType([PyFloat, PyComplex]) == Complex64
    ensures InferDType([Numpy(NpFloat32), Numpy(NpFloat64), Numpy(NpFloat32)]) == Float64
  {
  }

  // ---------------------------------------------------------------------
  // Weights.

  /** A scalar weight: its type and its real and imaginary parts. */
  datatype Scalar = Scalar(ty: NumType, re: real, im: real)

  /** The weight every key gets when none are given: the Python integer 1. */
  const UnitWeight := Scalar(PyInt, 1.0, 0.0)

  /** Is the weight of a complex type (whatever its imaginary part)? */
  predicate IsComplexObj(w: Scalar) {
    Classify(w.ty).complex
  }

  /**
   * Weight validation: absent or empty weights default to 1 for every key;
   * given weights are returned unchanged when their keys are exactly the
   * data keys and none is complex, and rejected otherwise.
   */
  function VerifyWeights(wgts: Option<map<string, Scalar>>, keys: seq<string>): (r: Result<map<string, Scalar>>)
    ensures (wgts.None? || wgts.value == map[]) ==>
      r.Ok? && r.value.Keys == (set k | k in keys) && forall k :: k in r.value ==> r.value[k] == UnitWeight
    ensures wgts.Some? && wgts.value != map[] ==>
      (r.Ok? <==> (wgts.value.Keys == (set k | k in keys) && forall k :: k in wgts.value ==> !IsComplexObj(wgts.value[k])))
    ensures wgts.Some? && wgts.value != map[] && r.Ok? ==> r.value == wgts.value
    ensures r.Err? ==> r.error == InvalidWeights
  {
    match wgts
    case None => Ok(map k | k in keys :: UnitWeight)
    case Some(w) =>
      if w == map[] then Ok(map k | k in keys :: UnitWeight)
      else if w.Keys == (set k | k in keys) && forall k :: k in w ==> !IsComplexObj(w[k]) then Ok(w)
      else Err(InvalidWeights)
  }

  /** The weight outcomes the validation is expected to give. */
  lemma ExampleVerifyWeights()
    ensures VerifyWeights(Some(map[]), ["a"]) == Ok(map["a" := UnitWeight])
    ensures VerifyWeights(None, ["a"]) == Ok(map["a" := UnitWeight])
    ensures VerifyWeights(Some(map["a" := Scalar(PyFloat, 10.0, 0.0)]), ["a"]) == Ok(map["a" := Scalar(PyFloat, 10.0, 0.0)])
    ensures VerifyWeights(Some(map["a" := Scalar(PyComplex, 1.0, 1.0)]), ["a"]) == Err(InvalidWeights)
    ensures VerifyWeights(Some(map["a" := Scalar(PyFloat, 1.0, 0.0)]), ["a", "b"]) == Err(InvalidWeights)
  {
    assert (set k | k in ["a"]) == {"a"};
    assert (set k | k in ["a", "b"]) == {"a", "b"};
    assert (map k | k in ["a"] :: UnitWeight) == map["a" := UnitWeight];
    assert map["a" := Scalar(PyFloat, 1.0, 0.0)].Keys == {"a"};
  }
}
