/**
 * First-order Taylor expansion of product terms: every term is kept, and is
 * followed by one copy per free symbol factor in which that one factor is
 * replaced by its perturbation, a symbol with the marker prefix in front of
 * its name (the product rule). Numeric coefficients and constant names are
 * never perturbed.
 */
module Taylor {
  import opened Terms
  import opened Equation

  /** The perturbation of a symbol: its name behind the marker prefix. */
  function Perturbation(f: Factor, prefix: string): (r: Factor)
    requires f.Sym?
    ensures r.Sym? && r.name == prefix + f.name
  {
    Sym(prefix + f.name)
  }

  /** The term t with only its factor at position j perturbed. */
  function PerturbAt(t: Term, j: nat, prefix: string): (r: Term)
    requires j < |t| && t[j].Sym?
    ensures |r| == |t|
    ensures r[j] == Sym(prefix + t[j].name)
    ensures forall i :: 0 <= i < |t| && i != j ==> r[i] == t[i]
  {
    t[j := Perturbation(t[j], prefix)]
  }

  /** The positions at or after i of the free symbols of t, in increasing order. */
  function FreePositions(t: Term, consts: map<string, int>, i: nat): (ps: seq<nat>)
    ensures forall k :: 0 <= k < |ps| ==> i <= ps[k] < |t| && RoleOf(t[ps[k]], consts) == Parameter
    decreases |t| - i
  {
    if i >= |t| then []
    else if RoleOf(t[i], consts) == Parameter then [i] + FreePositions(t, consts, i + 1)
    else FreePositions(t, consts, i + 1)
  }

  /** The free positions are listed in increasing order and none is missing. */
  lemma {:induction false} FreePositionsComplete(t: Term, consts: map<string, int>, i: nat)
    ensures forall k, l :: 0 <= k < l < |FreePositions(t, consts, i)| ==>
      FreePositions(t, consts, i)[k] < FreePositions(t, consts, i)[l]
    ensures forall j :: i <= j < |t| && RoleOf(t[j], consts) == Parameter ==> j in FreePositions(t, consts, i)
    decreases |t| - i
  {
    if i < |t| {
      FreePositionsComplete(t, consts, i + 1);
      var ps, ps' := FreePositions(t, consts, i), FreePositions(t, consts, i + 1);
      if RoleOf(t[i], consts) == Parameter {
        assert ps == [i] + ps';
        assert forall k :: 1 <= k < |ps| ==> ps[k] == ps'[k - 1];
      }
    }
  }

  /** The perturbed copies of t for its free symbols at or after position i. */
  function PerturbFrom(t: Term, consts: map<string, int>, prefix: string, i: nat): seq<Term>
    decreases |t| - i
  {
    if i >= |t| then []
    else if RoleOf(t[i], consts) == Parameter then [PerturbAt(t, i, prefix)] + PerturbFrom(t, consts, prefix, i + 1)
    else PerturbFrom(t, consts, prefix, i + 1)
  }

  /** The k-th copy perturbs the k-th free position. */
  lemma {:induction false} PerturbFromAt(t: Term, consts: map<string, int>, prefix: string, i: nat)
    ensures |PerturbFrom(t, consts, prefix, i)| == |FreePositions(t, consts, i)|
    ensures forall k :: 0 <= k < |FreePositions(t, consts, i)| ==>
      PerturbFrom(t, consts, prefix, i)[k] == PerturbAt(t, FreePositions(t, consts, i)[k], prefix)
    decreases |t| - i
  {
    if i < |t| {
      PerturbFromAt(t, consts, prefix, i + 1);
      var r, ps := PerturbFrom(t, consts, prefix, i), FreePositions(t, consts, i);
      var r', ps' := PerturbFrom(t, consts, prefix, i + 1), FreePositions(t, consts, i + 1);
      if RoleOf(t[i], consts) == Parameter {
        assert r == [PerturbAt(t, i, prefix)] + r' && ps == [i] + ps';
        forall k | 0 <= k < |ps| ensures r[k] == PerturbAt(t, ps[k], prefix) {
          if k > 0 {
            assert r[k] == r'[k - 1] && ps[k] == ps'[k - 1];
          }
        }
      } else {
        assert r == r' && ps == ps';
      }
    }
  }

  /** A term followed by its first-order perturbations, in factor-position order. */
  function ExpandTerm(t: Term, consts: map<string, int>, prefix: string): (r: seq<Term>)
    ensures |r| == 1 + |FreePositions(t, consts, 0)|
    ensures r[0] == t
    ensures forall k :: 1 <= k < |r| ==> r[k] == PerturbAt(t, FreePositions(t, consts, 0)[k - 1], prefix)
  {
    PerturbFromAt(t, consts, prefix, 0);
    [t] + PerturbFrom(t, consts, prefix, 0)
  }

  /** The Taylor expansion of a list of terms, term by term. */
  function TaylorExpand(ts: seq<Term>, consts: map<string, int>, prefix: string): (r: seq<Term>)
    ensures |r| >= |ts|
    ensures |ts| > 0 ==> r[0] == ts[0]
  {
    if |ts| == 0 then [] else ExpandTerm(ts[0], consts, prefix) + TaylorExpand(ts[1..], consts, prefix)
  }

  /** Every term is kept in the expansion. */
  lemma {:induction false} TaylorExpandKeeps(ts: seq<Term>, consts: map<string, int>, prefix: string)
    ensures forall i :: 0 <= i < |ts| ==> ts[i] in TaylorExpand(ts, consts, prefix)
  {
    if |ts| > 0 {
      var head, tail := ExpandTerm(ts[0], consts, prefix), TaylorExpand(ts[1..], consts, prefix);
      TaylorExpandKeeps(ts[1..], consts, prefix);
      forall i | 0 <= i < |ts| ensures ts[i] in head + tail {
        if i == 0 {
          assert head[0] == ts[0];
        } else {
          assert ts[i] == ts[1..][i - 1];
        }
      }
    }
  }

  /** Every term of the expansion belongs to the expansion of one of the terms. */
  lemma {:induction false} TaylorExpandFrom(ts: seq<Term>, consts: map<string, int>, prefix: string, u: Term)
    requires u in TaylorExpand(ts, consts, prefix)
    ensures exists i :: 0 <= i < |ts| && u in ExpandTerm(ts[i], consts, prefix)
  {
    var head := ExpandTerm(ts[0], consts, prefix);
    if u !in head {
      TaylorExpandFrom(ts[1..], consts, prefix, u);
      var i :| 0 <= i < |ts[1..]| && u in ExpandTerm(ts[1..][i], consts, prefix);
      assert ts[1..][i] == ts[i + 1];
    }
  }

  // ---------------------------------------------------------------------
  // Shape of the expansion.

  /** There is one free position per free symbol factor. */
  lemma {:induction false} FreePositionsCount(t: Term, consts: map<string, int>, i: nat)
    requires i <= |t|
    ensures |FreePositions(t, consts, i)| == |Params(t[i..], consts)|
    decreases |t| - i
  {
    if i < |t| {
      FreePositionsCount(t, consts, i + 1);
      assert t[i..][1..] == t[i + 1..];
    }
  }

  /** A term expands into itself and one copy per free symbol factor. */
  lemma ExpandTermLength(t: Term, consts: map<string, int>, prefix: string)
    ensures |ExpandTerm(t, consts, prefix)| == 1 + |Params(t, consts)|
  {
    FreePositionsCount(t, consts, 0);
    assert t[0..] == t;
  }

  /**
   * Every copy after the first perturbs one free symbol factor and agrees
   * with the term everywhere else, so coefficients and constant names are
   * never perturbed.
   */
  lemma CopyPerturbsFree(t: Term, consts: map<string, int>, prefix: string, k: nat)
    requires 1 <= k < |ExpandTerm(t, consts, prefix)|
    ensures exists j :: 0 <= j < |t| && RoleOf(t[j], consts) == Parameter && ExpandTerm(t, consts, prefix)[k] == PerturbAt(t, j, prefix)
  {
    var j := FreePositions(t, consts, 0)[k - 1];
    assert ExpandTerm(t, consts, prefix)[k] == PerturbAt(t, j, prefix);
  }

  /** Every free symbol factor is perturbed in some copy. */
  lemma FreeIsPerturbed(t: Term, consts: map<string, int>, prefix: string, j: nat)
    requires j < |t| && RoleOf(t[j], consts) == Parameter
    ensures exists k :: 1 <= k < |ExpandTerm(t, consts, prefix)| && ExpandTerm(t, consts, prefix)[k] == PerturbAt(t, j, prefix)
  {
    var ps := FreePositions(t, consts, 0);
    FreePositionsComplete(t, consts, 0);
    var l :| 0 <= l < |ps| && ps[l] == j;
    assert ExpandTerm(t, consts, prefix)[l + 1] == PerturbAt(t, j, prefix);
  }

  /** The expansion of a concatenation is the concatenation of the expansions. */
  lemma {:induction false} TaylorExpandConcat(us: seq<Term>, ws: seq<Term>, consts: map<string, int>, prefix: string)
    ensures TaylorExpand(us + ws, consts, prefix) == TaylorExpand(us, consts, prefix) + TaylorExpand(ws, consts, prefix)
  {
    if |us| == 0 {
      assert us + ws == ws;
    } else {
      assert (us + ws)[1..] == us[1..] + ws;
      TaylorExpandConcat(us[1..], ws, consts, prefix);
    }
  }

  /** The expanded list holds each term's expansion: its length is the terms' count plus their free factors. */
  lemma {:induction false} TaylorExpandLength(ts: seq<Term>, consts: map<string, int>, prefix: string)
    ensures |TaylorExpand(ts, consts, prefix)| == |ts| + SumParams(ts, consts)
  {
    if |ts| > 0 {
      TaylorExpandLength(ts[1..], consts, prefix);
      ExpandTermLength(ts[0], consts, prefix);
    }
  }

  /** The total number of free symbol factors in a list of terms. */
  function SumParams(ts: seq<Term>, consts: map<string, int>): nat {
    if |ts| == 0 then 0 else |Params(ts[0], consts)| + SumParams(ts[1..], consts)
  }

  // ---------------------------------------------------------------------
  // Meaning of the expansion.

  /** A product with a zero factor is zero. */
  lemma {:induction false} ZeroFactor(t: Term, j: nat, env: Env)
    requires j < |t| && EvalFactor(t[j], env) == 0
    ensures EvalTerm(t, env) == 0
  {
    if j > 0 {
      ZeroFactor(t[1..], j - 1, env);
    }
  }

  lemma {:induction false} ZeroCopies(t: Term, consts: map<string, int>, prefix: string, i: nat, env: Env)
    requires forall j :: 0 <= j < |t| && t[j].Sym? ==> env(prefix + t[j].name) == 0
    ensures EvalTerms(PerturbFrom(t, consts, prefix, i), env) == 0
    decreases |t| - i
  {
    if i < |t| {
      ZeroCopies(t, consts, prefix, i + 1, env);
      if RoleOf(t[i], consts) == Parameter {
        var p := PerturbAt(t, i, prefix);
        ZeroFactor(p, i, env);
        var r := PerturbFrom(t, consts, prefix, i);
        assert r == [p] + PerturbFrom(t, consts, prefix, i + 1);
        assert r[1..] == PerturbFrom(t, consts, prefix, i + 1);
      }
    }
  }

  /** With every perturbation zero, the expansion of a term has the term's value. */
  lemma ExpandTermAtZero(t: Term, consts: map<string, int>, prefix: string, env: Env)
    requires forall j :: 0 <= j < |t| && t[j].Sym? ==> env(prefix + t[j].name) == 0
    ensures EvalTerms(ExpandTerm(t, consts, prefix), env) == EvalTerm(t, env)
  {
    ZeroCopies(t, consts, prefix, 0, env);
    var r := ExpandTerm(t, consts, prefix);
    assert r[1..] == PerturbFrom(t, consts, prefix, 0);
  }

  /** With every perturbation zero, the expansion has the value of the original terms. */
  lemma {:induction false} TaylorExpandAtZero(ts: seq<Term>, consts: map<string, int>, prefix: string, env: Env)
    requires forall n :: n in TermsNames(ts) ==> env(prefix + n) == 0
    ensures EvalTerms(TaylorExpand(ts, consts, prefix), env) == EvalTerms(ts, env)
  {
    if |ts| > 0 {
      forall j | 0 <= j < |ts[0]| && ts[0][j].Sym?
        ensures env(prefix + ts[0][j].name) == 0
      {
        assert ts[0][j] in ts[0];
        assert ts[0][j].name in TermsNames(ts);
      }
      ExpandTermAtZero(ts[0], consts, prefix, env);
      forall n | n in TermsNames(ts[1..]) ensures n in TermsNames(ts) {
        var t, f :| t in ts[1..] && f in t && f.Sym? && f.name == n;
        assert t in ts;
      }
      TaylorExpandAtZero(ts[1..], consts, prefix, env);
      EvalTermsConcat(ExpandTerm(ts[0], consts, prefix), TaylorExpand(ts[1..], consts, prefix), env);
    }
  }

  // ---------------------------------------------------------------------
  // Linearization: once the unperturbed symbols are known, each copy is linear.

  /** A term with a single free factor at position j has that factor as its parameter part. */
  lemma SingleFree(t: Term, consts: map<string, int>, j: nat)
    requires j < |t| && RoleOf(t[j], consts) == Parameter
    requires forall i :: 0 <= i < |t| && i != j ==> RoleOf(t[i], consts) != Parameter
    ensures Params(t, consts) == [t[j]]
  {
    var a, b, c := t[..j], [t[j]], t[j + 1..];
    assert t == a + b + c;
    assert Part(a, consts, Parameter) == [] by {
      assert forall i :: 0 <= i < |a| ==> a[i] == t[i];
      PartNone(a, consts, Parameter);
    }
    assert Part(c, consts, Parameter) == [] by {
      assert forall i :: 0 <= i < |c| ==> c[i] == t[j + 1 + i];
      PartNone(c, consts, Parameter);
    }
    assert Part(b, consts, Parameter) == b by { PartAll(b, consts, Parameter); }
    PartThree(a, b, c, consts, Parameter);
  }

  /**
   * When every symbol of t is known (a constant of known) and no perturbed
   * name is, the term itself has no free parameter and each perturbed copy
   * has exactly one, the perturbation of the factor it renames.
   */
  lemma PerturbedIsLinear(t: Term, known: map<string, int>, prefix: string, j: nat)
    requires forall i :: 0 <= i < |t| && t[i].Sym? ==> BaseName(t[i].name) in known
    requires j < |t| && t[j].Sym? && BaseName(prefix + t[j].name) !in known
    ensures Params(t, known) == []
    ensures Params(PerturbAt(t, j, prefix), known) == [Sym(prefix + t[j].name)]
  {
    PartNone(t, known, Parameter);
    SingleFree(PerturbAt(t, j, prefix), known, j);
  }

  /**
   * Linearization of a whole expansion: with the original symbols known and
   * the perturbed names free, every copy orders into a linear term whose
   * parameter is one perturbation.
   */
  lemma ExpandTermIsLinear(t: Term, consts: map<string, int>, known: map<string, int>, prefix: string)
    requires forall i :: 0 <= i < |t| && t[i].Sym? ==> BaseName(t[i].name) in known && BaseName(prefix + t[i].name) !in known
    ensures forall k :: 1 <= k < |ExpandTerm(t, consts, prefix)| ==>
      OrderTerm(ExpandTerm(t, consts, prefix)[k], known).Ok?
  {
    var r, ps := ExpandTerm(t, consts, prefix), FreePositions(t, consts, 0);
    forall k | 1 <= k < |r| ensures OrderTerm(r[k], known).Ok? {
      PerturbedIsLinear(t, known, prefix, ps[k - 1]);
    }
  }

  // ---------------------------------------------------------------------
  // The expansions the expander is expected to produce. Each example names
  // its literal term t (and constants c) in a requires, so that the proof
  // refers to t instead of unfolding the literal at every use.

  /** Three free symbols give three copies, each perturbing one symbol in turn. */
  lemma ExampleExpandAll(t: Term)
    requires t == [Sym("x"), Sym("y"), Sym("z")]
    ensures TaylorExpand([t], map[], "d") ==
      [t, [Sym("dx"), Sym("y"), Sym("z")], [Sym("x"), Sym("dy"), Sym("z")], [Sym("x"), Sym("y"), Sym("dz")]]
  {
    var c: map<string, int> := map[];
    assert FreePositions(t, c, 0) == [0, 1, 2] by {
      FreeStep(t, c, 2);
      FreeStep(t, c, 1);
      FreeStep(t, c, 0);
    }
    ExpandSingle(t, c, "d");
    var r := ExpandTerm(t, c, "d");
    assert r[1] == [Sym("dx"), Sym("y"), Sym("z")] by { assert "d" + "x" == "dx"; }
    assert r[2] == [Sym("x"), Sym("dy"), Sym("z")] by { assert "d" + "y" == "dy"; }
    assert r[3] == [Sym("x"), Sym("y"), Sym("dz")] by { assert "d" + "z" == "dz"; }
  }

  /** The coefficient is not perturbed. */
  lemma ExampleExpandSkipsCoefficient(t: Term)
    requires t == [Coef(1), Sym("y"), Sym("z")]
    ensures TaylorExpand([t], map[], "d") == [t, [Coef(1), Sym("dy"), Sym("z")], [Coef(1), Sym("y"), Sym("dz")]]
  {
    var c: map<string, int> := map[];
    assert FreePositions(t, c, 0) == [1, 2] by {
      FreeStep(t, c, 2);
      FreeStep(t, c, 1);
      FreeStep(t, c, 0);
    }
    ExpandSingle(t, c, "d");
    var r := ExpandTerm(t, c, "d");
    assert r[1] == [Coef(1), Sym("dy"), Sym("z")] by { assert "d" + "y" == "dy"; }
    assert r[2] == [Coef(1), Sym("y"), Sym("dz")] by { assert "d" + "z" == "dz"; }
  }

  /** The constant y is not perturbed either. */
  lemma ExampleExpandSkipsConstant(t: Term, c: map<string, int>)
    requires t == [Coef(1), Sym("y"), Sym("z")] && c == map["y" := 3]
    ensures TaylorExpand([t], c, "d") == [t, [Coef(1), Sym("y"), Sym("dz")]]
  {
    assert FreePositions(t, c, 0) == [2] by {
      FreeStep(t, c, 2);
      FreeStep(t, c, 1);
      FreeStep(t, c, 0);
    }
    ExpandSingle(t, c, "d");
    var r := ExpandTerm(t, c, "d");
    assert r[1] == [Coef(1), Sym("y"), Sym("dz")] by { assert "d" + "z" == "dz"; }
  }

  /** A repeated symbol is perturbed once per occurrence. */
  lemma ExampleExpandRepeated(t: Term)
    requires t == [Sym("x"), Sym("x")]
    ensures TaylorExpand([t], map[], "d") == [t, [Sym("dx"), Sym("x")], [Sym("x"), Sym("dx")]]
  {
    var c: map<string, int> := map[];
    assert FreePositions(t, c, 0) == [0, 1] by {
      FreeStep(t, c, 1);
      FreeStep(t, c, 0);
    }
    ExpandSingle(t, c, "d");
    var r := ExpandTerm(t, c, "d");
    assert r[1] == [Sym("dx"), Sym("x")] by { assert "d" + "x" == "dx"; }
    assert r[2] == [Sym("x"), Sym("dx")] by { assert "d" + "x" == "dx"; }
  }

  /** One step of the scan for free positions. */
  lemma FreeStep(t: Term, consts: map<string, int>, i: nat)
    requires i < |t|
    ensures FreePositions(t, consts, i) ==
      (if RoleOf(t[i], consts) == Parameter then [i] else []) + FreePositions(t, consts, i + 1)
    ensures i + 1 == |t| ==> FreePositions(t, consts, i + 1) == []
  {
  }

  /** The expansion of a single term is that term's expansion. */
  lemma ExpandSingle(t: Term, consts: map<string, int>, prefix: string)
    ensures TaylorExpand([t], consts, prefix) == ExpandTerm(t, consts, prefix)
  {
    assert [t][1..] == [];
    assert ExpandTerm(t, consts, prefix) + [] == ExpandTerm(t, consts, prefix);
  }
}
