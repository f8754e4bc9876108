/**
 * The coefficient matrix of a linear solver. The solver keeps its
 * equations, the parameters they mention and a column for each parameter;
 * the row of an equation holds, in the column of each parameter, the
 * coefficient that parameter has in the equation, so that a row times the
 * vector of parameter values is the value of its equation.
 */
module Solver {
  import opened Wrappers
  import opened Terms
  import opened Equation

  // ---------------------------------------------------------------------
  // Columns and rows.

  /** A column order: each parameter has its own column, below the number of parameters. */
  predicate IsColumnOrder(order: map<string, nat>, prms: set<string>) {
    && order.Keys == prms
    && (forall p :: p in order ==> order[p] < |prms|)
    && (forall p, q :: p in order && q in order && p != q ==> order[p] != order[q])
  }

  /**
   * Column j of the row of the terms ts: the sum of the coefficients of the
   * terms whose parameter has column j, added term by term.
   */
  function Entry(ts: seq<Term>, consts: map<string, int>, order: map<string, nat>, j: nat): int
    requires AllOrdered(ts, consts)
  {
    if |ts| == 0 then 0
    else
      var init, t := ts[..|ts| - 1], ts[|ts| - 1];
      assert forall i :: 0 <= i < |init| ==> init[i] == ts[i];
      Entry(init, consts, order, j) + (if ParamKey(t) in order && order[ParamKey(t)] == j then TermCoef(t, consts) else 0)
  }

  /** One more term adds its coefficient to the column of its parameter. */
  lemma EntryStep(ts: seq<Term>, consts: map<string, int>, order: map<string, nat>, k: nat)
    requires AllOrdered(ts, consts) && k < |ts| && ParamKey(ts[k]) in order
    ensures AllOrdered(ts[..k], consts) && AllOrdered(ts[..k + 1], consts)
    ensures forall j :: Entry(ts[..k + 1], consts, order, j) ==
                        Entry(ts[..k], consts, order, j) + (if order[ParamKey(ts[k])] == j then TermCoef(ts[k], consts) else 0)
  {
    assert ts[..k + 1][..k] == ts[..k];
    assert forall i :: 0 <= i < k + 1 ==> ts[..k + 1][i] == ts[i];
  }

  /** The coefficient of the parameter p in the terms ts: the sum of the coefficients of p's terms. */
  function CoefOf(ts: seq<Term>, consts: map<string, int>, p: string): int
    requires AllOrdered(ts, consts)
  {
    if |ts| == 0 then 0
    else
      assert forall i :: 0 <= i < |ts| - 1 ==> ts[1..][i] == ts[i + 1];
      (if ParamKey(ts[0]) == p then TermCoef(ts[0], consts) else 0) + CoefOf(ts[1..], consts, p)
  }

  /** The first k columns of the row of ts times the vector x. */
  function RowDot(ts: seq<Term>, consts: map<string, int>, order: map<string, nat>, x: seq<int>, k: nat): int
    requires AllOrdered(ts, consts) && k <= |x|
  {
    if k == 0 then 0 else RowDot(ts, consts, order, x, k - 1) + Entry(ts, consts, order, k - 1) * x[k - 1]
  }

  // ---------------------------------------------------------------------
  // The row of an equation holds the coefficients of its parameters.

  /** Taking one more term at the end adds its coefficient p's way, or nothing. */
  lemma {:induction false} CoefOfSnoc(ts: seq<Term>, t: Term, consts: map<string, int>, p: string)
    requires AllOrdered(ts, consts) && IsOrdered(t, consts)
    ensures AllOrdered(ts + [t], consts)
    ensures CoefOf(ts + [t], consts, p) == CoefOf(ts, consts, p) + (if ParamKey(t) == p then TermCoef(t, consts) else 0)
  {
    assert forall i :: 0 <= i < |ts| ==> (ts + [t])[i] == ts[i];
    if |ts| > 0 {
      assert (ts + [t])[1..] == ts[1..] + [t];
      assert AllOrdered(ts[1..], consts) by { assert forall i :: 0 <= i < |ts| - 1 ==> ts[1..][i] == ts[i + 1]; }
      CoefOfSnoc(ts[1..], t, consts, p);
    } else {
      assert ts + [t] == [t];
    }
  }

  /**
   * With a column order, the entry in the column of p is the coefficient of
   * p: the terms of any other parameter land in other columns.
   */
  lemma {:induction false} EntryIsCoef(ts: seq<Term>, consts: map<string, int>, order: map<string, nat>, p: string)
    requires AllOrdered(ts, consts) && p in order
    requires forall i :: 0 <= i < |ts| ==> ParamKey(ts[i]) in order
    requires forall q, r :: q in order && r in order && q != r ==> order[q] != order[r]
    ensures Entry(ts, consts, order, order[p]) == CoefOf(ts, consts, p)
  {
    if |ts| > 0 {
      var init, t := ts[..|ts| - 1], ts[|ts| - 1];
      assert AllOrdered(init, consts) by {
        assert forall i :: 0 <= i < |init| ==> init[i] == ts[i];
      }
      assert forall i :: 0 <= i < |init| ==> ParamKey(init[i]) == ParamKey(ts[i]);
      EntryIsCoef(init, consts, order, p);
      var key := ParamKey(t);
      assert key in order;
      assert order[key] == order[p] <==> key == p;
      EntryCoefStep(ts, consts, order, p);
    }
  }

  lemma EntryCoefStep(ts: seq<Term>, consts: map<string, int>, order: map<string, nat>, p: string)
    requires AllOrdered(ts, consts) && |ts| > 0 && p in order
    requires AllOrdered(ts[..|ts| - 1], consts)
    requires ParamKey(ts[|ts| - 1]) in order && (order[ParamKey(ts[|ts| - 1])] == order[p] <==> ParamKey(ts[|ts| - 1]) == p)
    requires Entry(ts[..|ts| - 1], consts, order, order[p]) == CoefOf(ts[..|ts| - 1], consts, p)
    ensures Entry(ts, consts, order, order[p]) == CoefOf(ts, consts, p)
  {
    var init, t := ts[..|ts| - 1], ts[|ts| - 1];
    CoefOfSnoc(init, t, consts, p);
    SnocSplit(ts);
  }

  lemma SnocSplit<T>(s: seq<T>)
    requires |s| > 0
    ensures s[..|s| - 1] + [s[|s| - 1]] == s
  {
  }

  /** A column no parameter has is all zeros. */
  lemma {:induction false} EntryUnused(ts: seq<Term>, consts: map<string, int>, order: map<string, nat>, j: nat)
    requires AllOrdered(ts, consts)
    requires forall p :: p in order ==> order[p] != j
    ensures Entry(ts, consts, order, j) == 0
  {
    if |ts| > 0 {
      var init := ts[..|ts| - 1];
      assert forall i :: 0 <= i < |init| ==> init[i] == ts[i];
      EntryUnused(init, consts, order, j);
    }
  }

  /** Adding a term at the end adds its coefficient times the value in its column, if that column is counted. */
  lemma {:induction false} RowDotSnoc(ts: seq<Term>, consts: map<string, int>, order: map<string, nat>, x: seq<int>, k: nat)
    requires AllOrdered(ts, consts) && |ts| > 0 && k <= |x|
    requires ParamKey(ts[|ts| - 1]) in order
    ensures AllOrdered(ts[..|ts| - 1], consts)
    ensures var t, c := ts[|ts| - 1], order[ParamKey(ts[|ts| - 1])];
      RowDot(ts, consts, order, x, k) ==
      RowDot(ts[..|ts| - 1], consts, order, x, k) + (if c < k then TermCoef(t, consts) * x[c] else 0)
  {
    var init, t := ts[..|ts| - 1], ts[|ts| - 1];
    assert forall i :: 0 <= i < |init| ==> init[i] == ts[i];
    if k > 0 {
      RowDotSnoc(ts, consts, order, x, k - 1);
      var c, v := order[ParamKey(t)], TermCoef(t, consts);
      var a := Entry(init, consts, order, k - 1);
      var b := if c == k - 1 then v else 0;
      assert Entry(ts, consts, order, k - 1) == a + b;
      DotStep(RowDot(ts, consts, order, x, k - 1), RowDot(init, consts, order, x, k - 1), a, b, x[k - 1],
        if c < k - 1 then v * x[c] else 0);
      assert b * x[k - 1] == (if c == k - 1 then v * x[c] else 0);
    }
  }

  /** One more column of the row: the new entry splits into the old terms' part and the last term's. */
  lemma DotStep(rt: int, ri: int, a: int, b: int, y: int, last: int)
    requires rt == ri + last
    ensures rt + (a + b) * y == (ri + a * y) + (last + b * y)
  {
    Distribute(a, b, y);
  }

  /**
   * The row times the vector holding each parameter's value in its column
   * is the value of the terms at that solution.
   */
  lemma {:induction false} RowSound(ts: seq<Term>, consts: map<string, int>, order: map<string, nat>, x: seq<int>, sol: map<string, int>)
    requires AllOrdered(ts, consts)
    requires forall i :: 0 <= i < |ts| ==> ParamKey(ts[i]) in order
    requires forall p :: p in order ==> order[p] < |x| && p in sol && x[order[p]] == sol[p]
    ensures RowDot(ts, consts, order, x, |x|) == EvalTerms(ts, Bind(consts, sol))
  {
    if |ts| > 0 {
      var init, t := ts[..|ts| - 1], ts[|ts| - 1];
      assert forall i :: 0 <= i < |init| ==> init[i] == ts[i];
      RowSound(init, consts, order, x, sol);
      var key := ParamKey(t);
      assert key in order && order[key] < |x| && x[order[key]] == sol[key];
      RowDotSnoc(ts, consts, order, x, |x|);
      TermValue(t, consts, sol);
      EvalTermsSnoc(ts, Bind(consts, sol));
    } else {
      RowDotEmpty(ts, consts, order, x, |x|);
    }
  }

  lemma EvalTermsSnoc(ts: seq<Term>, env: Env)
    requires |ts| > 0
    ensures EvalTerms(ts, env) == EvalTerms(ts[..|ts| - 1], env) + EvalTerm(ts[|ts| - 1], env)
  {
    var init, t := ts[..|ts| - 1], ts[|ts| - 1];
    assert ts == init + [t];
    EvalTermsConcat(init, [t], env);
    assert EvalTerms([t], env) == EvalTerm(t, env) + EvalTerms([], env);
  }

  /** The row of no terms is all zeros. */
  lemma {:induction false} RowDotEmpty(ts: seq<Term>, consts: map<string, int>, order: map<string, nat>, x: seq<int>, k: nat)
    requires |ts| == 0 && k <= |x|
    ensures RowDot(ts, consts, order, x, k) == 0
  {
    if k > 0 {
      RowDotEmpty(ts, consts, order, x, k - 1);
    }
  }

  /** Every parameter key of a well-formed equation is one of its parameters. */
  lemma KeysArePrms(eq: LinearEquation, k: nat)
    requires WellFormed(eq) && k < |eq.terms|
    ensures ParamKey(eq.terms[k]) in eq.prms
  {
    assert IsOrdered(eq.terms[k], eq.consts);
    assert ParamKey(eq.terms[k]) in ParamKeys(eq.terms, eq.consts);
  }

  /** The parameter of every canonical term has a column. */
  lemma TermsKeyed(ts: seq<Term>, consts: map<string, int>, prms: set<string>, order: map<string, nat>)
    requires AllOrdered(ts, consts) && prms == ParamKeys(ts, consts) && prms <= order.Keys
    ensures forall k :: 0 <= k < |ts| ==> ParamKey(ts[k]) in order
  {
    forall k | 0 <= k < |ts| ensures ParamKey(ts[k]) in order {
      assert ParamKey(ts[k]) in ParamKeys(ts, consts);
    }
  }

  /**
   * The row of a well-formed equation times the vector of a solution's
   * parameter values, laid out by the column order, is the equation's value
   * at that solution.
   */
  lemma EquationRow(eq: LinearEquation, order: map<string, nat>, x: seq<int>, sol: map<string, int>)
    requires WellFormed(eq) && eq.prms <= order.Keys
    requires forall p :: p in order ==> order[p] < |x| && p in sol && x[order[p]] == sol[p]
    ensures RowDot(eq.terms, eq.consts, order, x, |x|) == Eval(eq, sol)
  {
    TermsKeyed(eq.terms, eq.consts, eq.prms, order);
    RowSound(eq.terms, eq.consts, order, x, sol);
  }

  // ---------------------------------------------------------------------
  // Building the equations of a solver.

  /** All the values of a sequence of results, or the first error among them. */
  function AllOk<T>(rs: seq<Result<T>>): (r: Result<seq<T>>)
    ensures r.Ok? <==> forall i :: 0 <= i < |rs| ==> rs[i].Ok?
    ensures r.Ok? ==> |r.value| == |rs| && forall i :: 0 <= i < |rs| ==> rs[i] == Ok(r.value[i])
    ensures r.Err? ==> exists i :: 0 <= i < |rs| && rs[i] == Err(r.error)
  {
    if |rs| == 0 then Ok([])
    else if rs[0].Err? then Err(rs[0].error)
    else
      var rest := AllOk(rs[1..]);
      assert forall i :: 1 <= i < |rs| ==> rs[i] == rs[1..][i - 1];
      if rest.Err? then Err(rest.error) else Ok([rs[0].value] + rest.value)
  }

  /** The equations of the data keys, in order; fails when one of them is not linear. */
  function BuildEquations(es: seq<Expr>, consts: map<string, int>): (r: Result<seq<LinearEquation>>)
    ensures r.Ok? <==> forall i :: 0 <= i < |es| ==> MakeEquation(es[i], consts).Ok?
    ensures r.Ok? ==> |r.value| == |es| && forall i :: 0 <= i < |es| ==> MakeEquation(es[i], consts) == Ok(r.value[i])
    ensures r.Err? ==> r.error == NonLinearTerm
  {
    var rs := seq(|es|, i requires 0 <= i < |es| => MakeEquation(es[i], consts));
    var r := AllOk(rs);
    assert forall i :: 0 <= i < |es| ==> rs[i] == MakeEquation(es[i], consts);
    if r.Err? then
      var i :| 0 <= i < |rs| && rs[i] == Err(r.error);
      assert MakeEquation(es[i], consts).Err?;
      r
    else r
  }

  /** Every parameter of any of the equations. */
  function AllParams(eqs: seq<LinearEquation>): (ps: set<string>)
    ensures forall e :: 0 <= e < |eqs| ==> eqs[e].prms <= ps
    ensures forall p :: p in ps ==> exists e :: 0 <= e < |eqs| && p in eqs[e].prms
  {
    set e, p | 0 <= e < |eqs| && p in eqs[e].prms :: p
  }

  /** Some column order for the parameters: each in turn takes the next free column. */
  method DefaultOrder(prms: set<string>) returns (order: map<string, nat>)
    ensures IsColumnOrder(order, prms)
  {
    order := map[];
    var rest, n := prms, 0;
    while rest != {}
      invariant Partial(order, rest, prms, n)
      decreases |rest|
    {
      var p :| p in rest;
      NextColumn(order, rest, prms, n, p);
      order, rest, n := order[p := n], rest - {p}, n + 1;
    }
    AllColumns(order, prms, n);
  }

  /** The n parameters placed so far have distinct columns below n; rest are still to place. */
  predicate Partial(order: map<string, nat>, rest: set<string>, prms: set<string>, n: nat) {
    && order.Keys !! rest && order.Keys + rest == prms && |order.Keys| == n
    && (forall p :: p in order ==> order[p] < n)
    && (forall p, q :: p in order && q in order && p != q ==> order[p] != order[q])
  }

  lemma NextColumn(order: map<string, nat>, rest: set<string>, prms: set<string>, n: nat, p: string)
    requires Partial(order, rest, prms, n) && p in rest
    ensures Partial(order[p := n], rest - {p}, prms, n + 1)
  {
    NextKeys(order, rest, prms, n, p);
    NextValues(order, n, p, order[p := n]);
  }

  lemma NextKeys(order: map<string, nat>, rest: set<string>, prms: set<string>, n: nat, p: string)
    requires order.Keys !! rest && order.Keys + rest == prms && |order.Keys| == n && p in rest
    ensures order[p := n].Keys !! rest - {p} && order[p := n].Keys + (rest - {p}) == prms
    ensures |order[p := n].Keys| == n + 1
  {
    assert order[p := n].Keys == order.Keys + {p};
  }

  lemma NextValues(order: map<string, nat>, n: nat, p: string, next: map<string, nat>)
    requires p !in order && next == order[p := n]
    requires forall q :: q in order ==> order[q] < n
    requires forall q, r :: q in order && r in order && q != r ==> order[q] != order[r]
    ensures forall q :: q in next ==> next[q] < n + 1
    ensures forall q, r :: q in next && r in next && q != r ==> next[q] != next[r]
  {
    forall q | q in next ensures next[q] < n + 1 {
      if q != p { assert next[q] == order[q]; }
    }
    forall q, r | q in next && r in next && q != r ensures next[q] != next[r] {
      if q != p && r != p { assert next[q] == order[q] && next[r] == order[r]; }
    }
  }

  lemma AllColumns(order: map<string, nat>, prms: set<string>, n: nat)
    requires Partial(order, {}, prms, n)
    ensures IsColumnOrder(order, prms)
  {
    assert order.Keys == prms;
    assert |order| == |order.Keys|;
  }

  // ---------------------------------------------------------------------
  // The solver.

  class LinearSolver {
    var eqs: seq<LinearEquation>
    var prms: set<string>
    var prmOrder: map<string, nat>

    /** The equations are well formed, prms are all their parameters and prmOrder gives each a column. */
    predicate Valid()
      reads this
    {
      EquationsOk(eqs, prms) && IsColumnOrder(prmOrder, prms)
    }

    /** A solver over the given equations, with some column order. */
    constructor(eqs: seq<LinearEquation>)
      requires forall e :: 0 <= e < |eqs| ==> WellFormed(eqs[e])
      ensures Valid() && this.eqs == eqs && prms == AllParams(eqs)
    {
      var order := DefaultOrder(AllParams(eqs));
      this.eqs := eqs;
      prms := AllParams(eqs);
      prmOrder := order;
    }

    /** Overrides the column order. */
    method SetPrmOrder(order: map<string, nat>)
      requires Valid() && IsColumnOrder(order, prms)
      modifies this
      ensures Valid() && prmOrder == order && eqs == old(eqs) && prms == old(prms)
    {
      prmOrder := order;
    }

    /**
     * The coefficient matrix, equations by parameters: the terms of each
     * equation in turn add their coefficients into the columns of their
     * parameters.
     */
    method GetA() returns (A: array2<int>)
      requires Valid()
      ensures fresh(A) && A.Length0 == |eqs| && A.Length1 == |prms|
      ensures forall e, j :: 0 <= e < |eqs| && 0 <= j < |prms| ==>
        A[e, j] == Entry(eqs[e].terms, eqs[e].consts, prmOrder, j)
    {
      assert Placed(eqs, prmOrder, |prms|) by {
        forall e, k | 0 <= e < |eqs| && 0 <= k < |eqs[e].terms|
          ensures ParamKey(eqs[e].terms[k]) in prmOrder
        {
          KeysArePrms(eqs[e], k);
        }
      }
      A := FillMatrix(eqs, prmOrder, |prms|);
    }
  }

  /** The equations are well formed and prms are all their parameters. */
  predicate EquationsOk(eqs: seq<LinearEquation>, prms: set<string>) {
    && (forall e :: 0 <= e < |eqs| ==> WellFormed(eqs[e]))
    && prms == AllParams(eqs)
  }

  /** Every term of every equation is canonical and its parameter has a column below n. */
  predicate Placed(eqs: seq<LinearEquation>, order: map<string, nat>, n: nat) {
    && (forall e :: 0 <= e < |eqs| ==> AllOrdered(eqs[e].terms, eqs[e].consts))
    && (forall e, k :: 0 <= e < |eqs| && 0 <= k < |eqs[e].terms| ==>
         IsOrdered(eqs[e].terms[k], eqs[e].consts) && ParamKey(eqs[e].terms[k]) in order
         && order[ParamKey(eqs[e].terms[k])] < n)
  }

  /**
   * The matrix, equations by n columns, that the terms of each equation in
   * turn fill by adding their coefficients into the columns of their parameters.
   */
  method FillMatrix(eqs: seq<LinearEquation>, order: map<string, nat>, n: nat) returns (A: array2<int>)
    requires Placed(eqs, order, n)
    ensures fresh(A) && A.Length0 == |eqs| && A.Length1 == n
    ensures forall e, j :: 0 <= e < |eqs| && 0 <= j < n ==> A[e, j] == Entry(eqs[e].terms, eqs[e].consts, order, j)
  {
    A := new int[|eqs|, n]((_, _) => 0);
    for e := 0 to |eqs|
      invariant forall e', j :: 0 <= e' < e && 0 <= j < n ==> A[e', j] == Entry(eqs[e'].terms, eqs[e'].consts, order, j)
      invariant forall e', j :: e <= e' < |eqs| && 0 <= j < n ==> A[e', j] == 0
    {
      FillRow(A, e, eqs[e].terms, eqs[e].consts, order);
    }
  }

  /** Adds the coefficient of each term of row e into the column of its parameter; other rows stay as they are. */
  method FillRow(A: array2<int>, e: nat, ts: seq<Term>, consts: map<string, int>, order: map<string, nat>)
    requires e < A.Length0 && AllOrdered(ts, consts)
    requires forall k :: 0 <= k < |ts| ==> ParamKey(ts[k]) in order && order[ParamKey(ts[k])] < A.Length1
    requires forall j :: 0 <= j < A.Length1 ==> A[e, j] == 0
    modifies A
    ensures forall j :: 0 <= j < A.Length1 ==> A[e, j] == Entry(ts, consts, order, j)
    ensures forall e', j :: 0 <= e' < A.Length0 && e' != e && 0 <= j < A.Length1 ==> A[e', j] == old(A[e', j])
  {
    for k := 0 to |ts|
      invariant forall j :: 0 <= j < A.Length1 ==> A[e, j] == Entry(ts[..k], consts, order, j)
      invariant forall e', j :: 0 <= e' < A.Length0 && e' != e && 0 <= j < A.Length1 ==> A[e', j] == old(A[e', j])
    {
      var col := order[ParamKey(ts[k])];
      EntryStep(ts, consts, order, k);
      A[e, col] := A[e, col] + TermCoef(ts[k], consts);
    }
    assert ts[..|ts|] == ts;
  }

  /** A solver for the data keys; fails when a key is not linear. */
  method NewSolver(keys: seq<Expr>, consts: map<string, int>) returns (r: Result<LinearSolver>)
    ensures r.Ok? <==> BuildEquations(keys, consts).Ok?
    ensures r.Ok? ==> fresh(r.value) && r.value.Valid() && r.value.eqs == BuildEquations(keys, consts).value
    ensures r.Err? ==> r.error == NonLinearTerm
  {
    match BuildEquations(keys, consts)
    case Err(err) =>
      r := Err(err);
    case Ok(eqs) =>
      var s := new LinearSolver(eqs);
      r := Ok(s);
  }

  // ---------------------------------------------------------------------
  // The solver of the equations x+y and x-y.

  /** The solver of x+y and x-y has two equations, with the expected terms, and two parameters. */
  method ExampleBasics(sum: Expr, diff: Expr, eq0: LinearEquation, eq1: LinearEquation) returns (s: LinearSolver)
    requires sum == Add(Name("x"), Name("y")) && diff == Sub(Name("x"), Name("y"))
    requires eq0 == LinearEquation([[Sym("x")], [Sym("y")]], map[], {"x", "y"})
    requires eq1 == LinearEquation([[Sym("x")], [Coef(-1), Sym("y")]], map[], {"x", "y"})
    ensures fresh(s) && s.Valid()
    ensures s.eqs == [eq0, eq1] && s.prms == {"x", "y"} && |s.prms| == 2
  {
    BasicsEquations(sum, diff, eq0, eq1);
    var r := NewSolver([sum, diff], map[]);
    s := r.value;
    BasicsParams(eq0, eq1);
  }

  /** The parameters of x+y and x-y. */
  lemma BasicsParams(eq0: LinearEquation, eq1: LinearEquation)
    requires eq0.prms == {"x", "y"} && eq1.prms == {"x", "y"}
    ensures AllParams([eq0, eq1]) == {"x", "y"} && |AllParams([eq0, eq1])| == 2
  {
    AllParamsPair(eq0, eq1);
    TwoNames("x", "y");
  }

  /** x in column 0 and y in column 1 give the rows [1, 1] for x+y and [1, -1] for x-y. */
  method ExampleGetA(sum: Expr, diff: Expr, eq0: LinearEquation, eq1: LinearEquation) returns (A: array2<int>)
    requires sum == Add(Name("x"), Name("y")) && diff == Sub(Name("x"), Name("y"))
    requires eq0 == LinearEquation([[Sym("x")], [Sym("y")]], map[], {"x", "y"})
    requires eq1 == LinearEquation([[Sym("x")], [Coef(-1), Sym("y")]], map[], {"x", "y"})
    ensures A.Length0 == 2 && A.Length1 == 2
    ensures A[0, 0] == 1 && A[0, 1] == 1
    ensures A[1, 0] == 1 && A[1, 1] == -1
  {
    var s := ExampleBasics(sum, diff, eq0, eq1);
    var order: map<string, nat> := map["x" := 0, "y" := 1];
    BasicsEntries(eq0, eq1, order);
    s.SetPrmOrder(order);
    A := s.GetA();
    assert s.eqs[0] == eq0 && s.eqs[1] == eq1 && s.prmOrder == order;
    assert A[0, 0] == Entry(eq0.terms, eq0.consts, order, 0) && A[0, 1] == Entry(eq0.terms, eq0.consts, order, 1);
    assert A[1, 0] == Entry(eq1.terms, eq1.consts, order, 0) && A[1, 1] == Entry(eq1.terms, eq1.consts, order, 1);
  }

  /** Under the order x, y the rows of x+y and x-y are [1, 1] and [1, -1]. */
  lemma BasicsEntries(eq0: LinearEquation, eq1: LinearEquation, order: map<string, nat>)
    requires eq0 == LinearEquation([[Sym("x")], [Sym("y")]], map[], {"x", "y"})
    requires eq1 == LinearEquation([[Sym("x")], [Coef(-1), Sym("y")]], map[], {"x", "y"})
    requires order == map["x" := 0, "y" := 1]
    ensures IsColumnOrder(order, {"x", "y"})
    ensures AllOrdered(eq0.terms, eq0.consts) && AllOrdered(eq1.terms, eq1.consts)
    ensures Entry(eq0.terms, eq0.consts, order, 0) == 1 && Entry(eq0.terms, eq0.consts, order, 1) == 1
    ensures Entry(eq1.terms, eq1.consts, order, 0) == 1 && Entry(eq1.terms, eq1.consts, order, 1) == -1
  {
    var x, y, my := [Sym("x")], [Sym("y")], [Coef(-1), Sym("y")];
    UnitShapes(x, y, my, order);
    TwoNames("x", "y");
    EntryPair(x, y, map[], order, 0);
    EntryPair(x, y, map[], order, 1);
    EntryPair(x, my, map[], order, 0);
    EntryPair(x, my, map[], order, 1);
  }

  /** The equations of x+y and x-y. */
  lemma BasicsEquations(sum: Expr, diff: Expr, eq0: LinearEquation, eq1: LinearEquation)
    requires sum == Add(Name("x"), Name("y")) && diff == Sub(Name("x"), Name("y"))
    requires eq0 == LinearEquation([[Sym("x")], [Sym("y")]], map[], {"x", "y"})
    requires eq1 == LinearEquation([[Sym("x")], [Coef(-1), Sym("y")]], map[], {"x", "y"})
    ensures BuildEquations([sum, diff], map[]) == Ok([eq0, eq1])
  {
    ExampleSumEquation(sum);
    ExampleDifferenceEquation(diff);
    BuildPair(sum, diff, map[], eq0, eq1);
  }

  lemma TwoNames(a: string, b: string)
    requires a != b
    ensures |{a, b}| == 2
  {
  }

  /** The equations of two keys, when both are linear. */
  lemma BuildPair(a: Expr, b: Expr, consts: map<string, int>, ea: LinearEquation, eb: LinearEquation)
    requires MakeEquation(a, consts) == Ok(ea) && MakeEquation(b, consts) == Ok(eb)
    ensures BuildEquations([a, b], consts) == Ok([ea, eb])
  {
    var es := [a, b];
    var rs := seq(|es|, i requires 0 <= i < |es| => MakeEquation(es[i], consts));
    assert rs == [Ok(ea), Ok(eb)];
    AllOkPair(rs, ea, eb);
  }

  lemma AllOkPair<T>(rs: seq<Result<T>>, a: T, b: T)
    requires rs == [Ok(a), Ok(b)]
    ensures AllOk(rs) == Ok([a, b])
  {
    assert rs[1..] == [Ok(b)] && rs[1..][1..] == [];
    assert AllOk(rs[1..][1..]) == Ok([]);
    assert AllOk(rs[1..]) == Ok([b] + []);
    assert [b] + [] == [b];
    assert [a] + [b] == [a, b];
  }

  lemma AllParamsPair(a: LinearEquation, b: LinearEquation)
    ensures AllParams([a, b]) == a.prms + b.prms
  {
    var ps := AllParams([a, b]);
    assert [a, b][0] == a && [a, b][1] == b;
    forall p | p in ps ensures p in a.prms + b.prms {
      var e :| 0 <= e < 2 && p in [a, b][e].prms;
    }
  }

  /** The row entries of a pair of terms. */
  lemma EntryPair(t0: Term, t1: Term, consts: map<string, int>, order: map<string, nat>, j: nat)
    requires IsOrdered(t0, consts) && IsOrdered(t1, consts)
    ensures AllOrdered([t0, t1], consts)
    ensures Entry([t0, t1], consts, order, j) ==
      (if ParamKey(t0) in order && order[ParamKey(t0)] == j then TermCoef(t0, consts) else 0)
      + (if ParamKey(t1) in order && order[ParamKey(t1)] == j then TermCoef(t1, consts) else 0)
  {
    var d0 := if ParamKey(t0) in order && order[ParamKey(t0)] == j then TermCoef(t0, consts) else 0;
    var d1 := if ParamKey(t1) in order && order[ParamKey(t1)] == j then TermCoef(t1, consts) else 0;
    assert [t0, t1][..1] == [t0] && [t0][..0] == [];
    assert Entry([], consts, order, j) == 0;
    assert Entry([t0], consts, order, j) == 0 + d0;
    assert Entry([t0, t1], consts, order, j) == Entry([t0], consts, order, j) + d1;
  }

  /** The keys and coefficients of x, y and -1*y. */
  lemma UnitShapes(x: Term, y: Term, my: Term, order: map<string, nat>)
    requires x == [Sym("x")] && y == [Sym("y")] && my == [Coef(-1), Sym("y")]
    requires order == map["x" := 0, "y" := 1]
    ensures IsOrdered(x, map[]) && IsOrdered(y, map[]) && IsOrdered(my, map[])
    ensures ParamKey(x) == "x" && ParamKey(y) == "y" && ParamKey(my) == "y"
    ensures TermCoef(x, map[]) == 1 && TermCoef(y, map[]) == 1 && TermCoef(my, map[]) == -1
    ensures order["x"] == 0 && order["y"] == 1
  {
    assert x[..0] == [] && y[..0] == [] && my[..1] == [Coef(-1)];
    assert EvalTerm([Coef(-1)], Bind(map[], map[])) == -1 * EvalTerm([], Bind(map[], map[]));
    assert "x"[0] == 'x' && "y"[0] == 'y';
  }
}
