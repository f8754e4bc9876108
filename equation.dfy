/**
 * A linear equation: its extracted terms, put in canonical order
 * (coefficients, then constant names, then the one free parameter), the
 * constants it was built with, and the set of its free parameters.
 */
module Equation {
  import opened Wrappers
  import opened Terms

  /** The role a factor plays in a term of a linear equation. */
  datatype Role = Coefficient | Constant | Parameter

  /**
   * A coefficient is a number, a constant a symbol whose name, without its
   * conjugation marker, has a given value, any other symbol a free parameter.
   */
  function RoleOf(f: Factor, consts: map<string, int>): Role {
    if f.Coef? then Coefficient else if BaseName(f.name) in consts then Constant else Parameter
  }

  /** A name and its conjugate play the same role, and a plain name is a constant exactly when it has a value. */
  lemma RoleOfConjugate(n: string, consts: map<string, int>)
    requires !(|n| > 0 && n[|n| - 1] == '_')
    ensures RoleOf(Sym(n + "_"), consts) == RoleOf(Sym(n), consts)
    ensures RoleOf(Sym(n), consts) == Constant <==> n in consts
  {
    assert (n + "_")[..|n|] == n;
  }

  /** The factors of a term that play the given role, in order. */
  function Part(t: Term, consts: map<string, int>, role: Role): (r: Term)
    ensures forall i :: 0 <= i < |r| ==> RoleOf(r[i], consts) == role
    ensures |r| <= |t|
  {
    if |t| == 0 then []
    else (if RoleOf(t[0], consts) == role then [t[0]] else []) + Part(t[1..], consts, role)
  }

  function Coefs(t: Term, consts: map<string, int>): Term { Part(t, consts, Coefficient) }
  function ConstNames(t: Term, consts: map<string, int>): Term { Part(t, consts, Constant) }
  function Params(t: Term, consts: map<string, int>): Term { Part(t, consts, Parameter) }

  lemma {:induction false} PartConcat(a: Term, b: Term, consts: map<string, int>, role: Role)
    ensures Part(a + b, consts, role) == Part(a, consts, role) + Part(b, consts, role)
  {
    if |a| == 0 {
      assert a + b == b;
    } else {
      assert (a + b)[1..] == a[1..] + b;
      PartConcat(a[1..], b, consts, role);
    }
  }

  /** A term whose factors all play the role is its own part. */
  lemma {:induction false} PartAll(t: Term, consts: map<string, int>, role: Role)
    requires forall i :: 0 <= i < |t| ==> RoleOf(t[i], consts) == role
    ensures Part(t, consts, role) == t
  {
    if |t| > 0 {
      PartAll(t[1..], consts, role);
    }
  }

  /** A term none of whose factors play the role has an empty part. */
  lemma {:induction false} PartNone(t: Term, consts: map<string, int>, role: Role)
    requires forall i :: 0 <= i < |t| ==> RoleOf(t[i], consts) != role
    ensures Part(t, consts, role) == []
  {
    if |t| > 0 {
      PartNone(t[1..], consts, role);
    }
  }

  /** Canonical order: coefficients, then constant names, then exactly one parameter, last. */
  predicate IsOrdered(t: Term, consts: map<string, int>) {
    && |t| >= 1
    && RoleOf(t[|t| - 1], consts) == Parameter
    && (forall i :: 0 <= i < |t| - 1 ==> RoleOf(t[i], consts) != Parameter)
    && (forall i, j :: 0 <= i < j < |t| - 1 && t[j].Coef? ==> t[i].Coef?)
  }

  /**
   * Reorders one term into canonical order, keeping the relative order of
   * its coefficients and of its constant names; a term without exactly one
   * free parameter is not linear and is rejected.
   */
  function OrderTerm(t: Term, consts: map<string, int>): (r: Result<Term>)
    ensures r.Ok? <==> |Params(t, consts)| == 1
    ensures r.Ok? ==> IsOrdered(r.value, consts)
    ensures r.Err? ==> r.error == NonLinearTerm
  {
    var ps := Params(t, consts);
    if |ps| != 1 then Err(NonLinearTerm)
    else
      var r := Coefs(t, consts) + ConstNames(t, consts) + ps;
      assert forall i :: 0 <= i < |Coefs(t, consts)| ==> r[i] == Coefs(t, consts)[i];
      assert forall i :: |Coefs(t, consts)| <= i < |r| - 1 ==> r[i] == ConstNames(t, consts)[i - |Coefs(t, consts)|];
      Ok(r)
  }

  /** Ordering only rearranges: the ordered term is a permutation of the term. */
  lemma OrderTermPermutes(t: Term, consts: map<string, int>)
    requires OrderTerm(t, consts).Ok?
    ensures multiset(OrderTerm(t, consts).value) == multiset(t)
  {
    OrderTermValue(t, consts);
    PartsCover(t, consts);
  }

  /** Every factor of a term lands in exactly one of its three parts. */
  lemma {:induction false} PartsCover(t: Term, consts: map<string, int>)
    ensures multiset(Part(t, consts, Coefficient)) + multiset(Part(t, consts, Constant))
      + multiset(Part(t, consts, Parameter)) == multiset(t)
  {
    if |t| > 0 {
      var h, rest := t[0], t[1..];
      PartsCover(rest, consts);
      assert t == [h] + rest;
      PartStep(t, consts, Coefficient);
      PartStep(t, consts, Constant);
      PartStep(t, consts, Parameter);
      HeadsCover(h, consts);
      SumOfSums(multiset(Part(rest, consts, Coefficient)), multiset(Part(rest, consts, Constant)),
        multiset(Part(rest, consts, Parameter)), Head(h, consts, Coefficient), Head(h, consts, Constant),
        Head(h, consts, Parameter));
    }
  }

  /** What a leading factor contributes to the part of a role. */
  function Head(f: Factor, consts: map<string, int>, role: Role): multiset<Factor> {
    if RoleOf(f, consts) == role then multiset{f} else multiset{}
  }

  lemma HeadsCover(f: Factor, consts: map<string, int>)
    ensures Head(f, consts, Coefficient) + Head(f, consts, Constant) + Head(f, consts, Parameter) == multiset{f}
  {
  }

  lemma SumOfSums<T>(a: multiset<T>, b: multiset<T>, c: multiset<T>, x: multiset<T>, y: multiset<T>, z: multiset<T>)
    ensures (x + a) + (y + b) + (z + c) == (x + y + z) + (a + b + c)
  {
  }

  lemma PartStep(t: Term, consts: map<string, int>, role: Role)
    requires |t| > 0
    ensures multiset(Part(t, consts, role)) == Head(t[0], consts, role) + multiset(Part(t[1..], consts, role))
  {
    assert Part(t, consts, role) == (if RoleOf(t[0], consts) == role then [t[0]] else []) + Part(t[1..], consts, role);
  }

  /** Ordering is the identity on a term already in canonical order. */
  lemma OrderedIsFixed(t: Term, consts: map<string, int>)
    requires IsOrdered(t, consts)
    ensures Coefs(t, consts) + ConstNames(t, consts) + Params(t, consts) == t
    ensures OrderTerm(t, consts) == Ok(t)
  {
    var n := |t| - 1;
    var k := OrderedLayout(t, consts);
    var c, m, p := t[..k], t[k..n], [t[n]];
    assert t == c + m + p;
    assert forall i :: 0 <= i < |m| ==> RoleOf(m[i], consts) == Constant by {
      assert forall i :: 0 <= i < |m| ==> m[i] == t[k + i];
    }
    SplitParts(c, m, p, consts);
    OrderTermValue(t, consts);
  }

  /** A term in canonical order is a run of coefficients, then a run of constant names, then its parameter. */
  lemma OrderedLayout(t: Term, consts: map<string, int>) returns (k: nat)
    requires IsOrdered(t, consts)
    ensures k < |t|
    ensures forall i :: 0 <= i < k ==> RoleOf(t[i], consts) == Coefficient
    ensures forall i :: k <= i < |t| - 1 ==> RoleOf(t[i], consts) == Constant
  {
    k := FirstSymbol(t, 0, |t| - 1);
  }

  /** The value of a successful ordering. */
  lemma OrderTermValue(t: Term, consts: map<string, int>)
    requires |Params(t, consts)| == 1
    ensures OrderTerm(t, consts) == Ok(Coefs(t, consts) + ConstNames(t, consts) + Params(t, consts))
  {
  }

  /** The parts of a term laid out as coefficients, constant names and one parameter. */
  lemma SplitParts(c: Term, m: Term, p: Term, consts: map<string, int>)
    requires forall i :: 0 <= i < |c| ==> RoleOf(c[i], consts) == Coefficient
    requires forall i :: 0 <= i < |m| ==> RoleOf(m[i], consts) == Constant
    requires |p| == 1 && RoleOf(p[0], consts) == Parameter
    ensures Coefs(c + m + p, consts) == c
    ensures ConstNames(c + m + p, consts) == m
    ensures Params(c + m + p, consts) == p
  {
    SplitRole(c, m, p, consts, Coefficient, c, [], []);
    SplitRole(c, m, p, consts, Constant, [], m, []);
    SplitRole(c, m, p, consts, Parameter, [], [], p);
  }

  /** The part of a + b + c for a role is made of the parts of a, of b and of c. */
  lemma SplitRole(a: Term, b: Term, c: Term, consts: map<string, int>, role: Role, ra: Term, rb: Term, rc: Term)
    requires ra == [] || ra == a
    requires rb == [] || rb == b
    requires rc == [] || rc == c
    requires forall i :: 0 <= i < |a| ==> (RoleOf(a[i], consts) == role <==> ra == a)
    requires forall i :: 0 <= i < |b| ==> (RoleOf(b[i], consts) == role <==> rb == b)
    requires forall i :: 0 <= i < |c| ==> (RoleOf(c[i], consts) == role <==> rc == c)
    ensures Part(a + b + c, consts, role) == ra + rb + rc
  {
    PartThree(a, b, c, consts, role);
    PartOf(a, consts, role, ra);
    PartOf(b, consts, role, rb);
    PartOf(c, consts, role, rc);
  }

  lemma PartOf(t: Term, consts: map<string, int>, role: Role, r: Term)
    requires r == [] || r == t
    requires forall i :: 0 <= i < |t| ==> (RoleOf(t[i], consts) == role <==> r == t)
    ensures Part(t, consts, role) == r
  {
    if |t| > 0 && r == t {
      PartAll(t, consts, role);
    } else if |t| > 0 {
      PartNone(t, consts, role);
    }
  }

  lemma PartThree(a: Term, b: Term, c: Term, consts: map<string, int>, role: Role)
    ensures Part(a + b + c, consts, role) == Part(a, consts, role) + Part(b, consts, role) + Part(c, consts, role)
  {
    PartConcat(a + b, c, consts, role);
    PartConcat(a, b, consts, role);
  }

  /** The position of the first symbol among t[i..n], or n when there is none. */
  function FirstSymbol(t: Term, i: nat, n: nat): (k: nat)
    requires i <= n <= |t|
    requires forall j :: 0 <= j < i ==> t[j].Coef?
    ensures i <= k <= n
    ensures forall j :: 0 <= j < k ==> t[j].Coef?
    ensures k < n ==> t[k].Sym?
    decreases n - i
  {
    if i == n || t[i].Sym? then i else FirstSymbol(t, i + 1, n)
  }

  /** Ordering twice is ordering once. */
  lemma OrderIdempotent(t: Term, consts: map<string, int>)
    requires OrderTerm(t, consts).Ok?
    ensures OrderTerm(OrderTerm(t, consts).value, consts) == OrderTerm(t, consts)
  {
    OrderedIsFixed(OrderTerm(t, consts).value, consts);
  }

  /** Orders every term of a list; fails with NonLinearTerm as soon as one term is not linear. */
  function OrderTerms(ts: seq<Term>, consts: map<string, int>): (r: Result<seq<Term>>)
    ensures r.Ok? <==> forall i :: 0 <= i < |ts| ==> |Params(ts[i], consts)| == 1
    ensures r.Ok? ==> |r.value| == |ts| && forall i :: 0 <= i < |ts| ==>
      OrderTerm(ts[i], consts) == Ok(r.value[i]) && IsOrdered(r.value[i], consts)
    ensures r.Err? ==> r.error == NonLinearTerm
  {
    if |ts| == 0 then Ok([])
    else
      var head := OrderTerm(ts[0], consts);
      var tail := OrderTerms(ts[1..], consts);
      LinearCons(ts, consts);
      if head.Err? then Err(head.error)
      else if tail.Err? then Err(tail.error)
      else
        OrderedCons(head.value, tail.value, ts, consts);
        Ok([head.value] + tail.value)
  }

  lemma LinearCons(ts: seq<Term>, consts: map<string, int>)
    requires |ts| > 0
    ensures (forall i :: 0 <= i < |ts| ==> |Params(ts[i], consts)| == 1) <==>
      |Params(ts[0], consts)| == 1 && forall i :: 0 <= i < |ts[1..]| ==> |Params(ts[1..][i], consts)| == 1
  {
    assert forall i :: 1 <= i < |ts| ==> ts[i] == ts[1..][i - 1];
  }

  lemma OrderedCons(u: Term, us: seq<Term>, ts: seq<Term>, consts: map<string, int>)
    requires |ts| > 0 && OrderTerm(ts[0], consts) == Ok(u) && IsOrdered(u, consts)
    requires |us| == |ts[1..]| && forall i :: 0 <= i < |us| ==>
      OrderTerm(ts[1..][i], consts) == Ok(us[i]) && IsOrdered(us[i], consts)
    ensures |[u] + us| == |ts| && forall i :: 0 <= i < |ts| ==>
      OrderTerm(ts[i], consts) == Ok(([u] + us)[i]) && IsOrdered(([u] + us)[i], consts)
  {
    forall i | 0 <= i < |ts|
      ensures OrderTerm(ts[i], consts) == Ok(([u] + us)[i]) && IsOrdered(([u] + us)[i], consts)
    {
      if i > 0 {
        assert ([u] + us)[i] == us[i - 1] && ts[i] == ts[1..][i - 1];
      }
    }
  }

  // ---------------------------------------------------------------------
  // Equations.

  /** A linear equation: its canonical terms, its constants, its free parameters. */
  datatype LinearEquation = LinearEquation(terms: seq<Term>, consts: map<string, int>, prms: set<string>)

  /**
   * The solution key of a parameter name: a trailing '_' marks a conjugated
   * parameter and is not part of the key.
   */
  function BaseName(n: string): (b: string)
    ensures |n| > 0 && n[|n| - 1] == '_' ==> b + "_" == n
    ensures !(|n| > 0 && n[|n| - 1] == '_') ==> b == n
  {
    if |n| > 0 && n[|n| - 1] == '_' then n[..|n| - 1] else n
  }

  /** The solution key of the parameter of a canonical term. */
  function ParamKey(t: Term): string
    requires |t| >= 1 && t[|t| - 1].Sym?
  {
    BaseName(t[|t| - 1].name)
  }

  /** The free parameters of a list of canonical terms. */
  function ParamKeys(ts: seq<Term>, consts: map<string, int>): set<string>
    requires forall i :: 0 <= i < |ts| ==> IsOrdered(ts[i], consts)
  {
    set i | 0 <= i < |ts| :: (assert IsOrdered(ts[i], consts); ParamKey(ts[i]))
  }

  /** Every term is canonical and the parameters are those of the terms. */
  predicate WellFormed(eq: LinearEquation) {
    && (forall i :: 0 <= i < |eq.terms| ==> IsOrdered(eq.terms[i], eq.consts))
    && eq.prms == ParamKeys(eq.terms, eq.consts)
  }

  /**
   * Builds the equation for an expression: extracts its terms and orders
   * them; fails with NonLinearTerm when a term has no free parameter or more
   * than one.
   */
  function MakeEquation(e: Expr, consts: map<string, int>): (r: Result<LinearEquation>)
    ensures r.Ok? <==> forall i :: 0 <= i < |GetTerms(e)| ==> |Params(GetTerms(e)[i], consts)| == 1
    ensures r.Ok? ==> WellFormed(r.value) && r.value.consts == consts
    ensures r.Ok? ==> |r.value.terms| == |GetTerms(e)| && forall i :: 0 <= i < |GetTerms(e)| ==>
      OrderTerm(GetTerms(e)[i], consts) == Ok(r.value.terms[i])
    ensures r.Err? ==> r.error == NonLinearTerm
  {
    match OrderTerms(GetTerms(e), consts)
    case Err(err) => Err(err)
    case Ok(ts) => Ok(LinearEquation(ts, consts, ParamKeys(ts, consts)))
  }

  /** No parameter of a built equation is a constant. */
  lemma MakeEquationPrms(e: Expr, consts: map<string, int>)
    requires MakeEquation(e, consts).Ok?
    ensures MakeEquation(e, consts).value.prms !! consts.Keys
  {
    var eq := MakeEquation(e, consts).value;
    KeysNotConstants(eq.terms, consts);
  }

  /** No parameter key of canonical terms names a constant, with or without a conjugation marker. */
  lemma KeysNotConstants(ts: seq<Term>, consts: map<string, int>)
    requires forall i :: 0 <= i < |ts| ==> IsOrdered(ts[i], consts)
    ensures ParamKeys(ts, consts) !! consts.Keys
  {
    forall q | q in ParamKeys(ts, consts) ensures q !in consts {
      var i :| 0 <= i < |ts| && q == ParamKey(ts[i]);
      assert RoleOf(ts[i][|ts[i]| - 1], consts) == Parameter;
    }
  }

  /** Each term of a built equation is a rearrangement of the corresponding extracted term. */
  lemma MakeEquationPermutes(e: Expr, consts: map<string, int>, i: nat)
    requires MakeEquation(e, consts).Ok? && i < |GetTerms(e)|
    ensures multiset(MakeEquation(e, consts).value.terms[i]) == multiset(GetTerms(e)[i])
  {
    OrderTermPermutes(GetTerms(e)[i], consts);
  }

  /** The value a solution gives a key; a key it does not hold reads as zero. */
  function SolValue(sol: map<string, int>, key: string): int {
    if key in sol then sol[key] else 0
  }

  /**
   * The values of the symbols of an equation: a constant has its given
   * value, a parameter the value of its solution key; both are looked up
   * without the conjugation marker, and conjugation is the identity on
   * these integer values.
   */
  function Bind(consts: map<string, int>, sol: map<string, int>): Env {
    n => SymbolValue(consts, sol, n)
  }

  function SymbolValue(consts: map<string, int>, sol: map<string, int>, n: string): int {
    var b := BaseName(n);
    if b in consts then consts[b] else SolValue(sol, b)
  }

  /** Every term is canonical. */
  predicate AllOrdered(ts: seq<Term>, consts: map<string, int>) {
    forall i :: 0 <= i < |ts| ==> IsOrdered(ts[i], consts)
  }

  /** The coefficient of a canonical term: the product of the factors before its parameter. */
  function TermCoef(t: Term, consts: map<string, int>): int
    requires |t| >= 1
  {
    EvalTerm(t[..|t| - 1], Bind(consts, map[]))
  }

  /** The linear form of canonical terms: each term's coefficient times the value of its parameter, summed. */
  function LinearSum(ts: seq<Term>, consts: map<string, int>, sol: map<string, int>): int
    requires AllOrdered(ts, consts)
  {
    if |ts| == 0 then 0
    else
      assert forall i :: 0 <= i < |ts| - 1 ==> ts[1..][i] == ts[i + 1];
      TermCoef(ts[0], consts) * SolValue(sol, ParamKey(ts[0])) + LinearSum(ts[1..], consts, sol)
  }

  /** The value of a canonical term is its coefficient times the value of its parameter. */
  lemma TermValue(t: Term, consts: map<string, int>, sol: map<string, int>)
    requires IsOrdered(t, consts)
    ensures EvalTerm(t, Bind(consts, sol)) == TermCoef(t, consts) * SolValue(sol, ParamKey(t))
  {
    var pre, f := t[..|t| - 1], t[|t| - 1];
    assert t == pre + [f];
    EvalTermConcat(pre, [f], Bind(consts, sol));
    ConstantsAgree(pre, consts, sol);
    assert EvalTerm([f], Bind(consts, sol)) == SolValue(sol, ParamKey(t));
  }

  /** Coefficients and constant names do not depend on the solution. */
  lemma {:induction false} ConstantsAgree(pre: Term, consts: map<string, int>, sol: map<string, int>)
    requires forall i :: 0 <= i < |pre| ==> RoleOf(pre[i], consts) != Parameter
    ensures EvalTerm(pre, Bind(consts, sol)) == EvalTerm(pre, Bind(consts, map[]))
  {
    if |pre| > 0 {
      assert forall i :: 0 <= i < |pre| - 1 ==> pre[1..][i] == pre[i + 1];
      ConstantsAgree(pre[1..], consts, sol);
    }
  }

  /** Canonical terms evaluate to their linear form. */
  lemma {:induction false} EvalIsLinear(ts: seq<Term>, consts: map<string, int>, sol: map<string, int>)
    requires AllOrdered(ts, consts)
    ensures EvalTerms(ts, Bind(consts, sol)) == LinearSum(ts, consts, sol)
  {
    if |ts| > 0 {
      assert AllOrdered(ts[1..], consts) by {
        assert forall i :: 0 <= i < |ts| - 1 ==> ts[1..][i] == ts[i + 1];
      }
      TermValue(ts[0], consts, sol);
      EvalIsLinear(ts[1..], consts, sol);
    }
  }

  /**
   * The value of the equation's left-hand side at a solution; for canonical
   * terms it is the sum of each coefficient (with the constants' values)
   * times the value of the term's parameter.
   */
  function Eval(eq: LinearEquation, sol: map<string, int>): (v: int)
    requires eq.prms <= sol.Keys
    ensures AllOrdered(eq.terms, eq.consts) ==> v == LinearSum(eq.terms, eq.consts, sol)
  {
    // Both branches return the same value; the test only brings EvalIsLinear to bear.
    if AllOrdered(eq.terms, eq.consts) then
      EvalIsLinear(eq.terms, eq.consts, sol);
      EvalTerms(eq.terms, Bind(eq.consts, sol))
    else
      EvalTerms(eq.terms, Bind(eq.consts, sol))
  }

  // ---------------------------------------------------------------------
  // Ordering keeps the meaning of the equation.

  /** The product of a term splits into the products of its three parts. */
  lemma {:induction false} EvalPartition(t: Term, consts: map<string, int>, env: Env)
    ensures EvalTerm(t, env) ==
      EvalTerm(Coefs(t, consts), env) * EvalTerm(ConstNames(t, consts), env) * EvalTerm(Params(t, consts), env)
  {
    if |t| > 0 {
      var rest := t[1..];
      EvalPartition(rest, consts, env);
      var x := EvalFactor(t[0], env);
      var vc, vk, vp := EvalTerm(Coefs(rest, consts), env), EvalTerm(ConstNames(rest, consts), env), EvalTerm(Params(rest, consts), env);
      assert EvalTerm(t, env) == x * (vc * vk * vp);
      EvalPartStep(t, consts, Coefficient, env);
      EvalPartStep(t, consts, Constant, env);
      EvalPartStep(t, consts, Parameter, env);
      Reassociate(x, vc, vk, vp);
    }
  }

  lemma EvalPartStep(t: Term, consts: map<string, int>, role: Role, env: Env)
    requires |t| > 0
    ensures EvalTerm(Part(t, consts, role), env) ==
      (if RoleOf(t[0], consts) == role then EvalFactor(t[0], env) else 1) * EvalTerm(Part(t[1..], consts, role), env)
  {
    var pre := if RoleOf(t[0], consts) == role then [t[0]] else [];
    assert Part(t, consts, role) == pre + Part(t[1..], consts, role);
    EvalTermConcat(pre, Part(t[1..], consts, role), env);
    assert EvalTerm([t[0]], env) == EvalFactor(t[0], env) * EvalTerm([], env);
  }

  lemma Reassociate(x: int, a: int, b: int, c: int)
    ensures x * (a * b * c) == (x * a) * b * c
    ensures x * (a * b * c) == a * (x * b) * c
    ensures x * (a * b * c) == a * b * (x * c)
  {
  }

  /** Ordering a term does not change its product. */
  lemma OrderTermKeepsValue(t: Term, consts: map<string, int>, env: Env)
    requires OrderTerm(t, consts).Ok?
    ensures EvalTerm(OrderTerm(t, consts).value, env) == EvalTerm(t, env)
  {
    var c, k, p := Coefs(t, consts), ConstNames(t, consts), Params(t, consts);
    EvalTermConcat(c + k, p, env);
    EvalTermConcat(c, k, env);
    EvalPartition(t, consts, env);
  }

  /** Ordering a list of terms does not change its sum. */
  lemma {:induction false} OrderTermsKeepsValue(ts: seq<Term>, consts: map<string, int>, env: Env)
    requires OrderTerms(ts, consts).Ok?
    ensures EvalTerms(OrderTerms(ts, consts).value, env) == EvalTerms(ts, env)
  {
    if |ts| > 0 {
      OrderTermKeepsValue(ts[0], consts, env);
      OrderTermsKeepsValue(ts[1..], consts, env);
      var r := OrderTerms(ts, consts).value;
      assert r[1..] == OrderTerms(ts[1..], consts).value;
    }
  }

  /** A built equation evaluates to the expression it was built from. */
  lemma MakeEquationSound(e: Expr, consts: map<string, int>, sol: map<string, int>)
    requires MakeEquation(e, consts).Ok?
    requires MakeEquation(e, consts).value.prms <= sol.Keys
    ensures Eval(MakeEquation(e, consts).value, sol) == EvalExpr(e, Bind(consts, sol))
  {
    OrderTermsKeepsValue(GetTerms(e), consts, Bind(consts, sol));
    GetTermsSound(e, Bind(consts, sol));
  }

  // ---------------------------------------------------------------------
  // The equations and orderings the solver front end is expected to yield.

  /** The single factor f as a part for the role: itself or nothing. */
  function Keep(f: Factor, consts: map<string, int>, role: Role): Term {
    if RoleOf(f, consts) == role then [f] else []
  }

  lemma PartPair(a: Factor, b: Factor, consts: map<string, int>, role: Role)
    ensures Part([a, b], consts, role) == Keep(a, consts, role) + Keep(b, consts, role)
  {
    assert [b][1..] == [];
    assert [a, b][1..] == [b];
  }

  lemma PartTriple(a: Factor, b: Factor, c: Factor, consts: map<string, int>, role: Role)
    ensures Part([a, b, c], consts, role) == Keep(a, consts, role) + Keep(b, consts, role) + Keep(c, consts, role)
  {
    assert [a, b, c][1..] == [b, c];
    PartPair(b, c, consts, role);
  }

  /** The parts of a three-factor term, for all three roles. */
  lemma PartsTriple(a: Factor, b: Factor, c: Factor, consts: map<string, int>)
    ensures Coefs([a, b, c], consts) == Keep(a, consts, Coefficient) + Keep(b, consts, Coefficient) + Keep(c, consts, Coefficient)
    ensures ConstNames([a, b, c], consts) == Keep(a, consts, Constant) + Keep(b, consts, Constant) + Keep(c, consts, Constant)
    ensures Params([a, b, c], consts) == Keep(a, consts, Parameter) + Keep(b, consts, Parameter) + Keep(c, consts, Parameter)
  {
    PartTriple(a, b, c, consts, Coefficient);
    PartTriple(a, b, c, consts, Constant);
    PartTriple(a, b, c, consts, Parameter);
  }

  /** Ordering a list of two terms orders each. */
  lemma OrderTermsPair(t0: Term, t1: Term, consts: map<string, int>)
    requires OrderTerm(t0, consts).Ok? && OrderTerm(t1, consts).Ok?
    ensures OrderTerms([t0, t1], consts) == Ok([OrderTerm(t0, consts).value, OrderTerm(t1, consts).value])
  {
    OrderTermsOne(t1, consts);
    assert [t0, t1][1..] == [t1];
    OrderTermsCons([t0, t1], consts);
    assert [OrderTerm(t0, consts).value] + [OrderTerm(t1, consts).value]
      == [OrderTerm(t0, consts).value, OrderTerm(t1, consts).value];
  }

  lemma OrderTermsOne(t: Term, consts: map<string, int>)
    requires OrderTerm(t, consts).Ok?
    ensures OrderTerms([t], consts) == Ok([OrderTerm(t, consts).value])
  {
    assert [t][1..] == [];
    assert OrderTerms([], consts) == Ok([]);
    OrderTermsCons([t], consts);
    assert [OrderTerm(t, consts).value] + [] == [OrderTerm(t, consts).value];
  }

  /** Ordering a nonempty list orders its head and then its tail. */
  lemma OrderTermsCons(ts: seq<Term>, consts: map<string, int>)
    requires |ts| > 0 && OrderTerm(ts[0], consts).Ok? && OrderTerms(ts[1..], consts).Ok?
    ensures OrderTerms(ts, consts) == Ok([OrderTerm(ts[0], consts).value] + OrderTerms(ts[1..], consts).value)
  {
  }

  /** The free parameters of two canonical terms. */
  lemma ParamKeysPair(u0: Term, u1: Term, consts: map<string, int>)
    requires IsOrdered(u0, consts) && IsOrdered(u1, consts)
    ensures ParamKeys([u0, u1], consts) == {ParamKey(u0), ParamKey(u1)}
  {
    var ts := [u0, u1];
    assert ts[0] == u0 && ts[1] == u1;
    assert ParamKey(u0) in ParamKeys(ts, consts);
    assert ParamKey(u1) in ParamKeys(ts, consts);
    KeysWithin(ts, consts);
  }

  lemma KeysWithin(ts: seq<Term>, consts: map<string, int>)
    requires |ts| == 2 && IsOrdered(ts[0], consts) && IsOrdered(ts[1], consts)
    ensures ParamKeys(ts, consts) <= {ParamKey(ts[0]), ParamKey(ts[1])}
  {
    var two := {ParamKey(ts[0]), ParamKey(ts[1])};
    assert forall i :: 0 <= i < |ts| ==> ParamKey(ts[i]) in two by {
      forall i | 0 <= i < |ts| ensures ParamKey(ts[i]) in two {
        if i == 0 { } else { assert i == 1; }
      }
    }
  }

  /** Canonical shapes: a parameter, alone or led by a coefficient. */
  lemma OrderedParamShapes(k: int, p: string, consts: map<string, int>)
    requires BaseName(p) !in consts
    ensures IsOrdered([Sym(p)], consts)
    ensures IsOrdered([Coef(k), Sym(p)], consts)
  {
  }

  /** Canonical shapes: a parameter led by a constant name, and by a coefficient before that. */
  lemma OrderedConstShapes(k: int, m: string, p: string, consts: map<string, int>)
    requires BaseName(m) in consts && BaseName(p) !in consts
    ensures IsOrdered([Sym(m), Sym(p)], consts)
    ensures IsOrdered([Coef(k), Sym(m), Sym(p)], consts)
  {
  }

  /** Canonical shape: a parameter led by two equal coefficients. */
  lemma OrderedDoubleCoef(k: int, p: string, consts: map<string, int>)
    requires BaseName(p) !in consts
    ensures IsOrdered([Coef(k), Coef(k), Sym(p)], consts)
  {
  }

  /** The plain names a, b, x and y against the constants a = 2 and b = 4. */
  lemma BaseNamesOf(c: map<string, int>)
    requires c == map["a" := 2, "b" := 4]
    ensures BaseName("a") in c && BaseName("b") in c && BaseName("x") !in c && BaseName("y") !in c
  {
  }

  lemma ABConstants(c: map<string, int>)
    requires c == map["a" := 1, "b" := 2]
    ensures "a" in c && "b" in c && "x" !in c && "y" !in c
  {
  }

  /** The equation built from an expression whose two terms are already canonical. */
  lemma MakeEquationPair(e: Expr, consts: map<string, int>, t0: Term, t1: Term)
    requires GetTerms(e) == [t0, t1]
    requires IsOrdered(t0, consts) && IsOrdered(t1, consts)
    ensures MakeEquation(e, consts) == Ok(LinearEquation([t0, t1], consts, {ParamKey(t0), ParamKey(t1)}))
  {
    OrderedIsFixed(t0, consts);
    OrderedIsFixed(t1, consts);
    OrderTermsPair(t0, t1, consts);
    ParamKeysPair(t0, t1, consts);
  }

  /** x+y yields the terms x and y and the two parameters. */
  lemma ExampleSumEquation(e: Expr)
    requires e == Add(Name("x"), Name("y"))
    ensures MakeEquation(e, map[]) == Ok(LinearEquation([[Sym("x")], [Sym("y")]], map[], {"x", "y"}))
  {
    ExampleSums();
    OrderedParamShapes(-1, "x", map[]);
    OrderedParamShapes(-1, "y", map[]);
    MakeEquationPair(e, map[], [Sym("x")], [Sym("y")]);
  }

  /** x-y yields the terms x and -1*y. */
  lemma ExampleDifferenceEquation(e: Expr)
    requires e == Sub(Name("x"), Name("y"))
    ensures MakeEquation(e, map[]) == Ok(LinearEquation([[Sym("x")], [Coef(-1), Sym("y")]], map[], {"x", "y"}))
  {
    ExampleSums();
    OrderedParamShapes(-1, "x", map[]);
    OrderedParamShapes(-1, "y", map[]);
    MakeEquationPair(e, map[], [Sym("x")], [Coef(-1), Sym("y")]);
  }

  /** With constants a and b, a*x+b*y keeps its terms and has the parameters x and y. */
  lemma ExampleConstantsEquation(e: Expr, c: map<string, int>)
    requires e == Add(Mult(Name("a"), Name("x")), Mult(Name("b"), Name("y"))) && c == map["a" := 1, "b" := 2]
    ensures MakeEquation(e, c) == Ok(LinearEquation([[Sym("a"), Sym("x")], [Sym("b"), Sym("y")]], c, {"x", "y"}))
  {
    ExampleFactors();
    AddSingles(Mult(Name("a"), Name("x")), Mult(Name("b"), Name("y")), [Sym("a"), Sym("x")], [Sym("b"), Sym("y")]);
    ABConstants(c);
    OrderedConstShapes(-1, "a", "x", c);
    OrderedConstShapes(-1, "b", "y", c);
    MakeEquationPair(e, c, [Sym("a"), Sym("x")], [Sym("b"), Sym("y")]);
  }

  lemma ExampleScaledDifference()
    ensures GetTerms(Sub(Mult(Name("a"), Name("x")), Mult(Name("b"), Name("y")))) ==
      [[Sym("a"), Sym("x")], [Coef(-1), Sym("b"), Sym("y")]]
  {
    ExampleFactors();
    NegateSingle([Sym("b"), Sym("y")]);
    assert [Coef(-1)] + [Sym("b"), Sym("y")] == [Coef(-1), Sym("b"), Sym("y")];
  }

  /** With constants a and b, a*x-b*y negates its second term. */
  lemma ExampleScaledDifferenceEquation(e: Expr, c: map<string, int>)
    requires e == Sub(Mult(Name("a"), Name("x")), Mult(Name("b"), Name("y")))
    requires "a" in c && "b" in c && "x" !in c && "y" !in c
    ensures MakeEquation(e, c) == Ok(LinearEquation([[Sym("a"), Sym("x")], [Coef(-1), Sym("b"), Sym("y")]], c, {"x", "y"}))
  {
    ExampleScaledDifference();
    OrderedConstShapes(-1, "a", "x", c);
    OrderedConstShapes(-1, "b", "y", c);
    MakeEquationPair(e, c, [Sym("a"), Sym("x")], [Coef(-1), Sym("b"), Sym("y")]);
  }

  /** With constants a and b, -a*x-b*y negates both terms. */
  lemma ExampleNegatedEquation(e: Expr, c: map<string, int>)
    requires e == Sub(Mult(Neg(Name("a")), Name("x")), Mult(Name("b"), Name("y"))) && c == map["a" := 1, "b" := 2]
    ensures MakeEquation(e, c) ==
      Ok(LinearEquation([[Coef(-1), Sym("a"), Sym("x")], [Coef(-1), Sym("b"), Sym("y")]], c, {"x", "y"}))
  {
    assert GetTerms(e) == [[Coef(-1), Sym("a"), Sym("x")], [Coef(-1), Sym("b"), Sym("y")]] by {
      ExampleNegatedProducts();
    }
    ABConstants(c);
    OrderedConstShapes(-1, "a", "x", c);
    OrderedConstShapes(-1, "b", "y", c);
    MakeEquationPair(e, c, [Coef(-1), Sym("a"), Sym("x")], [Coef(-1), Sym("b"), Sym("y")]);
  }

  /** With constants g5 and g1, a product of a constant and a baseline keeps the constant first. */
  lemma ExampleConstantFirst(e: Expr, c: map<string, int>)
    requires e == Mult(Name("g1"), Name("bl103")) && c == map["g5" := 1, "g1" := 1]
    ensures MakeEquation(e, c) == Ok(LinearEquation([[Sym("g1"), Sym("bl103")]], c, {"bl103"}))
  {
    var t := [Sym("g1"), Sym("bl103")];
    ProductSingle([Sym("g1")], [Sym("bl103")]);
    assert [Sym("g1")] + [Sym("bl103")] == t;
    assert GetTerms(e) == [t];
    OrderedIsFixed(t, c);
    OrderTermsOne(t, c);
    assert ParamKeys([t], c) == {"bl103"} by {
      assert [t][0] == t;
      assert ParamKey(t) == "bl103";
    }
  }

  /** A coefficient after the parameter moves before it. */
  lemma ExampleOrderCoefficients()
    ensures OrderTerm([Coef(1), Sym("y"), Coef(1)], map[]) == Ok([Coef(1), Coef(1), Sym("y")])
  {
    var t := [Coef(1), Sym("y"), Coef(1)];
    assert Coefs(t, map[]) == [Coef(1), Coef(1)] by { PartTriple(Coef(1), Sym("y"), Coef(1), map[], Coefficient); }
    assert ConstNames(t, map[]) == [] by { PartTriple(Coef(1), Sym("y"), Coef(1), map[], Constant); }
    assert Params(t, map[]) == [Sym("y")] by { PartTriple(Coef(1), Sym("y"), Coef(1), map[], Parameter); }
    OrderTermValue(t, map[]);
    assert [Coef(1), Coef(1)] + [] + [Sym("y")] == [Coef(1), Coef(1), Sym("y")];
  }

  /** A constant name after the parameter moves before it. */
  lemma ExampleOrderConstants()
    ensures OrderTerm([Coef(1), Sym("x"), Sym("a")], map["a" := 2, "b" := 4]) == Ok([Coef(1), Sym("a"), Sym("x")])
  {
    var c := map["a" := 2, "b" := 4];
    BaseNamesOf(c);
    var t := [Coef(1), Sym("x"), Sym("a")];
    assert Coefs(t, c) == [Coef(1)] by { PartTriple(Coef(1), Sym("x"), Sym("a"), c, Coefficient); }
    assert ConstNames(t, c) == [Sym("a")] by { PartTriple(Coef(1), Sym("x"), Sym("a"), c, Constant); }
    assert Params(t, c) == [Sym("x")] by { PartTriple(Coef(1), Sym("x"), Sym("a"), c, Parameter); }
    OrderTermValue(t, c);
    assert [Coef(1)] + [Sym("a")] + [Sym("x")] == [Coef(1), Sym("a"), Sym("x")];
  }

  /** Lists of terms with coefficients only: kept when canonical, reordered otherwise. */
  lemma ExampleOrderListCoefficients()
    ensures OrderTerms([[Coef(1), Coef(1), Sym("x")], [Coef(1), Coef(1), Sym("y")]], map[]) ==
      Ok([[Coef(1), Coef(1), Sym("x")], [Coef(1), Coef(1), Sym("y")]])
    ensures OrderTerms([[Coef(1), Coef(1), Sym("x")], [Coef(1), Sym("y"), Coef(1)]], map[]) ==
      Ok([[Coef(1), Coef(1), Sym("x")], [Coef(1), Coef(1), Sym("y")]])
  {
    var u, v, w := [Coef(1), Coef(1), Sym("x")], [Coef(1), Coef(1), Sym("y")], [Coef(1), Sym("y"), Coef(1)];
    assert OrderTerm(u, map[]) == Ok(u) by { OrderedDoubleCoef(1, "x", map[]); OrderedIsFixed(u, map[]); }
    assert OrderTerm(v, map[]) == Ok(v) by { OrderedDoubleCoef(1, "y", map[]); OrderedIsFixed(v, map[]); }
    assert OrderTerm(w, map[]) == Ok(v) by { ExampleOrderCoefficients(); }
    OrderTermsPair(u, v, map[]);
    OrderTermsPair(u, w, map[]);
  }

  /** Lists of terms with constant names, with a = 2 and b = 4. */
  lemma ExampleOrderListConstants()
    ensures OrderTerms([[Coef(1), Sym("a"), Sym("x")], [Coef(1), Sym("b"), Sym("y")]], map["a" := 2, "b" := 4]) ==
      Ok([[Coef(1), Sym("a"), Sym("x")], [Coef(1), Sym("b"), Sym("y")]])
    ensures OrderTerms([[Coef(1), Sym("x"), Sym("a")], [Coef(1), Sym("b"), Sym("y")]], map["a" := 2, "b" := 4]) ==
      Ok([[Coef(1), Sym("a"), Sym("x")], [Coef(1), Sym("b"), Sym("y")]])
  {
    var c := map["a" := 2, "b" := 4];
    BaseNamesOf(c);
    var u, v, w := [Coef(1), Sym("a"), Sym("x")], [Coef(1), Sym("b"), Sym("y")], [Coef(1), Sym("x"), Sym("a")];
    assert OrderTerm(u, c) == Ok(u) by { OrderedConstShapes(1, "a", "x", c); OrderedIsFixed(u, c); }
    assert OrderTerm(v, c) == Ok(v) by { OrderedConstShapes(1, "b", "y", c); OrderedIsFixed(v, c); }
    assert OrderTerm(w, c) == Ok(u) by { ExampleOrderConstants(); }
    OrderTermsPair(u, v, c);
    OrderTermsPair(w, v, c);
  }

  /** A list of gain-times-baseline terms is already canonical. */
  lemma ExampleOrderListGains()
    ensures OrderTerms([[Sym("g5"), Sym("bl95")], [Sym("g1"), Sym("bl111")]], map["g5" := 1, "g1" := 1]) ==
      Ok([[Sym("g5"), Sym("bl95")], [Sym("g1"), Sym("bl111")]])
  {
    var c := map["g5" := 1, "g1" := 1];
    OrderedConstShapes(1, "g5", "bl95", c);
    OrderedConstShapes(1, "g1", "bl111", c);
    OrderedIsFixed([Sym("g5"), Sym("bl95")], c);
    OrderedIsFixed([Sym("g1"), Sym("bl111")], c);
    OrderTermsPair([Sym("g5"), Sym("bl95")], [Sym("g1"), Sym("bl111")], c);
  }

  /** A non-constant c makes two parameters; a term of constants has none. */
  lemma ExampleTermCheck()
    ensures OrderTerm([Sym("c"), Sym("x"), Sym("a")], map["a" := 2, "b" := 4]) == Err(NonLinearTerm)
    ensures OrderTerm([Coef(1), Sym("a"), Sym("b")], map["a" := 2, "b" := 4]) == Err(NonLinearTerm)
  {
    var c := map["a" := 2, "b" := 4];
    assert |Params([Sym("c"), Sym("x"), Sym("a")], c)| == 2 by {
      PartTriple(Sym("c"), Sym("x"), Sym("a"), c, Parameter);
    }
    assert |Params([Coef(1), Sym("a"), Sym("b")], c)| == 0 by {
      PartTriple(Coef(1), Sym("a"), Sym("b"), c, Parameter);
    }
  }

  /** A list with a term that is not linear is rejected. */
  lemma ExampleTermCheckLists()
    ensures OrderTerms([[Sym("c"), Sym("x"), Sym("a")], [Coef(1), Sym("b"), Sym("y")]], map["a" := 2, "b" := 4]) ==
      Err(NonLinearTerm)
    ensures OrderTerms([[Coef(1), Sym("a"), Sym("b")], [Coef(1), Sym("b"), Sym("y")]], map["a" := 2, "b" := 4]) ==
      Err(NonLinearTerm)
  {
    ExampleTermCheck();
    var ts4 := [[Sym("c"), Sym("x"), Sym("a")], [Coef(1), Sym("b"), Sym("y")]];
    var ts5 := [[Coef(1), Sym("a"), Sym("b")], [Coef(1), Sym("b"), Sym("y")]];
    assert ts4[0] == [Sym("c"), Sym("x"), Sym("a")] && ts5[0] == [Coef(1), Sym("a"), Sym("b")];
  }

  /** A conjugated constant a_ is the constant a, so a_*x has the one parameter x. */
  lemma ExampleConjugateConstant(e: Expr, c: map<string, int>)
    requires e == Mult(Name("a_"), Name("x")) && c == map["a" := 2]
    ensures MakeEquation(e, c) == Ok(LinearEquation([[Sym("a_"), Sym("x")]], c, {"x"}))
  {
    var t := [Sym("a_"), Sym("x")];
    ProductSingle([Sym("a_")], [Sym("x")]);
    assert [Sym("a_")] + [Sym("x")] == t;
    assert GetTerms(e) == [t];
    assert BaseName("a_") == "a";
    OrderedConstShapes(1, "a_", "x", c);
    OrderedIsFixed(t, c);
    OrderTermsOne(t, c);
    assert ParamKeys([t], c) == {"x"} by {
      assert [t][0] == t;
      assert ParamKey(t) == "x";
    }
  }

  lemma EvalTermsPair(t0: Term, t1: Term, env: Env)
    ensures EvalTerms([t0, t1], env) == EvalTerm(t0, env) + EvalTerm(t1, env)
  {
    assert [t1][1..] == [];
    assert EvalTerms([t1], env) == EvalTerm(t1, env) + EvalTerms([], env);
    assert [t0, t1][1..] == [t1];
  }

  lemma EvalTermPair(a: Factor, b: Factor, env: Env)
    ensures EvalTerm([a, b], env) == EvalFactor(a, env) * EvalFactor(b, env)
  {
    assert [b][1..] == [];
    assert EvalTerm([b], env) == EvalFactor(b, env) * EvalTerm([], env);
    assert [a, b][1..] == [b];
  }

  lemma EvalTermTriple(a: Factor, b: Factor, c: Factor, env: Env)
    ensures EvalTerm([a, b, c], env) == EvalFactor(a, env) * (EvalFactor(b, env) * EvalFactor(c, env))
  {
    assert [a, b, c][1..] == [b, c];
    EvalTermPair(b, c, env);
  }

  /** With a = 2 and b = 4, the equation of a*x - b*y at x = 3, y = 7. */
  lemma ExampleEval()
    ensures Eval(LinearEquation([[Sym("a"), Sym("x")], [Coef(-1), Sym("b"), Sym("y")]], map["a" := 2, "b" := 4], {"x", "y"}),
                 map["x" := 3, "y" := 7]) == 2 * 3 - 4 * 7
  {
    var env := Bind(map["a" := 2, "b" := 4], map["x" := 3, "y" := 7]);
    assert env("a") == 2 && env("b") == 4 && env("x") == 3 && env("y") == 7;
    EvalTermsPair([Sym("a"), Sym("x")], [Coef(-1), Sym("b"), Sym("y")], env);
    EvalTermPair(Sym("a"), Sym("x"), env);
    EvalTermTriple(Coef(-1), Sym("b"), Sym("y"), env);
  }

  lemma ExampleConjugateTerms()
    ensures GetTerms(Sub(Name("x_"), Name("y"))) == [[Sym("x_")], [Coef(-1), Sym("y")]]
  {
    NegateSingle([Sym("y")]);
    assert [Coef(-1)] + [Sym("y")] == [Coef(-1), Sym("y")];
  }

  lemma ExampleConjugateEquation(e: Expr)
    requires e == Sub(Name("x_"), Name("y"))
    ensures MakeEquation(e, map[]) == Ok(LinearEquation([[Sym("x_")], [Coef(-1), Sym("y")]], map[], {"x", "y"}))
  {
    ExampleConjugateTerms();
    assert BaseName("x_") == "x";
    OrderedParamShapes(-1, "x_", map[]);
    OrderedParamShapes(-1, "y", map[]);
    MakeEquationPair(e, map[], [Sym("x_")], [Coef(-1), Sym("y")]);
  }

  /** A conjugated parameter x_ reads the solution key x. */
  lemma ExampleConjugateKey()
    ensures Eval(LinearEquation([[Sym("x_")], [Coef(-1), Sym("y")]], map[], {"x", "y"}), map["x" := 3, "y" := 7]) == 3 - 7
  {
    var env := Bind(map[], map["x" := 3, "y" := 7]);
    assert BaseName("x_") == "x";
    assert env("x_") == 3 && env("y") == 7;
    EvalTermsPair([Sym("x_")], [Coef(-1), Sym("y")], env);
    EvalTermPair(Coef(-1), Sym("y"), env);
    assert EvalTerm([Sym("x_")], env) == env("x_") * EvalTerm([], env);
  }
}
