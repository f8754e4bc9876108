/**
 * Term extraction: a parsed arithmetic expression becomes a list of
 * multiplicative terms, each a flat list of factors (a numeric coefficient
 * or a symbol name). The sum of the products of the terms is the value of
 * the expression.
 */
module Terms {

  /** A factor of a term: an integer coefficient or a symbol name, kept verbatim. */
  datatype Factor = Coef(c: int) | Sym(name: string)

  /** A term is the product of its factors, in order. */
  type Term = seq<Factor>

  /** The expression tree handed over by the expression parser. */
  datatype Expr =
    | Add(left: Expr, right: Expr)
    | Sub(left: Expr, right: Expr)
    | Mult(left: Expr, right: Expr)
    | Neg(operand: Expr)
    | Num(n: int)
    | Name(id: string)

  /** The value of every symbol name. */
  type Env = string -> int

  /** The arithmetic meaning of an expression. */
  function EvalExpr(e: Expr, env: Env): int {
    match e
    case Add(l, r) => EvalExpr(l, env) + EvalExpr(r, env)
    case Sub(l, r) => EvalExpr(l, env) - EvalExpr(r, env)
    case Mult(l, r) => EvalExpr(l, env) * EvalExpr(r, env)
    case Neg(x) => -EvalExpr(x, env)
    case Num(n) => n
    case Name(id) => env(id)
  }

  /** The symbol names an expression mentions. */
  function Names(e: Expr): set<string> {
    match e
    case Add(l, r) => Names(l) + Names(r)
    case Sub(l, r) => Names(l) + Names(r)
    case Mult(l, r) => Names(l) + Names(r)
    case Neg(x) => Names(x)
    case Num(_) => {}
    case Name(id) => {id}
  }

  function EvalFactor(f: Factor, env: Env): int {
    match f
    case Coef(c) => c
    case Sym(n) => env(n)
  }

  /** The product of the factors of a term (1 for the empty product). */
  function EvalTerm(t: Term, env: Env): int {
    if |t| == 0 then 1 else EvalFactor(t[0], env) * EvalTerm(t[1..], env)
  }

  /** The sum of the values of the terms (0 for the empty sum). */
  function EvalTerms(ts: seq<Term>, env: Env): int {
    if |ts| == 0 then 0 else EvalTerm(ts[0], env) + EvalTerms(ts[1..], env)
  }

  /** The symbol names occurring in a list of terms. */
  function TermsNames(ts: seq<Term>): set<string> {
    set t, f | t in ts && f in t && f.Sym? :: f.name
  }

  /** Negates every term by prepending a coefficient of -1. */
  function Negate(ts: seq<Term>): (r: seq<Term>)
    ensures |r| == |ts|
    ensures forall i :: 0 <= i < |ts| ==> r[i] == [Coef(-1)] + ts[i]
  {
    if |ts| == 0 then [] else [[Coef(-1)] + ts[0]] + Negate(ts[1..])
  }

  /** The term t multiplied into every term of rs, t's factors first. */
  function Scale(t: Term, rs: seq<Term>): (r: seq<Term>)
    ensures |r| == |rs|
    ensures forall j :: 0 <= j < |rs| ==> r[j] == t + rs[j]
  {
    if |rs| == 0 then [] else [t + rs[0]] + Scale(t, rs[1..])
  }

  /** Distributes a product over two term lists, left operand's terms outermost. */
  function Product(ls: seq<Term>, rs: seq<Term>): seq<Term> {
    if |ls| == 0 then [] else Scale(ls[0], rs) + Product(ls[1..], rs)
  }

  /** A product has one term per pair of a left and a right term. */
  lemma {:induction false} ProductLength(ls: seq<Term>, rs: seq<Term>)
    ensures |Product(ls, rs)| == |ls| * |rs|
  {
    if |ls| > 0 {
      ProductLength(ls[1..], rs);
      MulStep(|ls|, |rs|);
    }
  }

  /**
   * Term extraction: a sum concatenates the operands' terms, a difference
   * or a unary minus negates terms by prepending -1, a product flattens the
   * operands' factors into one term (distributing over multi-term operands),
   * a literal is a coefficient and a name a symbol.
   */
  function GetTerms(e: Expr): (r: seq<Term>)
    ensures |r| >= 1
    ensures forall t :: t in r ==> |t| >= 1
  {
    match e
    case Add(l, r) => GetTerms(l) + GetTerms(r)
    case Sub(l, r) => GetTerms(l) + Negate(GetTerms(r))
    case Mult(l, r) =>
      var ls, rs := GetTerms(l), GetTerms(r);
      ProductMembers(ls, rs);
      ProductAt(ls, rs, 0, 0);
      Product(ls, rs)
    case Neg(x) => Negate(GetTerms(x))
    case Num(n) => [[Coef(n)]]
    case Name(id) => [[Sym(id)]]
  }

  /** Every term of a product is a left term followed by a right term. */
  lemma {:induction false} ProductMembers(ls: seq<Term>, rs: seq<Term>)
    ensures forall t :: t in Product(ls, rs) ==>
      exists i, j :: 0 <= i < |ls| && 0 <= j < |rs| && t == ls[i] + rs[j]
  {
    if |ls| > 0 {
      ProductMembers(ls[1..], rs);
      forall t | t in Product(ls, rs)
        ensures exists i, j :: 0 <= i < |ls| && 0 <= j < |rs| && t == ls[i] + rs[j]
      {
        if t in Scale(ls[0], rs) {
          var j :| 0 <= j < |rs| && Scale(ls[0], rs)[j] == t;
          assert t == ls[0] + rs[j];
        } else {
          assert t in Product(ls[1..], rs);
          var i, j :| 0 <= i < |ls[1..]| && 0 <= j < |rs| && t == ls[1..][i] + rs[j];
          assert t == ls[i + 1] + rs[j];
        }
      }
    }
  }

  /** The terms of a product appear in left-major order: left term i with right term j at i * |rs| + j. */
  lemma ProductAt(ls: seq<Term>, rs: seq<Term>, i: nat, j: nat)
    requires i < |ls| && j < |rs|
    ensures i * |rs| + j < |Product(ls, rs)|
    ensures Product(ls, rs)[i * |rs| + j] == ls[i] + rs[j]
  {
    ProductAtStart(ls, rs, i, j);
    StartIsProduct(i, |rs|);
    IndexMove(Product(ls, rs), Start(i, |rs|) + j, i * |rs| + j);
  }

  /** The position where the block of left term i starts, when every block has n terms. */
  function Start(i: nat, n: nat): nat {
    if i == 0 then 0 else Start(i - 1, n) + n
  }

  lemma {:induction false} StartIsProduct(i: nat, n: nat)
    ensures Start(i, n) == i * n
  {
    if i > 0 {
      StartIsProduct(i - 1, n);
      MulStep(i, n);
    }
  }

  lemma IndexMove<T>(s: seq<T>, a: nat, b: nat)
    requires a == b && a < |s|
    ensures b < |s| && s[b] == s[a]
  {
  }

  lemma {:induction false} ProductAtStart(ls: seq<Term>, rs: seq<Term>, i: nat, j: nat)
    requires i < |ls| && j < |rs|
    ensures Start(i, |rs|) + j < |Product(ls, rs)|
    ensures Product(ls, rs)[Start(i, |rs|) + j] == ls[i] + rs[j]
  {
    if i == 0 {
      ProductAtHead(ls, rs, j);
    } else {
      ProductAtStart(ls[1..], rs, i - 1, j);
      ProductAtTail(ls, rs, i, j);
    }
  }

  /** Term Start(i - 1) + j of the product of the tail of ls is term Start(i) + j of the whole product. */
  lemma ProductAtTail(ls: seq<Term>, rs: seq<Term>, i: nat, j: nat)
    requires 0 < i < |ls| && j < |rs|
    requires Start(i - 1, |rs|) + j < |Product(ls[1..], rs)|
    requires Product(ls[1..], rs)[Start(i - 1, |rs|) + j] == ls[1..][i - 1] + rs[j]
    ensures Start(i, |rs|) + j < |Product(ls, rs)|
    ensures Product(ls, rs)[Start(i, |rs|) + j] == ls[i] + rs[j]
  {
    var head, tail := Scale(ls[0], rs), Product(ls[1..], rs);
    assert ls[1..][i - 1] == ls[i];
    assert Product(ls, rs) == head + tail;
    ShiftRight(Product(ls, rs), head, tail, Start(i - 1, |rs|) + j, Start(i, |rs|) + j, ls[i] + rs[j]);
  }

  /** Element k of the right part of a concatenation, counted from the start of the whole. */
  lemma ShiftRight<T>(s: seq<T>, head: seq<T>, tail: seq<T>, k: nat, m: nat, v: T)
    requires s == head + tail && k < |tail| && tail[k] == v && m == |head| + k
    ensures m < |s| && s[m] == v
  {
  }

  /** The first |rs| terms of a product are those of its first left term. */
  lemma ProductAtHead(ls: seq<Term>, rs: seq<Term>, j: nat)
    requires 0 < |ls| && j < |rs|
    ensures j < |Product(ls, rs)| && Product(ls, rs)[j] == ls[0] + rs[j]
  {
    var head, tail := Scale(ls[0], rs), Product(ls[1..], rs);
    assert Product(ls, rs) == head + tail;
    assert (head + tail)[j] == head[j];
  }

  lemma MulStep(i: int, n: int)
    ensures i * n == (i - 1) * n + n
  {
  }

  // ---------------------------------------------------------------------
  // The terms evaluate to the expression they were extracted from.

  lemma {:induction false} EvalTermConcat(a: Term, b: Term, env: Env)
    ensures EvalTerm(a + b, env) == EvalTerm(a, env) * EvalTerm(b, env)
  {
    if |a| > 0 {
      assert (a + b)[1..] == a[1..] + b;
      EvalTermConcat(a[1..], b, env);
      var x, y, z := EvalFactor(a[0], env), EvalTerm(a[1..], env), EvalTerm(b, env);
      assert x * (y * z) == (x * y) * z;
    } else {
      assert a + b == b;
    }
  }

  lemma {:induction false} EvalTermsConcat(us: seq<Term>, bs: seq<Term>, env: Env)
    ensures EvalTerms(us + bs, env) == EvalTerms(us, env) + EvalTerms(bs, env)
  {
    if |us| > 0 {
      assert (us + bs)[1..] == us[1..] + bs;
      EvalTermsConcat(us[1..], bs, env);
    } else {
      assert us + bs == bs;
    }
  }

  lemma {:induction false} EvalNegate(ts: seq<Term>, env: Env)
    ensures EvalTerms(Negate(ts), env) == -EvalTerms(ts, env)
  {
    if |ts| > 0 {
      EvalNegate(ts[1..], env);
      EvalTermConcat([Coef(-1)], ts[0], env);
      assert Negate(ts)[1..] == Negate(ts[1..]);
    }
  }

  lemma {:induction false} EvalScale(t: Term, rs: seq<Term>, env: Env)
    ensures EvalTerms(Scale(t, rs), env) == EvalTerm(t, env) * EvalTerms(rs, env)
  {
    if |rs| > 0 {
      EvalScale(t, rs[1..], env);
      EvalTermConcat(t, rs[0], env);
      assert Scale(t, rs)[1..] == Scale(t, rs[1..]);
      Distribute(EvalTerm(rs[0], env), EvalTerms(rs[1..], env), EvalTerm(t, env));
    }
  }

  lemma {:induction false} EvalProduct(ls: seq<Term>, rs: seq<Term>, env: Env)
    ensures EvalTerms(Product(ls, rs), env) == EvalTerms(ls, env) * EvalTerms(rs, env)
  {
    if |ls| > 0 {
      EvalProduct(ls[1..], rs, env);
      EvalTermsConcat(Scale(ls[0], rs), Product(ls[1..], rs), env);
      EvalScale(ls[0], rs, env);
      var x, y, z := EvalTerm(ls[0], env), EvalTerms(ls[1..], env), EvalTerms(rs, env);
      assert EvalTerms(Product(ls, rs), env) == x * z + y * z;
      assert EvalTerms(ls, env) == x + y;
      Distribute(x, y, z);
    }
  }

  lemma Distribute(x: int, y: int, z: int)
    ensures x * z + y * z == (x + y) * z
    ensures z * x + z * y == z * (x + y)
  {
  }

  /** Soundness of term extraction: the sum of the products of the terms is the expression's value. */
  lemma {:induction false} GetTermsSound(e: Expr, env: Env)
    ensures EvalTerms(GetTerms(e), env) == EvalExpr(e, env)
  {
    match e
    case Add(l, r) =>
      GetTermsSound(l, env); GetTermsSound(r, env);
      EvalTermsConcat(GetTerms(l), GetTerms(r), env);
    case Sub(l, r) =>
      GetTermsSound(l, env); GetTermsSound(r, env);
      EvalTermsConcat(GetTerms(l), Negate(GetTerms(r)), env);
      EvalNegate(GetTerms(r), env);
    case Mult(l, r) =>
      GetTermsSound(l, env); GetTermsSound(r, env);
      EvalProduct(GetTerms(l), GetTerms(r), env);
    case Neg(x) =>
      GetTermsSound(x, env);
      EvalNegate(GetTerms(x), env);
    case Num(n) =>
      assert EvalTerm([Coef(n)], env) == n * EvalTerm([], env);
    case Name(id) =>
      assert EvalTerm([Sym(id)], env) == env(id) * EvalTerm([], env);
  }

  /** Term extraction keeps exactly the symbol names of the expression, verbatim. */
  lemma {:induction false} GetTermsNames(e: Expr)
    ensures TermsNames(GetTerms(e)) == Names(e)
  {
    match e
    case Add(l, r) =>
      GetTermsNames(l); GetTermsNames(r);
      NamesConcat(GetTerms(l), GetTerms(r));
    case Sub(l, r) =>
      GetTermsNames(l); GetTermsNames(r);
      NamesConcat(GetTerms(l), Negate(GetTerms(r)));
      NamesNegate(GetTerms(r));
    case Mult(l, r) =>
      GetTermsNames(l); GetTermsNames(r);
      NamesProduct(GetTerms(l), GetTerms(r));
    case Neg(x) =>
      GetTermsNames(x);
      NamesNegate(GetTerms(x));
    case Num(n) =>
      assert TermsNames([[Coef(n)]]) == {};
    case Name(id) =>
      assert Sym(id) in [Sym(id)];
      assert TermsNames([[Sym(id)]]) == {id};
  }

  lemma NamesConcat(us: seq<Term>, bs: seq<Term>)
    ensures TermsNames(us + bs) == TermsNames(us) + TermsNames(bs)
  {
    forall n | n in TermsNames(us) ensures n in TermsNames(us + bs) {
      var t, f :| t in us && f in t && f.Sym? && f.name == n;
      assert t in us + bs;
    }
    forall n | n in TermsNames(bs) ensures n in TermsNames(us + bs) {
      var t, f :| t in bs && f in t && f.Sym? && f.name == n;
      assert t in us + bs;
    }
  }

  lemma NamesNegate(ts: seq<Term>)
    ensures TermsNames(Negate(ts)) == TermsNames(ts)
  {
    var ns := Negate(ts);
    forall n | n in TermsNames(ns) ensures n in TermsNames(ts) {
      var t, f :| t in ns && f in t && f.Sym? && f.name == n;
      var i :| 0 <= i < |ns| && ns[i] == t;
      assert f in ts[i];
    }
    forall n | n in TermsNames(ts) ensures n in TermsNames(ns) {
      var t, f :| t in ts && f in t && f.Sym? && f.name == n;
      var i :| 0 <= i < |ts| && ts[i] == t;
      assert f in ns[i] && ns[i] in ns;
    }
  }

  lemma NamesProduct(ls: seq<Term>, rs: seq<Term>)
    requires |ls| >= 1 && |rs| >= 1
    ensures TermsNames(Product(ls, rs)) == TermsNames(ls) + TermsNames(rs)
  {
    NamesProductSub(ls, rs);
    forall n | n in TermsNames(ls) ensures n in TermsNames(Product(ls, rs)) {
      NamesProductLeft(ls, rs, n);
    }
    forall n | n in TermsNames(rs) ensures n in TermsNames(Product(ls, rs)) {
      NamesProductRight(ls, rs, n);
    }
  }

  lemma NamesProductSub(ls: seq<Term>, rs: seq<Term>)
    ensures TermsNames(Product(ls, rs)) <= TermsNames(ls) + TermsNames(rs)
  {
    var ps := Product(ls, rs);
    ProductMembers(ls, rs);
    forall n | n in TermsNames(ps) ensures n in TermsNames(ls) + TermsNames(rs) {
      var t, f :| t in ps && f in t && f.Sym? && f.name == n;
      var i, j :| 0 <= i < |ls| && 0 <= j < |rs| && t == ls[i] + rs[j];
      if f in ls[i] { assert ls[i] in ls; } else { assert f in rs[j] && rs[j] in rs; }
    }
  }

  lemma NamesProductLeft(ls: seq<Term>, rs: seq<Term>, n: string)
    requires |rs| >= 1 && n in TermsNames(ls)
    ensures n in TermsNames(Product(ls, rs))
  {
    var t, f :| t in ls && f in t && f.Sym? && f.name == n;
    var i :| 0 <= i < |ls| && ls[i] == t;
    ProductHasPair(ls, rs, i, 0);
    assert f in ls[i] + rs[0];
  }

  lemma NamesProductRight(ls: seq<Term>, rs: seq<Term>, n: string)
    requires |ls| >= 1 && n in TermsNames(rs)
    ensures n in TermsNames(Product(ls, rs))
  {
    var t, f :| t in rs && f in t && f.Sym? && f.name == n;
    var j :| 0 <= j < |rs| && rs[j] == t;
    ProductHasPair(ls, rs, 0, j);
    assert f in ls[0] + rs[j];
  }

  /** Every pair of a left and a right term occurs in the product. */
  lemma {:induction false} ProductHasPair(ls: seq<Term>, rs: seq<Term>, i: nat, j: nat)
    requires i < |ls| && j < |rs|
    ensures ls[i] + rs[j] in Product(ls, rs)
  {
    assert Product(ls, rs) == Scale(ls[0], rs) + Product(ls[1..], rs);
    if i == 0 {
      assert Scale(ls[0], rs)[j] == ls[0] + rs[j];
    } else {
      ProductHasPair(ls[1..], rs, i - 1, j);
      assert ls[1..][i - 1] == ls[i];
    }
  }

  // ---------------------------------------------------------------------
  // The term lists the extractor is expected to produce.

  lemma NegateSingle(t: Term)
    ensures Negate([t]) == [[Coef(-1)] + t]
  {
  }

  lemma ProductSingle(a: Term, b: Term)
    ensures Product([a], [b]) == [a + b]
  {
    assert Scale(a, [b]) == [a + b];
    assert Product([a], [b]) == Scale(a, [b]) + Product([], [b]);
  }

  /** A product of two single terms is the single term of their factors, left first. */
  lemma MultSingles(l: Expr, r: Expr, a: Term, b: Term)
    requires GetTerms(l) == [a] && GetTerms(r) == [b]
    ensures GetTerms(Mult(l, r)) == [a + b]
  {
    ProductSingle(a, b);
  }

  /** A negated single term gains a leading -1. */
  lemma NegSingle(x: Expr, a: Term)
    requires GetTerms(x) == [a]
    ensures GetTerms(Neg(x)) == [[Coef(-1)] + a]
  {
    NegateSingle(a);
  }

  /** A difference of two single terms negates the right one. */
  lemma SubSingles(l: Expr, r: Expr, a: Term, b: Term)
    requires GetTerms(l) == [a] && GetTerms(r) == [b]
    ensures GetTerms(Sub(l, r)) == [a, [Coef(-1)] + b]
  {
    NegateSingle(b);
  }

  /** A sum of two single terms lists both. */
  lemma AddSingles(l: Expr, r: Expr, a: Term, b: Term)
    requires GetTerms(l) == [a] && GetTerms(r) == [b]
    ensures GetTerms(Add(l, r)) == [a, b]
  {
  }

  lemma ExampleSums()
    ensures GetTerms(Add(Name("x"), Name("y"))) == [[Sym("x")], [Sym("y")]]
    ensures GetTerms(Sub(Name("x"), Name("y"))) == [[Sym("x")], [Coef(-1), Sym("y")]]
    ensures GetTerms(Sub(Mult(Num(3), Name("x")), Name("y"))) == [[Coef(3), Sym("x")], [Coef(-1), Sym("y")]]
  {
    var x, y := Sym("x"), Sym("y");
    AddSingles(Name("x"), Name("y"), [x], [y]);
    SubSingles(Name("x"), Name("y"), [x], [y]);
    assert [Coef(-1)] + [y] == [Coef(-1), y];
    MultSingles(Num(3), Name("x"), [Coef(3)], [x]);
    assert [Coef(3)] + [x] == [Coef(3), x];
    SubSingles(Mult(Num(3), Name("x")), Name("y"), [Coef(3), x], [y]);
  }

  /** Negating a term that starts with a coefficient puts a second coefficient in front of it. */
  lemma ExampleNegatedCoefficient()
    ensures GetTerms(Sub(Name("x"), Mult(Num(3), Name("y")))) == [[Sym("x")], [Coef(-1), Coef(3), Sym("y")]]
  {
    MultSingles(Num(3), Name("y"), [Coef(3)], [Sym("y")]);
    assert [Coef(3)] + [Sym("y")] == [Coef(3), Sym("y")];
    SubSingles(Name("x"), Mult(Num(3), Name("y")), [Sym("x")], [Coef(3), Sym("y")]);
    assert [Coef(-1)] + [Coef(3), Sym("y")] == [Coef(-1), Coef(3), Sym("y")];
  }

  lemma ExampleUnary()
    ensures GetTerms(Add(Neg(Name("x")), Name("y"))) == [[Coef(-1), Sym("x")], [Sym("y")]]
  {
    NegSingle(Name("x"), [Sym("x")]);
    assert [Coef(-1)] + [Sym("x")] == [Coef(-1), Sym("x")];
    AddSingles(Neg(Name("x")), Name("y"), [Coef(-1), Sym("x")], [Sym("y")]);
  }

  lemma ExampleProducts()
    ensures GetTerms(Add(Mult(Name("a"), Name("x")), Mult(Mult(Mult(Name("a"), Name("b")), Name("c")), Name("y"))))
      == [[Sym("a"), Sym("x")], [Sym("a"), Sym("b"), Sym("c"), Sym("y")]]
  {
    ExampleFactors();
    AddSingles(Mult(Name("a"), Name("x")), Mult(Mult(Mult(Name("a"), Name("b")), Name("c")), Name("y")),
      [Sym("a"), Sym("x")], [Sym("a"), Sym("b"), Sym("c"), Sym("y")]);
  }

  lemma ExampleNegatedProducts()
    ensures GetTerms(Add(Mult(Neg(Name("a")), Name("x")), Mult(Mult(Mult(Name("a"), Name("b")), Name("c")), Name("y"))))
      == [[Coef(-1), Sym("a"), Sym("x")], [Sym("a"), Sym("b"), Sym("c"), Sym("y")]]
    ensures GetTerms(Sub(Mult(Name("a"), Name("x")), Mult(Mult(Mult(Name("a"), Name("b")), Name("c")), Name("y"))))
      == [[Sym("a"), Sym("x")], [Coef(-1), Sym("a"), Sym("b"), Sym("c"), Sym("y")]]
    ensures GetTerms(Sub(Mult(Neg(Name("a")), Name("x")), Mult(Name("b"), Name("y"))))
      == [[Coef(-1), Sym("a"), Sym("x")], [Coef(-1), Sym("b"), Sym("y")]]
  {
    var a, b, c, x, y := Sym("a"), Sym("b"), Sym("c"), Sym("x"), Sym("y");
    var ax, nax, abcy, bty := Mult(Name("a"), Name("x")), Mult(Neg(Name("a")), Name("x")),
      Mult(Mult(Mult(Name("a"), Name("b")), Name("c")), Name("y")), Mult(Name("b"), Name("y"));
    ExampleFactors();
    AddSingles(nax, abcy, [Coef(-1), a, x], [a, b, c, y]);
    SubSingles(ax, abcy, [a, x], [a, b, c, y]);
    assert [Coef(-1)] + [a, b, c, y] == [Coef(-1), a, b, c, y];
    SubSingles(nax, bty, [Coef(-1), a, x], [b, y]);
    assert [Coef(-1)] + [b, y] == [Coef(-1), b, y];
  }

  /** The single-term products the examples above are built from. */
  lemma ExampleFactors()
    ensures GetTerms(Mult(Name("a"), Name("x"))) == [[Sym("a"), Sym("x")]]
    ensures GetTerms(Mult(Neg(Name("a")), Name("x"))) == [[Coef(-1), Sym("a"), Sym("x")]]
    ensures GetTerms(Mult(Mult(Mult(Name("a"), Name("b")), Name("c")), Name("y"))) == [[Sym("a"), Sym("b"), Sym("c"), Sym("y")]]
    ensures GetTerms(Mult(Name("b"), Name("y"))) == [[Sym("b"), Sym("y")]]
  {
    var a, b, c, x, y := Sym("a"), Sym("b"), Sym("c"), Sym("x"), Sym("y");
    MultSingles(Name("a"), Name("x"), [a], [x]);
    assert [a] + [x] == [a, x];
    NegSingle(Name("a"), [a]);
    assert [Coef(-1)] + [a] == [Coef(-1), a];
    MultSingles(Neg(Name("a")), Name("x"), [Coef(-1), a], [x]);
    assert [Coef(-1), a] + [x] == [Coef(-1), a, x];
    MultSingles(Name("a"), Name("b"), [a], [b]);
    assert [a] + [b] == [a, b];
    MultSingles(Mult(Name("a"), Name("b")), Name("c"), [a, b], [c]);
    assert [a, b] + [c] == [a, b, c];
    MultSingles(Mult(Mult(Name("a"), Name("b")), Name("c")), Name("y"), [a, b, c], [y]);
    assert [a, b, c] + [y] == [a, b, c, y];
    MultSingles(Name("b"), Name("y"), [b], [y]);
    assert [b] + [y] == [b, y];
  }
}
