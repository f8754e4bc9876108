# linsolve symbolic front end in Dafny

This project models the symbolic front end of `linsolve`, a weighted
least-squares solver for systems of textual equations over named unknowns,
and proves properties of the model. It covers the parts whose behaviour the
repository's test suite (`linsolve/tests/linsolve_test.py`) pins down exactly:

- **Term extraction** (`ast_getterms`, module `Terms`). A parsed expression
  (`Add | Sub | Mult | Neg | Num | Name`) becomes a list of multiplicative
  terms. Each term is a list of factors, where a factor is an integer
  coefficient or a symbol name. Sums concatenate. A difference or a unary
  minus prepends a `-1` coefficient to each negated term. Products
  concatenate factor lists, in source order, distributing over sums.
- **Taylor expansion** (`taylor_expand`, module `Taylor`). Each term is kept,
  then followed by one copy per occurrence of a non-constant symbol factor.
  In each copy, only that factor is renamed with the prefix.
- **Precision rules** (`infer_dtype`, `verify_weights`, module `Precision`).
  Each value is classified as a pair (complex, high precision). The working
  dtype is the join of those pairs. Weights default to 1 per key. Otherwise
  the weight keys must equal the data keys and no weight may be complex.
- **`LinearEquation`** (module `Equation`). A factor is a coefficient, a
  constant (a symbol whose name, with a trailing `_` stripped, is among the
  equation's constants) or a free parameter.
  `order_terms` puts every term into canonical order: coefficients, then
  constant names, then its single parameter last. A term with no parameter,
  or with more than one, is rejected (`NonLinearTerm`). The parameters are
  the names of the last factors, with a trailing `_` (the conjugation
  marker) stripped, so no parameter is a constant. `eval` is the sum of the
  products of the terms; for canonical terms that is each term's
  coefficient (constants included) times the value of its parameter.
- **`LinearSolver.get_A`** (module `Solver`). The solver object holds its
  equations, their parameters and a column order `prm_order`, which can be
  overridden. `GetA` fills a fresh equations-by-parameters array: each term
  adds its coefficient into the column of its parameter.

The main results:

- extraction is sound: the terms sum to the expression's value for every
  assignment of the names (`GetTermsSound`), and they mention exactly its
  names (`GetTermsNames`);
- ordering a term is a permutation of its factors (`OrderTermPermutes`);
  it keeps the term's value (`OrderTermKeepsValue`); it is the identity on
  canonical terms (`OrderedIsFixed`); it is idempotent (`OrderIdempotent`);
- a built equation evaluates to the expression it was built from
  (`MakeEquationSound`);
- the dtype inference is invariant under permutation, commutative,
  idempotent and monotone;
- Taylor expansion yields, per term, the term itself and one copy per
  occurrence of a free factor, each copy perturbing that factor; every free factor is perturbed in some copy; at zero
  perturbation the expansion has the value of the original terms; with the
  original symbols known, every copy is linear in its perturbation;
- the row `GetA` builds for an equation, multiplied by the vector of a
  solution's values laid out by `prm_order`, is the equation's value at that
  solution (`EquationRow`). The entry in the column of `p` is the
  coefficient of `p` (`EntryIsCoef`).

The example lemmas (and an example method, for the solver object) restate
the test suite's assertions on these functions, as far as integer values
and a single sample reach; the array-valued and complex-valued cases are
listed under "Left out".

## Intended behaviour and where the model departs from it

In the places below, the behaviour `linsolve` is designed to have either
differs from what its test suite asserts or is not exercised by it. The
model follows the test suite where it speaks, and otherwise makes the
choice stated here.

- A constant's value is meant to be folded into the term's coefficient
  when an equation is built. The tests expect constant names to stay in the
  terms symbolically (`[['a','x'],['b','y']]`, lines 67-73), and so does
  the model.
- A term without a numeric literal is meant to carry an implicit leading
  coefficient of 1. The tests expect `[['x'],['y']]` for `x+y` (lines 11
  and 62), with no coefficient, and so does the model.
- A term is meant to have at most one leading coefficient, and negating a
  term that already starts with one is meant to multiply it by -1. The
  model always prepends a `-1` coefficient, so `x-3*y` gives
  `[['x'],[-1,3,'y']]` rather than `[['x'],[-3,'y']]`
  (`Terms.ExampleNegatedCoefficient`). No test asserts the terms
  of a negated term that has a coefficient; the tests do accept terms with two leading
  coefficients as canonical (`[1,1,'x']`, lines 82-87), and both forms
  have the same value (`Terms.EvalNegate`).
- Constant names are meant to be sorted lexicographically within a term.
  Every term the tests accept has at most one constant name (`[1,'a','b']`,
  line 102, has two and is rejected), so this is not pinned down. The model keeps constant names in their order of
  appearance (a stable partition).
- Taylor expansion is meant to make one copy per *distinct* free symbol of
  a term. The model makes one copy per *occurrence*, which is the product
  rule: `x*x` gives three terms (`[x,x]`, `[dx,x]`, `[x,dx]`) where the
  intended expansion gives two (`Taylor.ExampleExpandRepeated`). The
  tests only expand terms whose symbols are distinct, where the two agree.
- The expansion of a list of terms interleaves each term with its own
  copies. The tests only expand single terms.
- A plain complex literal is meant to count as complex only when its
  imaginary part is nonzero. The model classifies values by type, so every
  Python complex, `1+0j` included, is complex both for dtype inference
  (`Precision.Classify`) and for the weight check
  (`Precision.VerifyWeights`). The only plain Python complex literals in
  the tests have a nonzero imaginary part (lines 43, 50-52, 256, 260 and
  272), so they do not pin this down. Values tagged with a numpy complex
  type, such as `np.complex64(1)`, are complex by their tag both by design
  and in the model.
- Coefficients are integers, so numbers are exact, and an environment is a
  total function from names to values.

## Model

| member | source | states |
|---|---|---|
| Terms.GetTerms | linsolve/tests/linsolve_test.py:8-31 | every expression yields at least one term and every term has at least one factor |
| Terms.GetTermsSound | linsolve/tests/linsolve_test.py:8-31 | for every assignment of the names, the sum of the products of the extracted terms is the value of the expression |
| Terms.GetTermsNames | linsolve/tests/linsolve_test.py:8-31 | the names occurring in the extracted terms are exactly the names of the expression |
| Terms.EvalNegate | linsolve/tests/linsolve_test.py:12-21 | prepending a -1 coefficient to every term negates the sum |
| Terms.EvalProduct | linsolve/tests/linsolve_test.py:22-31 | the product of two term lists sums to the product of their sums |
| Terms.ProductLength | linsolve/tests/linsolve_test.py:22-31 | a product of term lists has one term per pair of operand terms |
| Terms.ProductAt | linsolve/tests/linsolve_test.py:22-31 | term i·\|rs\|+j of a product is the factors of ls[i] followed by those of rs[j], in source order |
| Terms.ProductMembers | linsolve/tests/linsolve_test.py:22-31 | every term of a product is some ls[i] followed by some rs[j] |
| Terms.ExampleSums | linsolve/tests/linsolve_test.py:8-17 | x+y, x-y and 3*x-y give [[x],[y]], [[x],[-1,y]] and [[3,x],[-1,y]] |
| Terms.ExampleNegatedCoefficient | linsolve/tests/linsolve_test.py:12-17 | x-3*y gives [[x],[-1,3,y]]: the -1 goes in front of the negated term's own coefficient |
| Terms.ExampleUnary | linsolve/tests/linsolve_test.py:18-21 | -x+y gives [[-1,x],[y]] |
| Terms.ExampleProducts | linsolve/tests/linsolve_test.py:22-25 | a*x+a*b*c*y gives [[a,x],[a,b,c,y]] |
| Terms.ExampleNegatedProducts | linsolve/tests/linsolve_test.py:26-31 | -a*x+a*b*c*y and a*x-a*b*c*y get the -1 in front of the negated product, and so does -a*x-b*y |
| Terms.ExampleFactors | linsolve/tests/linsolve_test.py:22-31 | the single products a*x, -a*x, a*b*c*y and b*y flatten into one term each |
| Taylor.PerturbAt | linsolve/tests/linsolve_test.py:32-38 | a copy renames exactly the factor at the given position to prefix+name and keeps every other factor |
| Taylor.FreePositions | linsolve/tests/linsolve_test.py:32-38 | the listed positions hold free symbols |
| Taylor.FreePositionsComplete | linsolve/tests/linsolve_test.py:32-38 | the free positions are in increasing order and include every free symbol's position |
| Taylor.ExpandTerm | linsolve/tests/linsolve_test.py:32-38 | the expansion of a term is the term, then one copy per free position in order, copy k perturbing the k-th free position |
| Taylor.ExpandTermLength | linsolve/tests/linsolve_test.py:32-38 | a term expands into 1 + (number of occurrences of free symbol factors) terms, so `x*x` gives three |
| Taylor.CopyPerturbsFree | linsolve/tests/linsolve_test.py:32-38 | every copy perturbs some free factor |
| Taylor.FreeIsPerturbed | linsolve/tests/linsolve_test.py:32-38 | every free factor is perturbed in some copy |
| Taylor.TaylorExpand | linsolve/tests/linsolve_test.py:32-38 | the expansion of a list is at least as long as the list and starts with its first term |
| Taylor.TaylorExpandKeeps | linsolve/tests/linsolve_test.py:32-38 | every term of the list occurs in its expansion |
| Taylor.TaylorExpandFrom | linsolve/tests/linsolve_test.py:32-38 | every term of the expansion belongs to the expansion of one term of the list |
| Taylor.TaylorExpandConcat | linsolve/tests/linsolve_test.py:32-38 | expanding a concatenation concatenates the expansions |
| Taylor.TaylorExpandLength | linsolve/tests/linsolve_test.py:32-38 | the expansion of a term list has one term per term plus one per free parameter occurrence |
| Taylor.TaylorExpandAtZero | linsolve/tests/linsolve_test.py:32-38 | when every perturbation is zero the expansion sums to the original terms |
| Taylor.PerturbedIsLinear | linsolve/tests/linsolve_test.py:380-386 | with the original symbols known, a term has no free parameter and its copy has exactly the perturbed name as parameter |
| Taylor.ExpandTermIsLinear | linsolve/tests/linsolve_test.py:380-386 | with the original symbols known and the perturbations free, every copy is a linear term |
| Taylor.ExampleExpandAll | linsolve/tests/linsolve_test.py:33-34 | [[x,y,z]] expands to itself, [dx,y,z], [x,dy,z], [x,y,dz] |
| Taylor.ExampleExpandSkipsCoefficient | linsolve/tests/linsolve_test.py:35-36 | [[1,y,z]] expands to itself, [1,dy,z], [1,y,dz]: the coefficient is not perturbed |
| Taylor.ExampleExpandRepeated | linsolve/tests/linsolve_test.py:32-38 | [[x,x]] expands to itself, [dx,x] and [x,dx]: one copy per occurrence |
| Taylor.ExampleExpandSkipsConstant | linsolve/tests/linsolve_test.py:37-38 | with y a constant, [[1,y,z]] expands to itself and [1,y,dz] only |
| Precision.VerifyWeights | linsolve/tests/linsolve_test.py:39-44 | absent or empty weights give 1 for exactly the data keys; given weights are accepted, unchanged, if and only if their keys are the data keys and none is complex; otherwise InvalidWeights |
| Precision.ExampleVerifyWeights | linsolve/tests/linsolve_test.py:39-44 | {} and None give {a:1}; {a:10.0} is returned unchanged; a complex weight and keys {a} against [a,b] fail |
| Precision.Classify | linsolve/tests/linsolve_test.py:45-57 | plain literals are low precision; a value is complex if and only if its type is complex |
| Precision.InferKind | linsolve/tests/linsolve_test.py:45-57 | the result is complex if and only if some value is, and high precision if and only if some value is |
| Precision.InferDType | linsolve/tests/linsolve_test.py:45-57 | the dtype stands for the joined kind |
| Precision.InferConcat | linsolve/tests/linsolve_test.py:45-57 | inference over a concatenation is the join of the two inferences |
| Precision.InferPermutation | linsolve/tests/linsolve_test.py:45-57 | values in any order give the same dtype |
| Precision.InferCommutes | linsolve/tests/linsolve_test.py:45-57 | inference is commutative over concatenation |
| Precision.InferIdempotent | linsolve/tests/linsolve_test.py:45-57 | repeating the values does not change the dtype |
| Precision.InferMonotone | linsolve/tests/linsolve_test.py:45-57 | adding values never lowers the dtype |
| Precision.ExampleInferReal | linsolve/tests/linsolve_test.py:46-49 | [1.,2.], [3,4] and [float32, 4] are float32; [float64, 4] is float64 |
| Precision.ExampleInferComplex | linsolve/tests/linsolve_test.py:50-53 | [float32, 4j] is complex64, [float64, 4j] is complex128, [complex64, 4j] and [complex64, 4.] are complex64 |
| Precision.ExampleSolverDTypes | linsolve/tests/linsolve_test.py:272-281 | inference over the data, weights and constants together: with a complex constant the values are complex64; float32 data and constant with a float64 weight are float64 |
| Precision.ExampleInferMixed | linsolve/tests/linsolve_test.py:54-57 | complex64 or complex128 next to float64, int32 or int64 is complex128 |
| Equation.Part | linsolve/tests/linsolve_test.py:82-95 | the part of a term for a role holds only factors of that role |
| Equation.PartsCover | linsolve/tests/linsolve_test.py:82-95 | the coefficient, constant and parameter parts of a term together are a permutation of the term |
| Equation.OrderTerm | linsolve/tests/linsolve_test.py:82-103 | ordering succeeds if and only if the term has exactly one free parameter, and then yields a canonical term; otherwise NonLinearTerm |
| Equation.OrderTermPermutes | linsolve/tests/linsolve_test.py:82-95 | an ordered term is a permutation of the original term |
| Equation.OrderTermKeepsValue | linsolve/tests/linsolve_test.py:82-95 | ordering does not change the product of a term |
| Equation.OrderedIsFixed | linsolve/tests/linsolve_test.py:84-85 | ordering is the identity on a canonical term |
| Equation.OrderIdempotent | linsolve/tests/linsolve_test.py:82-95 | ordering an ordered term changes nothing |
| Equation.OrderTerms | linsolve/tests/linsolve_test.py:82-103 | a term list orders if and only if every term has exactly one parameter, and then term by term; otherwise NonLinearTerm |
| Equation.OrderTermsKeepsValue | linsolve/tests/linsolve_test.py:82-95 | ordering a term list keeps its sum |
| Equation.BaseName | linsolve/tests/linsolve_test.py:110-113 | a trailing '_' is stripped, and a name without one is kept |
| Equation.MakeEquation | linsolve/tests/linsolve_test.py:60-81 | an equation is built if and only if every extracted term has exactly one parameter; it is well formed, keeps the constants, term i is extracted term i ordered; otherwise NonLinearTerm |
| Equation.RoleOfConjugate | linsolve/tests/linsolve_test.py:67-71 | a factor is a coefficient, a constant or a parameter; a symbol and its conjugate `_` play the same role, and a plain name is a constant exactly when the constants give it a value |
| Equation.MakeEquationPrms | linsolve/tests/linsolve_test.py:60-81 | no parameter of a built equation is a constant, also when the constant is written with the conjugation marker |
| Equation.KeysNotConstants | linsolve/tests/linsolve_test.py:67-71 | the parameter keys of canonical terms are disjoint from the constants, also for a constant written with the conjugation marker |
| Equation.MakeEquationPermutes | linsolve/tests/linsolve_test.py:60-81 | each term of a built equation is a rearrangement of the extracted term |
| Equation.Eval | linsolve/tests/linsolve_test.py:104-113 | for canonical terms, the value at a solution is the sum over the terms of each coefficient times the solution value of the term's parameter |
| Equation.EvalIsLinear | linsolve/tests/linsolve_test.py:104-107 | canonical terms evaluate, under the constants and a solution, to their linear form |
| Equation.TermValue | linsolve/tests/linsolve_test.py:104-107 | a canonical term is its coefficient times the solution value of its parameter |
| Equation.MakeEquationSound | linsolve/tests/linsolve_test.py:104-107 | a built equation evaluates at any solution to the expression it was built from, with constants and solution values bound |
| Equation.ExampleSumEquation | linsolve/tests/linsolve_test.py:60-64 | x+y gives terms [[x],[y]], no constants, parameters {x,y} |
| Equation.ExampleDifferenceEquation | linsolve/tests/linsolve_test.py:65-66 | x-y gives terms [[x],[-1,y]] |
| Equation.ExampleConstantsEquation | linsolve/tests/linsolve_test.py:67-71 | a*x+b*y with a=1, b=2 keeps the terms [[a,x],[b,y]], the constants a and b, and the two parameters x and y |
| Equation.ExampleScaledDifference | linsolve/tests/linsolve_test.py:72-73 | a*x-b*y extracts to [[a,x],[-1,b,y]] |
| Equation.ExampleScaledDifferenceEquation | linsolve/tests/linsolve_test.py:72-73 | with a and b constants, a*x-b*y gives terms [[a,x],[-1,b,y]] and parameters {x,y} |
| Equation.ExampleConstantFirst | linsolve/tests/linsolve_test.py:74-78 | with g5 and g1 constants, g1*bl103 keeps the constant g1 first |
| Equation.ExampleNegatedEquation | linsolve/tests/linsolve_test.py:79-81 | -a*x-b*y gives terms [[-1,a,x],[-1,b,y]] |
| Equation.ExampleOrderCoefficients | linsolve/tests/linsolve_test.py:86-87 | [1,y,1] orders to [1,1,y] |
| Equation.ExampleOrderConstants | linsolve/tests/linsolve_test.py:88-92 | with a a constant, [1,x,a] orders to [1,a,x] |
| Equation.ExampleOrderListCoefficients | linsolve/tests/linsolve_test.py:82-87 | [[1,1,x],[1,1,y]] is kept and [[1,1,x],[1,y,1]] orders to it |
| Equation.ExampleOrderListConstants | linsolve/tests/linsolve_test.py:88-92 | with a=2, b=4, [[1,a,x],[1,b,y]] is kept and [[1,x,a],[1,b,y]] orders to it |
| Equation.ExampleOrderListGains | linsolve/tests/linsolve_test.py:93-95 | with g5 and g1 constants, [[g5,bl95],[g1,bl111]] is kept |
| Equation.ExampleTermCheckLists | linsolve/tests/linsolve_test.py:96-103 | the lists [[c,x,a],[1,b,y]] and [[1,a,b],[1,b,y]] are rejected with NonLinearTerm |
| Equation.ExampleTermCheck | linsolve/tests/linsolve_test.py:96-103 | [c,x,a] (two parameters) and [1,a,b] (none) are rejected |
| Equation.ExampleEval | linsolve/tests/linsolve_test.py:104-107 | a*x-b*y with a=2, b=4 at x=3, y=7 is 2*3-4*7 |
| Equation.ExampleConjugateTerms | linsolve/tests/linsolve_test.py:110-113 | x_-y extracts to [[x_],[-1,y]] |
| Equation.ExampleConjugateEquation | linsolve/tests/linsolve_test.py:110-113 | x_-y has the parameters x and y |
| Equation.ExampleConjugateConstant | linsolve/tests/linsolve_test.py:67-71 | with the constant a, a_*x keeps a_ as a constant and has the single parameter x |
| Equation.ExampleConjugateKey | linsolve/tests/linsolve_test.py:110-113 | x_ takes the value of the solution key x: x_-y at x=3, y=7 is 3-7 |
| Solver.BuildEquations | linsolve/tests/linsolve_test.py:116-123 | the equations of the data keys are built if and only if every key is linear, one per key in order; otherwise NonLinearTerm |
| Solver.AllParams | linsolve/tests/linsolve_test.py:124-125 | the solver's parameters are exactly the union of its equations' parameters |
| Solver.DefaultOrder | linsolve/tests/linsolve_test.py:129-130 | the default column order gives every parameter its own column below the number of parameters |
| Solver.NewSolver | linsolve/tests/linsolve_test.py:116-123 | a solver is made if and only if every data key is linear; it holds their equations, all their parameters and a column order |
| Solver.LinearSolver.constructor | linsolve/tests/linsolve_test.py:116-123 | the new solver holds the equations and all their parameters, with some column order |
| Solver.LinearSolver.SetPrmOrder | linsolve/tests/linsolve_test.py:129-130 | overriding the column order changes only the column order |
| Solver.LinearSolver.GetA | linsolve/tests/linsolve_test.py:129-134 | a fresh equations-by-parameters array whose entry (e, j) is the row entry of equation e in column j |
| Solver.FillMatrix | linsolve/tests/linsolve_test.py:129-134 | filling term by term leaves in (e, j) the sum of the coefficients of the terms of equation e whose parameter has column j |
| Solver.FillRow | linsolve/tests/linsolve_test.py:129-134 | adding each term's coefficient into its column leaves in row e the row entries of the equation, and no other row changes |
| Solver.EntryIsCoef | linsolve/tests/linsolve_test.py:129-134 | under a column order the entry in the column of p is the coefficient of p in the equation |
| Solver.EntryUnused | linsolve/tests/linsolve_test.py:129-134 | a column no parameter has is zero |
| Solver.RowSound | linsolve/tests/linsolve_test.py:129-134 | a row times the vector holding each parameter's value in its column is the value of the terms |
| Solver.EquationRow | linsolve/tests/linsolve_test.py:129-134 | the row of a well-formed equation times the solution vector laid out by the column order is the equation's value at that solution |
| Solver.ExampleBasics | linsolve/tests/linsolve_test.py:124-128 | the solver of x+y and x-y has 2 equations with terms [[x],[y]] and [[x],[-1,y]], and 2 parameters |
| Solver.ExampleGetA | linsolve/tests/linsolve_test.py:129-134 | with prm_order {x:0, y:1}, get_A is the 2-by-2 array [[1,1],[1,-1]] |

## Left out

- Precision.Classify: counts every Python complex literal as complex by its type, even one whose imaginary part is zero, and Precision.VerifyWeights rejects such a weight for the same reason; the intended rule looks at the imaginary part, and the tests only use nonzero ones.
- Parsing of expression strings: the model starts from the parsed tree. Float and complex literals are not modelled; coefficients are integers.
- The numeric solves (the default, lsqr, pinv and solve modes), pseudoinverses, the sparse back ends and the sparse test subclasses. They are floating-point linear algebra.
- Chi-square evaluation, `LogProductSolver` and the Gauss-Newton loop of `LinProductSolver`. They work on floats, logarithms and phases. Only the symbolic fact that each expanded copy is linear in one perturbation is kept (`Taylor.ExpandTermIsLinear`).
- Complex values and conjugation in evaluation. The conjugation marker `_` is only stripped to find the constant or solution key that a name stands for. On integer values, conjugation is the identity.
- numpy dtypes narrower than 32-bit integers, broadcasting and array-valued constants, data and weights. One sample is modelled, and `_A_shape` is not modelled.
- Solver.LinearSolver.GetA: builds one sample, an equations-by-parameters array, not the (equations, parameters, samples) tensor, because arrays of samples are out of scope.
- Solver.LinearSolver.GetA: does not apply data weights to the rows, because weights only take part in the solve, which is out of scope.
- Solver.NewSolver: does not take data values, weights or a dtype. It builds the equations from the data keys and the constants only, because the solver's dtype and the weighted solve are out of scope.
- Equation.OrderTerm: keeps constant names in their order of appearance instead of sorting them, because no assertion in the test suite orders two constant names.
- Equation.MakeEquation: keeps constant names symbolic in the terms instead of folding their values, following the asserted terms.
- Taylor.TaylorExpand: interleaves each term with its copies. The test suite only expands single terms, so the order across several terms is not pinned down.
- Taylor.ExpandTerm: makes one copy per occurrence of a free symbol, not one per distinct free symbol, so a repeated symbol gives one copy per occurrence (the product rule).
- Terms.Negate: prepends a -1 coefficient even to a term that already starts with a coefficient, instead of multiplying that coefficient by -1; the value is the same.
- The solver's own dtype (`ls.dtype`, lines 256-281): a solver whose unknowns are conjugated stays real with complex data, and that rule is not modelled; only inference over pooled values is.
