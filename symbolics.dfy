/**
 * The symbolic expressions the optimised quadrature transformer builds. Only
 * the leaf constructors (`create_float`, `create_symbol`) and the domain tag
 * `t` are given meaning here; `create_product`, `create_sum`,
 * `create_fraction`, `optimise_code`, `str`, `.val` and `get_unique_vars`
 * are fields of an `Algebra` record, about which nothing is assumed.
 */
module Symbolics {
  import opened Wrappers

  /** What an expression depends on, from constants up to basis-function tables. */
  datatype Domain = CONST | GEO | IP | BASIS

  /** The numeric level of a domain: CONST 0, GEO 1, IP 2, BASIS 3. */
  function Level(d: Domain): nat {
    match d
    case CONST => 0
    case GEO => 1
    case IP => 2
    case BASIS => 3
  }

  /** The higher of two domains. */
  function Highest(a: Domain, b: Domain): (r: Domain)
    ensures Level(r) == if Level(a) >= Level(b) then Level(a) else Level(b)
  {
    if Level(a) >= Level(b) then a else b
  }

  /**
   * A symbolic expression. A symbol may record the expression it wraps
   * (`base_expr`) and how many operations wrapping it costs (`base_op`).
   */
  datatype Expr =
    | FloatValue(value: real)
    | Symbol(name: string, t: Domain, baseExpr: Option<Expr>, baseOp: nat)
    | Product(factors: seq<Expr>)
    | Sum(terms: seq<Expr>)
    | Fraction(num: Expr, denom: Expr)

  /** `expr.t`: a float is constant, a symbol carries its own tag, a compound takes the highest tag of its parts. */
  function Tag(e: Expr): Domain {
    match e
    case FloatValue(_) => CONST
    case Symbol(_, t, _, _) => t
    case Product(fs) => TagAll(fs)
    case Sum(ts) => TagAll(ts)
    case Fraction(n, d) => Highest(Tag(n), Tag(d))
  }

  function TagAll(es: seq<Expr>): Domain
    decreases es
  {
    if |es| == 0 then CONST
    else
      assert es[|es| - 1] in es;
      Highest(TagAll(es[..|es| - 1]), Tag(es[|es| - 1]))
  }

  /** `create_symbol(name, domain)`: a fresh symbol wrapping nothing. */
  function CreateSymbol(name: string, domain: Domain): Expr {
    Symbol(name, domain, None, 0)
  }

  /** `create_symbol(name, val.t)` followed by `base_expr = val` and `base_op = 1`: one operation applied to `val`. */
  function WrapSymbol(name: string, val: Expr): Expr {
    Symbol(name, Tag(val), Some(val), 1)
  }

  /**
   * The symbolic algebra's operations, left uninterpreted: the model
   * assumes no law about them (no neutral element, no simplification).
   */
  datatype Algebra = Algebra(
    product: seq<Expr> -> Expr,
    sum: seq<Expr> -> Expr,
    fraction: (Expr, Expr) -> Expr,
    render: Expr -> string,
    optimise: Expr -> Expr,
    val: Expr -> real,
    uniqueVars: (Expr, Domain) -> set<Expr>)
}
