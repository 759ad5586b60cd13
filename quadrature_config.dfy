/**
 * The read-only context of the optimised quadrature transformer: the code
 * maps it passes between nodes, the format entries it calls, the optimise
 * options, the tables prepared by its base class, and the helpers from
 * modules that are not part of this model.
 */
module QuadratureConfig {
  import opened Wrappers
  import opened Symbolics
  import opened IndexKeys

  /** The code of one form node: an expression per free-index key; the key `()` alone for a scalar. */
  type CodeMap = map<Key, Expr>

  /** The scalar key `()`. */
  const Scalar: Key := []

  /** The restriction of the current integrand: `"+"`, `"-"` or `None`. */
  datatype Restriction = Plus | Minus | NoRestriction

  /** How an element's basis functions are mapped from the reference cell. */
  datatype Transformation = Affine | CovariantPiola | ContravariantPiola | OtherTransformation(name: string)

  /** The exceptions the transformer raises; the named ones are its `error(...)` calls. */
  datatype Error =
    | KeyError
    | IndexError
    | WrongOperandCount        // division: not exactly numerator and denominator
    | UnsupportedDenominator   // division: denominator not of function type
    | UnsupportedBase          // power: base not of function type
    | UnsupportedExponent      // power: exponent neither int, float nor function
    | UnsupportedAbsOperand    // abs: not one operand of function type
    | UnsupportedMathOperand   // math functions: not one operand of function type
    | UnexpectedOperands       // facet_normal: operands given
    | WrongComponentCount      // facet_normal: not exactly one component
    | KeyConflict              // product: two permutations sort to the same key
    | InvalidBasisIndex        // basis-function count outside -2, -1, 0, 1
    | UnsupportedTransformation
    | NoneFunctionName         // a Piola-mapped coefficient without a function name

  /** The `self.format[...]` entries the transformer uses, left uninterpreted. */
  datatype Format = Format(
    integrationPoints: string,
    firstFreeIndex: string,
    secondFreeIndex: string,
    matrixAccess: (string, string) -> string,
    nonzeroColumns: int -> string,
    arrayAccess: string -> string,
    grouping: string -> string,
    add: seq<string> -> string,
    transform: (string, int, int, Restriction) -> string,
    determinant: Restriction -> string,
    normalComponent: (Restriction, int) -> string,
    absoluteValue: string -> string,
    stdPower: (string, string) -> string,
    floatingPoint: real -> string)

  /** The entries of `self.optimise_options` the transformer reads. */
  datatype Options = Options(ignoreZeroTables: bool, removeZeroTerms: bool, ignoreOnes: bool)

  /**
   * One entry of `self.name_map`: the table's unique name, its non-zero
   * columns `(table id, columns)` if any, and whether it is all zeros or all
   * ones.
   */
  datatype PsiInfo = PsiInfo(name: string, nonZeros: Option<(int, seq<int>)>, zeros: bool, ones: bool)

  /** A UFL basis function: its argument count and its element. */
  datatype BasisFunction = BasisFunction(count: int, element: nat)

  /**
   * The state of `self` that the modelled methods read but do not change,
   * and the helpers they call from modules that are not part of this model:
   * `generate_psi_name`, `create_permutations`, and the `eval` of an index
   * string (`None` where Python's `eval` raises).
   */
  datatype Config = Config(
    fmt: Format,
    alg: Algebra,
    options: Options,
    restriction: Restriction,
    facet0: Option<int>,
    facet1: Option<int>,
    points: int,
    geoDim: nat,
    elementMap: map<int, map<nat, int>>,
    nameMap: map<string, PsiInfo>,
    tableColumns: map<string, int>,
    generatePsiName: (int, Option<int>, int, seq<int>) -> string,
    createPermutations: seq<CodeMap> -> seq<(Key, seq<Expr>)>,
    evalIndex: string -> Option<string>)

  /** Python's `(): value` map, the code of a scalar. */
  function ScalarCode(value: Expr): (code: CodeMap)
    ensures code.Keys == {Scalar} && code[Scalar] == value
  {
    map[Scalar := value]
  }

  /** `create_sum(vals)` for two or more values, the value itself for one. */
  function Combine(alg: Algebra, vals: seq<Expr>): Expr
    requires |vals| >= 1
  {
    if |vals| > 1 then alg.sum(vals) else vals[0]
  }
}
