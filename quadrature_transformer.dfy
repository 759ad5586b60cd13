/**
 * The stateful part of QuadratureTransformerOpt: the code of basis functions
 * and coefficients (`create_basis_function`, `__create_mapping_basis`,
 * `create_function`) and of an element-tensor entry
 * (`_create_entry_value`). The transformer records which tables the
 * generated code uses in `psi_tables_map` and `used_psi_tables`.
 */
module QuadratureTransformer {
  import opened Wrappers
  import opened Text
  import opened Symbolics
  import opened IndexKeys
  import opened QuadratureConfig
  import opened QuadratureOperators

  // ---------------------------------------------------------------------
  // Derivative counts
  // ---------------------------------------------------------------------

  /** `multi.count(v)`. */
  function Count(multi: seq<int>, v: int): (n: nat)
    ensures n > 0 <==> v in multi
    ensures n <= |multi|
    decreases |multi|
  {
    if |multi| == 0 then 0
    else Count(multi[1..], v) + (if multi[0] == v then 1 else 0)
  }

  /** The counts of the directions below `n`: `[multi.count(i) for i in range(n)]`. */
  function DirectionCounts(multi: seq<int>, n: nat): (counts: seq<int>)
    ensures |counts| == n
  {
    if n == 0 then [] else DirectionCounts(multi, n - 1) + [Count(multi, n - 1)]
  }

  lemma {:induction false} DirectionCountsMeaning(multi: seq<int>, n: nat, i: nat)
    requires i < n
    ensures DirectionCounts(multi, n)[i] == Count(multi, i)
  {
    if i < n - 1 {
      DirectionCountsMeaning(multi, n - 1, i);
    }
  }

  /** `any(deriv)`: some entry of the multi-index is a direction below `geoDim`. */
  predicate HasDirection(multi: seq<int>, geoDim: nat)
    decreases |multi|
  {
    |multi| > 0 && (0 <= multi[0] < geoDim || HasDirection(multi[1..], geoDim))
  }

  lemma {:induction false} HasDirectionMeaning(multi: seq<int>, geoDim: nat)
    ensures HasDirection(multi, geoDim) <==> exists i :: 0 <= i < geoDim && i in multi
    decreases |multi|
  {
    if |multi| > 0 {
      HasDirectionMeaning(multi[1..], geoDim);
      if 0 <= multi[0] < geoDim {
        assert multi[0] in multi;
      } else if HasDirection(multi[1..], geoDim) {
        var i :| 0 <= i < geoDim && i in multi[1..];
        assert i in multi;
      }
      if exists i :: 0 <= i < geoDim && i in multi {
        var i :| 0 <= i < geoDim && i in multi;
        var j :| 0 <= j < |multi| && multi[j] == i;
        if j > 0 {
          assert multi[1..][j - 1] == i;
          assert i in multi[1..];
          assert HasDirection(multi[1..], geoDim);
        }
      }
    }
  }

  /** `[multi.count(i) for i in range(geo_dim)]`, replaced by `[]` when no count is positive. */
  function Deriv(multi: seq<int>, geoDim: nat): seq<int> {
    if HasDirection(multi, geoDim) then DirectionCounts(multi, geoDim) else []
  }

  /**
   * The derivative counts of a multi-index: the count of each direction
   * below `geo_dim` (a count is positive exactly when the direction occurs),
   * or empty exactly when no direction below `geo_dim` occurs.
   */
  lemma DerivMeaning(multi: seq<int>, geoDim: nat)
    ensures Deriv(multi, geoDim) == [] || |Deriv(multi, geoDim)| == geoDim
    ensures Deriv(multi, geoDim) != [] <==> exists i :: 0 <= i < geoDim && i in multi
    ensures Deriv(multi, geoDim) != [] ==> forall i :: 0 <= i < geoDim ==> Deriv(multi, geoDim)[i] == Count(multi, i)
  {
    HasDirectionMeaning(multi, geoDim);
    forall i | 0 <= i < geoDim
      ensures DirectionCounts(multi, geoDim)[i] == Count(multi, i)
    {
      DirectionCountsMeaning(multi, geoDim, i);
    }
  }

  // ---------------------------------------------------------------------
  // __create_mapping_basis
  // ---------------------------------------------------------------------

  /** The free index of a basis function: the first for counts -2 and 0, the second for -1 and 1. */
  function FreeIndex(fmt: Format, count: int): string {
    if count == -2 || count == 0 then fmt.firstFreeIndex else fmt.secondFreeIndex
  }

  /** The lookups of `__create_mapping_basis` that can fail before a table is chosen: the count, the element counter, the psi name and the table shape. */
  function TableLookup(cfg: Config, component: int, deriv: seq<int>, bf: BasisFunction): (r: Result<PsiInfo, Error>)
    ensures bf.count !in {-2, -1, 0, 1} ==> r == Failure(InvalidBasisIndex)
    ensures r.Success? ==> r.value.name in cfg.tableColumns
  {
    if bf.count !in {-2, -1, 0, 1} then Failure(InvalidBasisIndex)
    else if cfg.points !in cfg.elementMap || bf.element !in cfg.elementMap[cfg.points] then Failure(KeyError)
    else
      var counter := cfg.elementMap[cfg.points][bf.element];
      var facet := if cfg.restriction == Minus then cfg.facet1 else cfg.facet0;
      var psiName := cfg.generatePsiName(counter, facet, component, deriv);
      if psiName !in cfg.nameMap then Failure(KeyError)
      else
        var info := cfg.nameMap[psiName];
        if info.name !in cfg.tableColumns then Failure(KeyError) else Success(info)
  }

  /** Which basis a table yields: zero, one, or a symbol for the table itself. */
  datatype TableUse = ZeroTable | OnesTable | TableSymbol

  function ChooseTable(options: Options, info: PsiInfo, loopRange: int): TableUse {
    if info.zeros && (options.ignoreZeroTables || options.removeZeroTerms) then ZeroTable
    else if options.ignoreOnes && loopRange == 1 && info.ones then OnesTable
    else TableSymbol
  }

  /** The table symbol `name + basis_access`, with the integration point `0` when there is a single point. */
  function TableBasis(cfg: Config, info: PsiInfo, count: int): Expr {
    var formatIp := if cfg.points == 1 then "0" else cfg.fmt.integrationPoints;
    CreateSymbol(info.name + cfg.fmt.matrixAccess(formatIp, FreeIndex(cfg.fmt, count)), BASIS)
  }

  /** The basis map before the offset: the loop index, or its column in the table's non-zero columns. */
  function ColumnMap(cfg: Config, loopIndex: string, nonZeros: Option<(int, seq<int>)>): Result<string, Error> {
    match nonZeros
    case None => Success(loopIndex)
    case Some((tableId, columns)) =>
      if loopIndex == "0" then
        if |columns| == 0 then Failure(IndexError) else Success(IntToString(columns[0]))
      else Success(cfg.fmt.nonzeroColumns(tableId) + cfg.fmt.arrayAccess(loopIndex))
  }

  /** The `"-"` restriction offsets the basis map by the element's space dimension; `eval` then simplifies it where it can. */
  function OffsetMap(cfg: Config, columnMap: string, elementDim: int): string {
    var shifted := if cfg.restriction == Minus then cfg.fmt.grouping(cfg.fmt.add([columnMap, IntToString(elementDim)]))
                   else columnMap;
    cfg.evalIndex(shifted).GetOr(shifted)
  }

  /** The space dimension of the mapping: doubled for a restricted function. */
  function MappingSpaceDim(restriction: Restriction, elementDim: int): int {
    if restriction == NoRestriction then elementDim else 2 * elementDim
  }

  /** The basis a table yields: the float 0, the float 1, or the table symbol. */
  function ChosenBasis(cfg: Config, info: PsiInfo, count: int): Expr
    requires info.name in cfg.tableColumns
  {
    match ChooseTable(cfg.options, info, cfg.tableColumns[info.name])
    case ZeroTable => FloatValue(0.0)
    case OnesTable => FloatValue(1.0)
    case TableSymbol => TableBasis(cfg, info, count)
  }

  /** `psi_tables_map` after the basis is chosen: only a table symbol is recorded. */
  function RecordedTables(cfg: Config, info: PsiInfo, count: int, psi: map<Expr, string>): map<Expr, string>
    requires info.name in cfg.tableColumns
  {
    if ChooseTable(cfg.options, info, cfg.tableColumns[info.name]) == TableSymbol
    then psi[TableBasis(cfg, info, count) := info.name] else psi
  }

  /** The loop index of the basis map: `"0"` for an all-ones table, the free index otherwise. */
  function ChosenLoopIndex(cfg: Config, info: PsiInfo, count: int): string
    requires info.name in cfg.tableColumns
  {
    if ChooseTable(cfg.options, info, cfg.tableColumns[info.name]) == OnesTable then "0" else FreeIndex(cfg.fmt, count)
  }

  /** The rest of `__create_mapping_basis` once the table `info` is found. */
  function MappingFromTable(cfg: Config, info: PsiInfo, bf: BasisFunction, elementDim: int,
                            psi: map<Expr, string>): (Result<(Key, Expr), Error>, map<Expr, string>)
    requires info.name in cfg.tableColumns
  {
    var psi' := RecordedTables(cfg, info, bf.count, psi);
    match ColumnMap(cfg, ChosenLoopIndex(cfg, info, bf.count), info.nonZeros)
    case Failure(e) => (Failure(e), psi')
    case Success(columnMap) =>
      var mapping := [IndexEntry(bf.count, OffsetMap(cfg, columnMap, elementDim), cfg.tableColumns[info.name],
                                 MappingSpaceDim(cfg.restriction, elementDim))];
      (Success((mapping, ChosenBasis(cfg, info, bf.count))), psi')
  }

  /**
   * `__create_mapping_basis(component, deriv, ufl_basis_function, ffc_element)`
   * with `elementDim` the element's space dimension, starting from
   * `psi_tables_map` = `psi`: the mapping `((count, basis_map,
   * loop_index_range, space_dim),)` and the basis, and the new
   * `psi_tables_map`. The table symbol is recorded before the basis map is
   * computed, so a failing column lookup leaves it recorded.
   */
  function MappingBasis(cfg: Config, component: int, deriv: seq<int>, bf: BasisFunction, elementDim: int,
                        psi: map<Expr, string>): (Result<(Key, Expr), Error>, map<Expr, string>)
  {
    match TableLookup(cfg, component, deriv, bf)
    case Failure(e) => (Failure(e), psi)
    case Success(info) => MappingFromTable(cfg, info, bf, elementDim, psi)
  }

  /**
   * Errors of `__create_mapping_basis`: a count outside -2, -1, 0, 1 and
   * the failed lookups raise before anything is recorded.
   */
  lemma MappingBasisLookupErrors(cfg: Config, component: int, deriv: seq<int>, bf: BasisFunction, elementDim: int,
                                 psi: map<Expr, string>)
    ensures bf.count !in {-2, -1, 0, 1} ==> MappingBasis(cfg, component, deriv, bf, elementDim, psi) == (Failure(InvalidBasisIndex), psi)
    ensures TableLookup(cfg, component, deriv, bf).Failure? ==>
      MappingBasis(cfg, component, deriv, bf, elementDim, psi) == (Failure(TableLookup(cfg, component, deriv, bf).error), psi)
  {
  }

  /**
   * The mapping of `__create_mapping_basis`: a single entry with the
   * function's count and the table's loop range; its space dimension is
   * doubled for `"+"` and `"-"`; its basis map is the column of the chosen
   * loop index, offset as `OffsetMapMeaning` states.
   */
  lemma MappingBasisKey(cfg: Config, component: int, deriv: seq<int>, bf: BasisFunction, elementDim: int,
                        psi: map<Expr, string>)
    requires MappingBasis(cfg, component, deriv, bf, elementDim, psi).0.Success?
    ensures var info := TableLookup(cfg, component, deriv, bf).value;
      var key := MappingBasis(cfg, component, deriv, bf, elementDim, psi).0.value.0;
      && TableLookup(cfg, component, deriv, bf).Success?
      && |key| == 1
      && key[0].count == bf.count
      && key[0].loopRange == cfg.tableColumns[info.name]
      && key[0].spaceDim == (if cfg.restriction == NoRestriction then elementDim else 2 * elementDim)
      && ColumnMap(cfg, ChosenLoopIndex(cfg, info, bf.count), info.nonZeros).Success?
      && key[0].basisMap == OffsetMap(cfg, ColumnMap(cfg, ChosenLoopIndex(cfg, info, bf.count), info.nonZeros).value, elementDim)
  {
  }

  /**
   * The offset of the basis map: under the `"-"` restriction the column is
   * grouped with the element's space dimension added; under any other
   * restriction it is left alone. Either way `eval` simplifies it when it can.
   */
  lemma OffsetMapMeaning(cfg: Config, columnMap: string, elementDim: int)
    ensures cfg.restriction != Minus ==> OffsetMap(cfg, columnMap, elementDim) == cfg.evalIndex(columnMap).GetOr(columnMap)
    ensures cfg.restriction == Minus ==>
      var shifted := cfg.fmt.grouping(cfg.fmt.add([columnMap, IntToString(elementDim)]));
      OffsetMap(cfg, columnMap, elementDim) == cfg.evalIndex(shifted).GetOr(shifted)
  {
  }

  /**
   * The table short-circuits of `__create_mapping_basis`: a zero table
   * (with either zero option) gives the float 0 and records nothing; an
   * all-ones table with `ignore ones` and loop range 1 gives the float 1,
   * records nothing, and uses loop index `"0"`; any other table gives a
   * BASIS symbol, recorded in `psi_tables_map` under the table's name.
   */
  lemma MappingBasisTables(cfg: Config, component: int, deriv: seq<int>, bf: BasisFunction, elementDim: int,
                           psi: map<Expr, string>)
    requires TableLookup(cfg, component, deriv, bf).Success?
    ensures var info := TableLookup(cfg, component, deriv, bf).value;
      var loopRange := cfg.tableColumns[info.name];
      var r := MappingBasis(cfg, component, deriv, bf, elementDim, psi);
      && (info.zeros && (cfg.options.ignoreZeroTables || cfg.options.removeZeroTerms) ==>
            r.1 == psi && (r.0.Success? ==> r.0.value.1 == FloatValue(0.0)))
      && (!(info.zeros && (cfg.options.ignoreZeroTables || cfg.options.removeZeroTerms))
          && cfg.options.ignoreOnes && loopRange == 1 && info.ones ==>
            && r.1 == psi
            && (r.0.Success? <==> ColumnMap(cfg, "0", info.nonZeros).Success?)
            && (r.0.Success? ==> (r.0.value.1 == FloatValue(1.0)
                  && r.0.value.0[0].basisMap == OffsetMap(cfg, ColumnMap(cfg, "0", info.nonZeros).value, elementDim))))
      && (ChooseTable(cfg.options, info, loopRange) == TableSymbol ==>
            && TableBasis(cfg, info, bf.count).Symbol?
            && TableBasis(cfg, info, bf.count).t == BASIS
            && r.1 == psi[TableBasis(cfg, info, bf.count) := info.name]
            && (r.0.Success? ==> r.0.value.1 == TableBasis(cfg, info, bf.count)))
  {
  }

  // ---------------------------------------------------------------------
  // The loops of create_basis_function and create_function
  // ---------------------------------------------------------------------

  /** The arguments `create_basis_function` and `create_function` share. */
  datatype TermArgs = TermArgs(derivatives: seq<int>, component: int, localComp: int, localOffset: int,
                               transformation: Transformation)

  /** One pass of the loop body: the component asked for, the multi-index, and the Piola direction `c`. */
  datatype Call = Call(component: int, multi: seq<int>, direction: int)

  /** The calls made for one multi-index: one for an affine mapping, one per direction `c < geo_dim` otherwise. */
  function CallsFor(cfg: Config, args: TermArgs, multi: seq<int>): seq<Call> {
    if args.transformation == Affine then [Call(args.component, multi, 0)]
    else DirectionCalls(args, multi, cfg.geoDim)
  }

  /** The calls for the directions below `n`, each on component `c + local_offset`. */
  function DirectionCalls(args: TermArgs, multi: seq<int>, n: nat): (calls: seq<Call>)
    ensures |calls| == n
  {
    if n == 0 then [] else DirectionCalls(args, multi, n - 1) + [Call(n - 1 + args.localOffset, multi, n - 1)]
  }

  lemma {:induction false} DirectionCallsMeaning(args: TermArgs, multi: seq<int>, n: nat, c: nat)
    requires c < n
    ensures DirectionCalls(args, multi, n)[c] == Call(c + args.localOffset, multi, c)
  {
    if c < n - 1 {
      DirectionCallsMeaning(args, multi, n - 1, c);
    }
  }

  /** One pass for an affine mapping, `geo_dim` passes otherwise. */
  lemma CallsForLength(cfg: Config, args: TermArgs, multi: seq<int>)
    ensures |CallsFor(cfg, args, multi)| == if args.transformation == Affine then 1 else cfg.geoDim
  {
  }

  /** Pass `c` for a multi-index: component `component` when affine, component `c + local_offset` in direction `c` otherwise. */
  lemma CallsForMeaning(cfg: Config, args: TermArgs, multi: seq<int>, c: nat)
    requires c < |CallsFor(cfg, args, multi)|
    ensures CallsFor(cfg, args, multi)[c]
         == if args.transformation == Affine then Call(args.component, multi, 0) else Call(c + args.localOffset, multi, c)
  {
    if args.transformation != Affine {
      DirectionCallsMeaning(args, multi, cfg.geoDim, c);
    }
  }

  /**
   * The Piola factors of a non-affine mapping: covariant Piola multiplies
   * by the geometry symbol `JINV`, contravariant Piola by `1/detJ` and the
   * geometry symbol `J`; the affine mapping leaves the term alone and any
   * other mapping is an error.
   */
  function Piola(cfg: Config, transformation: Transformation, c: int, localComp: int, term: Expr): Result<Expr, Error>
  {
    match transformation
    case Affine => Success(term)
    case CovariantPiola =>
      var dxdX := CreateSymbol(cfg.fmt.transform("JINV", c, localComp, cfg.restriction), GEO);
      Success(cfg.alg.product([dxdX, term]))
    case ContravariantPiola =>
      var detJ := cfg.alg.fraction(FloatValue(1.0), CreateSymbol(cfg.fmt.determinant(cfg.restriction), GEO));
      var dXdx := CreateSymbol(cfg.fmt.transform("J", c, localComp, cfg.restriction), GEO);
      Success(cfg.alg.product([detJ, dXdx, term]))
    case OtherTransformation(_) => Failure(UnsupportedTransformation)
  }

  /** The progress of `create_basis_function`'s loops: the (mapping, term) pairs so far, `psi_tables_map`, and the error raised, if any. */
  datatype BasisRun = BasisRun(terms: seq<(Key, Expr)>, psi: map<Expr, string>, failure: Option<Error>)

  /** One pass of the loop body of `create_basis_function`. */
  function BasisStep(cfg: Config, args: TermArgs, bf: BasisFunction, elementDim: int, run: BasisRun, call: Call): BasisRun {
    if run.failure.Some? then run
    else
      var (res, psi) := MappingBasis(cfg, call.component, Deriv(call.multi, cfg.geoDim), bf, elementDim, run.psi);
      match res
      case Failure(e) => BasisRun(run.terms, psi, Some(e))
      case Success((mapping, basis)) =>
        match Piola(cfg, args.transformation, call.direction, args.localComp, basis)
        case Failure(e) => BasisRun(run.terms, psi, Some(e))
        case Success(term) =>
          match ApplyTransformResult(cfg, term, args.derivatives, call.multi)
          case Failure(e) => BasisRun(run.terms, psi, Some(e))
          case Success(t) => BasisRun(run.terms + [(mapping, t)], psi, None)
  }

  /** The passes of `create_basis_function` over `calls`, from `run`. */
  function BasisPasses(cfg: Config, args: TermArgs, bf: BasisFunction, elementDim: int, run: BasisRun, calls: seq<Call>): BasisRun
    decreases |calls|
  {
    if |calls| == 0 then run
    else BasisStep(cfg, args, bf, elementDim, BasisPasses(cfg, args, bf, elementDim, run, calls[..|calls| - 1]), calls[|calls| - 1])
  }

  lemma BasisPassesSnoc(cfg: Config, args: TermArgs, bf: BasisFunction, elementDim: int, run: BasisRun, calls: seq<Call>, c: nat)
    requires c < |calls|
    ensures BasisPasses(cfg, args, bf, elementDim, run, calls[..c + 1])
         == BasisStep(cfg, args, bf, elementDim, BasisPasses(cfg, args, bf, elementDim, run, calls[..c]), calls[c])
  {
    assert calls[..c + 1][..c] == calls[..c];
  }

  /** Once a pass has raised, the later passes change nothing. */
  lemma {:induction false} BasisPassesStop(cfg: Config, args: TermArgs, bf: BasisFunction, elementDim: int,
                                           run: BasisRun, calls: seq<Call>, i: nat)
    requires i <= |calls|
    requires BasisPasses(cfg, args, bf, elementDim, run, calls[..i]).failure.Some?
    ensures BasisPasses(cfg, args, bf, elementDim, run, calls) == BasisPasses(cfg, args, bf, elementDim, run, calls[..i])
    decreases |calls|
  {
    if i == |calls| {
      assert calls[..i] == calls;
    } else {
      var init := calls[..|calls| - 1];
      assert init[..i] == calls[..i];
      BasisPassesStop(cfg, args, bf, elementDim, run, init, i);
    }
  }

  /** The loops of `create_basis_function` over the multi-indices, from `psi_tables_map` = `psi`. */
  function BasisLoops(cfg: Config, args: TermArgs, bf: BasisFunction, elementDim: int, multis: seq<seq<int>>,
                      psi: map<Expr, string>): BasisRun
    decreases |multis|
  {
    if |multis| == 0 then BasisRun([], psi, None)
    else BasisPasses(cfg, args, bf, elementDim, BasisLoops(cfg, args, bf, elementDim, multis[..|multis| - 1], psi),
                     CallsFor(cfg, args, multis[|multis| - 1]))
  }

  lemma BasisLoopsSnoc(cfg: Config, args: TermArgs, bf: BasisFunction, elementDim: int, multis: seq<seq<int>>, i: nat,
                       psi: map<Expr, string>)
    requires i < |multis|
    ensures BasisLoops(cfg, args, bf, elementDim, multis[..i + 1], psi)
         == BasisPasses(cfg, args, bf, elementDim, BasisLoops(cfg, args, bf, elementDim, multis[..i], psi), CallsFor(cfg, args, multis[i]))
  {
    assert multis[..i + 1][..i] == multis[..i];
  }

  /** Once a multi-index has raised, the later ones change nothing. */
  lemma {:induction false} BasisLoopsStop(cfg: Config, args: TermArgs, bf: BasisFunction, elementDim: int, multis: seq<seq<int>>,
                                          i: nat, psi: map<Expr, string>)
    requires i <= |multis|
    requires BasisLoops(cfg, args, bf, elementDim, multis[..i], psi).failure.Some?
    ensures BasisLoops(cfg, args, bf, elementDim, multis, psi) == BasisLoops(cfg, args, bf, elementDim, multis[..i], psi)
    decreases |multis|
  {
    if i == |multis| {
      assert multis[..i] == multis;
    } else {
      var init := multis[..|multis| - 1];
      assert init[..i] == multis[..i];
      BasisLoopsStop(cfg, args, bf, elementDim, init, i, psi);
      BasisPassesStop(cfg, args, bf, elementDim, BasisLoops(cfg, args, bf, elementDim, init, psi), CallsFor(cfg, args, multis[|multis| - 1]), 0);
    }
  }

  /** The keys of a sequence of (mapping, term) pairs. */
  function KeysOf(terms: seq<(Key, Expr)>): set<Key>
    decreases |terms|
  {
    if |terms| == 0 then {} else KeysOf(terms[..|terms| - 1]) + {terms[|terms| - 1].0}
  }

  /** The terms of mapping `k`, in loop order. */
  function TermsOf(terms: seq<(Key, Expr)>, k: Key): (vals: seq<Expr>)
    ensures |vals| == 0 <==> k !in KeysOf(terms)
    decreases |terms|
  {
    if |terms| == 0 then []
    else
      var (key, t) := terms[|terms| - 1];
      TermsOf(terms[..|terms| - 1], k) + (if key == k then [t] else [])
  }

  /** The terms of each mapping combined: summed when there are two or more, the term itself otherwise. */
  function GroupTerms(alg: Algebra, terms: seq<(Key, Expr)>): CodeMap {
    map k | k in KeysOf(terms) :: Combine(alg, TermsOf(terms, k))
  }

  /**
   * The grouping of `create_basis_function`: the output has a key per
   * mapping produced; a mapping produced once keeps its term; the terms of
   * a mapping produced several times are summed, in loop order.
   */
  lemma GroupTermsMeaning(alg: Algebra, terms: seq<(Key, Expr)>, i: nat)
    requires i < |terms|
    ensures terms[i].0 in GroupTerms(alg, terms)
    ensures (forall j :: 0 <= j < |terms| && j != i ==> terms[j].0 != terms[i].0) ==>
              GroupTerms(alg, terms)[terms[i].0] == terms[i].1
    ensures |TermsOf(terms, terms[i].0)| > 1 ==> GroupTerms(alg, terms)[terms[i].0] == alg.sum(TermsOf(terms, terms[i].0))
  {
    KeysOfMeaning(terms, terms[i].0);
    if forall j :: 0 <= j < |terms| && j != i ==> terms[j].0 != terms[i].0 {
      TermsOfSingle(terms, i);
    }
  }

  /** A mapping produced by a single pass has that pass's term alone. */
  lemma {:induction false} TermsOfSingle(terms: seq<(Key, Expr)>, i: nat)
    requires i < |terms|
    requires forall j :: 0 <= j < |terms| && j != i ==> terms[j].0 != terms[i].0
    ensures TermsOf(terms, terms[i].0) == [terms[i].1]
    decreases |terms|
  {
    var n := |terms| - 1;
    var init := terms[..n];
    if i < n {
      assert forall j :: 0 <= j < |init| && j != i ==> init[j].0 != init[i].0 by {
        forall j | 0 <= j < |init| ensures init[j] == terms[j] { }
      }
      TermsOfSingle(init, i);
      assert init[i] == terms[i];
    } else {
      assert TermsOf(init, terms[i].0) == [] by {
        forall j | 0 <= j < |init| ensures init[j].0 != terms[i].0 {
          assert init[j] == terms[j];
        }
        KeysOfMeaning(init, terms[i].0);
      }
    }
  }

  /** A key is among `KeysOf(terms)` exactly when some pair has it. */
  lemma {:induction false} KeysOfMeaning(terms: seq<(Key, Expr)>, k: Key)
    ensures k in KeysOf(terms) <==> exists j :: 0 <= j < |terms| && terms[j].0 == k
    decreases |terms|
  {
    if |terms| > 0 {
      var init := terms[..|terms| - 1];
      KeysOfMeaning(init, k);
      if exists j :: 0 <= j < |init| && init[j].0 == k {
        var j :| 0 <= j < |init| && init[j].0 == k;
        assert terms[j] == init[j];
      }
      if exists j :: 0 <= j < |terms| && terms[j].0 == k {
        var j :| 0 <= j < |terms| && terms[j].0 == k;
        if j < |init| {
          assert terms[j] == init[j];
        }
      }
    }
  }

  /** The result of `create_basis_function` and the final `psi_tables_map`. */
  function BasisFunctionResult(cfg: Config, args: TermArgs, bf: BasisFunction, elementDim: int, multis: seq<seq<int>>,
                               psi: map<Expr, string>): (Result<CodeMap, Error>, map<Expr, string>)
  {
    var run := BasisLoops(cfg, args, bf, elementDim, multis, psi);
    match run.failure
    case Some(e) => (Failure(e), run.psi)
    case None => (Success(GroupTerms(cfg.alg, run.terms)), run.psi)
  }

  /** `if mapping in code: code[mapping].append(t) else: code[mapping] = [t]`. */
  function AddTerm(code: map<Key, seq<Expr>>, mapping: Key, t: Expr): map<Key, seq<Expr>> {
    if mapping in code then code[mapping := code[mapping] + [t]] else code[mapping := [t]]
  }

  /** The lists of terms `create_basis_function` builds from the (mapping, term) pairs. */
  function Gathered(terms: seq<(Key, Expr)>): map<Key, seq<Expr>>
    decreases |terms|
  {
    if |terms| == 0 then map[]
    else AddTerm(Gathered(terms[..|terms| - 1]), terms[|terms| - 1].0, terms[|terms| - 1].1)
  }

  /** The lists hold a key per mapping produced, with that mapping's terms in loop order. */
  lemma {:induction false} GatheredMeaning(terms: seq<(Key, Expr)>)
    ensures Gathered(terms).Keys == KeysOf(terms)
    ensures forall k :: k in Gathered(terms) ==> Gathered(terms)[k] == TermsOf(terms, k)
    decreases |terms|
  {
    if |terms| > 0 {
      GatheredMeaning(terms[..|terms| - 1]);
    }
  }

  // ---------------------------------------------------------------------
  // create_function
  // ---------------------------------------------------------------------

  /** The progress of `create_function`'s loops: the terms so far and the error raised, if any. */
  datatype FunctionRun = FunctionRun(terms: seq<Expr>, failure: Option<Error>)

  /**
   * One pass of the loop body of `create_function`; `functionName` stands
   * for `_create_function_name`, whose `None` skips an affine pass.
   */
  function FunctionStep(cfg: Config, args: TermArgs, functionName: (int, seq<int>) -> Option<Expr>,
                        run: FunctionRun, call: Call): FunctionRun
  {
    if run.failure.Some? then run
    else
      match FunctionPass(cfg, args, functionName, call)
      case None => run
      case Some(Failure(e)) => FunctionRun(run.terms, Some(e))
      case Some(Success(t)) => FunctionRun(run.terms + [t], None)
  }

  /** The term of one pass of `create_function`, or nothing when an affine pass has no function name. */
  function FunctionPass(cfg: Config, args: TermArgs, functionName: (int, seq<int>) -> Option<Expr>, call: Call): Option<Result<Expr, Error>>
  {
    var name := functionName(call.component, Deriv(call.multi, cfg.geoDim));
    if args.transformation == Affine && name.None? then None
    else if args.transformation.OtherTransformation? then Some(Failure(UnsupportedTransformation))
    else if name.None? then Some(Failure(NoneFunctionName))
    else
      match Piola(cfg, args.transformation, call.direction, args.localComp, name.value)
      case Failure(e) => Some(Failure(e))
      case Success(f) => Some(ApplyTransformResult(cfg, f, args.derivatives, call.multi))
  }

  /** The passes of `create_function` over `calls`, from `run`. */
  function FunctionPasses(cfg: Config, args: TermArgs, functionName: (int, seq<int>) -> Option<Expr>, run: FunctionRun,
                          calls: seq<Call>): FunctionRun
    decreases |calls|
  {
    if |calls| == 0 then run
    else FunctionStep(cfg, args, functionName, FunctionPasses(cfg, args, functionName, run, calls[..|calls| - 1]), calls[|calls| - 1])
  }

  lemma FunctionPassesSnoc(cfg: Config, args: TermArgs, functionName: (int, seq<int>) -> Option<Expr>, run: FunctionRun,
                           calls: seq<Call>, c: nat)
    requires c < |calls|
    ensures FunctionPasses(cfg, args, functionName, run, calls[..c + 1])
         == FunctionStep(cfg, args, functionName, FunctionPasses(cfg, args, functionName, run, calls[..c]), calls[c])
  {
    assert calls[..c + 1][..c] == calls[..c];
  }

  lemma {:induction false} FunctionPassesStop(cfg: Config, args: TermArgs, functionName: (int, seq<int>) -> Option<Expr>,
                                              run: FunctionRun, calls: seq<Call>, i: nat)
    requires i <= |calls|
    requires FunctionPasses(cfg, args, functionName, run, calls[..i]).failure.Some?
    ensures FunctionPasses(cfg, args, functionName, run, calls) == FunctionPasses(cfg, args, functionName, run, calls[..i])
    decreases |calls|
  {
    if i == |calls| {
      assert calls[..i] == calls;
    } else {
      var init := calls[..|calls| - 1];
      assert init[..i] == calls[..i];
      FunctionPassesStop(cfg, args, functionName, run, init, i);
    }
  }

  /** The loops of `create_function` over the multi-indices. */
  function FunctionLoops(cfg: Config, args: TermArgs, functionName: (int, seq<int>) -> Option<Expr>, multis: seq<seq<int>>): FunctionRun
    decreases |multis|
  {
    if |multis| == 0 then FunctionRun([], None)
    else FunctionPasses(cfg, args, functionName, FunctionLoops(cfg, args, functionName, multis[..|multis| - 1]),
                        CallsFor(cfg, args, multis[|multis| - 1]))
  }

  lemma FunctionLoopsSnoc(cfg: Config, args: TermArgs, functionName: (int, seq<int>) -> Option<Expr>, multis: seq<seq<int>>, i: nat)
    requires i < |multis|
    ensures FunctionLoops(cfg, args, functionName, multis[..i + 1])
         == FunctionPasses(cfg, args, functionName, FunctionLoops(cfg, args, functionName, multis[..i]), CallsFor(cfg, args, multis[i]))
  {
    assert multis[..i + 1][..i] == multis[..i];
  }

  lemma {:induction false} FunctionLoopsStop(cfg: Config, args: TermArgs, functionName: (int, seq<int>) -> Option<Expr>,
                                             multis: seq<seq<int>>, i: nat)
    requires i <= |multis|
    requires FunctionLoops(cfg, args, functionName, multis[..i]).failure.Some?
    ensures FunctionLoops(cfg, args, functionName, multis) == FunctionLoops(cfg, args, functionName, multis[..i])
    decreases |multis|
  {
    if i == |multis| {
      assert multis[..i] == multis;
    } else {
      var init := multis[..|multis| - 1];
      assert init[..i] == multis[..i];
      FunctionLoopsStop(cfg, args, functionName, init, i);
      FunctionPassesStop(cfg, args, functionName, FunctionLoops(cfg, args, functionName, init), CallsFor(cfg, args, multis[|multis| - 1]), 0);
    }
  }

  /** The sum of the terms of `create_function`: zero for none, the term itself for one. */
  function SumTerms(alg: Algebra, terms: seq<Expr>): (e: Expr)
    ensures |terms| == 0 ==> e == FloatValue(0.0)
    ensures |terms| == 1 ==> e == terms[0]
    ensures |terms| > 1 ==> e == alg.sum(terms)
  {
    if |terms| == 0 then FloatValue(0.0) else Combine(alg, terms)
  }

  function FunctionResult(cfg: Config, args: TermArgs, functionName: (int, seq<int>) -> Option<Expr>,
                          multis: seq<seq<int>>): Result<Expr, Error>
  {
    var run := FunctionLoops(cfg, args, functionName, multis);
    match run.failure
    case Some(e) => Failure(e)
    case None => Success(SumTerms(cfg.alg, run.terms))
  }

  // ---------------------------------------------------------------------
  // _create_entry_value
  // ---------------------------------------------------------------------

  /** The entry value: `val * weight * scale_factor`, the scale factor a geometry symbol, optimised. */
  function EntryValue(alg: Algebra, val: Expr, weight: Expr, scaleFactor: string): Expr {
    alg.optimise(alg.product([val, weight, CreateSymbol(scaleFactor, GEO)]))
  }

  /** The tables of the BASIS symbols `vars`, through `psi_tables_map`. */
  function TablesOf(vars: set<Expr>, psi: map<Expr, string>): set<string> {
    set b | b in vars && b in psi :: psi[b]
  }

  // ---------------------------------------------------------------------
  // The transformer
  // ---------------------------------------------------------------------

  class QuadratureTransformerOpt {
    const cfg: Config
    /** `psi_tables_map`: the table name of each BASIS symbol created. */
    var psiTablesMap: map<Expr, string>
    /** `used_psi_tables`: the tables the generated code uses. */
    var usedPsiTables: set<string>

    /** A transformer over `cfg` that has recorded no table yet. */
    constructor (cfg: Config)
      ensures this.cfg == cfg && psiTablesMap == map[] && usedPsiTables == {}
    {
      this.cfg := cfg;
      psiTablesMap := map[];
      usedPsiTables := {};
    }

    /** `__create_mapping_basis`: the mapping and basis of one table, recording a table symbol in `psi_tables_map`. */
    method CreateMappingBasis(component: int, deriv: seq<int>, bf: BasisFunction, elementDim: int)
      returns (r: Result<(Key, Expr), Error>)
      modifies this
      ensures (r, psiTablesMap) == MappingBasis(cfg, component, deriv, bf, elementDim, old(psiTablesMap))
      ensures usedPsiTables == old(usedPsiTables)
    {
      var info :- LookupTable(component, deriv, bf);
      var loopIndex := FreeIndex(cfg.fmt, bf.count);
      var formatIp := if cfg.points == 1 then "0" else cfg.fmt.integrationPoints;
      var basisAccess := cfg.fmt.matrixAccess(formatIp, loopIndex);
      var spaceDim := elementDim;
      if cfg.restriction == Plus || cfg.restriction == Minus {
        spaceDim := spaceDim * 2;
      }
      var loopIndexRange := cfg.tableColumns[info.name];
      var basis;
      basis, loopIndex := RecordTable(info, bf.count, basisAccess);
      var basisMap :- BasisMap(loopIndex, info.nonZeros, elementDim);
      r := Success(([IndexEntry(bf.count, basisMap, loopIndexRange, spaceDim)], basis));
    }

    /**
     * The lookups of `__create_mapping_basis` before a table is chosen: the
     * count check, `element_map[points][element]`, `name_map[psi_name]` and
     * the shape of the table.
     */
    method LookupTable(component: int, deriv: seq<int>, bf: BasisFunction) returns (r: Result<PsiInfo, Error>)
      ensures r == TableLookup(cfg, component, deriv, bf)
    {
      if bf.count !in {-2, -1, 0, 1} {
        return Failure(InvalidBasisIndex);
      }
      var facet := if cfg.restriction == Minus then cfg.facet1 else cfg.facet0;
      if cfg.points !in cfg.elementMap || bf.element !in cfg.elementMap[cfg.points] {
        return Failure(KeyError);
      }
      var elementCounter := cfg.elementMap[cfg.points][bf.element];
      var psiName := cfg.generatePsiName(elementCounter, facet, component, deriv);
      if psiName !in cfg.nameMap {
        return Failure(KeyError);
      }
      var info := cfg.nameMap[psiName];
      if info.name !in cfg.tableColumns {
        return Failure(KeyError);
      }
      r := Success(info);
    }

    /**
     * The table part of `__create_mapping_basis`: the float 0 for a zero
     * table, the float 1 and loop index `"0"` for an all-ones table, and
     * otherwise the table symbol, recorded in `psi_tables_map`.
     */
    method RecordTable(info: PsiInfo, count: int, basisAccess: string) returns (basis: Expr, loopIndex: string)
      requires info.name in cfg.tableColumns
      requires basisAccess == cfg.fmt.matrixAccess(if cfg.points == 1 then "0" else cfg.fmt.integrationPoints,
                                                   FreeIndex(cfg.fmt, count))
      modifies this
      ensures basis == ChosenBasis(cfg, info, count) && loopIndex == ChosenLoopIndex(cfg, info, count)
      ensures psiTablesMap == RecordedTables(cfg, info, count, old(psiTablesMap))
      ensures usedPsiTables == old(usedPsiTables)
    {
      loopIndex := FreeIndex(cfg.fmt, count);
      if info.zeros && (cfg.options.ignoreZeroTables || cfg.options.removeZeroTerms) {
        basis := FloatValue(0.0);
      } else if cfg.options.ignoreOnes && cfg.tableColumns[info.name] == 1 && info.ones {
        basis := FloatValue(1.0);
        loopIndex := "0";
      } else {
        basis := CreateSymbol(info.name + basisAccess, BASIS);
        psiTablesMap := psiTablesMap[basis := info.name];
      }
    }

    /**
     * The basis map of `__create_mapping_basis`: the loop index, or its
     * column among the table's non-zero columns; offset by the space
     * dimension for the `"-"` restriction; then simplified by `eval` where
     * it can be.
     */
    method BasisMap(loopIndex: string, nonZeros: Option<(int, seq<int>)>, elementDim: int) returns (r: Result<string, Error>)
      ensures ColumnMap(cfg, loopIndex, nonZeros).Failure? <==> r.Failure?
      ensures r.Failure? ==> r.error == IndexError
      ensures r.Success? ==> r.value == OffsetMap(cfg, ColumnMap(cfg, loopIndex, nonZeros).value, elementDim)
    {
      var offset := if cfg.restriction == Minus then IntToString(elementDim) else "";
      var basisMap := loopIndex;
      if nonZeros.Some? && basisMap == "0" {
        if |nonZeros.value.1| == 0 {
          return Failure(IndexError);
        }
        basisMap := IntToString(nonZeros.value.1[0]);
      } else if nonZeros.Some? {
        basisMap := cfg.fmt.nonzeroColumns(nonZeros.value.0) + cfg.fmt.arrayAccess(basisMap);
      }
      if offset != "" {
        basisMap := cfg.fmt.grouping(cfg.fmt.add([basisMap, offset]));
      }
      r := Success(cfg.evalIndex(basisMap).GetOr(basisMap));
    }

    /**
     * `create_basis_function`: the code of a basis function, one entry per
     * mapping, recording the tables it uses in `psi_tables_map`.
     */
    method CreateBasisFunction(args: TermArgs, bf: BasisFunction, elementDim: int, multis: seq<seq<int>>)
      returns (r: Result<CodeMap, Error>)
      modifies this
      ensures (r, psiTablesMap) == BasisFunctionResult(cfg, args, bf, elementDim, multis, old(psiTablesMap))
      ensures usedPsiTables == old(usedPsiTables)
    {
      var code: map<Key, seq<Expr>> := map[];
      ghost var psi0 := psiTablesMap;
      ghost var run := BasisRun([], psi0, None);
      for i := 0 to |multis|
        invariant run == BasisLoops(cfg, args, bf, elementDim, multis[..i], psi0)
        invariant run.failure.None? && psiTablesMap == run.psi && code == Gathered(run.terms)
        invariant usedPsiTables == old(usedPsiTables)
      {
        BasisLoopsSnoc(cfg, args, bf, elementDim, multis, i, psi0);
        var failure;
        code, failure := AddBasisTerms(args, bf, elementDim, multis[i], code, run);
        run := BasisLoops(cfg, args, bf, elementDim, multis[..i + 1], psi0);
        if failure.Some? {
          BasisLoopsStop(cfg, args, bf, elementDim, multis, i + 1, psi0);
          return Failure(failure.value);
        }
      }
      assert multis[..|multis|] == multis;
      GatheredMeaning(run.terms);
      var combined := CombineAll(cfg.alg, code);
      assert combined == GroupTerms(cfg.alg, run.terms);
      r := Success(combined);
    }

    /**
     * The inner loop of `create_basis_function` for one multi-index: the
     * derivative counts, then one pass for the affine mapping or one per
     * direction `c` otherwise.
     */
    method AddBasisTerms(args: TermArgs, bf: BasisFunction, elementDim: int, multi: seq<int>,
                         code: map<Key, seq<Expr>>, ghost run: BasisRun)
      returns (code': map<Key, seq<Expr>>, failure: Option<Error>)
      requires run.failure.None? && psiTablesMap == run.psi && code == Gathered(run.terms)
      modifies this
      ensures var next := BasisPasses(cfg, args, bf, elementDim, run, CallsFor(cfg, args, multi));
        && psiTablesMap == next.psi && failure == next.failure
        && (failure.None? ==> code' == Gathered(next.terms))
      ensures usedPsiTables == old(usedPsiTables)
    {
      var deriv := Deriv(multi, cfg.geoDim);
      ghost var calls := CallsFor(cfg, args, multi);
      ghost var cur := run;
      code' := code;
      var count := if args.transformation == Affine then 1 else cfg.geoDim;
      CallsForLength(cfg, args, multi);
      assert calls[..0] == [];
      for c := 0 to count
        invariant cur == BasisPasses(cfg, args, bf, elementDim, run, calls[..c])
        invariant cur.failure.None? && psiTablesMap == cur.psi && code' == Gathered(cur.terms)
        invariant usedPsiTables == old(usedPsiTables)
      {
        var call := if args.transformation == Affine then Call(args.component, multi, 0)
                    else Call(c + args.localOffset, multi, c);
        CallsForMeaning(cfg, args, multi, c);
        BasisPassesSnoc(cfg, args, bf, elementDim, run, calls, c);
        code', failure := AddBasisTerm(args, bf, elementDim, call, deriv, code', cur);
        cur := BasisStep(cfg, args, bf, elementDim, cur, call);
        if failure.Some? {
          BasisPassesStop(cfg, args, bf, elementDim, run, calls, c + 1);
          return;
        }
      }
      assert calls[..count] == calls;
      failure := None;
    }

    /**
     * One pass of `create_basis_function`'s loops: the mapping and basis of
     * the component, the Piola factors, the derivative transform, and the
     * term appended to its mapping's list in `code`.
     */
    method AddBasisTerm(args: TermArgs, bf: BasisFunction, elementDim: int, call: Call, deriv: seq<int>,
                        code: map<Key, seq<Expr>>, ghost run: BasisRun)
      returns (code': map<Key, seq<Expr>>, failure: Option<Error>)
      requires deriv == Deriv(call.multi, cfg.geoDim)
      requires run.failure.None? && psiTablesMap == run.psi && code == Gathered(run.terms)
      modifies this
      ensures var next := BasisStep(cfg, args, bf, elementDim, run, call);
        && psiTablesMap == next.psi && failure == next.failure
        && (failure.None? ==> code' == Gathered(next.terms))
      ensures usedPsiTables == old(usedPsiTables)
    {
      code' := code;
      var res := CreateMappingBasis(call.component, deriv, bf, elementDim);
      if res.Failure? {
        return code, Some(res.error);
      }
      var (mapping, basis) := res.value;
      var term := Piola(cfg, args.transformation, call.direction, args.localComp, basis);
      if term.Failure? {
        return code, Some(term.error);
      }
      var t := ApplyTransform(cfg, term.value, args.derivatives, call.multi);
      if t.Failure? {
        return code, Some(t.error);
      }
      if mapping in code {
        code' := code[mapping := code[mapping] + [t.value]];
      } else {
        code' := code[mapping := [t.value]];
      }
      assert (run.terms + [(mapping, t.value)])[..|run.terms|] == run.terms;
      failure := None;
    }

    /**
     * `create_function`: the sum of the coefficient's terms, `0.0` when
     * none survives; `functionName` stands for `_create_function_name`.
     */
    method CreateFunction(args: TermArgs, functionName: (int, seq<int>) -> Option<Expr>, multis: seq<seq<int>>)
      returns (r: Result<Expr, Error>)
      ensures r == FunctionResult(cfg, args, functionName, multis)
    {
      var code: seq<Expr> := [];
      for i := 0 to |multis|
        invariant FunctionLoops(cfg, args, functionName, multis[..i]) == FunctionRun(code, None)
      {
        FunctionLoopsSnoc(cfg, args, functionName, multis, i);
        var failure;
        code, failure := AddFunctionTerms(args, functionName, multis[i], code);
        if failure.Some? {
          FunctionLoopsStop(cfg, args, functionName, multis, i + 1);
          return Failure(failure.value);
        }
      }
      assert multis[..|multis|] == multis;
      if |code| == 0 {
        return Success(FloatValue(0.0));
      } else if |code| > 1 {
        r := Success(cfg.alg.sum(code));
      } else {
        r := Success(code[0]);
      }
    }

    /**
     * The inner loop of `create_function` for one multi-index: one pass for
     * the affine mapping or one per direction `c` otherwise.
     */
    method AddFunctionTerms(args: TermArgs, functionName: (int, seq<int>) -> Option<Expr>, multi: seq<int>, code: seq<Expr>)
      returns (code': seq<Expr>, failure: Option<Error>)
      ensures var next := FunctionPasses(cfg, args, functionName, FunctionRun(code, None), CallsFor(cfg, args, multi));
        failure == next.failure && (failure.None? ==> next.terms == code')
    {
      var deriv := Deriv(multi, cfg.geoDim);
      ghost var calls := CallsFor(cfg, args, multi);
      code' := code;
      var count := if args.transformation == Affine then 1 else cfg.geoDim;
      CallsForLength(cfg, args, multi);
      assert calls[..0] == [];
      for c := 0 to count
        invariant FunctionPasses(cfg, args, functionName, FunctionRun(code, None), calls[..c]) == FunctionRun(code', None)
      {
        var call := if args.transformation == Affine then Call(args.component, multi, 0)
                    else Call(c + args.localOffset, multi, c);
        CallsForMeaning(cfg, args, multi, c);
        FunctionPassesSnoc(cfg, args, functionName, FunctionRun(code, None), calls, c);
        code', failure := AddFunctionTerm(args, functionName, call, deriv, code');
        if failure.Some? {
          FunctionPassesStop(cfg, args, functionName, FunctionRun(code, None), calls, c + 1);
          return;
        }
      }
      assert calls[..count] == calls;
      failure := None;
    }

    /**
     * One pass of `create_function`'s loops: an affine pass without a
     * function name adds nothing; otherwise the Piola-mapped, transformed
     * function name is appended.
     */
    method AddFunctionTerm(args: TermArgs, functionName: (int, seq<int>) -> Option<Expr>, call: Call, deriv: seq<int>,
                           code: seq<Expr>)
      returns (code': seq<Expr>, failure: Option<Error>)
      requires deriv == Deriv(call.multi, cfg.geoDim)
      ensures var next := FunctionStep(cfg, args, functionName, FunctionRun(code, None), call);
        failure == next.failure && (failure.None? ==> code' == next.terms)
    {
      code' := code;
      var name := functionName(call.component, deriv);
      if args.transformation == Affine && name.None? {
        return code, None;
      }
      var f;
      if args.transformation.OtherTransformation? {
        return code, Some(UnsupportedTransformation);
      } else if name.None? {
        return code, Some(NoneFunctionName);
      } else {
        f := Piola(cfg, args.transformation, call.direction, args.localComp, name.value);
      }
      var t := ApplyTransform(cfg, f.value, args.derivatives, call.multi);
      if t.Failure? {
        return code, Some(t.error);
      }
      code', failure := code + [t.value], None;
    }

    /**
     * `_create_entry_value(val, weight, scale_factor)`: the optimised
     * product of the value, the weight and the scale factor, and whether it
     * is zero; a non-zero value adds the tables of its BASIS symbols to
     * `used_psi_tables`, and a BASIS symbol without a table is a key error.
     */
    method CreateEntryValue(val: Expr, weight: Expr, scaleFactor: string) returns (r: Result<(Expr, bool), Error>)
      modifies this
      ensures var value := EntryValue(cfg.alg, val, weight, scaleFactor);
        var vars := cfg.alg.uniqueVars(value, BASIS);
        var zero := cfg.alg.val(value) == 0.0;
        && (r.Failure? <==> !zero && exists b :: b in vars && b !in psiTablesMap)
        && (r.Failure? ==> r.error == KeyError && usedPsiTables == old(usedPsiTables))
        && (r.Success? ==> r.value == (value, zero))
        && (r.Success? && zero ==> usedPsiTables == old(usedPsiTables))
        && (r.Success? && !zero ==> usedPsiTables == old(usedPsiTables) + TablesOf(vars, psiTablesMap))
      ensures psiTablesMap == old(psiTablesMap)
    {
      var zero := false;
      var value := cfg.alg.product([val, weight, CreateSymbol(scaleFactor, GEO)]);
      value := cfg.alg.optimise(value);
      if cfg.alg.val(value) == 0.0 {
        zero := true;
      } else {
        var vars := cfg.alg.uniqueVars(value, BASIS);
        var tables: set<string> := {};
        var pending := vars;
        while pending != {}
          invariant pending <= vars
          invariant forall b :: b in vars - pending ==> b in psiTablesMap
          invariant tables == TablesOf(vars - pending, psiTablesMap)
        {
          var b :| b in pending;
          if b !in psiTablesMap {
            return Failure(KeyError);
          }
          tables := tables + {psiTablesMap[b]};
          pending := pending - {b};
        }
        usedPsiTables := usedPsiTables + tables;
      }
      r := Success((value, zero));
    }
  }
}
