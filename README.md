# FFC / UFLACS code generation core, modelled in Dafny

This project models three parts of the FEniCS form compiler:

- **The optimised quadrature transformer.** This is `QuadratureTransformerOpt` in
  `ffc/compiler/quadrature/optimisedquadraturetransformer.py`. It visits a UFL integrand and
  builds, for every node, a *code map*. A code map takes a free-index key to a symbolic
  expression. A key is a tuple of `(count, basis_map, loop_index_range, space_dim)` entries, and
  it is `()` for a scalar.
  - The algebra operators (`sum`, `product`, `division`, `power`, `abs`), the math functions and
    `facet_normal` combine the operands' code maps.
  - `create_basis_function`, `__create_mapping_basis` and `create_function` produce the code of
    basis functions and coefficients from the tabulated basis values. They also record in
    `psi_tables_map` which table each basis symbol reads.
  - `_create_entry_value` builds the value of one element-tensor entry and adds the tables it
    uses to `used_psi_tables`.
- **The code-stitching utilities of UFLACS** (`uflacs/codeutils/format_code.py`):
  - `format_code`, which turns nested strings, lists (lines), tuples (concatenation), ints and AST
    nodes into C++ source text;
  - the helpers `strip_trailing_whitespace`, `indent`, `build_separated_list`,
    `build_initializer_list` and `build_recursive_initializer_list`;
  - the AST node classes and their `format` methods.
- **The DOLFIN name capsules** (`ffc/backends/dolfin/capsules.py`): `UFCFormNames` and
  `UFCElementNames` record the generated class names and print them.

The modules are:

| module | file | contents |
|---|---|---|
| `Wrappers` | wrappers.dfy | `Option` (Python `None`) and `Result` (a value or a raised exception) |
| `Text` | text.dfy | Python's `str.split`, `str.join`, `rstrip`, `str(int)` and `repr`/`str` of string lists |
| `Symbolics` | symbolics.dfy | symbolic expressions (floats, symbols with their domain tag, products, sums, fractions) and the `Algebra` record of the symbolics operations |
| `IndexKeys` | index_keys.dfy | free-index entries, Python's tuple order on them, and key sorting |
| `QuadratureConfig` | quadrature_config.dfy | the transformer's read-only state: format entries, optimise options, tables, errors |
| `QuadratureOperators` | quadrature_operators.dfy | `sum`, `product`, `division`, `power`, `abs`, math functions, `facet_normal`, `_format_scalar_value`, `__apply_transform` |
| `QuadratureTransformer` | quadrature_transformer.dfy | the class `QuadratureTransformerOpt` with `psi_tables_map` and `used_psi_tables`, and the basis-function and coefficient loops |
| `Formatting` | format_code.dfy | `format_code`, its helpers and the AST nodes |
| `Capsules` | capsules.dfy | the classes `UFCFormNames` and `UFCElementNames` |

Python exceptions (`error(...)`, `KeyError`, `IndexError`, failed `assert`s in
`format_code.py`) become the `Failure` case of a `Result`. The loops of the source are methods
with loop invariants. Most loop methods are proved equal to a recursive specification function,
and lemmas state what that function means. The other methods (`Division`, `BasisMap`,
`CreateEntryValue` and the like) state their results directly in their `ensures` clauses.

## Model

The members of `QuadratureOperators` and `QuadratureTransformer` cite
`ffc/compiler/quadrature/optimisedquadraturetransformer.py`. Those of `Formatting` cite
`uflacs/codeutils/format_code.py`, and those of `Capsules` cite `ffc/backends/dolfin/capsules.py`.

| member | source | states |
|---|---|---|
| QuadratureOperators.AllKeysMeaning | ffc/compiler/quadrature/optimisedquadraturetransformer.py:63-70 | a key is gathered by `sum` exactly when some operand has it |
| QuadratureOperators.SumMeaning | ffc/compiler/quadrature/optimisedquadraturetransformer.py:58-81 | the keys of `sum` are the union of the operands' keys; a key held by one operand only keeps that operand's value; a key held by several maps to `create_sum` of their values in operand order |
| QuadratureOperators.CollectedSingle | ffc/compiler/quadrature/optimisedquadraturetransformer.py:63-70 | a key that only one operand has gathers exactly that operand's value |
| QuadratureOperators.GatherOperand | ffc/compiler/quadrature/optimisedquadraturetransformer.py:66-70 | visiting one more operand appends its value to the list of each of its keys, keeping every list in operand order |
| QuadratureOperators.CombineAll | ffc/compiler/quadrature/optimisedquadraturetransformer.py:72-79 | the keys are unchanged; a list of two or more values becomes their `create_sum`; a single value stands alone |
| QuadratureOperators.Sum | ffc/compiler/quadrature/optimisedquadraturetransformer.py:58-81 | the two loops of `sum` compute exactly the code map that `SumMeaning` describes |
| QuadratureOperators.PermutedMeaning | ffc/compiler/quadrature/optimisedquadraturetransformer.py:89-94 | an operand is permuted exactly when it has several keys or a single key other than `()` |
| QuadratureOperators.ScalarFactorsMeaning | ffc/compiler/quadrature/optimisedquadraturetransformer.py:89-94 | every non-empty operand that is not permuted is exactly `{(): v}` and its `v` is a scalar factor; every scalar factor comes from such an operand |
| QuadratureOperators.Partition | ffc/compiler/quadrature/optimisedquadraturetransformer.py:86-94 | the first loop of `product` splits the operands into the permuted ones and the scalar factors, both in operand order |
| QuadratureOperators.RekeyedHas | ffc/compiler/quadrature/optimisedquadraturetransformer.py:107-116 | when rekeying succeeds, the sorted form of every permutation key is an output key, and its value is `create_product` of that permutation's values followed by the scalar factors |
| QuadratureOperators.RekeyedOnly | ffc/compiler/quadrature/optimisedquadraturetransformer.py:107-116 | every output key of `product` is the sorted form of some permutation key |
| QuadratureOperators.RekeyedSucceeds | ffc/compiler/quadrature/optimisedquadraturetransformer.py:110-115 | the indexed case of `product` raises exactly when two permutation keys are rearrangements of each other |
| QuadratureOperators.Rekey | ffc/compiler/quadrature/optimisedquadraturetransformer.py:106-116 | the rekeying loop returns the specification `Rekeyed`, stopping at the first colliding key |
| QuadratureOperators.Product | ffc/compiler/quadrature/optimisedquadraturetransformer.py:83-119 | `product` is the scalar product `{(): create_product(scalars)}` when there is nothing to permute, and the rekeyed permutations otherwise |
| QuadratureOperators.Division | ffc/compiler/quadrature/optimisedquadraturetransformer.py:121-145 | anything but two operands is an error; a denominator with neither `()` nor exactly one key is an error; one key other than `()` is a key error; otherwise the keys are those of the numerator, each value divided by the denominator's scalar |
| QuadratureOperators.Copies | ffc/compiler/quadrature/optimisedquadraturetransformer.py:168 | `[val] * n` holds `max(n, 0)` copies of `val` |
| QuadratureOperators.Power | ffc/compiler/quadrature/optimisedquadraturetransformer.py:147-182 | a base not of function type raises; an int exponent gives the product of `n` copies of the base; a float or function exponent gives a `pow` symbol of the base's domain that wraps the base and costs one operation; a function exponent without `()` is a key error; any other exponent is an error |
| QuadratureOperators.Abs | ffc/compiler/quadrature/optimisedquadraturetransformer.py:184-196 | `abs` succeeds exactly when the guard passes and the first operand has `()`; it then returns an absolute-value symbol of the operand's domain that wraps it and costs one operation |
| QuadratureOperators.MathFunction | ffc/compiler/quadrature/optimisedquadraturetransformer.py:447-460 | the keys of the first operand are kept; each value is replaced by the function's symbol, which has the value's domain, wraps the value and costs one operation; no operand, or an operand not of function type, is an error |
| QuadratureOperators.FacetNormal | ffc/compiler/quadrature/optimisedquadraturetransformer.py:201-215 | the normal component is one scalar GEO symbol for the restriction and component; operands, or anything but one component, are errors |
| QuadratureOperators.FormatScalarValue | ffc/compiler/quadrature/optimisedquadraturetransformer.py:441-445 | the value becomes a scalar float, and `None` becomes `0.0` |
| QuadratureOperators.TransformFactorsMeaning | ffc/compiler/quadrature/optimisedquadraturetransformer.py:425-428 | the factor of derivative `i` is the GEO symbol `JINV` for direction `multi[i]` and derivative `derivatives[i]` |
| QuadratureOperators.ApplyTransform | ffc/compiler/quadrature/optimisedquadraturetransformer.py:419-430 | the function times one `JINV` GEO symbol per derivative, in derivative order and with the function last; a `multi` shorter than the derivatives is an index error |
| QuadratureConfig.ScalarCode | ffc/compiler/quadrature/optimisedquadraturetransformer.py:118 | `{(): v}` has the scalar key alone, mapped to `v` |
| IndexKeys.EntryLessOrder | ffc/compiler/quadrature/optimisedquadraturetransformer.py:110-111 | Python's order on the key entries is a strict total order |
| IndexKeys.StrLessTotal | ffc/compiler/quadrature/optimisedquadraturetransformer.py:110-111 | two different basis-map strings are ordered one way or the other |
| IndexKeys.Insert | ffc/compiler/quadrature/optimisedquadraturetransformer.py:110-111 | inserting into a sorted key keeps it sorted and adds exactly that entry |
| IndexKeys.SortKeyMeaning | ffc/compiler/quadrature/optimisedquadraturetransformer.py:110-111 | `l.sort()` gives an ascending permutation of the key's entries |
| IndexKeys.SortedUnique | ffc/compiler/quadrature/optimisedquadraturetransformer.py:110-114 | two sorted keys with the same entries are equal |
| IndexKeys.SortKeySame | ffc/compiler/quadrature/optimisedquadraturetransformer.py:110-114 | two keys sort to the same tuple exactly when one is a rearrangement of the other |
| IndexKeys.SortKeyIdempotent | ffc/compiler/quadrature/optimisedquadraturetransformer.py:110-111 | sorting a sorted key changes nothing |
| QuadratureTransformer.DerivMeaning | ffc/compiler/quadrature/optimisedquadraturetransformer.py:231-233 | the derivative counts give the count of each direction below `geo_dim`; they are empty exactly when no such direction occurs |
| QuadratureTransformer.HasDirectionMeaning | ffc/compiler/quadrature/optimisedquadraturetransformer.py:232-233 | `any(deriv)` holds exactly when a direction below `geo_dim` occurs in the multi-index |
| QuadratureTransformer.Count | ffc/compiler/quadrature/optimisedquadraturetransformer.py:231 | `multi.count(v)` is positive exactly when `v` occurs, and is at most the length |
| QuadratureTransformer.TableLookup | ffc/compiler/quadrature/optimisedquadraturetransformer.py:295-334 | a count outside -2, -1, 0, 1 is an error; a found table has a known shape |
| QuadratureTransformer.MappingBasisLookupErrors | ffc/compiler/quadrature/optimisedquadraturetransformer.py:289-334 | an invalid count or a failed `element_map`, `name_map` or shape lookup raises before any table is recorded |
| QuadratureTransformer.MappingBasisKey | ffc/compiler/quadrature/optimisedquadraturetransformer.py:302-357 | the mapping is one entry with the function's count and the table's loop range; its space dimension is doubled for a restricted function; its basis map is exactly the column of the chosen loop index (`"0"` for an ignored ones table), offset and evaluated |
| QuadratureTransformer.OffsetMapMeaning | ffc/compiler/quadrature/optimisedquadraturetransformer.py:314-349 | only the `"-"` restriction groups the column with the element's space dimension added; every basis map is then evaluated when `eval` can, and left as it is otherwise |
| QuadratureTransformer.MappingBasisTables | ffc/compiler/quadrature/optimisedquadraturetransformer.py:326-343 | a zero table gives `0.0` and records nothing; an all-ones table with loop range 1 gives `1.0`, records nothing and uses loop index `0`; any other table gives a BASIS symbol recorded in `psi_tables_map` under the table's name |
| QuadratureTransformer.CallsForLength | ffc/compiler/quadrature/optimisedquadraturetransformer.py:245-262 | one pass per multi-index for an affine mapping, `geo_dim` passes otherwise |
| QuadratureTransformer.CallsForMeaning | ffc/compiler/quadrature/optimisedquadraturetransformer.py:245-262 | pass `c` uses the component itself when affine, and component `c + local_offset` in direction `c` otherwise |
| QuadratureTransformer.BasisLoopsStop | ffc/compiler/quadrature/optimisedquadraturetransformer.py:245-270 | once a pass of `create_basis_function` raises, the later multi-indices change nothing |
| QuadratureTransformer.FunctionLoopsStop | ffc/compiler/quadrature/optimisedquadraturetransformer.py:385-406 | once a pass of `create_function` raises, the later multi-indices change nothing |
| QuadratureTransformer.GroupTermsMeaning | ffc/compiler/quadrature/optimisedquadraturetransformer.py:272-277 | every mapping produced is an output key; a mapping produced once keeps its term; the terms of a mapping produced several times are summed in loop order |
| QuadratureTransformer.TermsOfSingle | ffc/compiler/quadrature/optimisedquadraturetransformer.py:272-277 | a mapping produced by a single pass has that pass's term alone |
| QuadratureTransformer.KeysOfMeaning | ffc/compiler/quadrature/optimisedquadraturetransformer.py:272-277 | a mapping is grouped exactly when some pass produced it |
| QuadratureTransformer.GatheredMeaning | ffc/compiler/quadrature/optimisedquadraturetransformer.py:272-275 | the gathered lists have one key per mapping produced, holding that mapping's terms in loop order |
| QuadratureTransformer.SumTerms | ffc/compiler/quadrature/optimisedquadraturetransformer.py:407-412 | a coefficient with no terms is `0.0`, one term is itself, and several terms are `create_sum` of them |
| QuadratureTransformer.QuadratureTransformerOpt.constructor | ffc/compiler/quadrature/optimisedquadraturetransformer.py:46-50 | a new transformer has recorded no table and uses none |
| QuadratureTransformer.QuadratureTransformerOpt.LookupTable | ffc/compiler/quadrature/optimisedquadraturetransformer.py:295-334 | the count check, the element counter, the psi name and the table shape, as `TableLookup` specifies |
| QuadratureTransformer.QuadratureTransformerOpt.RecordTable | ffc/compiler/quadrature/optimisedquadraturetransformer.py:326-334 | the chosen basis and loop index; `psi_tables_map` grows only for a table symbol; `used_psi_tables` is unchanged |
| QuadratureTransformer.QuadratureTransformerOpt.BasisMap | ffc/compiler/quadrature/optimisedquadraturetransformer.py:337-349 | the basis map is the loop index or its non-zero column, offset for `"-"`, then simplified by `eval`; an empty column list at loop index `0` is an index error |
| QuadratureTransformer.QuadratureTransformerOpt.CreateMappingBasis | ffc/compiler/quadrature/optimisedquadraturetransformer.py:281-357 | the result and the new `psi_tables_map` are those of `MappingBasis`, whose meaning the three `MappingBasis` lemmas state; `used_psi_tables` is unchanged |
| QuadratureTransformer.QuadratureTransformerOpt.CreateBasisFunction | ffc/compiler/quadrature/optimisedquadraturetransformer.py:217-279 | the result is the grouping of the terms of all passes (see `GroupTermsMeaning`), or the first error raised; `psi_tables_map` is as the passes left it |
| QuadratureTransformer.QuadratureTransformerOpt.AddBasisTerms | ffc/compiler/quadrature/optimisedquadraturetransformer.py:226-270 | the inner loop over the directions appends each pass's term to its mapping's list, or stops at the first error |
| QuadratureTransformer.QuadratureTransformerOpt.AddBasisTerm | ffc/compiler/quadrature/optimisedquadraturetransformer.py:232-270 | one pass: the mapping and basis, the Piola factors, the derivative transform, and the term appended to its mapping's list |
| QuadratureTransformer.QuadratureTransformerOpt.CreateFunction | ffc/compiler/quadrature/optimisedquadraturetransformer.py:359-414 | the sum of the terms of all passes (see `SumTerms`), or the first error raised |
| QuadratureTransformer.QuadratureTransformerOpt.AddFunctionTerms | ffc/compiler/quadrature/optimisedquadraturetransformer.py:370-406 | the inner loop over the directions appends each pass's term, or stops at the first error |
| QuadratureTransformer.QuadratureTransformerOpt.AddFunctionTerm | ffc/compiler/quadrature/optimisedquadraturetransformer.py:372-406 | an affine pass without a function name adds nothing; an unknown mapping is an error; otherwise the Piola-mapped, transformed function is appended |
| QuadratureTransformer.QuadratureTransformerOpt.CreateEntryValue | ffc/compiler/quadrature/optimisedquadraturetransformer.py:468-483 | the value is the optimised product of value, weight and the GEO scale factor; it is zero exactly when `.val` is 0; a non-zero value adds the tables of its BASIS symbols to `used_psi_tables`; a BASIS symbol without a table is a key error |
| Formatting.StripTrailingWhitespace | uflacs/codeutils/format_code.py:33-34 | the same number of lines; each line is the original line with its trailing white space removed, and ends in no white space |
| Formatting.StripTrailingWhitespaceIdempotent | uflacs/codeutils/format_code.py:33-34 | stripping twice is stripping once |
| Formatting.Indent | uflacs/codeutils/format_code.py:47-51 | level 0 returns the text; otherwise each line is prefixed by `4 * level` spaces and no line is added or lost |
| Formatting.SeparatedListMeaning | uflacs/codeutils/format_code.py:54-61 | every value but the last is paired with the separator; the last value stands alone |
| Formatting.BuildSeparatedList | uflacs/codeutils/format_code.py:54-61 | the loop of `build_separated_list` builds `SeparatedList` |
| Formatting.InitializerListShape | uflacs/codeutils/format_code.py:64-66 | `begin`, each value but the last paired with `sep`, the last value, `end`: two more items than values |
| Formatting.RecursiveInitializerList | uflacs/codeutils/format_code.py:69-98 | no sizes is an assertion error; success needs rank 1 to 3 and `len(values) == sizes[0]`; a matching rank above 3 is the "TODO" error |
| Formatting.RecursiveInitializerListChecks | uflacs/codeutils/format_code.py:70-86 | a success also has `len(values[0]) == sizes[1]` at rank 2 and 3 and `len(values[0][0]) == sizes[2]` at rank 3; when the lengths exist and one differs from its size, the result is an assertion error |
| Formatting.RecursiveInitializerListValue | uflacs/codeutils/format_code.py:74-93 | rank 1 gives the tuple of the initializer list of the values; rank 2 the braced list of one row per value, row `i` built from `values[i]`; rank 3 the braced list of one group per value, group `i` built from the `len(values[0])` rows of `values[i]` |
| Formatting.BuildRows | uflacs/codeutils/format_code.py:79-81 | the loop over `i0` builds one row per item, or stops at the first exception |
| Formatting.BuildGroups | uflacs/codeutils/format_code.py:87-92 | the rank-3 outer loop builds one indented group of rows per item, or stops at the first exception |
| Formatting.BuildRecursiveInitializerList | uflacs/codeutils/format_code.py:69-98 | the loops of `build_recursive_initializer_list` compute `RecursiveInitializerList` |
| Formatting.InitializerDepth | uflacs/codeutils/format_code.py:221-233 | the initializer list of an ArrayDecl is no deeper in nested declarations than its values, so formatting it terminates |
| Formatting.MakeArrayDecl | uflacs/codeutils/format_code.py:215-219 | an int size becomes a one-element tuple; any other size must be iterable; name and values are kept |
| Formatting.ArrayDeclIntSize | uflacs/codeutils/format_code.py:218-223 | a single int size `n` is held as `(n,)` and prints as `[n]` |
| Formatting.SizeArg | uflacs/codeutils/format_code.py:223 | `"%d" % n` takes an int, or the only int of a one-element tuple, since a tuple is the argument list of `%` |
| Formatting.SizeBrackets | uflacs/codeutils/format_code.py:223 | `"[%d]"` succeeds exactly when every size is an int or a one-element tuple of an int; otherwise it is a TypeError |
| Formatting.ArrayDeclTupleSize | uflacs/codeutils/format_code.py:223 | a size given as the tuple `(n,)` prints as `[n]` |
| Formatting.MakeArrayAccess | uflacs/codeutils/format_code.py:237-258 | succeeds exactly when no index is a negative int and, given an ArrayDecl, the index count matches the sizes and no int index reaches its int dimension; errors are ValueErrors |
| Formatting.MakeConditional | uflacs/codeutils/format_code.py:341-344 | the node stores the `false` argument in both branches |
| Formatting.ConditionalIgnoresTrueBranch | uflacs/codeutils/format_code.py:340-349 | the `true` argument never reaches the output: the node prints `c ? f : f` |
| Formatting.MakeReturn | uflacs/codeutils/format_code.py:400-402 | constructing a Return always raises AttributeError |
| Formatting.FormatCode | uflacs/codeutils/format_code.py:535-557 | a string at level 0 is returned unchanged; None and other types raise RuntimeError |
| Formatting.FormatItemsSpec | uflacs/codeutils/format_code.py:541-546 | formatting the items succeeds exactly when each item does, giving one string per item; otherwise the error is that of the first failing item |
| Formatting.FormatStringLines | uflacs/codeutils/format_code.py:535-539 | a string keeps its lines, each indented by `4 * level` spaces |
| Formatting.FormatListJoins | uflacs/codeutils/format_code.py:541-542 | a list is its items, formatted at the same level, joined by line breaks |
| Formatting.FormatTupleIndents | uflacs/codeutils/format_code.py:544-546 | a tuple concatenates its items formatted at level 0, then indents every line of the result |
| Formatting.FormatUnsupported | uflacs/codeutils/format_code.py:551-557 | anything but a string, list, tuple, int or AST node raises RuntimeError |
| Formatting.BlockFormatsAsList | uflacs/codeutils/format_code.py:134-136 | a Block formats as `[start, Indented(body), end]` |
| Formatting.UnOpFormatsAsTuple | uflacs/codeutils/format_code.py:271-274 | a unary operator formats as the tuple `(op, arg)` |
| Formatting.BinOpFormatsAsTuple | uflacs/codeutils/format_code.py:281-297 | a binary operator formats as the tuple `(lhs, op, rhs)` |
| Formatting.AssignFormatsAsTuple | uflacs/codeutils/format_code.py:380-382 | an assignment formats as the tuple `(lhs, op, rhs, ";")` |
| Formatting.WhileLoopFormatsAsSource | uflacs/codeutils/format_code.py:421-425 | a while loop formats as `("while (", check, ")")`, followed by `Block(body)` with `{` and `}` when the body is not None |
| Formatting.ForLoopFormatsAsSource | uflacs/codeutils/format_code.py:435-439 | a for loop formats as `("for (", init, "; ", check, "; ", increment, ")")`, followed by `Block(body)` with `{` and `}` when the body is not None |
| Formatting.NOpTupleShape | uflacs/codeutils/format_code.py:303-310 | the operands sit at the even positions in order, the operator at the odd ones, and the tuple ends with the last operand |
| Formatting.NOpFormatsInterleaved | uflacs/codeutils/format_code.py:303-310 | an n-ary operator prints its operands joined by the operator, never with an operator after the last one |
| Formatting.ForRangeFormatsAsForLoop | uflacs/codeutils/format_code.py:449-454 | a ForRange formats as the ForLoop with init `int n = lower`, check `n < upper` and increment `++n` |
| Formatting.ForRangeRendering | uflacs/codeutils/format_code.py:436-454 | with plain strings and no body, ForRange prints `for (int n = lower; n < upper; ++n)` |
| Text.SplitJoin | uflacs/codeutils/format_code.py:34 | splitting a join of line-free parts gives back the parts |
| Text.JoinSplit | uflacs/codeutils/format_code.py:34 | joining the lines of a text gives back the text |
| Text.RStrip | uflacs/codeutils/format_code.py:34 | `rstrip()` removes exactly the trailing white space |
| Text.ListRepr | ffc/backends/dolfin/capsules.py:50-56 | `str` of a list of strings is bracketed and holds no line break |
| Capsules.UFCFormNames.constructor | ffc/backends/dolfin/capsules.py:13-43 | under the two length assertions, every argument is stored unchanged; `num_coefficients` is the number of coefficient names; `rank` is the number of elements minus that, never negative |
| Capsules.RankNonNegative | ffc/backends/dolfin/capsules.py:33-37 | in a valid capsule, rank plus coefficients is the number of dofmaps |
| Capsules.FormNamesLines | ffc/backends/dolfin/capsules.py:45-57 | `__str__` is nine line-terminated lines: the header, the rank, then the other fields in order |
| Capsules.UFCElementNames.constructor | ffc/backends/dolfin/capsules.py:64-76 | under the two length assertions, every argument is stored unchanged |
| Capsules.ElementNamesIgnoreCoordinateMappings | ffc/backends/dolfin/capsules.py:78-87 | `__str__` has five lines; the coordinate-mapping line lists the dofmap names, so capsules that differ only in coordinate mappings print the same text |

## Left out

- The symbolics module (`create_product`, `create_sum`, `create_fraction`, `optimise_code`,
  `str`, `.val`, `get_unique_vars`) is not part of this model. Its operations are fields of the
  `Algebra` record, and no law about them is assumed. `optimise_code`'s side effects on global
  tables (for example the integration-point constants) are not modelled.
- The domain of a product, sum or fraction is modelled by `Tag` over the expression's structure.
  The symbolics classes may compute it differently.
- `self.format[...]`, `generate_psi_name`, `create_permutations`, `_create_function_name` and
  Python's `eval` on index strings are parameters. `eval` is a function that returns `None` where
  Python raises. The base-class visitor that produces the operands' code maps is left out, and the
  operands are given as inputs.
- `create_permutations` returns a dictionary in the source. It is modelled as a sequence of
  (key, values) pairs, so a key that occurs twice in it is possible in the model.
- Dictionary iteration order: the model uses maps and sets, so results are stated for every order.
  The order of values within a key's list is modelled exactly.
- The numpy shape of a table (`shape(self.unique_tables[name])[1]`) is the map `tableColumns`.
- Floating point: `format_float` and the float case of `format_code` are not modelled, because
  `Code` has no float case. Reals stand for Python floats, and the model does no rounding.
- QuadratureOperators.Power: `format["std power"]` receives the rendered exponent string. In the
  source it receives `exp[()]` itself, which the format entry then renders.
- QuadratureOperators.MathFunction: the source rebinds the values of the operand's dictionary in
  place. The model builds a fresh map, so the caller's operand does not change.
- QuadratureTransformer.AddFunctionTerm: for a Piola mapping with no function name, the source
  passes `None` into the symbolics product. The model reports this as the error `NoneFunctionName`.
- QuadratureOperators.CombineAll: the error "Where did the values go?" (line 79) is unreachable,
  because every gathered list holds at least one value. The model requires non-empty lists.
- The Piola branches of `create_basis_function` and `create_function` (`Piola`) have no ensures of
  their own. Their effect is stated through the loop specifications `BasisStep` and
  `FunctionPass`.
- Text.Repr: only the escapes for quotes, backslashes and control characters are modelled.
  Python's escaping of other non-printable Unicode characters is not.
- Formatting: `TemplateArgumentList`, `Type`, `TypeDef`, `Namespace`, `VariableDecl`, `Class`,
  `Comment`, `ArrayAccess` and `Indented` are modelled in `FormatNode` only. Block, the operators,
  the assignments, Conditional and the three loops also have lemmas that tie them to the list or
  tuple their `format` method builds.
- The rest of each file (I/O, templates, the DOLFIN wrappers that use the capsules) is not part of
  this model.
