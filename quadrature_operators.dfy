/**
 * The algebra-operator and helper handlers of QuadratureTransformerOpt that
 * read, but never change, the transformer's state: `sum`, `product`,
 * `division`, `power`, `abs`, `facet_normal`, `_math_function`,
 * `_format_scalar_value` and `__apply_transform`. Each works on the code
 * maps of its operands.
 */
module QuadratureOperators {
  import opened Wrappers
  import opened Symbolics
  import opened IndexKeys
  import opened QuadratureConfig

  // ---------------------------------------------------------------------
  // sum
  // ---------------------------------------------------------------------

  /** The keys that occur in some operand. */
  function AllKeys(ops: seq<CodeMap>): set<Key>
    decreases |ops|
  {
    if |ops| == 0 then {} else AllKeys(ops[..|ops| - 1]) + ops[|ops| - 1].Keys
  }

  /** A key occurs in `AllKeys(ops)` exactly when some operand has it. */
  lemma {:induction false} AllKeysMeaning(ops: seq<CodeMap>, k: Key)
    ensures k in AllKeys(ops) <==> exists i :: 0 <= i < |ops| && k in ops[i]
    decreases |ops|
  {
    if |ops| > 0 {
      var init := ops[..|ops| - 1];
      AllKeysMeaning(init, k);
      if exists i :: 0 <= i < |init| && k in init[i] {
        var i :| 0 <= i < |init| && k in init[i];
        assert k in ops[i];
      }
      if exists i :: 0 <= i < |ops| && k in ops[i] {
        var i :| 0 <= i < |ops| && k in ops[i];
        if i < |init| {
          assert k in init[i];
        }
      }
    }
  }

  /** The values of key `k`, in operand order. */
  function Collected(ops: seq<CodeMap>, k: Key): (vals: seq<Expr>)
    ensures |vals| <= |ops|
    ensures |vals| == 0 <==> k !in AllKeys(ops)
    decreases |ops|
  {
    if |ops| == 0 then []
    else
      var last := ops[|ops| - 1];
      Collected(ops[..|ops| - 1], k) + (if k in last then [last[k]] else [])
  }

  /** Collecting over two runs of operands collects over the first run, then over the second. */
  lemma {:induction false} CollectedAppend(a: seq<CodeMap>, b: seq<CodeMap>, k: Key)
    ensures Collected(a + b, k) == Collected(a, k) + Collected(b, k)
    decreases |b|
  {
    if |b| == 0 {
      assert a + b == a;
    } else {
      assert (a + b)[..|a + b| - 1] == a + b[..|b| - 1];
      CollectedAppend(a, b[..|b| - 1], k);
    }
  }

  /** When no operand has `k`, nothing is collected. */
  lemma {:induction false} CollectedAbsent(ops: seq<CodeMap>, k: Key)
    requires forall j :: 0 <= j < |ops| ==> k !in ops[j]
    ensures Collected(ops, k) == []
    decreases |ops|
  {
    if |ops| > 0 {
      CollectedAbsent(ops[..|ops| - 1], k);
    }
  }

  /** The result of `sum`: every key of any operand, mapped to its values combined. */
  function SumCode(alg: Algebra, ops: seq<CodeMap>): CodeMap {
    map k | k in AllKeys(ops) :: Combine(alg, Collected(ops, k))
  }

  /**
   * `sum`: the output's keys are those of the operands; a key of one
   * operand only keeps that operand's value; a key shared by several
   * operands maps to `create_sum` of its values in operand order.
   */
  lemma SumMeaning(alg: Algebra, ops: seq<CodeMap>, k: Key)
    ensures k in SumCode(alg, ops) <==> exists i :: 0 <= i < |ops| && k in ops[i]
    ensures forall i :: 0 <= i < |ops| && k in ops[i] && (forall j :: 0 <= j < |ops| && j != i ==> k !in ops[j])
              ==> SumCode(alg, ops)[k] == ops[i][k]
    ensures |Collected(ops, k)| > 1 ==> SumCode(alg, ops)[k] == alg.sum(Collected(ops, k))
  {
    AllKeysMeaning(ops, k);
    forall i | 0 <= i < |ops| && k in ops[i] && (forall j :: 0 <= j < |ops| && j != i ==> k !in ops[j])
      ensures SumCode(alg, ops)[k] == ops[i][k]
    {
      CollectedSingle(ops, k, i);
    }
  }

  /** A key that only operand `i` has collects just that operand's value. */
  lemma CollectedSingle(ops: seq<CodeMap>, k: Key, i: nat)
    requires i < |ops| && k in ops[i]
    requires forall j :: 0 <= j < |ops| && j != i ==> k !in ops[j]
    ensures Collected(ops, k) == [ops[i][k]]
  {
    var pre, op, post := ops[..i], ops[i], ops[i + 1..];
    forall j | 0 <= j < |pre| ensures k !in pre[j] {
      assert pre[j] == ops[j];
    }
    forall j | 0 <= j < |post| ensures k !in post[j] {
      assert post[j] == ops[i + 1 + j];
    }
    CollectedAbsent(pre, k);
    CollectedAbsent(post, k);
    assert Collected([op], k) == [op[k]] by {
      var none: seq<CodeMap> := [];
      assert [op][..0] == none;
    }
    CollectedAppend(pre, [op], k);
    CollectedAppend(pre + [op], post, k);
    assert ops == pre + [op] + post;
  }

  /** The lists `sum` has gathered after visiting `ops`: each key's values in operand order. */
  predicate GatheredFrom(gathered: map<Key, seq<Expr>>, ops: seq<CodeMap>) {
    && gathered.Keys == AllKeys(ops)
    && forall k :: k in gathered ==> gathered[k] == Collected(ops, k)
  }

  /** One more operand adds its keys, and its value to the end of each of their lists. */
  lemma CollectedSnoc(ops: seq<CodeMap>, op: CodeMap)
    ensures AllKeys(ops + [op]) == AllKeys(ops) + op.Keys
    ensures forall k :: Collected(ops + [op], k) == Collected(ops, k) + (if k in op then [op[k]] else [])
  {
    assert (ops + [op])[..|ops|] == ops;
  }

  /** The lists while `op` is being gathered: its keys outside `pending` have had their value appended. */
  predicate GatheredPart(gathered: map<Key, seq<Expr>>, ops: seq<CodeMap>, op: CodeMap, pending: set<Key>) {
    && pending <= op.Keys
    && gathered.Keys == AllKeys(ops) + (op.Keys - pending)
    && forall k :: k in gathered ==>
         gathered[k] == Collected(ops, k) + (if k in op && k !in pending then [op[k]] else [])
  }

  /** Appending the value of one pending key keeps the lists in step. */
  lemma GatherKey(gathered: map<Key, seq<Expr>>, ops: seq<CodeMap>, op: CodeMap, pending: set<Key>, k: Key)
    requires GatheredPart(gathered, ops, op, pending) && k in pending
    ensures GatheredPart(gathered[k := (if k in gathered then gathered[k] else []) + [op[k]]], ops, op, pending - {k})
  {
    if k !in gathered {
      assert Collected(ops, k) == [] by {
        assert k !in AllKeys(ops);
      }
    }
  }

  /** Once no key is pending, the lists are those gathered from one more operand. */
  lemma GatherDone(gathered: map<Key, seq<Expr>>, ops: seq<CodeMap>, op: CodeMap)
    requires GatheredPart(gathered, ops, op, {})
    ensures GatheredFrom(gathered, ops + [op])
  {
    CollectedSnoc(ops, op);
  }

  /** The inner loop of `sum`: appends each value of one more operand to its key's list. */
  method GatherOperand(gathered: map<Key, seq<Expr>>, ghost ops: seq<CodeMap>, op: CodeMap)
    returns (result: map<Key, seq<Expr>>)
    requires GatheredFrom(gathered, ops)
    ensures GatheredFrom(result, ops + [op])
  {
    result := gathered;
    var pending := op.Keys;
    while pending != {}
      invariant GatheredPart(result, ops, op, pending)
    {
      var k :| k in pending;
      GatherKey(result, ops, op, pending, k);
      if k in result {
        result := result[k := result[k] + [op[k]]];
      } else {
        result := result[k := [op[k]]];
      }
      pending := pending - {k};
    }
    GatherDone(result, ops, op);
  }

  /**
   * The loop "Add sums and group if necessary" shared by `sum` and
   * `create_basis_function`: each key's list becomes `create_sum` of it
   * when it holds two or more values, its only value otherwise.
   */
  method CombineAll(alg: Algebra, gathered: map<Key, seq<Expr>>) returns (code: CodeMap)
    requires forall k :: k in gathered ==> |gathered[k]| >= 1
    ensures code.Keys == gathered.Keys
    ensures forall k :: k in gathered && |gathered[k]| > 1 ==> code[k] == alg.sum(gathered[k])
    ensures forall k :: k in gathered && |gathered[k]| == 1 ==> code[k] == gathered[k][0]
  {
    code := map[];
    var pending := gathered.Keys;
    while pending != {}
      invariant pending <= gathered.Keys
      invariant code.Keys == gathered.Keys - pending
      invariant forall k :: k in code ==> code[k] == Combine(alg, gathered[k])
    {
      var k :| k in pending;
      var vals := gathered[k];
      if |vals| > 1 {
        code := code[k := alg.sum(vals)];
      } else {
        code := code[k := vals[0]];
      }
      pending := pending - {k};
    }
  }

  /** `sum(*operands)`: gathers the values of each key in operand order, then combines them. */
  method Sum(alg: Algebra, ops: seq<CodeMap>) returns (code: CodeMap)
    ensures code == SumCode(alg, ops)
  {
    var gathered: map<Key, seq<Expr>> := map[];
    for i := 0 to |ops|
      invariant GatheredFrom(gathered, ops[..i])
    {
      assert ops[..i + 1] == ops[..i] + [ops[i]];
      gathered := GatherOperand(gathered, ops[..i], ops[i]);
    }
    assert ops[..|ops|] == ops;
    code := CombineAll(alg, gathered);
  }

  // ---------------------------------------------------------------------
  // product
  // ---------------------------------------------------------------------

  /** An operand that needs permuting: more than one key, or a single key other than `()`. */
  predicate IsIndexed(op: CodeMap) {
    |op| > 1 || (|op| == 1 && Scalar !in op)
  }

  /** The operands that need permuting, in operand order. */
  function Permuted(ops: seq<CodeMap>): seq<CodeMap>
    decreases |ops|
  {
    if |ops| == 0 then []
    else Permuted(ops[..|ops| - 1]) + (if IsIndexed(ops[|ops| - 1]) then [ops[|ops| - 1]] else [])
  }

  /** The scalar factors: the value of each operand that is exactly `{(): v}`, in operand order. */
  function ScalarFactors(ops: seq<CodeMap>): seq<Expr>
    decreases |ops|
  {
    if |ops| == 0 then []
    else
      var last := ops[|ops| - 1];
      ScalarFactors(ops[..|ops| - 1]) + (if !IsIndexed(last) && |last| > 0 then [last[Scalar]] else [])
  }

  /** An operand with exactly one key, the scalar key, has no other key. */
  lemma ScalarOperand(op: CodeMap)
    requires |op| == 1 && Scalar in op
    ensures op.Keys == {Scalar}
  {
    assert |op.Keys - {Scalar}| == 0;
  }

  /** The operands `product` permutes are exactly its indexed operands. */
  lemma {:induction false} PermutedMeaning(ops: seq<CodeMap>, op: CodeMap)
    ensures op in Permuted(ops) <==> op in ops && IsIndexed(op)
    decreases |ops|
  {
    if |ops| > 0 {
      var init := ops[..|ops| - 1];
      PermutedMeaning(init, op);
      assert ops == init + [ops[|ops| - 1]];
    }
  }

  /**
   * Every non-empty operand that is not indexed is exactly `{(): v}`, and
   * its `v` is among the scalar factors; the scalar factors come from no
   * other operand.
   */
  lemma {:induction false} ScalarFactorsMeaning(ops: seq<CodeMap>)
    ensures forall op :: op in ops && !IsIndexed(op) && |op| > 0 ==> op.Keys == {Scalar} && op[Scalar] in ScalarFactors(ops)
    ensures forall v :: v in ScalarFactors(ops) ==> exists op :: op in ops && op.Keys == {Scalar} && op[Scalar] == v
    decreases |ops|
  {
    if |ops| > 0 {
      var init := ops[..|ops| - 1];
      var last := ops[|ops| - 1];
      ScalarFactorsMeaning(init);
      assert ops == init + [last];
      forall op | op in ops && !IsIndexed(op) && |op| > 0
        ensures op.Keys == {Scalar}
      {
        ScalarOperand(op);
      }
      forall v | v in ScalarFactors(ops)
        ensures exists op :: op in ops && op.Keys == {Scalar} && op[Scalar] == v
      {
        if v !in ScalarFactors(init) {
          ScalarOperand(last);
          assert last in ops;
        } else {
          var op :| op in init && op.Keys == {Scalar} && op[Scalar] == v;
          assert op in ops;
        }
      }
    }
  }

  /** Python's `if tuple(l) in code: error(...)`: permutation keys that are rearrangements of each other. */
  predicate DistinctUpToOrder(perms: seq<(Key, seq<Expr>)>) {
    forall i, j :: 0 <= i < j < |perms| ==> multiset(perms[i].0) != multiset(perms[j].0)
  }

  /** The loop of `product` over the permutations: each sorted key gets the product of its values and the scalars. */
  function Rekeyed(alg: Algebra, perms: seq<(Key, seq<Expr>)>, scalars: seq<Expr>): Result<CodeMap, Error>
    decreases |perms|
  {
    if |perms| == 0 then Success(map[])
    else
      var code :- Rekeyed(alg, perms[..|perms| - 1], scalars);
      var (key, vals) := perms[|perms| - 1];
      var sorted := SortKey(key);
      if sorted in code then Failure(KeyConflict) else Success(code[sorted := alg.product(vals + scalars)])
  }

  /** A successful rekeying extends the successful rekeying of all but the last permutation by a fresh key. */
  lemma RekeyedStep(alg: Algebra, perms: seq<(Key, seq<Expr>)>, scalars: seq<Expr>)
    requires |perms| > 0 && Rekeyed(alg, perms, scalars).Success?
    ensures Rekeyed(alg, perms[..|perms| - 1], scalars).Success?
    ensures SortKey(perms[|perms| - 1].0) !in Rekeyed(alg, perms[..|perms| - 1], scalars).value
    ensures Rekeyed(alg, perms, scalars).value
         == Rekeyed(alg, perms[..|perms| - 1], scalars).value[SortKey(perms[|perms| - 1].0) := alg.product(perms[|perms| - 1].1 + scalars)]
  {
  }

  /** Rekeying succeeds when it succeeds on all but the last permutation and the last one's sorted key is new. */
  lemma RekeyedSnoc(alg: Algebra, perms: seq<(Key, seq<Expr>)>, scalars: seq<Expr>)
    requires |perms| > 0
    ensures Rekeyed(alg, perms, scalars).Success? <==>
      && Rekeyed(alg, perms[..|perms| - 1], scalars).Success?
      && SortKey(perms[|perms| - 1].0) !in Rekeyed(alg, perms[..|perms| - 1], scalars).value
  {
  }

  /**
   * When the rekeying succeeds, the sorted form of each permutation key is
   * an output key, and its value is `create_product` of that permutation's
   * values followed by the scalar factors.
   */
  lemma {:induction false} RekeyedHas(alg: Algebra, perms: seq<(Key, seq<Expr>)>, scalars: seq<Expr>, i: nat)
    requires Rekeyed(alg, perms, scalars).Success? && i < |perms|
    ensures SortKey(perms[i].0) in Rekeyed(alg, perms, scalars).value
    ensures Rekeyed(alg, perms, scalars).value[SortKey(perms[i].0)] == alg.product(perms[i].1 + scalars)
    decreases |perms|
  {
    var n := |perms| - 1;
    RekeyedStep(alg, perms, scalars);
    if i < n {
      var init := perms[..n];
      RekeyedHas(alg, init, scalars, i);
      assert init[i] == perms[i];
    }
  }

  /** When the rekeying succeeds, every output key is the sorted form of some permutation key. */
  lemma {:induction false} RekeyedOnly(alg: Algebra, perms: seq<(Key, seq<Expr>)>, scalars: seq<Expr>, key: Key)
    requires Rekeyed(alg, perms, scalars).Success? && key in Rekeyed(alg, perms, scalars).value
    ensures exists i :: 0 <= i < |perms| && key == SortKey(perms[i].0)
    decreases |perms|
  {
    var n := |perms| - 1;
    RekeyedStep(alg, perms, scalars);
    if key != SortKey(perms[n].0) {
      var init := perms[..n];
      RekeyedOnly(alg, init, scalars, key);
      var i :| 0 <= i < n && key == SortKey(init[i].0);
      assert init[i] == perms[i];
    }
  }

  /** Adding one permutation keeps the keys distinct up to order exactly when it rearranges no earlier key. */
  lemma DistinctUpToOrderSnoc(perms: seq<(Key, seq<Expr>)>)
    requires |perms| > 0
    ensures DistinctUpToOrder(perms) <==>
      && DistinctUpToOrder(perms[..|perms| - 1])
      && forall i :: 0 <= i < |perms| - 1 ==> multiset(perms[i].0) != multiset(perms[|perms| - 1].0)
  {
    var init := perms[..|perms| - 1];
    assert forall i :: 0 <= i < |init| ==> init[i] == perms[i];
  }

  /**
   * The indexed case of `product` succeeds exactly when no two permutation
   * keys are rearrangements of each other.
   */
  lemma {:induction false} RekeyedSucceeds(alg: Algebra, perms: seq<(Key, seq<Expr>)>, scalars: seq<Expr>)
    ensures Rekeyed(alg, perms, scalars).Success? <==> DistinctUpToOrder(perms)
    decreases |perms|
  {
    if |perms| > 0 {
      var n := |perms| - 1;
      var init := perms[..n];
      RekeyedSucceeds(alg, init, scalars);
      DistinctUpToOrderSnoc(perms);
      RekeyedSnoc(alg, perms, scalars);
      if Rekeyed(alg, init, scalars).Success? {
        var code := Rekeyed(alg, init, scalars).value;
        var sorted := SortKey(perms[n].0);
        assert sorted in code <==> exists i :: 0 <= i < n && multiset(perms[i].0) == multiset(perms[n].0) by {
          if sorted in code {
            RekeyedOnly(alg, init, scalars, sorted);
            var i :| 0 <= i < n && sorted == SortKey(init[i].0);
            SortKeySame(init[i].0, perms[n].0);
            assert init[i] == perms[i];
          }
          forall i | 0 <= i < n && multiset(perms[i].0) == multiset(perms[n].0)
            ensures sorted in code
          {
            assert init[i] == perms[i];
            RekeyedHas(alg, init, scalars, i);
            SortKeySame(perms[i].0, perms[n].0);
          }
        }
      }
    }
  }

  /** Once the rekeying loop has failed on a prefix, it fails on the whole sequence. */
  lemma {:induction false} RekeyedStops(alg: Algebra, perms: seq<(Key, seq<Expr>)>, scalars: seq<Expr>, m: nat)
    requires m <= |perms|
    requires Rekeyed(alg, perms[..m], scalars).Failure?
    ensures Rekeyed(alg, perms, scalars) == Rekeyed(alg, perms[..m], scalars)
    decreases |perms| - m
  {
    if m < |perms| {
      assert perms[..m + 1][..m] == perms[..m];
      RekeyedStops(alg, perms, scalars, m + 1);
    } else {
      assert perms[..m] == perms;
    }
  }

  /** The result of `product`: the scalar product when there is nothing to permute, the rekeyed permutations otherwise. */
  function ProductCode(cfg: Config, ops: seq<CodeMap>): Result<CodeMap, Error> {
    var perms := cfg.createPermutations(Permuted(ops));
    if |perms| == 0 then Success(ScalarCode(cfg.alg.product(ScalarFactors(ops))))
    else Rekeyed(cfg.alg, perms, ScalarFactors(ops))
  }

  /** `product(*operands)`: partitions the operands, permutes the indexed ones and rekeys the permutations. */
  method Product(cfg: Config, ops: seq<CodeMap>) returns (r: Result<CodeMap, Error>)
    ensures r == ProductCode(cfg, ops)
  {
    var permute, notPermute := Partition(ops);
    var perms := cfg.createPermutations(permute);
    if |perms| == 0 {
      return Success(ScalarCode(cfg.alg.product(notPermute)));
    }
    r := Rekey(cfg.alg, perms, notPermute);
  }

  /** The first loop of `product`: the operands with indices to permute, and the values of the scalar ones. */
  method Partition(ops: seq<CodeMap>) returns (permute: seq<CodeMap>, notPermute: seq<Expr>)
    ensures permute == Permuted(ops) && notPermute == ScalarFactors(ops)
  {
    permute, notPermute := [], [];
    for i := 0 to |ops|
      invariant permute == Permuted(ops[..i])
      invariant notPermute == ScalarFactors(ops[..i])
    {
      assert ops[..i + 1][..i] == ops[..i];
      var op := ops[i];
      if |op| > 1 || (|op| > 0 && Scalar !in op) {
        permute := permute + [op];
      } else if |op| > 0 {
        notPermute := notPermute + [op[Scalar]];
      }
    }
    assert ops[..|ops|] == ops;
  }

  /** The last loop of `product`: each permutation under its sorted key, an error when two keys collide. */
  method Rekey(alg: Algebra, perms: seq<(Key, seq<Expr>)>, scalars: seq<Expr>) returns (r: Result<CodeMap, Error>)
    ensures r == Rekeyed(alg, perms, scalars)
  {
    var code: CodeMap := map[];
    for j := 0 to |perms|
      invariant Rekeyed(alg, perms[..j], scalars) == Success(code)
    {
      assert perms[..j + 1][..j] == perms[..j];
      var (key, vals) := perms[j];
      var sorted := SortKey(key);
      if sorted in code {
        RekeyedStops(alg, perms, scalars, j + 1);
        return Failure(KeyConflict);
      }
      code := code[sorted := alg.product(vals + scalars)];
    }
    assert perms[..|perms|] == perms;
    r := Success(code);
  }

  // ---------------------------------------------------------------------
  // division
  // ---------------------------------------------------------------------

  /**
   * `division(numerator, denominator)`: every numerator entry divided by
   * the denominator's scalar value. Anything but two operands, or a
   * denominator that is not of function type, is an error.
   */
  method Division(alg: Algebra, ops: seq<CodeMap>) returns (r: Result<CodeMap, Error>)
    ensures |ops| != 2 ==> r == Failure(WrongOperandCount)
    ensures |ops| == 2 && Scalar !in ops[1] && |ops[1]| != 1 ==> r == Failure(UnsupportedDenominator)
    ensures |ops| == 2 && Scalar !in ops[1] && |ops[1]| == 1 ==> r == Failure(KeyError)
    ensures r.Success? <==> |ops| == 2 && Scalar in ops[1]
    ensures r.Success? ==> r.value.Keys == ops[0].Keys
    ensures r.Success? ==> forall k :: k in ops[0] ==> r.value[k] == alg.fraction(ops[0][k], ops[1][Scalar])
  {
    if |ops| != 2 {
      return Failure(WrongOperandCount);
    }
    var numerator, denominatorCode := ops[0], ops[1];
    if Scalar !in denominatorCode && |denominatorCode| != 1 {
      return Failure(UnsupportedDenominator);
    }
    if Scalar !in denominatorCode {
      return Failure(KeyError);
    }
    var denominator := denominatorCode[Scalar];
    var code: CodeMap := map[];
    var pending := numerator.Keys;
    while pending != {}
      invariant pending <= numerator.Keys
      invariant code.Keys == numerator.Keys - pending
      invariant forall k :: k in code ==> code[k] == alg.fraction(numerator[k], denominator)
    {
      var k :| k in pending;
      code := code[k := alg.fraction(numerator[k], denominator)];
      pending := pending - {k};
    }
    r := Success(code);
  }

  // ---------------------------------------------------------------------
  // power, abs, math functions
  // ---------------------------------------------------------------------

  /** The exponent of a power: an int, a float, a (coefficient) function with its code, or anything else. */
  datatype Exponent = IntExponent(n: int) | FloatExponent(x: real) | FunctionExponent(code: CodeMap) | OtherExponent

  /** `[val] * n`: `n` copies of `val`, none when `n` is not positive. */
  function Copies(val: Expr, n: int): (vals: seq<Expr>)
    ensures |vals| == (if n > 0 then n else 0)
    ensures forall i :: 0 <= i < |vals| ==> vals[i] == val
  {
    seq(if n > 0 then n else 0, _ => val)
  }

  /**
   * `power(o)` given the code of the base: an int exponent multiplies
   * copies of the base; a float or function exponent wraps the base in a
   * `pow` symbol of the base's domain that costs one operation. A base not
   * of function type, and any other exponent, are errors.
   */
  function Power(cfg: Config, base: CodeMap, expo: Exponent): (r: Result<CodeMap, Error>)
    ensures Scalar !in base ==> r.Failure? && r.error == if |base| != 1 then UnsupportedBase else KeyError
    ensures Scalar in base && expo.OtherExponent? ==> r == Failure(UnsupportedExponent)
    ensures Scalar in base && expo.IntExponent? ==>
      && r.Success? && r.value.Keys == {Scalar}
      && exists vals: seq<Expr> :: r.value[Scalar] == cfg.alg.product(vals)
           && |vals| == (if expo.n > 0 then expo.n else 0)
           && forall i :: 0 <= i < |vals| ==> vals[i] == base[Scalar]
    ensures Scalar in base && expo.FloatExponent? ==>
      && r.Success? && r.value.Keys == {Scalar}
      && r.value[Scalar] == Symbol(cfg.fmt.stdPower(cfg.alg.render(base[Scalar]), cfg.fmt.floatingPoint(expo.x)),
                                   Tag(base[Scalar]), Some(base[Scalar]), 1)
    ensures Scalar in base && expo.FunctionExponent? ==>
      && (r.Success? <==> Scalar in expo.code)
      && (r.Failure? ==> r.error == KeyError)
      && (r.Success? ==>
            && r.value.Keys == {Scalar}
            && r.value[Scalar] == Symbol(cfg.fmt.stdPower(cfg.alg.render(base[Scalar]), cfg.alg.render(expo.code[Scalar])),
                                         Tag(base[Scalar]), Some(base[Scalar]), 1))
  {
    if Scalar !in base && |base| != 1 then Failure(UnsupportedBase)
    else if Scalar !in base then Failure(KeyError)
    else
      var val := base[Scalar];
      match expo
      case IntExponent(n) =>
        var vals := Copies(val, n);
        Success(ScalarCode(cfg.alg.product(vals)))
      case FloatExponent(x) =>
        Success(ScalarCode(WrapSymbol(cfg.fmt.stdPower(cfg.alg.render(val), cfg.fmt.floatingPoint(x)), val)))
      case FunctionExponent(code) =>
        if Scalar !in code then Failure(KeyError)
        else Success(ScalarCode(WrapSymbol(cfg.fmt.stdPower(cfg.alg.render(val), cfg.alg.render(code[Scalar])), val)))
      case OtherExponent => Failure(UnsupportedExponent)
  }

  /** The guard shared by `abs` and `_math_function`: one operand, or a first operand of function type. */
  predicate FunctionTypeOperands(ops: seq<CodeMap>)
    requires |ops| > 0
  {
    |ops| == 1 || Scalar in ops[0] || |ops[0]| == 1
  }

  /**
   * `abs(*operands)`: the absolute value of the first operand's scalar
   * value, as a symbol of the same domain that costs one operation.
   */
  function Abs(cfg: Config, ops: seq<CodeMap>): (r: Result<CodeMap, Error>)
    ensures |ops| == 0 ==> r == Failure(IndexError)
    ensures |ops| > 0 && !FunctionTypeOperands(ops) ==> r == Failure(UnsupportedAbsOperand)
    ensures |ops| > 0 && FunctionTypeOperands(ops) && Scalar !in ops[0] ==> r == Failure(KeyError)
    ensures r.Success? <==> |ops| > 0 && FunctionTypeOperands(ops) && Scalar in ops[0]
    ensures r.Success? ==>
      && r.value.Keys == {Scalar}
      && r.value[Scalar] == Symbol(cfg.fmt.absoluteValue(cfg.alg.render(ops[0][Scalar])),
                                   Tag(ops[0][Scalar]), Some(ops[0][Scalar]), 1)
  {
    if |ops| == 0 then Failure(IndexError)
    else if !FunctionTypeOperands(ops) then Failure(UnsupportedAbsOperand)
    else if Scalar !in ops[0] then Failure(KeyError)
    else
      var val := ops[0][Scalar];
      Success(ScalarCode(WrapSymbol(cfg.fmt.absoluteValue(cfg.alg.render(val)), val)))
  }

  /**
   * `_math_function(operands, format_function)`: every entry of the first
   * operand wrapped in the function's symbol, which keeps the entry's
   * domain, records the entry as its base and costs one operation; the
   * keys are unchanged.
   */
  method MathFunction(alg: Algebra, ops: seq<CodeMap>, formatFunction: string -> string) returns (r: Result<CodeMap, Error>)
    ensures |ops| == 0 ==> r == Failure(IndexError)
    ensures |ops| > 0 && !FunctionTypeOperands(ops) ==> r == Failure(UnsupportedMathOperand)
    ensures r.Success? <==> |ops| > 0 && FunctionTypeOperands(ops)
    ensures r.Success? ==> r.value.Keys == ops[0].Keys
    ensures r.Success? ==> forall k :: k in ops[0] ==>
      && r.value[k].Symbol?
      && r.value[k].name == formatFunction(alg.render(ops[0][k]))
      && r.value[k].t == Tag(ops[0][k])
      && r.value[k].baseExpr == Some(ops[0][k])
      && r.value[k].baseOp == 1
  {
    if |ops| == 0 {
      return Failure(IndexError);
    }
    if !FunctionTypeOperands(ops) {
      return Failure(UnsupportedMathOperand);
    }
    var operand := ops[0];
    var code: CodeMap := map[];
    var pending := operand.Keys;
    while pending != {}
      invariant pending <= operand.Keys
      invariant code.Keys == operand.Keys - pending
      invariant forall k :: k in code ==> code[k] == WrapSymbol(formatFunction(alg.render(operand[k])), operand[k])
    {
      var k :| k in pending;
      var val := operand[k];
      code := code[k := WrapSymbol(formatFunction(alg.render(val)), val)];
      pending := pending - {k};
    }
    r := Success(code);
  }

  // ---------------------------------------------------------------------
  // facet_normal, _format_scalar_value
  // ---------------------------------------------------------------------

  /**
   * `facet_normal(o, *operands)`: the normal component as one scalar
   * geometry symbol; operands, or anything but one component, are errors.
   */
  function FacetNormal(cfg: Config, ops: seq<CodeMap>, components: seq<int>): (r: Result<CodeMap, Error>)
    ensures |ops| > 0 ==> r == Failure(UnexpectedOperands)
    ensures |ops| == 0 && |components| != 1 ==> r == Failure(WrongComponentCount)
    ensures r.Success? <==> |ops| == 0 && |components| == 1
    ensures r.Success? ==>
      && r.value.Keys == {Scalar} && r.value[Scalar].Symbol? && r.value[Scalar].t == GEO
      && r.value[Scalar].name == cfg.fmt.normalComponent(cfg.restriction, components[0])
  {
    if |ops| > 0 then Failure(UnexpectedOperands)
    else if |components| != 1 then Failure(WrongComponentCount)
    else Success(ScalarCode(CreateSymbol(cfg.fmt.normalComponent(cfg.restriction, components[0]), GEO)))
  }

  /** `_format_scalar_value(value)`: the value as a scalar float, `None` as zero. */
  function FormatScalarValue(value: Option<real>): (code: CodeMap)
    ensures code.Keys == {Scalar}
    ensures value.None? ==> code[Scalar] == FloatValue(0.0)
    ensures value.Some? ==> code[Scalar] == FloatValue(value.value)
  {
    ScalarCode(FloatValue(value.GetOr(0.0)))
  }

  // ---------------------------------------------------------------------
  // __apply_transform
  // ---------------------------------------------------------------------

  /** One geometry symbol `JINV` per derivative direction, each for the reference direction at the same position of `multi`. */
  function TransformFactors(cfg: Config, derivatives: seq<int>, multi: seq<int>): (fs: seq<Expr>)
    requires |derivatives| <= |multi|
    ensures |fs| == |derivatives|
  {
    if |derivatives| == 0 then []
    else
      var n := |derivatives| - 1;
      TransformFactors(cfg, derivatives[..n], multi)
        + [CreateSymbol(cfg.fmt.transform("JINV", multi[n], derivatives[n], cfg.restriction), GEO)]
  }

  /** The factor of derivative `i` is a `JINV` geometry symbol for direction `multi[i]`. */
  lemma {:induction false} TransformFactorsMeaning(cfg: Config, derivatives: seq<int>, multi: seq<int>, i: nat)
    requires |derivatives| <= |multi| && i < |derivatives|
    ensures var f := TransformFactors(cfg, derivatives, multi)[i];
      && f.Symbol? && f.t == GEO
      && f.name == cfg.fmt.transform("JINV", multi[i], derivatives[i], cfg.restriction)
  {
    var n := |derivatives| - 1;
    if i < n {
      TransformFactorsMeaning(cfg, derivatives[..n], multi, i);
    }
  }

  /** The result of `__apply_transform`: the transform factors followed by the function, multiplied. */
  function ApplyTransformResult(cfg: Config, fn: Expr, derivatives: seq<int>, multi: seq<int>): Result<Expr, Error> {
    if |multi| < |derivatives| then Failure(IndexError)
    else Success(cfg.alg.product(TransformFactors(cfg, derivatives, multi) + [fn]))
  }

  /**
   * `__apply_transform(function, derivatives, multi)`: multiplies the
   * function by one `JINV` geometry symbol per derivative direction; a
   * `multi` shorter than the derivatives is an index error.
   */
  method ApplyTransform(cfg: Config, fn: Expr, derivatives: seq<int>, multi: seq<int>) returns (r: Result<Expr, Error>)
    ensures r == ApplyTransformResult(cfg, fn, derivatives, multi)
    ensures r.Success? <==> |derivatives| <= |multi|
    ensures r.Success? ==> exists fs: seq<Expr> ::
      && r.value == cfg.alg.product(fs)
      && |fs| == |derivatives| + 1 && fs[|derivatives|] == fn
      && (forall i :: 0 <= i < |derivatives| ==>
            && fs[i].Symbol? && fs[i].t == GEO
            && fs[i].name == cfg.fmt.transform("JINV", multi[i], derivatives[i], cfg.restriction))
  {
    var transforms: seq<Expr> := [];
    for i := 0 to |derivatives|
      invariant |multi| >= i
      invariant transforms == TransformFactors(cfg, derivatives[..i], multi)
    {
      if i >= |multi| {
        return Failure(IndexError);
      }
      var ref := multi[i];
      var t := cfg.fmt.transform("JINV", ref, derivatives[i], cfg.restriction);
      transforms := transforms + [CreateSymbol(t, GEO)];
      assert derivatives[..i + 1][..i] == derivatives[..i];
    }
    assert derivatives[..|derivatives|] == derivatives;
    forall i | 0 <= i < |derivatives|
      ensures transforms[i].Symbol? && transforms[i].t == GEO
      ensures transforms[i].name == cfg.fmt.transform("JINV", multi[i], derivatives[i], cfg.restriction)
    {
      TransformFactorsMeaning(cfg, derivatives, multi, i);
    }
    var fs := transforms + [fn];
    r := Success(cfg.alg.product(fs));
    assert fs[|derivatives|] == fn;
  }
}
