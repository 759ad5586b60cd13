/**
 * The code-stitching utilities of uflacs/codeutils/format_code.py.
 *
 * A `Code` value is one of the Python objects `format_code` accepts (str,
 * list, tuple, int, an AST node) or one it rejects (None, anything else).
 * The AST node classes set their fields once in their constructors, so they
 * are one datatype, `AstNode`; the classes that check or rewrite their
 * arguments (`ArrayDecl`, `ArrayAccess`, `Conditional`, `Return`) have a
 * constructor function each. Each node's `format` method builds a list or a
 * tuple of its fields and hands it to `format_code`; `FormatNode` writes out
 * what `format_code` makes of that list or tuple, and lemmas at the end of the
 * module show the two agree for the blocks, loops and operators.
 */
module Formatting {
  import opened Wrappers
  import opened Text

  /** The exceptions the module raises. */
  datatype Error =
    | TypeError            // len(), iteration or indexing of a value that has none, "%d" of a non-int
    | IndexError           // indexing past the end
    | ValueError(message: string)
    | AssertionError       // a failed `assert`
    | RuntimeError         // format_code of an unsupported type
    | AttributeError       // reading an attribute that was never set
    | NotImplemented       // ffc.log.error("TODO: Make recursive implementation ...")

  /** A code snippet: the Python values `format_code` is given. Floats are not part of this model. */
  datatype Code =
    | Str(s: string)
    | List(items: seq<Code>)
    | Tuple(items: seq<Code>)
    | Int(i: int)
    | Node(node: AstNode)
    | PyNone
    | Other

  datatype UnOpKind = Not | Negative
  datatype BinOpKind = Eq | Ne | Lt | Gt | Le | Ge | And | Or | Add | Sub | Mul | Div
  datatype NOpKind = Sum | Product
  datatype AssignKind = Assign | AssignAdd | AssignSub | AssignMul | AssignDiv

  /** The class attribute `op` of each operator class. */
  function UnOpSymbol(k: UnOpKind): string {
    match k
    case Not => "!"
    case Negative => "-"
  }

  function BinOpSymbol(k: BinOpKind): string {
    match k
    case Eq => " == "
    case Ne => " != "
    case Lt => " < "
    case Gt => " > "
    case Le => " <= "
    case Ge => " >= "
    case And => " && "
    case Or => " || "
    case Add => " + "
    case Sub => " - "
    case Mul => " * "
    case Div => " / "
  }

  function NOpSymbol(k: NOpKind): string {
    match k
    case Sum => " + "
    case Product => " * "
  }

  function AssignSymbol(k: AssignKind): string {
    match k
    case Assign => " = "
    case AssignAdd => " += "
    case AssignSub => " -= "
    case AssignMul => " *= "
    case AssignDiv => " /= "
  }

  /** The AST node classes, with the fields their constructors store. */
  datatype AstNode =
    | Indented(code: Code)
    | Comment(comment: Code)
    | Block(body: Code, start: Code, end: Code)
    | TemplateArgumentList(args: Code, multiline: bool)
    | Type(typeName: Code, templateArguments: Code, typeMultiline: bool)
    | TypeDef(typ: Code, typedef: string)
    | Namespace(namespaceName: string, namespaceBody: Code)
    | VariableDecl(varType: Code, varName: Code, value: Code)
    | ArrayDecl(declType: Code, declName: Code, sizes: seq<Code>, values: Code)
    | ArrayAccess(arrayname: Code, indices: seq<Code>)
    | UnOp(unKind: UnOpKind, arg: Code)
    | BinOp(binKind: BinOpKind, lhs: Code, rhs: Code)
    | NOp(nKind: NOpKind, ops: seq<Code>)
    | Conditional(condition: Code, whenTrue: Code, whenFalse: Code)
    | AssignStatement(assignKind: AssignKind, target: Code, source: Code)
    | WhileLoop(whileCheck: Code, whileBody: Code)
    | ForLoop(init: Code, check: Code, increment: Code, forBody: Code)
    | ForRange(rangeName: Code, lower: Code, upper: Code, rangeBody: Code)
    | Class(className: string, superclass: string, publicBody: Code, protectedBody: Code,
            privateBody: Code, classTemplateArguments: Code, templateMultiline: bool)

  // ---------------------------------------------------------------------------
  // Python built-ins on code values
  // ---------------------------------------------------------------------------

  /** Python truthiness: empty strings, lists and tuples, zero and None are false. */
  predicate Truthy(c: Code) {
    match c
    case Str(s) => s != ""
    case List(items) => items != []
    case Tuple(items) => items != []
    case Int(i) => i != 0
    case PyNone => false
    case _ => true
  }

  /** `len(c)`. */
  function Len(c: Code): (r: Result<nat, Error>)
    ensures r.Success? <==> (c.Str? || c.List? || c.Tuple?)
  {
    match c
    case Str(s) => Success(|s|)
    case List(items) => Success(|items|)
    case Tuple(items) => Success(|items|)
    case _ => Failure(TypeError)
  }

  /** The items iterating over `c` yields (a string yields its characters). */
  function Elements(c: Code): (r: Result<seq<Code>, Error>)
    ensures r.Success? <==> Len(c).Success?
    ensures r.Success? ==> |r.value| == Len(c).value
  {
    match c
    case Str(s) => Success(Chars(s))
    case List(items) => Success(items)
    case Tuple(items) => Success(items)
    case _ => Failure(TypeError)
  }

  /** The one-character strings of `s`, in order. */
  function Chars(s: string): (r: seq<Code>)
    ensures |r| == |s|
  {
    if |s| == 0 then [] else [Str([s[0]])] + Chars(s[1..])
  }

  lemma {:induction false} CharsAt(s: string, i: nat)
    requires i < |s|
    ensures Chars(s)[i] == Str([s[i]])
  {
    if i > 0 {
      CharsAt(s[1..], i - 1);
    }
  }

  /** `c[i]` for a non-negative index. */
  function At(c: Code, i: nat): (r: Result<Code, Error>)
    ensures r.Success? <==> (Len(c).Success? && i < Len(c).value)
  {
    match c
    case Str(s) => if i < |s| then Success(Str([s[i]])) else Failure(IndexError)
    case List(items) => if i < |items| then Success(items[i]) else Failure(IndexError)
    case Tuple(items) => if i < |items| then Success(items[i]) else Failure(IndexError)
    case _ => Failure(TypeError)
  }

  /** Indexing agrees with iteration: `c[i]` is the `i`-th item `c` yields. */
  lemma AtElements(c: Code, i: nat)
    requires At(c, i).Success?
    ensures Elements(c).Success? && i < |Elements(c).value|
    ensures At(c, i).value == Elements(c).value[i]
  {
    if c.Str? {
      CharsAt(c.s, i);
    }
  }

  // ---------------------------------------------------------------------------
  // String helpers
  // ---------------------------------------------------------------------------

  /** The lines of a text, as `text.split('\n')` gives them. */
  function Lines(text: string): seq<string> {
    Split(text, '\n')
  }

  predicate NoTrailingSpace(line: string) {
    line == "" || !IsSpace(line[|line| - 1])
  }

  /**
   * strip_trailing_whitespace: every line loses its trailing white space; the
   * number of lines stays the same.
   */
  function StripTrailingWhitespace(s: string): (r: string)
    ensures |Lines(r)| == |Lines(s)|
    ensures forall i :: 0 <= i < |Lines(r)| ==> Lines(r)[i] == RStrip(Lines(s)[i])
    ensures forall i :: 0 <= i < |Lines(r)| ==> NoTrailingSpace(Lines(r)[i])
  {
    var lines := Lines(s);
    var stripped := seq(|lines|, i requires 0 <= i < |lines| => RStrip(lines[i]));
    StrippedLinesSplit(lines, stripped);
    Join("\n", stripped)
  }

  /** Stripped lines hold no line break, so joining and splitting them gives them back. */
  lemma StrippedLinesSplit(lines: seq<string>, stripped: seq<string>)
    requires |lines| >= 1 && forall i :: 0 <= i < |lines| ==> '\n' !in lines[i]
    requires |stripped| == |lines| && forall i :: 0 <= i < |lines| ==> stripped[i] == RStrip(lines[i])
    ensures Split(Join("\n", stripped), '\n') == stripped
  {
    forall i | 0 <= i < |stripped| ensures '\n' !in stripped[i] {
      assert stripped[i] == lines[i][..|stripped[i]|];
    }
    SplitJoin(stripped, '\n');
  }

  /** Stripping trailing white space twice is the same as stripping it once. */
  lemma StripTrailingWhitespaceIdempotent(s: string)
    ensures StripTrailingWhitespace(StripTrailingWhitespace(s)) == StripTrailingWhitespace(s)
  {
    var once := StripTrailingWhitespace(s);
    var twice := StripTrailingWhitespace(once);
    forall i | 0 <= i < |Lines(twice)| ensures Lines(twice)[i] == Lines(once)[i] {
      var l := Lines(once)[i];
      assert NoTrailingSpace(l);
      assert RStrip(l) == l;
    }
    assert Lines(twice) == Lines(once);
    JoinSplit(twice, '\n');
    JoinSplit(once, '\n');
  }

  /**
   * indent: level 0 gives the text back; otherwise every line is prefixed
   * with 4 * level spaces and the number of lines stays the same.
   */
  function Indent(text: string, level: nat): (r: string)
    ensures level == 0 ==> r == text
    ensures |Lines(r)| == |Lines(text)|
    ensures forall i :: 0 <= i < |Lines(r)| ==> Lines(r)[i] == Repeat(' ', 4 * level) + Lines(text)[i]
  {
    var lines := Lines(text);
    if level == 0 then
      JoinSplit(text, '\n');
      assert forall i :: 0 <= i < |lines| ==> Repeat(' ', 0) + lines[i] == lines[i];
      text
    else
      var ind := Repeat(' ', 4 * level);
      var indented := seq(|lines|, i requires 0 <= i < |lines| => ind + lines[i]);
      SplitJoin(indented, '\n');
      Join("\n", indented)
  }

  // ---------------------------------------------------------------------------
  // List builders
  // ---------------------------------------------------------------------------

  /** build_separated_list: `(value, sep)` for every value but the last, then the last value. */
  function SeparatedList(values: seq<Code>, sep: Code): (items: seq<Code>)
    ensures |items| == |values|
    decreases |values|
  {
    if |values| == 0 then []
    else if |values| == 1 then [values[0]]
    else [Tuple([values[0], sep])] + SeparatedList(values[1..], sep)
  }

  /** Every value but the last is paired with the separator; the last one stands alone. */
  lemma {:induction false} SeparatedListMeaning(values: seq<Code>, sep: Code)
    ensures var items := SeparatedList(values, sep);
      && (forall i :: 0 <= i < |values| - 1 ==> items[i] == Tuple([values[i], sep]))
      && (|values| > 0 ==> items[|values| - 1] == values[|values| - 1])
    decreases |values|
  {
    if |values| > 1 {
      SeparatedListMeaning(values[1..], sep);
    }
  }

  /** build_separated_list, written as the loop of the source. */
  method BuildSeparatedList(values: seq<Code>, sep: Code) returns (items: seq<Code>)
    ensures items == SeparatedList(values, sep)
  {
    items := [];
    if |values| > 0 {
      var k := 0;
      while k < |values| - 1
        invariant 0 <= k <= |values| - 1
        invariant |items| == k
        invariant forall i :: 0 <= i < k ==> items[i] == Tuple([values[i], sep])
      {
        items := items + [Tuple([values[k], sep])];
        k := k + 1;
      }
      items := items + [values[|values| - 1]];
      SeparatedListMeaning(values, sep);
    }
  }

  const DefaultBegin: Code := Str("{ ")
  const DefaultSep: Code := Str(", ")
  const DefaultEnd: Code := Str(" }")

  /** build_initializer_list: `begin`, the separated values, `end`. */
  function InitializerList(values: seq<Code>, begin: Code, sep: Code, end: Code): seq<Code> {
    [begin] + SeparatedList(values, sep) + [end]
  }

  /**
   * An initializer list has two more items than values: `begin`, each value
   * but the last paired with the separator, the last value alone, `end`.
   */
  lemma InitializerListShape(values: seq<Code>, begin: Code, sep: Code, end: Code)
    ensures var items := InitializerList(values, begin, sep, end);
      && |items| == |values| + 2
      && items[0] == begin && items[|items| - 1] == end
      && (forall k :: 1 <= k < |values| ==> items[k] == Tuple([values[k - 1], sep]))
      && (|values| > 0 ==> items[|values|] == values[|values| - 1])
  {
    var items := InitializerList(values, begin, sep, end);
    var middle := SeparatedList(values, sep);
    SeparatedListMeaning(values, sep);
    assert forall k :: 1 <= k <= |values| ==> items[k] == middle[k - 1];
  }

  /** One innermost row: `tuple(build_initializer_list(v))`. */
  function Row(v: Code): Result<Code, Error> {
    var xs :- Elements(v);
    Success(Tuple(InitializerList(xs, DefaultBegin, DefaultSep, DefaultEnd)))
  }

  /** The rows for `values[0]`, ..., `values[count - 1]`, stopping at the first exception. */
  function Rows(values: Code, count: nat): (r: Result<seq<Code>, Error>)
    ensures r.Success? ==> |r.value| == count
  {
    if count == 0 then Success([])
    else
      var prev :- Rows(values, count - 1);
      var v :- At(values, count - 1);
      var row :- Row(v);
      Success(prev + [row])
  }

  /** The indented `{ ... }` group of rank-3 rows built from `values[i0]`. */
  function Group(v: Code, count: nat): Result<Code, Error> {
    var inner :- Rows(v, count);
    Success(Node(Indented(List([Str("{"), List(SeparatedList(inner, Str(","))), Str("}")]))))
  }

  /** The groups for `values[0]`, ..., `values[count - 1]`, each of `width` rows. */
  function Groups(values: Code, count: nat, width: nat): (r: Result<seq<Code>, Error>)
    ensures r.Success? ==> |r.value| == count
  {
    if count == 0 then Success([])
    else
      var prev :- Groups(values, count - 1, width);
      var v :- At(values, count - 1);
      var g :- Group(v, width);
      Success(prev + [g])
  }

  /** `["{", Indented([build_separated_list(items, ","), "}"])]`. */
  function Braced(items: seq<Code>): Code {
    List([Str("{"), Node(Indented(List([List(SeparatedList(items, Str(","))), Str("}")])))])
  }

  /**
   * build_recursive_initializer_list: the nested initializer list of an
   * array of rank 1, 2 or 3. It asserts that there is at least one size and
   * that `len(values)` (and, for higher ranks, `len(values[0])` and
   * `len(values[0][0])`) match the sizes; a rank above 3 is an error.
   */
  function RecursiveInitializerList(values: Code, sizes: seq<Code>): (r: Result<Code, Error>)
    ensures |sizes| == 0 ==> r == Failure(AssertionError)
    ensures r.Success? ==> 1 <= |sizes| <= 3 && Len(values).Success? && sizes[0] == Int(Len(values).value)
    ensures |sizes| > 3 && Len(values).Success? && sizes[0] == Int(Len(values).value) ==> r == Failure(NotImplemented)
  {
    if |sizes| == 0 then Failure(AssertionError)
    else
      var n :- Len(values);
      if sizes[0] != Int(n) then Failure(AssertionError)
      else if |sizes| == 1 then
        var xs :- Elements(values);
        Success(Tuple(InitializerList(xs, DefaultBegin, DefaultSep, DefaultEnd)))
      else if |sizes| == 2 then
        var first :- At(values, 0);
        var m :- Len(first);
        if sizes[1] != Int(m) then Failure(AssertionError)
        else
          var rows :- Rows(values, n);
          Success(Braced(rows))
      else if |sizes| == 3 then
        var first :- At(values, 0);
        var m :- Len(first);
        if sizes[1] != Int(m) then Failure(AssertionError)
        else
          var corner :- At(first, 0);
          var p :- Len(corner);
          if sizes[2] != Int(p) then Failure(AssertionError)
          else
            var groups :- Groups(values, n, m);
            Success(Braced(groups))
      else Failure(NotImplemented)
  }

  /**
   * The assertions of build_recursive_initializer_list: a success has
   * `len(values) == sizes[0]`, at rank 2 and 3 also `len(values[0]) ==
   * sizes[1]`, at rank 3 also `len(values[0][0]) == sizes[2]`; when the
   * lengths can be taken but one of them differs from its size, the result is
   * an assertion error.
   */
  lemma RecursiveInitializerListChecks(values: Code, sizes: seq<Code>)
    ensures var r := RecursiveInitializerList(values, sizes);
      r.Success? && |sizes| >= 2 ==>
        && At(values, 0).Success? && Len(At(values, 0).value).Success?
        && sizes[1] == Int(Len(At(values, 0).value).value)
    ensures var r := RecursiveInitializerList(values, sizes);
      r.Success? && |sizes| == 3 ==>
        && At(values, 0).Success? && At(At(values, 0).value, 0).Success?
        && Len(At(At(values, 0).value, 0).value).Success?
        && sizes[2] == Int(Len(At(At(values, 0).value, 0).value).value)
    ensures |sizes| > 0 && Len(values).Success? && sizes[0] != Int(Len(values).value) ==>
      RecursiveInitializerList(values, sizes) == Failure(AssertionError)
    ensures (&& 2 <= |sizes| <= 3 && Len(values).Success? && sizes[0] == Int(Len(values).value)
             && At(values, 0).Success? && Len(At(values, 0).value).Success?
             && sizes[1] != Int(Len(At(values, 0).value).value)) ==>
      RecursiveInitializerList(values, sizes) == Failure(AssertionError)
    ensures (&& |sizes| == 3 && Len(values).Success? && sizes[0] == Int(Len(values).value)
             && At(values, 0).Success? && Len(At(values, 0).value).Success?
             && sizes[1] == Int(Len(At(values, 0).value).value)
             && At(At(values, 0).value, 0).Success? && Len(At(At(values, 0).value, 0).value).Success?
             && sizes[2] != Int(Len(At(At(values, 0).value, 0).value).value)) ==>
      RecursiveInitializerList(values, sizes) == Failure(AssertionError)
  {
  }

  /**
   * What build_recursive_initializer_list returns, rank by rank: at rank 1
   * the tuple of the initializer list of the values; at rank 2 the braced
   * list of one row per value, row `i` built from `values[i]`; at rank 3 the
   * braced list of one group per value, group `i` built from the
   * `len(values[0])` rows of `values[i]`.
   */
  lemma RecursiveInitializerListValue(values: Code, sizes: seq<Code>)
    requires RecursiveInitializerList(values, sizes).Success?
    ensures var r := RecursiveInitializerList(values, sizes).value;
      |sizes| == 1 ==>
        Elements(values).Success? && r == Tuple(InitializerList(Elements(values).value, DefaultBegin, DefaultSep, DefaultEnd))
    ensures var r := RecursiveInitializerList(values, sizes).value;
      |sizes| == 2 ==>
        && Rows(values, Len(values).value).Success?
        && r == Braced(Rows(values, Len(values).value).value)
        && |Rows(values, Len(values).value).value| == Len(values).value
        && forall i :: 0 <= i < |Rows(values, Len(values).value).value| ==>
             At(values, i).Success? && Row(At(values, i).value) == Success(Rows(values, Len(values).value).value[i])
    ensures var r := RecursiveInitializerList(values, sizes).value;
      |sizes| == 3 ==>
        && At(values, 0).Success? && Len(At(values, 0).value).Success?
        && Groups(values, Len(values).value, Len(At(values, 0).value).value).Success?
        && r == Braced(Groups(values, Len(values).value, Len(At(values, 0).value).value).value)
        && |Groups(values, Len(values).value, Len(At(values, 0).value).value).value| == Len(values).value
        && forall i :: 0 <= i < |Groups(values, Len(values).value, Len(At(values, 0).value).value).value| ==>
             At(values, i).Success?
             && Group(At(values, i).value, Len(At(values, 0).value).value)
                == Success(Groups(values, Len(values).value, Len(At(values, 0).value).value).value[i])
  {
    var n := Len(values).value;
    if |sizes| == 2 {
      var rows := Rows(values, n).value;
      forall i | 0 <= i < |rows|
        ensures At(values, i).Success? && Row(At(values, i).value) == Success(rows[i])
      {
        RowsAt(values, n, i);
      }
    } else if |sizes| == 3 {
      var m := Len(At(values, 0).value).value;
      var groups := Groups(values, n, m).value;
      forall i | 0 <= i < |groups|
        ensures At(values, i).Success? && Group(At(values, i).value, m) == Success(groups[i])
      {
        GroupsAt(values, n, m, i);
      }
    }
  }

  /** Once a row raises, so does every longer run of rows. */
  lemma {:induction false} RowsStop(values: Code, i: nat, count: nat)
    requires i <= count && Rows(values, i).Failure?
    ensures Rows(values, count) == Rows(values, i)
    decreases count - i
  {
    if i < count {
      RowsStop(values, i, count - 1);
    }
  }

  lemma {:induction false} GroupsStop(values: Code, i: nat, count: nat, width: nat)
    requires i <= count && Groups(values, i, width).Failure?
    ensures Groups(values, count, width) == Groups(values, i, width)
    decreases count - i
  {
    if i < count {
      GroupsStop(values, i, count - 1, width);
    }
  }

  /** The loop over `i0` (or `i1`) that collects the rows of `values`. */
  method BuildRows(values: Code, count: nat) returns (r: Result<seq<Code>, Error>)
    ensures r == Rows(values, count)
  {
    var rows: seq<Code> := [];
    var i := 0;
    while i < count
      invariant 0 <= i <= count
      invariant Rows(values, i) == Success(rows)
    {
      var cell := At(values, i);
      if cell.Failure? {
        RowsStop(values, i + 1, count);
        return Failure(cell.error);
      }
      var row := Row(cell.value);
      if row.Failure? {
        RowsStop(values, i + 1, count);
        return Failure(row.error);
      }
      rows := rows + [row.value];
      i := i + 1;
    }
    return Success(rows);
  }

  /** The outer loop of rank 3: one indented group of rows per item of `values`. */
  method BuildGroups(values: Code, count: nat, width: nat) returns (r: Result<seq<Code>, Error>)
    ensures r == Groups(values, count, width)
  {
    var groups: seq<Code> := [];
    var i := 0;
    while i < count
      invariant 0 <= i <= count
      invariant Groups(values, i, width) == Success(groups)
    {
      var v := At(values, i);
      if v.Failure? {
        GroupsStop(values, i + 1, count, width);
        return Failure(v.error);
      }
      var inner := BuildRows(v.value, width);
      if inner.Failure? {
        GroupsStop(values, i + 1, count, width);
        return Failure(inner.error);
      }
      var separated := BuildSeparatedList(inner.value, Str(","));
      groups := groups + [Node(Indented(List([Str("{"), List(separated), Str("}")])))];
      i := i + 1;
    }
    return Success(groups);
  }

  /** build_recursive_initializer_list, written with the loops of the source. */
  method BuildRecursiveInitializerList(values: Code, sizes: seq<Code>) returns (r: Result<Code, Error>)
    ensures r == RecursiveInitializerList(values, sizes)
  {
    if |sizes| == 0 {
      return Failure(AssertionError);
    }
    var len := Len(values);
    if len.Failure? {
      return Failure(len.error);
    }
    var n := len.value;
    if sizes[0] != Int(n) {
      return Failure(AssertionError);
    }
    if |sizes| == 1 {
      var xs := Elements(values).value;
      var separated := BuildSeparatedList(xs, DefaultSep);
      return Success(Tuple([DefaultBegin] + separated + [DefaultEnd]));
    }
    if |sizes| > 3 {
      return Failure(NotImplemented);
    }
    var first := At(values, 0);
    if first.Failure? {
      return Failure(first.error);
    }
    var firstLen := Len(first.value);
    if firstLen.Failure? {
      return Failure(firstLen.error);
    }
    var m := firstLen.value;
    if sizes[1] != Int(m) {
      return Failure(AssertionError);
    }
    var items: Result<seq<Code>, Error>;
    if |sizes| == 2 {
      items := BuildRows(values, n);
    } else {
      var corner := At(first.value, 0);
      if corner.Failure? {
        return Failure(corner.error);
      }
      var cornerLen := Len(corner.value);
      if cornerLen.Failure? {
        return Failure(cornerLen.error);
      }
      if sizes[2] != Int(cornerLen.value) {
        return Failure(AssertionError);
      }
      items := BuildGroups(values, n, m);
    }
    if items.Failure? {
      return Failure(items.error);
    }
    var separated := BuildSeparatedList(items.value, Str(","));
    return Success(List([Str("{"), Node(Indented(List([List(separated), Str("}")])))]));
  }

  // ---------------------------------------------------------------------------
  // AST constructors that check or rewrite their arguments
  // ---------------------------------------------------------------------------

  /** ArrayDecl.__init__: an int size becomes a one-element tuple, any other size is turned into a tuple. */
  function MakeArrayDecl(typename: Code, name: Code, sizes: Code, values: Code): (r: Result<AstNode, Error>)
    ensures sizes.Int? ==> r == Success(ArrayDecl(typename, name, [sizes], values))
    ensures !sizes.Int? ==> (r.Success? <==> Len(sizes).Success?)
    ensures r.Success? ==> r.value.ArrayDecl? && r.value.declName == name && r.value.values == values
  {
    if sizes.Int? then Success(ArrayDecl(typename, name, [sizes], values))
    else
      var dims :- Elements(sizes);
      Success(ArrayDecl(typename, name, dims, values))
  }

  predicate IsNegativeInt(c: Code) {
    c.Int? && c.i < 0
  }

  /** An int index at or above an int dimension. */
  predicate OutOfBounds(index: Code, dim: Code) {
    index.Int? && dim.Int? && index.i >= dim.i
  }

  /**
   * ArrayAccess.__init__: the array is an ArrayDecl or just a name; a single
   * index becomes a one-element tuple. A negative int index is refused, and
   * given an ArrayDecl the number of indices must match its sizes and no int
   * index may reach its int dimension.
   */
  function MakeArrayAccess(target: Code, indices: Code): (r: Result<AstNode, Error>)
    ensures var idx := if indices.List? || indices.Tuple? then indices.items else [indices];
      && (r.Success? <==>
            && (forall k :: 0 <= k < |idx| ==> !IsNegativeInt(idx[k]))
            && (target.Node? && target.node.ArrayDecl? ==>
                  && |idx| == |target.node.sizes|
                  && forall k :: 0 <= k < |idx| ==> !OutOfBounds(idx[k], target.node.sizes[k])))
      && (r.Success? ==> r.value == ArrayAccess(if target.Node? && target.node.ArrayDecl? then target.node.declName else target, idx))
      && (r.Failure? ==> r.error.ValueError?)
  {
    var idx := if indices.List? || indices.Tuple? then indices.items else [indices];
    if exists k :: 0 <= k < |idx| && IsNegativeInt(idx[k]) then
      Failure(ValueError("Index value < 0."))
    else if target.Node? && target.node.ArrayDecl? then
      var decl := target.node;
      if |idx| != |decl.sizes| then Failure(ValueError("Invalid number of indices."))
      else if exists k :: 0 <= k < |idx| && OutOfBounds(idx[k], decl.sizes[k]) then
        Failure(ValueError("Index value >= array dimension."))
      else Success(ArrayAccess(decl.declName, idx))
    else Success(ArrayAccess(target, idx))
  }

  /** Conditional.__init__ stores `false` in both branches; the `true` argument is dropped. */
  function MakeConditional(condition: Code, whenTrue: Code, whenFalse: Code): (n: AstNode)
    ensures n.Conditional? && n.condition == condition && n.whenFalse == whenFalse
    ensures n.whenTrue == whenFalse
  {
    Conditional(condition, whenFalse, whenFalse)
  }

  /** Return.__init__ reads `self.value` before anything assigns it, so constructing a Return always raises. */
  function MakeReturn(value: Code): (r: Result<AstNode, Error>)
    ensures r == Failure(AttributeError)
  {
    Failure(AttributeError)
  }

  // ---------------------------------------------------------------------------
  // format_code
  // ---------------------------------------------------------------------------

  function Max(a: nat, b: nat): nat {
    if a < b then b else a
  }

  /**
   * How deeply array declarations with initial values are nested in a code
   * value. Formatting such a declaration formats the initializer list built
   * from its values, which is no deeper; this measure is what makes that
   * recursion terminate.
   */
  function DeclDepth(c: Code): nat {
    match c
    case List(items) => DepthAll(items)
    case Tuple(items) => DepthAll(items)
    case Node(n) => NodeDepth(n)
    case _ => 0
  }

  function DepthAll(items: seq<Code>): nat {
    if |items| == 0 then 0 else Max(DeclDepth(items[0]), DepthAll(items[1..]))
  }

  function NodeDepth(n: AstNode): nat {
    match n
    case Indented(c) => DeclDepth(c)
    case Comment(c) => DeclDepth(c)
    case Block(b, s, e) => Max(DeclDepth(b), Max(DeclDepth(s), DeclDepth(e)))
    case TemplateArgumentList(args, _) => DeclDepth(args)
    case Type(name, targs, _) => Max(DeclDepth(name), DeclDepth(targs))
    case TypeDef(t, _) => DeclDepth(t)
    case Namespace(_, body) => DeclDepth(body)
    case VariableDecl(t, name, value) => Max(DeclDepth(t), Max(DeclDepth(name), DeclDepth(value)))
    case ArrayDecl(t, name, sizes, values) =>
      Max(Max(DeclDepth(t), DeclDepth(name)), Max(DepthAll(sizes), DeclDepth(values) + 1))
    case ArrayAccess(name, indices) => Max(DeclDepth(name), DepthAll(indices))
    case UnOp(_, arg) => DeclDepth(arg)
    case BinOp(_, l, r) => Max(DeclDepth(l), DeclDepth(r))
    case NOp(_, ops) => DepthAll(ops)
    case Conditional(c, t, f) => Max(DeclDepth(c), Max(DeclDepth(t), DeclDepth(f)))
    case AssignStatement(_, l, r) => Max(DeclDepth(l), DeclDepth(r))
    case WhileLoop(c, b) => Max(DeclDepth(c), DeclDepth(b))
    case ForLoop(i, c, inc, b) => Max(Max(DeclDepth(i), DeclDepth(c)), Max(DeclDepth(inc), DeclDepth(b)))
    case ForRange(name, lo, up, b) => Max(Max(DeclDepth(name), DeclDepth(lo)), Max(DeclDepth(up), DeclDepth(b)))
    case Class(_, _, pub, prot, priv, targs, _) =>
      Max(Max(DeclDepth(pub), DeclDepth(prot)), Max(DeclDepth(priv), DeclDepth(targs)))
  }

  /** `format_code(s, level)` for a string: indented when the level is not 0. */
  function FormatStr(s: string, level: nat): string {
    if level != 0 then Indent(s, level) else s
  }

  /**
   * format_code: a string is indented to the level, a list joins its items
   * (each formatted at the level) with line breaks, a tuple concatenates its
   * items formatted at level 0 and indents the result, an int is written in
   * decimal, an AST node formats itself, and anything else raises
   * RuntimeError.
   */
  function FormatCode(code: Code, level: nat): (r: Result<string, Error>)
    ensures code.Str? && level == 0 ==> r == Success(code.s)
    ensures code.PyNone? || code.Other? ==> r == Failure(RuntimeError)
    decreases DeclDepth(code), code, 3
  {
    match code
    case Str(s) => Success(FormatStr(s, level))
    case List(items) =>
      var parts :- FormatItems(items, level);
      Success(Join("\n", parts))
    case Tuple(items) =>
      var parts :- FormatItems(items, 0);
      Success(FormatStr(Concat(parts), level))
    case Node(n) => FormatNode(n, level)
    case Int(i) => Success(Indent(IntToString(i), level))
    case PyNone => Failure(RuntimeError)
    case Other => Failure(RuntimeError)
  }

  /** Each item formatted at `level`, stopping at the first exception. */
  function FormatItems(items: seq<Code>, level: nat): Result<seq<string>, Error>
    decreases DepthAll(items), items, 0
  {
    if |items| == 0 then Success([])
    else
      var head :- FormatCode(items[0], level);
      var tail :- FormatItems(items[1..], level);
      Success([head] + tail)
  }

  /** The items of a template argument list formatted at `level` (a string yields its characters). */
  function FormatElements(args: Code, level: nat): (r: Result<seq<string>, Error>)
    decreases DeclDepth(args), args, 2
  {
    match args
    case Str(s) => Success(seq(|s|, i requires 0 <= i < |s| => FormatStr([s[i]], level)))
    case List(items) => FormatItems(items, level)
    case Tuple(items) => FormatItems(items, level)
    case _ => Failure(TypeError)
  }

  /** True when a code value is a TemplateArgumentList, or a Type with template arguments. */
  predicate EndsInTemplate(last: Code) {
    last.Node? && (last.node.TemplateArgumentList? || (last.node.Type? && Truthy(last.node.templateArguments)))
  }

  /**
   * TemplateArgumentList.format: the arguments joined by `,\n` and indented
   * between `<\n` and `\n>`, or on one line between `<` and `>` (written
   * ` >` after a nested template, to avoid `>>`).
   */
  function FormatTemplateArguments(args: Code, multiline: bool, level: nat): (r: Result<string, Error>)
    decreases DeclDepth(args), args, 3
  {
    if multiline then
      var parts :- FormatElements(args, 0);
      Success(FormatStr("<\n" + Indent(Join(",\n", parts), 1) + "\n>", level))
    else
      var n :- Len(args);
      if n == 0 then Failure(IndexError)
      else
        var last := Elements(args).value[n - 1];
        var end := if EndsInTemplate(last) then " >" else ">";
        var parts :- FormatElements(args, 0);
        Success(FormatStr("<" + Join(", ", parts) + end, level))
  }

  /**
   * The integer `"%d" % n` prints: `n` itself when it is an int, or the only
   * item of a one-element tuple holding an int, since a tuple on the right of
   * `%` is its argument list; anything else is a TypeError.
   */
  function SizeArg(n: Code): (r: Option<int>)
    ensures r.Some? <==> (n.Int? || (n.Tuple? && |n.items| == 1 && n.items[0].Int?))
  {
    match n
    case Int(i) => Some(i)
    case Tuple(items) => if |items| == 1 && items[0].Int? then Some(items[0].i) else None
    case _ => None
  }

  /** `"[%d]" % n` for each size of an array declaration. */
  function SizeBrackets(sizes: seq<Code>): (r: Result<string, Error>)
    ensures r.Success? <==> forall k :: 0 <= k < |sizes| ==> SizeArg(sizes[k]).Some?
    ensures r.Failure? ==> r.error == TypeError
  {
    if |sizes| == 0 then Success("")
    else if SizeArg(sizes[0]).None? then Failure(TypeError)
    else
      var rest :- SizeBrackets(sizes[1..]);
      Success("[" + IntToString(SizeArg(sizes[0]).value) + "]" + rest)
  }

  /** `[code, Block(body)]` when there is a body, else just the header. */
  function WithBody(header: string, body: Code, level: nat): (r: Result<string, Error>)
    decreases DeclDepth(body), body, 4
  {
    if body.PyNone? then Success(header)
    else
      var b :- FormatCode(body, level + 1);
      Success(Join("\n", [header, FormatStr("{", level), b, FormatStr("}", level)]))
  }

  /** The `format` method of each AST node class at the given level. */
  function FormatNode(n: AstNode, level: nat): (r: Result<string, Error>)
    decreases NodeDepth(n), n, 2
  {
    match n
    case Indented(c) =>
      // format_code(self.code, level + 1)
      FormatCode(c, level + 1)
    case Comment(c) =>
      // ("// ", comment)
      var t :- FormatCode(c, 0);
      Success(FormatStr("// " + t, level))
    case Block(body, start, end) =>
      // [start, Indented(body), end]
      var s :- FormatCode(start, level);
      var b :- FormatCode(body, level + 1);
      var e :- FormatCode(end, level);
      Success(Join("\n", [s, b, e]))
    case TemplateArgumentList(args, multiline) =>
      FormatTemplateArguments(args, multiline, level)
    case Type(name, targs, multiline) =>
      // name, or (name, TemplateArgumentList(targs, multiline))
      if Truthy(targs) then
        var t :- FormatCode(name, 0);
        var a :- FormatTemplateArguments(targs, multiline, 0);
        Success(FormatStr(t + a, level))
      else FormatCode(name, level)
    case TypeDef(t, typedef) =>
      // ('typedef ', type_, " %s;" % typedef)
      var tt :- FormatCode(t, 0);
      Success(FormatStr("typedef " + tt + " " + typedef + ";", level))
    case Namespace(name, body) =>
      // ['namespace %s' % name, Block(body)]
      var b :- FormatCode(body, level + 1);
      Success(Join("\n", [FormatStr("namespace " + name, level), FormatStr("{", level), b, FormatStr("}", level)]))
    case VariableDecl(_, _, _) => FormatVariableDecl(n, level)
    case ArrayDecl(_, _, _, _) => FormatArrayDecl(n, level)
    case ArrayAccess(_, _) => FormatArrayAccess(n, level)
    case UnOp(_, _) => FormatOperator(n, level)
    case BinOp(_, _, _) => FormatOperator(n, level)
    case NOp(_, _) => FormatOperator(n, level)
    case Conditional(_, _, _) => FormatOperator(n, level)
    case AssignStatement(_, _, _) => FormatOperator(n, level)
    case WhileLoop(_, _) => FormatLoop(n, level)
    case ForLoop(_, _, _, _) => FormatLoop(n, level)
    case ForRange(_, _, _, _) => FormatLoop(n, level)
    case Class(_, _, _, _, _, _, _) => FormatClass(n, level)
  }

  /** VariableDecl.format: `(typename, " ", name)`, then `(" = ", value)` unless the value is None, then `";"`. */
  function FormatVariableDecl(n: AstNode, level: nat): Result<string, Error>
    requires n.VariableDecl?
    decreases NodeDepth(n), n, 1
  {
    var tt :- FormatCode(n.varType, 0);
    var nn :- FormatCode(n.varName, 0);
    var vv :- if n.value.PyNone? then Success("") else
               var v :- FormatCode(n.value, 0); Success(" = " + v);
    Success(FormatStr(tt + " " + nn + vv + ";", level))
  }

  /**
   * ArrayDecl.format: the sizes as `[%d]` brackets, then the initializer
   * list built from the values (when they are not None), then
   * `(typename, " ", name, brackets, valuescode, ";")`.
   */
  function FormatArrayDecl(n: AstNode, level: nat): Result<string, Error>
    requires n.ArrayDecl?
    decreases NodeDepth(n), n, 1
  {
    var brackets :- SizeBrackets(n.sizes);
    var init :- if n.values.PyNone? then Success(PyNone) else RecursiveInitializerList(n.values, n.sizes);
    InitializerDepth(n.values, n.sizes);
    var tt :- FormatCode(n.declType, 0);
    var nn :- FormatCode(n.declName, 0);
    var vv :- if n.values.PyNone? then Success("") else
               var v :- FormatCode(init, 0); Success(" = " + v);
    Success(FormatStr(tt + " " + nn + brackets + vv + ";", level))
  }

  /** ArrayAccess.format: `(arrayname, tuple(("[", i, "]") for i in indices))`. */
  function FormatArrayAccess(n: AstNode, level: nat): Result<string, Error>
    requires n.ArrayAccess?
    decreases NodeDepth(n), n, 1
  {
    var nn :- FormatCode(n.arrayname, 0);
    var ii :- FormatItems(n.indices, 0);
    Success(FormatStr(nn + Concat(seq(|ii|, k requires 0 <= k < |ii| => "[" + ii[k] + "]")), level))
  }

  /** The operator nodes: prefix, infix, n-ary, `?:` and assignments. */
  function FormatOperator(n: AstNode, level: nat): Result<string, Error>
    requires n.UnOp? || n.BinOp? || n.NOp? || n.Conditional? || n.AssignStatement?
    decreases NodeDepth(n), n, 1
  {
    match n
    case UnOp(k, arg) =>
      // (op, arg)
      var a :- FormatCode(arg, 0);
      Success(FormatStr(UnOpSymbol(k) + a, level))
    case BinOp(k, lhs, rhs) =>
      // (lhs, op, rhs)
      var l :- FormatCode(lhs, 0);
      var rr :- FormatCode(rhs, 0);
      Success(FormatStr(l + BinOpSymbol(k) + rr, level))
    case NOp(k, ops) =>
      // the operands with op between each pair
      var parts :- FormatItems(ops, 0);
      Success(FormatStr(Join(NOpSymbol(k), parts), level))
    case Conditional(c, t, f) =>
      // (condition, " ? ", true, " : ", false)
      var cc :- FormatCode(c, 0);
      var tt :- FormatCode(t, 0);
      var ff :- FormatCode(f, 0);
      Success(FormatStr(cc + " ? " + tt + " : " + ff, level))
    case AssignStatement(k, lhs, rhs) =>
      // (lhs, op, rhs, ";")
      var l :- FormatCode(lhs, 0);
      var rr :- FormatCode(rhs, 0);
      Success(FormatStr(l + AssignSymbol(k) + rr + ";", level))
  }

  /** The loop nodes: a header, then `Block(body)` unless the body is None. */
  function FormatLoop(n: AstNode, level: nat): Result<string, Error>
    requires n.WhileLoop? || n.ForLoop? || n.ForRange?
    decreases NodeDepth(n), n, 1
  {
    match n
    case WhileLoop(check, body) =>
      // ("while (", check, ")")
      var c :- FormatCode(check, 0);
      WithBody(FormatStr("while (" + c + ")", level), body, level)
    case ForLoop(init, check, increment, body) =>
      // ("for (", init, "; ", check, "; ", increment, ")")
      var i :- FormatCode(init, 0);
      var c :- FormatCode(check, 0);
      var inc :- FormatCode(increment, 0);
      WithBody(FormatStr("for (" + i + "; " + c + "; " + inc + ")", level), body, level)
    case ForRange(name, lower, upper, body) =>
      // ForLoop(("int ", name, " = ", lower), (name, " < ", upper), ("++", name), body)
      var nn :- FormatCode(name, 0);
      var lo :- FormatCode(lower, 0);
      var up :- FormatCode(upper, 0);
      WithBody(FormatStr("for (" + ("int " + nn + " = " + lo) + "; " + (nn + " < " + up) + "; " + ("++" + nn) + ")", level),
               body, level)
  }

  /** The labelled section of a class body, when the body is truthy. */
  function Section(heading: string, body: Code, level: nat, parent: AstNode): Result<seq<string>, Error>
    requires DeclDepth(body) <= NodeDepth(parent) && body < parent
    decreases NodeDepth(parent), parent, 0
  {
    if Truthy(body) then
      var b :- FormatCode(body, level + 1);
      Success([FormatStr(heading, level), b])
    else Success([])
  }

  /**
   * Class.format: an optional `template<...>` line, the `class` line (with
   * `: public` and the superclass when there is one), `{`, the public,
   * protected and private sections that are not empty, and `};`.
   */
  function FormatClass(n: AstNode, level: nat): Result<string, Error>
    requires n.Class?
    decreases NodeDepth(n), n, 1
  {
    var template :- if Truthy(n.classTemplateArguments) then
                      var a :- FormatTemplateArguments(n.classTemplateArguments, n.templateMultiline, 0);
                      Success([FormatStr("template" + a, level)])
                    else Success([]);
    var head := if n.superclass != "" then "class " + n.className + ": public " + n.superclass
                else "class " + n.className;
    var publicLines :- Section("public:", n.publicBody, level, n);
    var protectedLines :- Section("protected:", n.protectedBody, level, n);
    var privateLines :- Section("private:", n.privateBody, level, n);
    Success(Join("\n", template + [FormatStr(head, level), FormatStr("{", level)]
                       + publicLines + protectedLines + privateLines + [FormatStr("};", level)]))
  }

  // ---------------------------------------------------------------------------
  // The initializer list is no deeper than the values it is built from
  // ---------------------------------------------------------------------------

  /** Every item is at most as deep as a bound exactly when the whole run is. */
  lemma {:induction false} DepthAllBound(items: seq<Code>, b: nat)
    ensures DepthAll(items) <= b <==> forall k :: 0 <= k < |items| ==> DeclDepth(items[k]) <= b
    decreases |items|
  {
    if |items| > 0 {
      DepthAllBound(items[1..], b);
      assert forall k :: 1 <= k < |items| ==> items[k] == items[1..][k - 1];
    }
  }

  /** Two runs of items together are as deep as the deeper of them. */
  lemma {:induction false} DepthAllAppend(a: seq<Code>, b: seq<Code>)
    ensures DepthAll(a + b) == Max(DepthAll(a), DepthAll(b))
    decreases |a|
  {
    if |a| == 0 {
      assert a + b == b;
    } else {
      assert (a + b)[0] == a[0] && (a + b)[1..] == a[1..] + b;
      DepthAllAppend(a[1..], b);
    }
  }

  /** One item is no deeper than the run it belongs to. */
  lemma {:induction false} DepthAllAt(items: seq<Code>, i: nat)
    requires i < |items|
    ensures DeclDepth(items[i]) <= DepthAll(items)
    decreases i
  {
    if i > 0 {
      assert items[1..][i - 1] == items[i];
      DepthAllAt(items[1..], i - 1);
    }
  }

  lemma DepthAllSmall(x: Code, y: Code, z: Code)
    ensures DepthAll([x]) == DeclDepth(x)
    ensures DepthAll([x, y]) == Max(DeclDepth(x), DeclDepth(y))
    ensures DepthAll([x, y, z]) == Max(DeclDepth(x), Max(DeclDepth(y), DeclDepth(z)))
  {
    assert [x][1..] == [] && [y][1..] == [] && [z][1..] == [];
    assert DepthAll([y]) == DeclDepth(y) && DepthAll([z]) == DeclDepth(z);
    assert [x, y][1..] == [y] && [y, z][1..] == [z];
    assert DepthAll([y, z]) == Max(DeclDepth(y), DeclDepth(z));
    assert [x, y, z][1..] == [y, z];
  }

  /** The elements of a code value are no deeper than the value. */
  lemma ElementsDepth(c: Code)
    requires Elements(c).Success?
    ensures DepthAll(Elements(c).value) <= DeclDepth(c)
  {
    if c.Str? {
      var xs := Chars(c.s);
      forall k | 0 <= k < |xs|
        ensures DeclDepth(xs[k]) <= 0
      {
        CharsAt(c.s, k);
      }
      DepthAllBound(xs, 0);
    }
  }

  /** `c[i]` is no deeper than `c`. */
  lemma AtDepth(c: Code, i: nat)
    requires At(c, i).Success?
    ensures DeclDepth(At(c, i).value) <= DeclDepth(c)
  {
    if c.List? || c.Tuple? {
      DepthAllAt(c.items, i);
    }
  }

  /** Separating items by a string adds no depth. */
  lemma {:induction false} SeparatedDepth(items: seq<Code>, sep: string)
    ensures DepthAll(SeparatedList(items, Str(sep))) <= DepthAll(items)
    decreases |items|
  {
    var list := SeparatedList(items, Str(sep));
    if |items| == 1 {
      DepthAllSmall(items[0], items[0], items[0]);
      assert items == [items[0]];
    } else if |items| > 1 {
      var tail := items[1..];
      SeparatedDepth(tail, sep);
      assert list[1..] == SeparatedList(tail, Str(sep));
      DepthAllSmall(items[0], Str(sep), Str(sep));
    }
  }

  /** Indenting code adds no depth. */
  lemma IndentedDepth(c: Code)
    ensures DeclDepth(Node(Indented(c))) == DeclDepth(c)
  {
  }

  /** An indented list between two strings is as deep as the code it wraps. */
  lemma BracketDepth(open: string, mid: Code, close: string)
    ensures DeclDepth(Node(Indented(List([Str(open), mid, Str(close)])))) == DeclDepth(mid)
  {
    DepthAllSmall(Str(open), mid, Str(close));
    IndentedDepth(List([Str(open), mid, Str(close)]));
  }

  /** Wrapping values in `{ ... }` adds no depth. */
  lemma InitializerListDepth(xs: seq<Code>)
    ensures DepthAll(InitializerList(xs, DefaultBegin, DefaultSep, DefaultEnd)) <= DepthAll(xs)
  {
    var sep := SeparatedList(xs, DefaultSep);
    SeparatedDepth(xs, ", ");
    DepthAllSmall(DefaultBegin, DefaultEnd, DefaultEnd);
    DepthAllSmall(DefaultEnd, DefaultEnd, DefaultEnd);
    DepthAllAppend([DefaultBegin], sep);
    DepthAllAppend([DefaultBegin] + sep, [DefaultEnd]);
  }

  lemma RowDepth(v: Code)
    requires Row(v).Success?
    ensures DeclDepth(Row(v).value) <= DeclDepth(v)
  {
    ElementsDepth(v);
    InitializerListDepth(Elements(v).value);
  }

  /** One more row: the earlier rows followed by the row of `values[count - 1]`. */
  lemma RowsSnoc(values: Code, count: nat)
    requires count > 0 && Rows(values, count).Success?
    ensures Rows(values, count - 1).Success? && At(values, count - 1).Success?
    ensures Row(At(values, count - 1).value).Success?
    ensures Rows(values, count).value == Rows(values, count - 1).value + [Row(At(values, count - 1).value).value]
  {
  }

  /** The rows for `count` values extend the rows for `count - 1`. */
  lemma RowsPrefix(values: Code, count: nat)
    requires count > 0 && Rows(values, count).Success?
    ensures Rows(values, count - 1).Success?
    ensures var rs := Rows(values, count).value; rs == Rows(values, count - 1).value + [rs[count - 1]]
  {
    RowsSnoc(values, count);
  }

  /** Row `i` of the rows is the row built from `values[i]`. */
  lemma {:induction false} RowsAt(values: Code, count: nat, i: nat)
    requires Rows(values, count).Success? && i < count
    ensures At(values, i).Success? && Row(At(values, i).value).Success?
    ensures Rows(values, count).value[i] == Row(At(values, i).value).value
    decreases count
  {
    if i == count - 1 {
      RowsSnoc(values, count);
    } else {
      RowsPrefix(values, count);
      RowsAt(values, count - 1, i);
    }
  }

  /** The row built from `values[i]` is no deeper than `values`. */
  lemma RowAtDepth(values: Code, i: nat)
    requires At(values, i).Success? && Row(At(values, i).value).Success?
    ensures DeclDepth(Row(At(values, i).value).value) <= DeclDepth(values)
  {
    AtDepth(values, i);
    RowDepth(At(values, i).value);
  }

  lemma RowsDepth(values: Code, count: nat)
    requires Rows(values, count).Success?
    ensures DepthAll(Rows(values, count).value) <= DeclDepth(values)
  {
    var rs := Rows(values, count).value;
    forall i | 0 <= i < |rs|
      ensures DeclDepth(rs[i]) <= DeclDepth(values)
    {
      RowsAt(values, count, i);
      RowAtDepth(values, i);
    }
    DepthAllBound(rs, DeclDepth(values));
  }

  lemma BracedDepth(items: seq<Code>)
    ensures DeclDepth(Braced(items)) <= DepthAll(items)
  {
    var sep := SeparatedList(items, Str(","));
    SeparatedDepth(items, ",");
    var inner := List([List(sep), Str("}")]);
    DepthAllSmall(List(sep), Str("}"), Str("}"));
    IndentedDepth(inner);
    DepthAllSmall(Str("{"), Node(Indented(inner)), Str("}"));
  }

  lemma GroupDepth(v: Code, width: nat)
    requires Group(v, width).Success?
    ensures DeclDepth(Group(v, width).value) <= DeclDepth(v)
  {
    var rows := Rows(v, width).value;
    RowsDepth(v, width);
    SeparatedDepth(rows, ",");
    BracketDepth("{", List(SeparatedList(rows, Str(","))), "}");
  }

  /** One more group: the earlier groups followed by the group of `values[count - 1]`. */
  lemma GroupsSnoc(values: Code, count: nat, width: nat)
    requires count > 0 && Groups(values, count, width).Success?
    ensures Groups(values, count - 1, width).Success? && At(values, count - 1).Success?
    ensures Group(At(values, count - 1).value, width).Success?
    ensures Groups(values, count, width).value
      == Groups(values, count - 1, width).value + [Group(At(values, count - 1).value, width).value]
  {
  }

  /** The groups for `count` values extend the groups for `count - 1`. */
  lemma GroupsPrefix(values: Code, count: nat, width: nat)
    requires count > 0 && Groups(values, count, width).Success?
    ensures Groups(values, count - 1, width).Success?
    ensures var gs := Groups(values, count, width).value; gs == Groups(values, count - 1, width).value + [gs[count - 1]]
  {
    GroupsSnoc(values, count, width);
  }

  /** Group `i` of the groups is the group built from `values[i]`. */
  lemma {:induction false} GroupsAt(values: Code, count: nat, width: nat, i: nat)
    requires Groups(values, count, width).Success? && i < count
    ensures At(values, i).Success? && Group(At(values, i).value, width).Success?
    ensures Groups(values, count, width).value[i] == Group(At(values, i).value, width).value
    decreases count
  {
    if i == count - 1 {
      GroupsSnoc(values, count, width);
    } else {
      GroupsPrefix(values, count, width);
      GroupsAt(values, count - 1, width, i);
    }
  }

  /** The group built from `values[i]` is no deeper than `values`. */
  lemma GroupAtDepth(values: Code, i: nat, width: nat)
    requires At(values, i).Success? && Group(At(values, i).value, width).Success?
    ensures DeclDepth(Group(At(values, i).value, width).value) <= DeclDepth(values)
  {
    AtDepth(values, i);
    GroupDepth(At(values, i).value, width);
  }

  lemma GroupsDepth(values: Code, count: nat, width: nat)
    requires Groups(values, count, width).Success?
    ensures DepthAll(Groups(values, count, width).value) <= DeclDepth(values)
  {
    var gs := Groups(values, count, width).value;
    forall i | 0 <= i < |gs|
      ensures DeclDepth(gs[i]) <= DeclDepth(values)
    {
      GroupsAt(values, count, width, i);
      GroupAtDepth(values, i, width);
    }
    DepthAllBound(gs, DeclDepth(values));
  }

  lemma InitializerDepth(values: Code, sizes: seq<Code>)
    ensures RecursiveInitializerList(values, sizes).Success? ==>
      DeclDepth(RecursiveInitializerList(values, sizes).value) <= DeclDepth(values)
  {
    var r := RecursiveInitializerList(values, sizes);
    if r.Success? {
      if |sizes| == 1 {
        ElementsDepth(values);
        InitializerListDepth(Elements(values).value);
      } else if |sizes| == 2 {
        MatrixDepth(values, sizes);
      } else {
        TensorDepth(values, sizes);
      }
    }
  }

  /** A rank-2 initializer list is braced rows, each no deeper than the values. */
  lemma MatrixDepth(values: Code, sizes: seq<Code>)
    requires |sizes| == 2 && RecursiveInitializerList(values, sizes).Success?
    ensures DeclDepth(RecursiveInitializerList(values, sizes).value) <= DeclDepth(values)
  {
    var n := Len(values).value;
    RowsDepth(values, n);
    BracedDepth(Rows(values, n).value);
  }

  /** A rank-3 initializer list is braced groups of rows, each no deeper than the values. */
  lemma TensorDepth(values: Code, sizes: seq<Code>)
    requires |sizes| == 3 && RecursiveInitializerList(values, sizes).Success?
    ensures DeclDepth(RecursiveInitializerList(values, sizes).value) <= DeclDepth(values)
  {
    var n := Len(values).value;
    var m := Len(At(values, 0).value).value;
    GroupsDepth(values, n, m);
    BracedDepth(Groups(values, n, m).value);
  }

  // ---------------------------------------------------------------------------
  // Properties of format_code
  // ---------------------------------------------------------------------------

  /**
   * Formatting a list of items succeeds exactly when every item formats, and
   * then yields one string per item; otherwise the error is that of the
   * first item that raises.
   */
  lemma {:induction false} FormatItemsSpec(items: seq<Code>, level: nat)
    ensures FormatItems(items, level).Success? <==> forall k :: 0 <= k < |items| ==> FormatCode(items[k], level).Success?
    ensures FormatItems(items, level).Success? ==>
      && |FormatItems(items, level).value| == |items|
      && forall k :: 0 <= k < |items| ==> FormatItems(items, level).value[k] == FormatCode(items[k], level).value
    ensures FormatItems(items, level).Failure? ==>
      exists k :: 0 <= k < |items| && FormatCode(items[k], level).Failure?
        && FormatItems(items, level).error == FormatCode(items[k], level).error
        && forall j :: 0 <= j < k ==> FormatCode(items[j], level).Success?
    decreases |items|
  {
    if |items| > 0 {
      FormatItemsSpec(items[1..], level);
      assert forall k :: 1 <= k < |items| ==> items[k] == items[1..][k - 1];
      if FormatCode(items[0], level).Success? && FormatItems(items[1..], level).Failure? {
        var k' :| 0 <= k' < |items[1..]| && FormatCode(items[1..][k'], level).Failure?
          && FormatItems(items[1..], level).error == FormatCode(items[1..][k'], level).error
          && forall j :: 0 <= j < k' ==> FormatCode(items[1..][j], level).Success?;
        assert FormatCode(items[k' + 1], level).Failure?;
        assert forall j :: 1 <= j < k' + 1 ==> FormatCode(items[j], level).Success?;
      }
    }
  }

  /** A string at level 0 comes back unchanged; at a higher level each of its lines is indented. */
  lemma FormatStringLines(s: string, level: nat)
    ensures level == 0 ==> FormatCode(Str(s), level) == Success(s)
    ensures FormatCode(Str(s), level).Success?
    ensures var out := FormatCode(Str(s), level).value;
      |Lines(out)| == |Lines(s)| && forall i :: 0 <= i < |Lines(out)| ==> Lines(out)[i] == Repeat(' ', 4 * level) + Lines(s)[i]
  {
  }

  /** A list is its items formatted at the same level, one after the other, joined by line breaks. */
  lemma FormatListJoins(items: seq<Code>, level: nat)
    requires forall k :: 0 <= k < |items| ==> FormatCode(items[k], level).Success?
    ensures FormatCode(List(items), level).Success?
    ensures FormatCode(List(items), level).value
         == Join("\n", seq(|items|, k requires 0 <= k < |items| => FormatCode(items[k], level).value))
  {
    FormatItemsSpec(items, level);
    var parts := FormatItems(items, level).value;
    assert parts == seq(|items|, k requires 0 <= k < |items| => FormatCode(items[k], level).value);
  }

  /**
   * A tuple is its items formatted at level 0 and concatenated; the whole
   * result is then indented, so each of its lines starts with 4 * level spaces.
   */
  lemma FormatTupleIndents(items: seq<Code>, level: nat)
    requires forall k :: 0 <= k < |items| ==> FormatCode(items[k], 0).Success?
    ensures FormatCode(Tuple(items), level).Success?
    ensures var joined := Concat(seq(|items|, k requires 0 <= k < |items| => FormatCode(items[k], 0).value));
      var out := FormatCode(Tuple(items), level).value;
      && |Lines(out)| == |Lines(joined)|
      && forall i :: 0 <= i < |Lines(out)| ==> Lines(out)[i] == Repeat(' ', 4 * level) + Lines(joined)[i]
  {
    FormatItemsSpec(items, 0);
    var parts := FormatItems(items, 0).value;
    assert parts == seq(|items|, k requires 0 <= k < |items| => FormatCode(items[k], 0).value);
  }

  /** Only strings, lists, tuples, ints and AST nodes can be formatted. */
  lemma FormatUnsupported(code: Code, level: nat)
    requires !(code.Str? || code.List? || code.Tuple? || code.Int? || code.Node?)
    ensures FormatCode(code, level) == Failure(RuntimeError)
  {
  }

  /** An ArrayDecl given a single int size holds it as a one-element tuple and prints one `[n]`. */
  lemma ArrayDeclIntSize(typename: Code, name: Code, size: int, values: Code)
    ensures MakeArrayDecl(typename, name, Int(size), values).Success?
    ensures MakeArrayDecl(typename, name, Int(size), values).value.sizes == [Int(size)]
    ensures SizeBrackets([Int(size)]) == Success("[" + IntToString(size) + "]")
  {
    assert [Int(size)][1..] == [];
    assert "[" + IntToString(size) + "]" + "" == "[" + IntToString(size) + "]";
  }

  /** A size given as the one-element tuple `(n,)` also prints as `[n]`. */
  lemma ArrayDeclTupleSize(size: int)
    ensures SizeBrackets([Tuple([Int(size)])]) == Success("[" + IntToString(size) + "]")
  {
    assert [Tuple([Int(size)])][1..] == [];
    assert "[" + IntToString(size) + "]" + "" == "[" + IntToString(size) + "]";
  }

  /** `Block(body, start, end)` formats as the list `[start, Indented(body), end]`. */
  lemma BlockFormatsAsList(body: Code, start: Code, end: Code, level: nat)
    ensures FormatNode(Block(body, start, end), level) == FormatCode(List([start, Node(Indented(body)), end]), level)
  {
    var items := [start, Node(Indented(body)), end];
    assert items[1..] == [Node(Indented(body)), end];
    assert items[1..][1..] == [end];
    assert items[1..][1..][1..] == [];
    assert FormatCode(items[1], level) == FormatCode(body, level + 1);
    FormatItemsSpec(items, level);
    if FormatItems(items, level).Success? {
      var parts := FormatItems(items, level).value;
      assert parts == [parts[0], parts[1], parts[2]];
    }
  }

  /**
   * The tuple NOp.format builds: every operand followed by the operator,
   * without the last operator.
   */
  function NOpTuple(ops: seq<Code>, op: Code): seq<Code>
    decreases |ops|
  {
    if |ops| == 0 then []
    else if |ops| == 1 then [ops[0]]
    else [ops[0], op] + NOpTuple(ops[1..], op)
  }

  /**
   * The operands sit at the even positions, in order, and the operator at
   * the odd ones; the tuple ends with the last operand, never the operator.
   */
  lemma {:induction false} NOpTupleShape(ops: seq<Code>, op: Code)
    ensures var t := NOpTuple(ops, op);
      && (|ops| == 0 ==> t == [])
      && (|ops| > 0 ==> |t| == 2 * |ops| - 1 && t[|t| - 1] == ops[|ops| - 1])
      && forall i :: 0 <= i < |t| ==> t[i] == if i % 2 == 0 then ops[i / 2] else op
    decreases |ops|
  {
    if |ops| > 1 {
      NOpTupleShape(ops[1..], op);
      var rest := NOpTuple(ops[1..], op);
      var t := NOpTuple(ops, op);
      forall i | 2 <= i < |t| ensures t[i] == if i % 2 == 0 then ops[i / 2] else op {
        assert t[i] == rest[i - 2];
        assert (i - 2) % 2 == i % 2 && (i - 2) / 2 == i / 2 - 1;
      }
    }
  }

  /** Formatting a list that starts with `x`: `x` first, then the rest. */
  lemma FormatItemsCons(x: Code, xs: seq<Code>, level: nat)
    ensures FormatItems([x] + xs, level)
         == (var h :- FormatCode(x, level); var tl :- FormatItems(xs, level); Success([h] + tl))
  {
    var items := [x] + xs;
    assert items[0] == x && items[1..] == xs;
    assert FormatItems(items, level)
        == (var h :- FormatCode(items[0], level); var tl :- FormatItems(items[1..], level); Success([h] + tl));
  }

  lemma {:induction false} ConcatInterleaved(ops: seq<Code>, op: string)
    requires forall k :: 0 <= k < |ops| ==> FormatCode(ops[k], 0).Success?
    ensures FormatItems(NOpTuple(ops, Str(op)), 0).Success?
    ensures FormatItems(ops, 0).Success?
    ensures Concat(FormatItems(NOpTuple(ops, Str(op)), 0).value) == Join(op, FormatItems(ops, 0).value)
    decreases |ops|
  {
    if |ops| == 1 {
      FormatItemsCons(ops[0], [], 0);
      assert ops == [ops[0]] + [];
      assert NOpTuple(ops, Str(op)) == [ops[0]] + [];
    } else if |ops| > 1 {
      var t := NOpTuple(ops, Str(op));
      var rest := NOpTuple(ops[1..], Str(op));
      ConcatInterleaved(ops[1..], op);
      var head := FormatCode(ops[0], 0).value;
      var rparts := FormatItems(rest, 0).value;
      var tail := FormatItems(ops[1..], 0).value;
      assert FormatItems(t, 0) == Success([head] + ([op] + rparts)) by {
        assert t == [ops[0]] + ([Str(op)] + rest);
        FormatItemsCons(Str(op), rest, 0);
        FormatItemsCons(ops[0], [Str(op)] + rest, 0);
      }
      assert FormatItems(ops, 0) == Success([head] + tail) by {
        assert ops == [ops[0]] + ops[1..];
        FormatItemsCons(ops[0], ops[1..], 0);
      }
      assert |tail| >= 1 by {
        FormatItemsSpec(ops[1..], 0);
      }
      assert Concat([head] + ([op] + rparts)) == head + (op + Concat(rparts)) by {
        assert ([head] + ([op] + rparts))[1..] == [op] + rparts;
        assert ([op] + rparts)[1..] == rparts;
      }
      assert Join(op, [head] + tail) == head + op + Join(op, tail) by {
        assert ([head] + tail)[1..] == tail;
      }
    }
  }

  /**
   * NOp formats as the tuple of operands with the operator between each
   * pair, never after the last operand.
   */
  lemma NOpFormatsInterleaved(k: NOpKind, ops: seq<Code>, level: nat)
    requires forall i :: 0 <= i < |ops| ==> FormatCode(ops[i], 0).Success?
    ensures FormatNode(NOp(k, ops), level) == FormatCode(Tuple(NOpTuple(ops, Str(NOpSymbol(k)))), level)
  {
    ConcatInterleaved(ops, NOpSymbol(k));
  }

  /** Formatting `x` and then `xs` succeeds with `h` followed by `tl`. */
  lemma FormatItemsConsOk(x: Code, xs: seq<Code>, level: nat, h: string, tl: seq<string>)
    requires FormatCode(x, level) == Success(h) && FormatItems(xs, level) == Success(tl)
    ensures FormatItems([x] + xs, level) == Success([h] + tl)
  {
    var items := [x] + xs;
    assert items[0] == x && items[1..] == xs;
  }

  lemma FormatTuple2(a: string, x: Code)
    ensures FormatCode(Tuple([Str(a), x]), 0)
         == (var u :- FormatCode(x, 0); Success(a + u))
  {
    FormatItemsCons(Str(a), [x], 0);
    assert [Str(a)] + [x] == [Str(a), x];
    if FormatCode(x, 0).Success? {
      var u := FormatCode(x, 0).value;
      FormatItemsConsOk(x, [], 0, u, []);
      assert [x] + [] == [x] && [u] + [] == [u];
      FormatItemsConsOk(Str(a), [x], 0, a, [u]);
      assert [a] + [u] == [a, u];
      Concat2(a, u);
    }
  }

  lemma FormatItems3(x: Code, a: string, y: Code)
    ensures FormatItems([x, Str(a), y], 0)
         == (var u :- FormatCode(x, 0); var v :- FormatCode(y, 0); Success([u, a, v]))
  {
    FormatItemsCons(x, [Str(a), y], 0);
    FormatItemsCons(Str(a), [y], 0);
    assert [x] + [Str(a), y] == [x, Str(a), y] && [Str(a)] + [y] == [Str(a), y];
    if FormatCode(y, 0).Success? {
      var v := FormatCode(y, 0).value;
      FormatItemsConsOk(y, [], 0, v, []);
      assert [y] + [] == [y] && [v] + [] == [v];
      FormatItemsConsOk(Str(a), [y], 0, a, [v]);
      assert [a] + [v] == [a, v];
      if FormatCode(x, 0).Success? {
        var u := FormatCode(x, 0).value;
        FormatItemsConsOk(x, [Str(a), y], 0, u, [a, v]);
        assert [u] + [a, v] == [u, a, v];
      }
    } else {
      FormatItemsCons(y, [], 0);
      assert [y] + [] == [y];
    }
  }

  lemma FormatTuple3(x: Code, a: string, y: Code)
    ensures FormatCode(Tuple([x, Str(a), y]), 0)
         == (var u :- FormatCode(x, 0); var v :- FormatCode(y, 0); Success(u + a + v))
  {
    FormatItems3(x, a, y);
    if FormatCode(x, 0).Success? && FormatCode(y, 0).Success? {
      Concat3(FormatCode(x, 0).value, a, FormatCode(y, 0).value);
    }
  }

  lemma FormatTuple4(a: string, x: Code, b: string, y: Code)
    ensures FormatCode(Tuple([Str(a), x, Str(b), y]), 0)
         == (var u :- FormatCode(x, 0); var v :- FormatCode(y, 0); Success(a + u + b + v))
  {
    FormatItems3(x, b, y);
    FormatItemsCons(Str(a), [x, Str(b), y], 0);
    assert [Str(a)] + [x, Str(b), y] == [Str(a), x, Str(b), y];
    if FormatCode(x, 0).Success? && FormatCode(y, 0).Success? {
      var u := FormatCode(x, 0).value;
      var v := FormatCode(y, 0).value;
      assert [a] + [u, b, v] == [a, u, b, v];
      Concat4(a, u, b, v);
    }
  }

  /** Formatting a tuple that starts with `x`: `x` at level 0, then the rest of the tuple. */
  lemma TupleCons(x: Code, xs: seq<Code>)
    ensures FormatCode(Tuple([x] + xs), 0)
         == (var h :- FormatCode(x, 0); var t :- FormatCode(Tuple(xs), 0); Success(h + t))
  {
    FormatItemsCons(x, xs, 0);
    if FormatCode(x, 0).Success? && FormatItems(xs, 0).Success? {
      var h := FormatCode(x, 0).value;
      var tl := FormatItems(xs, 0).value;
      assert ([h] + tl)[0] == h && ([h] + tl)[1..] == tl;
    }
  }

  /** A tuple whose first item and rest both format concatenates the two. */
  lemma TupleConsOk(x: Code, xs: seq<Code>, h: string, t: string)
    requires FormatCode(x, 0) == Success(h) && FormatCode(Tuple(xs), 0) == Success(t)
    ensures FormatCode(Tuple([x] + xs), 0) == Success(h + t)
  {
    TupleCons(x, xs);
  }

  /** A tuple whose first item raises raises that; otherwise it raises what its rest raises. */
  lemma TupleConsFails(x: Code, xs: seq<Code>)
    requires FormatCode(x, 0).Failure? || FormatCode(Tuple(xs), 0).Failure?
    ensures FormatCode(Tuple([x] + xs), 0)
         == if FormatCode(x, 0).Failure? then Failure(FormatCode(x, 0).error) else Failure(FormatCode(Tuple(xs), 0).error)
  {
    TupleCons(x, xs);
  }

  /** A tuple formats its items at level 0 and indents the concatenation to the level. */
  lemma TupleAtLevel(items: seq<Code>, level: nat)
    ensures FormatCode(Tuple(items), level)
         == (var t :- FormatCode(Tuple(items), 0); Success(FormatStr(t, level)))
  {
  }

  /** UnOp.format: the tuple `(op, arg)` formatted at the node's level. */
  lemma UnOpFormatsAsTuple(k: UnOpKind, arg: Code, level: nat)
    ensures FormatNode(UnOp(k, arg), level) == FormatCode(Tuple([Str(UnOpSymbol(k)), arg]), level)
  {
    FormatTuple2(UnOpSymbol(k), arg);
    TupleAtLevel([Str(UnOpSymbol(k)), arg], level);
    assert FormatNode(UnOp(k, arg), level) == FormatOperator(UnOp(k, arg), level);
  }

  /** BinOp.format: the tuple `(lhs, op, rhs)` formatted at the node's level. */
  lemma BinOpFormatsAsTuple(k: BinOpKind, lhs: Code, rhs: Code, level: nat)
    ensures FormatNode(BinOp(k, lhs, rhs), level) == FormatCode(Tuple([lhs, Str(BinOpSymbol(k)), rhs]), level)
  {
    FormatTuple3(lhs, BinOpSymbol(k), rhs);
    TupleAtLevel([lhs, Str(BinOpSymbol(k)), rhs], level);
    assert FormatNode(BinOp(k, lhs, rhs), level) == FormatOperator(BinOp(k, lhs, rhs), level);
  }

  /** The tuple `(lhs, op, rhs, ";")` at level 0. */
  lemma AssignTuple(lhs: Code, op: string, rhs: Code)
    ensures FormatCode(Tuple([lhs, Str(op), rhs, Str(";")]), 0)
         == (var l :- FormatCode(lhs, 0); var rr :- FormatCode(rhs, 0); Success(l + op + rr + ";"))
  {
    var t0 := [lhs, Str(op), rhs, Str(";")];
    var t1 := [Str(op), rhs, Str(";")];
    var t2 := [rhs, Str(";")];
    var t3 := [Str(";")];
    assert t0 == [lhs] + t1 && t1 == [Str(op)] + t2 && t2 == [rhs] + t3 && t3 == [Str(";")] + [];
    assert FormatCode(Tuple([]), 0) == Success("");
    TupleConsOk(Str(";"), [], ";", "");
    if FormatCode(lhs, 0).Failure? {
      TupleConsFails(lhs, t1);
    } else if FormatCode(rhs, 0).Failure? {
      TupleConsFails(rhs, t3);
      TupleConsFails(Str(op), t2);
      TupleConsFails(lhs, t1);
    } else {
      var l := FormatCode(lhs, 0).value;
      var rr := FormatCode(rhs, 0).value;
      TupleConsOk(rhs, t3, rr, ";" + "");
      TupleConsOk(Str(op), t2, op, rr + (";" + ""));
      TupleConsOk(lhs, t1, l, op + (rr + (";" + "")));
      assert l + (op + (rr + (";" + ""))) == l + op + rr + ";";
    }
  }

  /** AssignBase.format: the tuple `(lhs, op, rhs, ";")` formatted at the node's level. */
  lemma AssignFormatsAsTuple(k: AssignKind, lhs: Code, rhs: Code, level: nat)
    ensures FormatNode(AssignStatement(k, lhs, rhs), level)
         == FormatCode(Tuple([lhs, Str(AssignSymbol(k)), rhs, Str(";")]), level)
  {
    AssignTuple(lhs, AssignSymbol(k), rhs);
    TupleAtLevel([lhs, Str(AssignSymbol(k)), rhs, Str(";")], level);
    assert FormatNode(AssignStatement(k, lhs, rhs), level) == FormatOperator(AssignStatement(k, lhs, rhs), level);
  }

  /** The code a loop node builds: its header tuple, then `Block(body)` when there is a body. */
  function LoopCode(header: Code, body: Code): Code {
    if body.PyNone? then header else List([header, Node(Block(body, Str("{"), Str("}")))])
  }

  /** `[header, Block(body)]` joins the header line to the braced body. */
  lemma BlockAfterHeader(h: string, body: Code, level: nat)
    requires !body.PyNone?
    ensures (var x :- FormatCode(Node(Block(body, Str("{"), Str("}"))), level); Success(Join("\n", [h, x])))
         == WithBody(h, body, level)
  {
    var open := FormatStr("{", level);
    var close := FormatStr("}", level);
    assert FormatCode(Str("{"), level) == Success(open);
    assert FormatCode(Str("}"), level) == Success(close);
    assert FormatCode(Node(Block(body, Str("{"), Str("}"))), level) == FormatNode(Block(body, Str("{"), Str("}")), level);
    if FormatCode(body, level + 1).Success? {
      var b := FormatCode(body, level + 1).value;
      var x := Join("\n", [open, b, close]);
      assert [h, x][1..] == [x];
      assert [h, open, b, close][1..] == [open, b, close];
      assert Join("\n", [h, x]) == h + "\n" + x;
    }
  }

  /** The header and body of a loop, formatted as a list, give the header and the braced body. */
  lemma LoopCodeFormat(header: Code, body: Code, level: nat)
    ensures FormatCode(LoopCode(header, body), level)
         == (var h :- FormatCode(header, level); WithBody(h, body, level))
  {
    if !body.PyNone? {
      var block := Node(Block(body, Str("{"), Str("}")));
      FormatItemsCons(header, [block], level);
      FormatItemsCons(block, [], level);
      assert [header] + [block] == [header, block] && [block] + [] == [block];
      if FormatCode(header, level).Success? {
        var h := FormatCode(header, level).value;
        BlockAfterHeader(h, body, level);
        if FormatCode(block, level).Success? {
          var x := FormatCode(block, level).value;
          FormatItemsConsOk(block, [], level, x, []);
          assert [x] + [] == [x];
          FormatItemsConsOk(header, [block], level, h, [x]);
          assert [h] + [x] == [h, x];
        }
      }
    }
  }

  /** A tuple `(a, x, b)` between two strings, at level 0. */
  lemma WrapTuple(a: string, x: Code, b: string)
    ensures FormatCode(Tuple([Str(a), x, Str(b)]), 0)
         == (var u :- FormatCode(x, 0); Success(a + u + b))
  {
    var t0 := [Str(a), x, Str(b)];
    var t1 := [x, Str(b)];
    var t2 := [Str(b)];
    assert t0 == [Str(a)] + t1 && t1 == [x] + t2 && t2 == [Str(b)] + [];
    assert FormatCode(Tuple([]), 0) == Success("");
    TupleConsOk(Str(b), [], b, "");
    if FormatCode(x, 0).Failure? {
      TupleConsFails(x, t2);
      TupleConsFails(Str(a), t1);
    } else {
      var u := FormatCode(x, 0).value;
      TupleConsOk(x, t2, u, b + "");
      TupleConsOk(Str(a), t1, a, u + (b + ""));
      assert a + (u + (b + "")) == a + u + b;
    }
  }

  /** WhileLoop.format: `("while (", check, ")")`, then `Block(body)` when there is a body. */
  lemma WhileLoopFormatsAsSource(check: Code, body: Code, level: nat)
    ensures FormatNode(WhileLoop(check, body), level)
         == FormatCode(LoopCode(Tuple([Str("while ("), check, Str(")")]), body), level)
  {
    var header := [Str("while ("), check, Str(")")];
    WrapTuple("while (", check, ")");
    TupleAtLevel(header, level);
    LoopCodeFormat(Tuple(header), body, level);
    WhileLoopFormat(check, body, level);
    if FormatCode(check, 0).Success? {
      var c := FormatCode(check, 0).value;
      assert FormatCode(Tuple(header), level) == Success(FormatStr("while (" + c + ")", level));
    }
  }

  /** A WhileLoop formats its check at level 0, then the header and body. */
  lemma WhileLoopFormat(check: Code, body: Code, level: nat)
    ensures FormatNode(WhileLoop(check, body), level)
         == (var c :- FormatCode(check, 0); WithBody(FormatStr("while (" + c + ")", level), body, level))
  {
    assert FormatNode(WhileLoop(check, body), level) == FormatLoop(WhileLoop(check, body), level);
  }



  /** The tuple `(p, x, a, y, b, z, c)` built by nested appends, when its three items format. */
  lemma StrCodeTuple7Nested(p: string, x: Code, a: string, y: Code, b: string, z: Code, c: string,
                            u: string, v: string, w: string)
    requires FormatCode(x, 0) == Success(u) && FormatCode(y, 0) == Success(v) && FormatCode(z, 0) == Success(w)
    ensures FormatCode(Tuple([Str(p)] + ([x] + ([Str(a)] + ([y] + ([Str(b)] + ([z] + ([Str(c)] + []))))))), 0)
         == Success(p + (u + (a + (v + (b + (w + (c + "")))))))
  {
    assert FormatCode(Tuple([]), 0) == Success("");
    TupleConsOk(Str(c), [], c, "");
    TupleConsOk(z, [Str(c)] + [], w, c + "");
    TupleConsOk(Str(b), [z] + ([Str(c)] + []), b, w + (c + ""));
    TupleConsOk(y, [Str(b)] + ([z] + ([Str(c)] + [])), v, b + (w + (c + "")));
    TupleConsOk(Str(a), [y] + ([Str(b)] + ([z] + ([Str(c)] + []))), a, v + (b + (w + (c + ""))));
    TupleConsOk(x, [Str(a)] + ([y] + ([Str(b)] + ([z] + ([Str(c)] + [])))), u, a + (v + (b + (w + (c + "")))));
    TupleConsOk(Str(p), [x] + ([Str(a)] + ([y] + ([Str(b)] + ([z] + ([Str(c)] + []))))), p,
                u + (a + (v + (b + (w + (c + ""))))));
  }

  /** The tuple `(p, x, a, y, b, z, c)` when its three items format. */
  lemma StrCodeTuple7Ok(p: string, x: Code, a: string, y: Code, b: string, z: Code, c: string,
                        u: string, v: string, w: string)
    requires FormatCode(x, 0) == Success(u) && FormatCode(y, 0) == Success(v) && FormatCode(z, 0) == Success(w)
    ensures FormatCode(Tuple([Str(p), x, Str(a), y, Str(b), z, Str(c)]), 0) == Success(p + u + a + v + b + w + c)
  {
    StrCodeTuple7Nested(p, x, a, y, b, z, c, u, v, w);
    assert [Str(p), x, Str(a), y, Str(b), z, Str(c)]
        == [Str(p)] + ([x] + ([Str(a)] + ([y] + ([Str(b)] + ([z] + ([Str(c)] + []))))));
    Append7(p, u, a, v, b, w, c);
  }

  /** Seven strings appended from the right give the same text as appended from the left. */
  lemma Append7(p: string, u: string, a: string, v: string, b: string, w: string, c: string)
    ensures p + (u + (a + (v + (b + (w + (c + "")))))) == p + u + a + v + b + w + c
  {
  }

  /** The tuple `(p, x, a, y, b, z, c)` raises what the first of its three items that raises raises. */
  lemma StrCodeTuple7Fails(p: string, x: Code, a: string, y: Code, b: string, z: Code, c: string)
    requires FormatCode(x, 0).Failure? || FormatCode(y, 0).Failure? || FormatCode(z, 0).Failure?
    ensures FormatCode(Tuple([Str(p), x, Str(a), y, Str(b), z, Str(c)]), 0)
         == Failure(if FormatCode(x, 0).Failure? then FormatCode(x, 0).error
                    else if FormatCode(y, 0).Failure? then FormatCode(y, 0).error
                    else FormatCode(z, 0).error)
  {
    var t6 := [Str(c)] + [];
    var t5 := [z] + t6;
    var t4 := [Str(b)] + t5;
    var t3 := [y] + t4;
    var t2 := [Str(a)] + t3;
    var t1 := [x] + t2;
    if FormatCode(x, 0).Failure? {
      TupleConsFails(x, t2);
    } else if FormatCode(y, 0).Failure? {
      TupleConsFails(y, t4);
      TupleConsFails(Str(a), t3);
      TupleConsFails(x, t2);
    } else {
      TupleConsFails(z, t6);
      TupleConsFails(Str(b), t5);
      TupleConsFails(y, t4);
      TupleConsFails(Str(a), t3);
      TupleConsFails(x, t2);
    }
    TupleConsFails(Str(p), t1);
    assert [Str(p), x, Str(a), y, Str(b), z, Str(c)] == [Str(p)] + t1;
  }

  /**
   * ForLoop.format: `("for (", init, "; ", check, "; ", increment, ")")`,
   * then `Block(body)` when there is a body.
   */
  lemma ForLoopFormatsAsSource(init: Code, check: Code, increment: Code, body: Code, level: nat)
    ensures FormatNode(ForLoop(init, check, increment, body), level)
         == FormatCode(LoopCode(Tuple([Str("for ("), init, Str("; "), check, Str("; "), increment, Str(")")]), body), level)
  {
    var header := [Str("for ("), init, Str("; "), check, Str("; "), increment, Str(")")];
    if FormatCode(init, 0).Success? && FormatCode(check, 0).Success? && FormatCode(increment, 0).Success? {
      StrCodeTuple7Ok("for (", init, "; ", check, "; ", increment, ")",
                      FormatCode(init, 0).value, FormatCode(check, 0).value, FormatCode(increment, 0).value);
    } else {
      StrCodeTuple7Fails("for (", init, "; ", check, "; ", increment, ")");
    }
    TupleAtLevel(header, level);
    LoopCodeFormat(Tuple(header), body, level);
    ForLoopFormat(init, check, increment, body, level);
  }

  /**
   * ForRange(name, lower, upper, body) formats as the ForLoop with init
   * `("int ", name, " = ", lower)`, check `(name, " < ", upper)` and
   * increment `("++", name)`.
   */
  lemma ForRangeFormatsAsForLoop(name: Code, lower: Code, upper: Code, body: Code, level: nat)
    ensures FormatNode(ForRange(name, lower, upper, body), level)
         == FormatNode(ForLoop(Tuple([Str("int "), name, Str(" = "), lower]), Tuple([name, Str(" < "), upper]),
                               Tuple([Str("++"), name]), body), level)
  {
    var init := Tuple([Str("int "), name, Str(" = "), lower]);
    var check := Tuple([name, Str(" < "), upper]);
    var increment := Tuple([Str("++"), name]);
    FormatTuple4("int ", name, " = ", lower);
    FormatTuple3(name, " < ", upper);
    FormatTuple2("++", name);
    ForLoopFormat(init, check, increment, body, level);
    ForRangeFormat(name, lower, upper, body, level);
  }

  /** A ForLoop formats its init, check and increment at level 0, stopping at the first that raises. */
  lemma ForLoopFormat(init: Code, check: Code, increment: Code, body: Code, level: nat)
    ensures FormatNode(ForLoop(init, check, increment, body), level)
         == (var i :- FormatCode(init, 0); var c :- FormatCode(check, 0); var inc :- FormatCode(increment, 0);
             WithBody(FormatStr("for (" + i + "; " + c + "; " + inc + ")", level), body, level))
  {
    assert FormatNode(ForLoop(init, check, increment, body), level) == FormatLoop(ForLoop(init, check, increment, body), level);
  }

  /** A ForRange formats its name and bounds at level 0, stopping at the first that raises. */
  lemma ForRangeFormat(name: Code, lower: Code, upper: Code, body: Code, level: nat)
    ensures FormatNode(ForRange(name, lower, upper, body), level)
         == (var nn :- FormatCode(name, 0); var lo :- FormatCode(lower, 0); var up :- FormatCode(upper, 0);
             WithBody(FormatStr("for (" + ("int " + nn + " = " + lo) + "; " + (nn + " < " + up) + "; " + ("++" + nn) + ")", level),
                      body, level))
  {
    assert FormatNode(ForRange(name, lower, upper, body), level) == FormatLoop(ForRange(name, lower, upper, body), level);
  }

  lemma Concat1(a: string)
    ensures Concat([a]) == a
  {
    assert [a][1..] == [];
    assert Concat([a]) == a + "";
  }

  lemma Concat2(a: string, b: string)
    ensures Concat([a, b]) == a + b
  {
    assert [a, b][1..] == [b];
    Concat1(b);
  }

  lemma Concat3(a: string, b: string, c: string)
    ensures Concat([a, b, c]) == a + b + c
  {
    assert [a, b, c][1..] == [b, c];
    Concat2(b, c);
  }

  lemma Concat4(a: string, b: string, c: string, d: string)
    ensures Concat([a, b, c, d]) == a + b + c + d
  {
    assert [a, b, c, d][1..] == [b, c, d];
    Concat3(b, c, d);
  }

  /** With a plain name and bounds and no body, ForRange renders as `for (int n = lower; n < upper; ++n)`. */
  lemma ForRangeRendering(name: string, lower: string, upper: string)
    ensures FormatNode(ForRange(Str(name), Str(lower), Str(upper), PyNone), 0)
         == Success("for (int " + name + " = " + lower + "; " + name + " < " + upper + "; ++" + name + ")")
  {
    var n := ForRange(Str(name), Str(lower), Str(upper), PyNone);
    var header := "for (" + ("int " + name + " = " + lower) + "; " + (name + " < " + upper) + "; " + ("++" + name) + ")";
    assert FormatCode(Str(name), 0) == Success(name);
    assert FormatCode(Str(lower), 0) == Success(lower);
    assert FormatCode(Str(upper), 0) == Success(upper);
    assert FormatLoop(n, 0) == WithBody(FormatStr(header, 0), PyNone, 0);
    assert WithBody(FormatStr(header, 0), PyNone, 0) == Success(header);
    assert FormatNode(n, 0) == FormatLoop(n, 0);
    assert "for (" + ("int " + name + " = " + lower) == "for (int " + name + " = " + lower;
    var p := "for (int " + name + " = " + lower + "; ";
    assert p + (name + " < " + upper) == p + name + " < " + upper;
    var q := p + name + " < " + upper;
    assert q + "; " + ("++" + name) == q + "; ++" + name;
  }

  /** The `true` argument of a Conditional never reaches the output: both branches print the `false` value. */
  lemma ConditionalIgnoresTrueBranch(c: Code, t1: Code, t2: Code, f: Code, level: nat)
    ensures FormatNode(MakeConditional(c, t1, f), level) == FormatNode(MakeConditional(c, t2, f), level)
    ensures FormatCode(c, 0).Success? && FormatCode(f, 0).Success? ==>
      FormatNode(MakeConditional(c, t1, f), level)
        == Success(FormatStr(FormatCode(c, 0).value + " ? " + FormatCode(f, 0).value + " : " + FormatCode(f, 0).value, level))
  {
    var n := MakeConditional(c, t1, f);
    assert n == MakeConditional(c, t2, f) == Conditional(c, f, f);
    assert FormatNode(n, level) == FormatOperator(n, level);
  }
}
