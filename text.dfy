/**
 * The Python string built-ins the modelled code relies on: `str.split` on one
 * separator character, `str.join`, `str.rstrip()`, `' ' * n`, `str(int)` /
 * `"%d" % n`, and `str(list_of_str)` (the `repr` of each item between brackets).
 */
module Text {

  /** `s.split(c)` for a single separator character: never empty, no part holds `c`. */
  function Split(s: string, c: char): (parts: seq<string>)
    ensures |parts| >= 1
    ensures forall i :: 0 <= i < |parts| ==> c !in parts[i]
    decreases |s|
  {
    if |s| == 0 then [""]
    else
      var rest := Split(s[1..], c);
      if s[0] == c then [""] + rest
      else [[s[0]] + rest[0]] + rest[1..]
  }

  /** `sep.join(parts)`. */
  function Join(sep: string, parts: seq<string>): string
    decreases |parts|
  {
    if |parts| == 0 then ""
    else if |parts| == 1 then parts[0]
    else parts[0] + sep + Join(sep, parts[1..])
  }

  /** `''.join(parts)`. */
  function Concat(parts: seq<string>): string
    decreases |parts|
  {
    if |parts| == 0 then "" else parts[0] + Concat(parts[1..])
  }

  /** Joining the parts of a split gives back the original text. */
  lemma {:induction false} JoinSplit(s: string, c: char)
    ensures Join([c], Split(s, c)) == s
    decreases |s|
  {
    if |s| > 0 {
      var rest := Split(s[1..], c);
      JoinSplit(s[1..], c);
      if s[0] == c {
        assert Split(s, c) == [""] + rest;
        assert s == [c] + s[1..];
      } else {
        var parts := Split(s, c);
        assert parts == [[s[0]] + rest[0]] + rest[1..];
        if |rest| == 1 {
          assert Join([c], parts) == [s[0]] + rest[0];
        } else {
          assert parts[1..] == rest[1..];
          assert Join([c], rest) == rest[0] + [c] + Join([c], rest[1..]);
        }
        assert s == [s[0]] + s[1..];
      }
    }
  }

  /** Splitting a text that starts with a separator-free prefix `p`. */
  lemma {:induction false} SplitPrefix(p: string, t: string, c: char)
    requires c !in p
    ensures Split(p + t, c) == [p + Split(t, c)[0]] + Split(t, c)[1..]
    decreases |p|
  {
    if |p| > 0 {
      var parts := Split(t, c);
      assert (p + t)[1..] == p[1..] + t;
      assert (p + t)[0] == p[0] != c;
      SplitPrefix(p[1..], t, c);
      var rest := Split(p[1..] + t, c);
      assert rest == [p[1..] + parts[0]] + parts[1..];
      assert Split(p + t, c) == [[p[0]] + rest[0]] + rest[1..];
      assert [p[0]] + (p[1..] + parts[0]) == p + parts[0];
    } else {
      assert p + t == t;
      var parts := Split(t, c);
      assert p + parts[0] == parts[0];
      assert parts == [parts[0]] + parts[1..];
    }
  }

  /** Splitting a join of separator-free parts gives back the parts. */
  lemma {:induction false} SplitJoin(parts: seq<string>, c: char)
    requires |parts| >= 1
    requires forall i :: 0 <= i < |parts| ==> c !in parts[i]
    ensures Split(Join([c], parts), c) == parts
    decreases |parts|
  {
    if |parts| == 1 {
      SplitPrefix(parts[0], "", c);
      assert parts[0] + "" == parts[0];
    } else {
      var tail := Join([c], parts[1..]);
      SplitJoin(parts[1..], c);
      assert Join([c], parts) == parts[0] + ([c] + tail);
      SplitPrefix(parts[0], [c] + tail, c);
      assert ([c] + tail)[1..] == tail;
      assert Split([c] + tail, c) == [""] + parts[1..];
      assert parts[0] + "" == parts[0];
      assert parts == [parts[0]] + parts[1..];
    }
  }

  /** Joining with a separator-free separator: a character absent from every part and from the separator is absent from the result. */
  lemma {:induction false} JoinAvoids(sep: string, parts: seq<string>, c: char)
    requires c !in sep
    requires forall i :: 0 <= i < |parts| ==> c !in parts[i]
    ensures c !in Join(sep, parts)
    decreases |parts|
  {
    if |parts| > 1 {
      JoinAvoids(sep, parts[1..], c);
    }
  }

  /** The lines `ls`, each followed by a line break, as successive `s += line + "\n"` build them. */
  function Terminated(ls: seq<string>): string
    decreases |ls|
  {
    if |ls| == 0 then "" else ls[0] + "\n" + Terminated(ls[1..])
  }

  /** Splitting line-terminated text gives back its lines, plus the empty text after the last break. */
  lemma {:induction false} SplitTerminated(ls: seq<string>)
    requires forall i :: 0 <= i < |ls| ==> '\n' !in ls[i]
    ensures Split(Terminated(ls), '\n') == ls + [""]
    decreases |ls|
  {
    if |ls| > 0 {
      var tail := Terminated(ls[1..]);
      var rest := Split(tail, '\n');
      assert rest == ls[1..] + [""] by {
        SplitTerminated(ls[1..]);
      }
      assert Split("\n" + tail, '\n') == [""] + rest by {
        assert ("\n" + tail)[1..] == tail;
      }
      assert Terminated(ls) == ls[0] + ("\n" + tail);
      assert Split(Terminated(ls), '\n') == [ls[0] + ""] + rest by {
        SplitPrefix(ls[0], "\n" + tail, '\n');
      }
      assert ls[0] + "" == ls[0];
      assert ls + [""] == [ls[0]] + (ls[1..] + [""]);
    }
  }

  /** `ch * n` for a one-character string `ch`. */
  function Repeat(ch: char, n: nat): (r: string)
    ensures |r| == n
    ensures forall i :: 0 <= i < n ==> r[i] == ch
  {
    seq(n, _ => ch)
  }

  /** The characters `str.isspace()` (and so `str.rstrip()`) treats as white space. */
  predicate IsSpace(ch: char) {
    var n := ch as int;
    (9 <= n <= 13) || (28 <= n <= 32) || n == 0x85 || n == 0xA0 || n == 0x1680
    || (0x2000 <= n <= 0x200A) || n == 0x2028 || n == 0x2029 || n == 0x202F
    || n == 0x205F || n == 0x3000
  }

  /** `s.rstrip()`: the longest prefix of `s` that does not end in white space. */
  function RStrip(s: string): (r: string)
    ensures |r| <= |s| && r == s[..|r|]
    ensures r == "" || !IsSpace(r[|r| - 1])
    ensures forall i :: |r| <= i < |s| ==> IsSpace(s[i])
    decreases |s|
  {
    if |s| > 0 && IsSpace(s[|s| - 1]) then RStrip(s[..|s| - 1]) else s
  }

  function DigitChar(d: nat): (ch: char)
    requires d < 10
  {
    "0123456789"[d]
  }

  /** The decimal digits of `n`, as `str(n)` writes them. */
  function NatToString(n: nat): (r: string)
    ensures |r| >= 1
    ensures forall i :: 0 <= i < |r| ==> '0' <= r[i] <= '9'
  {
    if n < 10 then [DigitChar(n)] else NatToString(n / 10) + [DigitChar(n % 10)]
  }

  /** `str(i)` and `"%d" % i`: a minus sign for negative numbers, then the digits. */
  function IntToString(i: int): (r: string)
    ensures |r| >= 1
    ensures '\n' !in r
    ensures i >= 0 <==> r[0] != '-'
  {
    if i < 0 then "-" + NatToString(-i) else NatToString(i)
  }

  function HexDigit(d: nat): char
    requires d < 16
  {
    "0123456789abcdef"[d]
  }

  /** Characters `repr` writes as a `\xNN` escape (ASCII and Latin-1 controls, no-break space, soft hyphen). */
  predicate HexEscaped(ch: char) {
    var n := ch as int;
    n < 32 || (0x7F <= n <= 0xA0) || n == 0xAD
  }

  /** One character of a `repr` body, quoted with `quote`. */
  function EscapeChar(ch: char, quote: char): (r: string)
    requires quote in {'\'', '"'}
    ensures |r| >= 1 && '\n' !in r
  {
    if ch == quote || ch == '\\' then ['\\', ch]
    else if ch == '\t' then "\\t"
    else if ch == '\n' then "\\n"
    else if ch == '\r' then "\\r"
    else if HexEscaped(ch) then
      var n := ch as int;
      ['\\', 'x', HexDigit(n / 16), HexDigit(n % 16)]
    else [ch]
  }

  function EscapeBody(s: string, quote: char): (r: string)
    requires quote in {'\'', '"'}
    ensures '\n' !in r
  {
    if |s| == 0 then "" else EscapeChar(s[0], quote) + EscapeBody(s[1..], quote)
  }

  /**
   * `repr(s)`: single quotes unless `s` holds a single quote and no double
   * quote, with backslash escapes for the quote, the backslash and control
   * characters. The result never holds a line break.
   */
  function Repr(s: string): (r: string)
    ensures |r| >= 2 && '\n' !in r
    ensures r[0] == r[|r| - 1] && r[0] in {'\'', '"'}
  {
    var quote := if '\'' in s && '"' !in s then '"' else '\'';
    [quote] + EscapeBody(s, quote) + [quote]
  }

  /** `str(xs)` for a list of strings: `[` then the items' `repr`s joined by `, ` then `]`. */
  function ListRepr(xs: seq<string>): (r: string)
    ensures '\n' !in r
    ensures |r| >= 2 && r[0] == '[' && r[|r| - 1] == ']'
  {
    var items := seq(|xs|, i requires 0 <= i < |xs| => Repr(xs[i]));
    JoinAvoids(", ", items, '\n');
    "[" + Join(", ", items) + "]"
  }
}
