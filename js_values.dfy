/** The JavaScript values the perinatal-workflow configuration observes, and the few
    pieces of the language's built-in behaviour it relies on: truthiness, `===`,
    numeric conversion for `<`/`>=`, `Number.parseInt`, `String.prototype.split`
    and `String.prototype.includes`.

    Numbers are integers: every number the modelled code computes is whole. */
module JsValues {

  datatype Option<+T> = None | Some(value: T)

  /** The outcome of code that may throw: a value, or the exception's description. */
  datatype Result<+T> = Ok(value: T) | Thrown(error: string)

  /** A submitted form's field tree: text leaves and named groups. */
  datatype FieldTree = Leaf(text: string) | Group(children: map<string, FieldTree>)

  /** A JavaScript value as far as the configuration observes one. `Tree` is an
      object read out of a report's field tree. */
  datatype Value =
    | Undefined
    | Null
    | Bool(b: bool)
    | Num(n: int)
    | NaN
    | Str(s: string)
    | Tree(children: map<string, FieldTree>)

  /** A number: the result of every arithmetic operation. */
  predicate IsNumber(v: Value) {
    v.Num? || v.NaN?
  }

  function FromTree(t: FieldTree): Value {
    match t
    case Leaf(s) => Str(s)
    case Group(m) => Tree(m)
  }

  /** JavaScript truthiness (`if (v)`, `!v`, `&&`, `||`). */
  predicate Truthy(v: Value) {
    match v
    case Undefined => false
    case Null => false
    case Bool(b) => b
    case Num(n) => n != 0
    case NaN => false
    case Str(s) => s != ""
    case Tree(_) => true
  }

  /** JavaScript `a || b`: the first operand when it is truthy, else the second. */
  function Or(a: Value, b: Value): Value {
    if Truthy(a) then a else b
  }

  /** JavaScript `===`. NaN equals nothing, not even itself; the model never compares
      two distinct objects, so trees compare by content. */
  predicate StrictEquals(a: Value, b: Value) {
    !a.NaN? && a == b
  }

  /** Numeric `+` on two numbers: NaN absorbs. */
  function AddNumbers(a: Value, b: Value): (r: Value)
    ensures IsNumber(r)
    ensures r.Num? <==> a.Num? && b.Num?
    ensures r.Num? ==> r.n == a.n + b.n
  {
    if a.Num? && b.Num? then Num(a.n + b.n) else NaN
  }

  // ---------------------------------------------------------------------------
  // Characters and digits

  /** The white space that `Number.parseInt` and `Number` skip. The Unicode space
      separators other than U+00A0 are not modelled. */
  predicate IsWhiteSpace(c: char) {
    c == ' ' || c == '\t' || c == '\n' || c == '\r' || c == '\U{B}' || c == '\U{C}'
    || c == '\U{A0}' || c == '\U{FEFF}' || c == '\U{2028}' || c == '\U{2029}'
  }

  predicate IsDecimalDigit(c: char) {
    '0' <= c <= '9'
  }

  /** The value of `c` as a digit in base `radix` (10 or 16), or -1 when it is none. */
  function DigitValue(c: char, radix: nat): (d: int)
    requires radix == 10 || radix == 16
    ensures -1 <= d < radix
    ensures radix == 10 ==> (d >= 0 <==> IsDecimalDigit(c))
  {
    if '0' <= c <= '9' then c as int - '0' as int
    else if radix == 16 && 'a' <= c <= 'f' then c as int - 'a' as int + 10
    else if radix == 16 && 'A' <= c <= 'F' then c as int - 'A' as int + 10
    else -1
  }

  predicate AllDigits(s: string, radix: nat)
    requires radix == 10 || radix == 16
  {
    forall i | 0 <= i < |s| :: DigitValue(s[i], radix) >= 0
  }

  /** The integer the digit string `s` denotes in base `radix`, most significant first. */
  function DigitsValue(s: string, radix: nat): nat
    requires radix == 10 || radix == 16
    requires AllDigits(s, radix)
  {
    if s == [] then 0
    else DigitsValue(s[..|s| - 1], radix) * radix + DigitValue(s[|s| - 1], radix)
  }

  /** The longest prefix of `s` made of base-`radix` digits. */
  function DigitPrefix(s: string, radix: nat): (p: string)
    requires radix == 10 || radix == 16
    ensures p <= s && AllDigits(p, radix)
    ensures |p| < |s| ==> DigitValue(s[|p|], radix) < 0
  {
    if s == [] || DigitValue(s[0], radix) < 0 then []
    else [s[0]] + DigitPrefix(s[1..], radix)
  }

  function TrimStart(s: string): (t: string)
    ensures |t| <= |s| && t == s[|s| - |t|..]
    ensures t != [] ==> !IsWhiteSpace(t[0])
  {
    if s != [] && IsWhiteSpace(s[0]) then TrimStart(s[1..]) else s
  }

  function TrimEnd(s: string): (t: string)
    ensures t <= s
    ensures t != [] ==> !IsWhiteSpace(t[|t| - 1])
  {
    if s != [] && IsWhiteSpace(s[|s| - 1]) then TrimEnd(s[..|s| - 1]) else s
  }

  // ---------------------------------------------------------------------------
  // Number formatting and parsing

  function DigitChar(d: nat): (c: char)
    requires d < 10
    ensures IsDecimalDigit(c) && DigitValue(c, 10) == d
  {
    ('0' as int + d) as char
  }

  /** The decimal text of a natural number, as a template literal prints it. */
  function NatToString(n: nat): (s: string)
    ensures s != [] && AllDigits(s, 10)
  {
    if n < 10 then [DigitChar(n)] else NatToString(n / 10) + [DigitChar(n % 10)]
  }

  /** The decimal text of an integer, as a template literal prints it. */
  function IntToString(i: int): string {
    if i < 0 then "-" + NatToString(-i) else NatToString(i)
  }

  /** `Number.parseInt(s)` without a radix: leading white space is skipped, one sign
      is read, a `0x`/`0X` prefix selects base 16, and the longest run of digits that
      follows is the value; no digit at all gives NaN. (Values beyond 2^53 lose no
      precision here, unlike in JavaScript.) */
  function ParseInt(s: string): (r: Value)
    ensures IsNumber(r)
  {
    var t := TrimStart(s);
    if t != [] && t[0] == '-' then Negate(ParseUnsigned(t[1..]))
    else if t != [] && t[0] == '+' then ParseUnsigned(t[1..])
    else ParseUnsigned(t)
  }

  /** The unsigned part of `Number.parseInt`: base 16 after `0x`/`0X`, else base 10. */
  function ParseUnsigned(u: string): (r: Value)
    ensures IsNumber(r)
  {
    if |u| >= 2 && u[0] == '0' && (u[1] == 'x' || u[1] == 'X') then ParseDigits(u[2..], 16)
    else ParseDigits(u, 10)
  }

  function ParseDigits(w: string, radix: nat): (r: Value)
    requires radix == 10 || radix == 16
    ensures IsNumber(r)
  {
    var digits := DigitPrefix(w, radix);
    if digits == [] then NaN else Num(DigitsValue(digits, radix))
  }

  /** Unary minus on a number. */
  function Negate(v: Value): (r: Value)
    requires IsNumber(v)
    ensures IsNumber(r)
  {
    if v.Num? then Num(-v.n) else NaN
  }

  /** `Number(s)` for a string, as `<`, `>=` and friends apply it when the other
      operand is a number: surrounding white space is ignored, the empty string is 0,
      a signed decimal integer or a `0x` hexadecimal integer is its value, and every
      other text is NaN (decimal fractions, exponents and `Infinity` are not modelled). */
  function StringToNumber(s: string): (r: Value)
    ensures IsNumber(r)
  {
    var t := TrimEnd(TrimStart(s));
    if t == [] then Num(0)
    else if |t| > 2 && t[0] == '0' && (t[1] == 'x' || t[1] == 'X') && AllDigits(t[2..], 16) then
      Num(DigitsValue(t[2..], 16))
    else
      var negative := t[0] == '-';
      var u := if t[0] == '-' || t[0] == '+' then t[1..] else t;
      if u != [] && AllDigits(u, 10) then
        var magnitude: int := DigitsValue(u, 10);
        Num(if negative then -magnitude else magnitude)
      else NaN
  }

  /** JavaScript's ToNumber, restricted to the values the model has. */
  function ToNumber(v: Value): (r: Value)
    ensures IsNumber(r)
  {
    match v
    case Undefined => NaN
    case Null => Num(0)
    case Bool(b) => Num(if b then 1 else 0)
    case Num(_) => v
    case NaN => NaN
    case Str(s) => StringToNumber(s)
    case Tree(_) => NaN
  }

  /** `v >= k` for a number literal `k`: false whenever `v` converts to NaN. */
  predicate AtLeast(v: Value, k: int) {
    var x := ToNumber(v);
    x.Num? && x.n >= k
  }

  /** `v < k` for a number literal `k`: false whenever `v` converts to NaN. */
  predicate Below(v: Value, k: int) {
    var x := ToNumber(v);
    x.Num? && x.n < k
  }

  /** `a > b` between two values that are not both strings. */
  predicate Greater(a: Value, b: Value) {
    var x, y := ToNumber(a), ToNumber(b);
    x.Num? && y.Num? && x.n > y.n
  }

  // ---------------------------------------------------------------------------
  // Strings

  /** `s.split(sep)` for a one-character separator: the empty string splits into one
      empty part, and a separator at either end yields an empty part there. */
  function Split(s: string, sep: char): (parts: seq<string>)
    ensures parts != []
    ensures forall i | 0 <= i < |parts| :: sep !in parts[i]
  {
    if s == [] then [""]
    else
      var rest := Split(s[1..], sep);
      if s[0] == sep then [""] + rest
      else [[s[0]] + rest[0]] + rest[1..]
  }

  /** `parts.join(sep)`. */
  function Join(parts: seq<string>, sep: char): string
    requires parts != []
  {
    if |parts| == 1 then parts[0] else parts[0] + [sep] + Join(parts[1..], sep)
  }

  /** Splitting loses nothing: joining the parts gives the text back. */
  lemma {:induction false} JoinSplit(s: string, sep: char)
    ensures Join(Split(s, sep), sep) == s
  {
    if s != [] {
      JoinSplit(s[1..], sep);
      var rest := Split(s[1..], sep);
      if s[0] != sep {
        if |rest| == 1 {
          assert Split(s, sep) == [[s[0]] + rest[0]];
        } else {
          var parts := Split(s, sep);
          assert parts[1..] == rest[1..];
          assert Join(rest, sep) == rest[0] + [sep] + Join(rest[1..], sep);
        }
      }
    }
  }

  /** And splitting recovers parts that do not contain the separator. */
  lemma {:induction false} SplitJoin(parts: seq<string>, sep: char)
    requires parts != []
    requires forall i | 0 <= i < |parts| :: sep !in parts[i]
    ensures Split(Join(parts, sep), sep) == parts
  {
    if |parts| == 1 {
      SplitNoSeparator(parts[0], sep);
    } else {
      SplitJoin(parts[1..], sep);
      SplitAfterPrefix(parts[0], sep, Join(parts[1..], sep));
      assert [parts[0]] + parts[1..] == parts;
    }
  }

  lemma {:induction false} SplitNoSeparator(s: string, sep: char)
    requires sep !in s
    ensures Split(s, sep) == [s]
  {
    if s != [] {
      SplitNoSeparator(s[1..], sep);
      assert [s[0]] + s[1..] == s;
    }
  }

  lemma {:induction false} SplitAfterPrefix(p: string, sep: char, rest: string)
    requires sep !in p
    ensures Split(p + [sep] + rest, sep) == [p] + Split(rest, sep)
  {
    if p == [] {
      assert p + [sep] + rest == [sep] + rest;
      assert ([sep] + rest)[1..] == rest;
    } else {
      var s := p + [sep] + rest;
      assert s[1..] == p[1..] + [sep] + rest;
      SplitAfterPrefix(p[1..], sep, rest);
      assert [p[0]] + p[1..] == p;
    }
  }

  /** `hay.includes(needle)`: `needle` occurs in `hay` as a contiguous piece. */
  predicate Contains(hay: string, needle: string)
    decreases |hay|
  {
    needle <= hay || (hay != [] && Contains(hay[1..], needle))
  }

  // ---------------------------------------------------------------------------
  // Round trips between the number text the configuration writes and the parsers

  lemma {:induction false} DigitsValueOfNatToString(n: nat)
    ensures DigitsValue(NatToString(n), 10) == n
  {
    var s := NatToString(n);
    if n >= 10 {
      DigitsValueOfNatToString(n / 10);
      assert s[..|s| - 1] == NatToString(n / 10);
    }
  }

  lemma {:induction false} DigitPrefixOfDigits(a: string, rest: string)
    requires AllDigits(a, 10)
    requires rest == [] || !IsDecimalDigit(rest[0])
    ensures DigitPrefix(a + rest, 10) == a
  {
    if a != [] {
      assert (a + rest)[1..] == a[1..] + rest;
      DigitPrefixOfDigits(a[1..], rest);
      assert [a[0]] + a[1..] == a;
    }
  }

  /** `Number.parseInt` reads back the number a template literal printed, whatever
      non-digit text follows it (the interval notation `'N:m'` is such a text). */
  lemma ParseIntOfNatText(n: nat, rest: string)
    requires rest == [] || (!IsDecimalDigit(rest[0]) && rest[0] != 'x' && rest[0] != 'X')
    ensures ParseInt(NatToString(n) + rest) == Num(n)
  {
    ParseIntOfDigits(NatToString(n), rest);
    DigitsValueOfNatToString(n);
  }

  lemma ParseIntOfDigits(a: string, rest: string)
    requires a != [] && AllDigits(a, 10)
    requires rest == [] || (!IsDecimalDigit(rest[0]) && rest[0] != 'x' && rest[0] != 'X')
    ensures ParseInt(a + rest) == Num(DigitsValue(a, 10))
  {
    var s := a + rest;
    assert s[0] == a[0];
    assert IsDecimalDigit(s[0]) by {
      assert DigitValue(a[0], 10) >= 0;
    }
    TrimStartOfNonSpace(s);
    assert !(|s| >= 2 && s[0] == '0' && (s[1] == 'x' || s[1] == 'X')) by {
      if |s| >= 2 {
        if |a| >= 2 {
          assert s[1] == a[1] && DigitValue(a[1], 10) >= 0;
        } else {
          assert s[1] == rest[0];
        }
      }
    }
    assert ParseUnsigned(s) == ParseDigits(s, 10);
    DigitPrefixOfDigits(a, rest);
  }

  lemma TrimStartOfNonSpace(s: string)
    requires s != [] && IsDecimalDigit(s[0])
    ensures TrimStart(s) == s
  {
  }

  /** Distinct numbers print differently, so identifiers built from them are distinct. */
  lemma NatToStringInjective(a: nat, b: nat)
    requires NatToString(a) == NatToString(b)
    ensures a == b
  {
    DigitsValueOfNatToString(a);
    DigitsValueOfNatToString(b);
  }
}
