/** The JavaScript built-ins the modelled server and client code rely on:
    values as `JSON.parse` yields them, truthiness, numeric coercion,
    `Math.round`, integer-to-text conversion, `parseInt`, and `Array.join` /
    `String.split` on a single separator character. */
module Js {
  import opened Wrappers

  /** A value as `JSON.parse` produces it, plus `Undefined` for a property
      that is missing. `Text` carries, beside the string, the number that
      JavaScript's `Number(s)` gives for it (`None` for NaN); the model does
      not parse numeric text itself. */
  datatype JsValue =
    | Undefined
    | Null
    | Bool(b: bool)
    | Number(x: real)
    | Text(s: string, numeric: Option<real>)
    | Array(items: seq<JsValue>)
    | Object(fields: map<string, JsValue>)

  /** JavaScript truthiness (NaN cannot come out of `JSON.parse`). */
  predicate Truthy(v: JsValue) {
    match v
    case Undefined => false
    case Null => false
    case Bool(b) => b
    case Number(x) => x != 0.0
    case Text(s, _) => s != ""
    case Array(_) => true
    case Object(_) => true
  }

  /** `Number(v)`, the coercion behind `Math.min`, `Math.round` and `v >= 1`;
      `None` stands for NaN. An array converts through its text: `[]` is 0,
      a one-element array converts as its element's text, longer ones hold a
      comma and are NaN. */
  function ToNumeric(v: JsValue): Option<real>
    decreases v, 0
  {
    match v
    case Undefined => None
    case Null => Some(0.0)
    case Bool(b) => Some(if b then 1.0 else 0.0)
    case Number(x) => Some(x)
    case Text(s, n) => if s == "" then Some(0.0) else n
    case Array(items) =>
      if |items| == 0 then Some(0.0)
      else if |items| == 1 then ElementNumeric(items[0])
      else None
    case Object(_) => None
  }

  /** `Number(String(v))` for the single element of an array: `null` and
      `undefined` print as the empty text, booleans as words. */
  function ElementNumeric(v: JsValue): Option<real>
    decreases v, 1
  {
    match v
    case Undefined => Some(0.0)
    case Null => Some(0.0)
    case Bool(_) => None
    case _ => ToNumeric(v)
  }

  /** `v.key`: reading a property of `null` or `undefined` throws a
      TypeError (`None`); any other value answers, with `undefined` for a
      key it does not have (no parsed value but an object has the keys
      read here). */
  function Get(v: JsValue, key: string): (r: Option<JsValue>)
    ensures r.None? <==> v.Undefined? || v.Null?
    ensures v.Object? && key in v.fields ==> r == Some(v.fields[key])
    ensures !(v.Object? && key in v.fields) && r.Some? ==> r == Some(Undefined)
  {
    match v
    case Undefined => None
    case Null => None
    case Object(fields) => Some(if key in fields then fields[key] else Undefined)
    case _ => Some(Undefined)
  }

  /** `Math.round`: the nearest integer, halves rounded up. */
  function RoundHalfUp(x: real): (n: int)
    ensures n as real - 0.5 <= x < n as real + 0.5
  {
    (x + 0.5).Floor
  }

  // ---------------------------------------------------------------------
  // Integer to decimal text (`String(n)` / template literals)

  predicate IsDecimalDigit(c: char) {
    '0' <= c <= '9'
  }

  function DigitChar(d: int): (c: char)
    requires 0 <= d < 10
    ensures IsDecimalDigit(c) && DigitValue(c, 10) == Some(d)
  {
    ('0' as int + d) as char
  }

  /** The decimal digits of `n`, without leading zeros. */
  function DecimalDigits(n: nat): (s: string)
    ensures |s| >= 1
    ensures forall i :: 0 <= i < |s| ==> IsDecimalDigit(s[i])
    ensures n < 10 <==> |s| == 1
    ensures s[0] == '0' <==> n == 0
  {
    if n < 10 then [DigitChar(n)] else DecimalDigits(n / 10) + [DigitChar(n % 10)]
  }

  /** The text JavaScript prints for the integer-valued number `n`. */
  function IntText(n: int): (s: string)
    ensures |s| >= 1
    ensures forall i :: 0 <= i < |s| ==> IsDecimalDigit(s[i]) || s[i] == '-'
    ensures s[0] == '-' <==> n < 0
    ensures s[0] == '0' <==> n == 0
    ensures n == 0 <==> s == "0"
    ensures n < 0 ==> |s| >= 2 && s[1] != '0'
  {
    if n < 0 then "-" + DecimalDigits(-n) else DecimalDigits(n)
  }

  // ---------------------------------------------------------------------
  // parseInt(text) with no radix argument

  /** The characters `parseInt` skips at the start of its input: the
      ECMAScript white space (including every Unicode space separator) and
      line terminators. */
  predicate IsJsSpace(c: char) {
    || c == '\t' || c == '\n' || c == '\U{B}' || c == '\U{C}' || c == '\r'
    || c == ' ' || c == '\U{A0}' || c == '\U{1680}' || ('\U{2000}' <= c <= '\U{200A}')
    || c == '\U{2028}' || c == '\U{2029}' || c == '\U{202F}' || c == '\U{205F}'
    || c == '\U{3000}' || c == '\U{FEFF}'
  }

  function TrimStart(s: string): (t: string)
    ensures |t| <= |s| && t == s[|s| - |t|..]
    ensures t == [] || !IsJsSpace(t[0])
  {
    if s != [] && IsJsSpace(s[0]) then TrimStart(s[1..]) else s
  }

  /** The value of `c` as a digit in base `radix`, if it is one. */
  function DigitValue(c: char, radix: int): (d: Option<int>)
    ensures d.Some? ==> 0 <= d.value < radix
  {
    var v :=
      if '0' <= c <= '9' then c as int - '0' as int
      else if 'a' <= c <= 'z' then c as int - 'a' as int + 10
      else if 'A' <= c <= 'Z' then c as int - 'A' as int + 10
      else 36;
    if v < radix then Some(v) else None
  }

  /** The length of the longest prefix of `s` made of base-`radix` digits. */
  function DigitRun(s: string, radix: int): (k: nat)
    ensures k <= |s|
    ensures forall i :: 0 <= i < k ==> DigitValue(s[i], radix).Some?
    ensures k < |s| ==> DigitValue(s[k], radix).None?
  {
    if s == [] || DigitValue(s[0], radix).None? then 0 else 1 + DigitRun(s[1..], radix)
  }

  /** The value of a digit character; 0 for any other character. */
  function DigitOf(c: char, radix: int): (d: nat)
    ensures DigitValue(c, radix).Some? ==> d == DigitValue(c, radix).value
  {
    match DigitValue(c, radix)
    case Some(v) => v
    case None => 0
  }

  /** The number the base-`radix` digits `s` denote (applied to digit runs
      only). */
  function DigitsValue(s: string, radix: nat): nat {
    if s == [] then 0
    else DigitsValue(s[..|s| - 1], radix) * radix + DigitOf(s[|s| - 1], radix)
  }

  /** `parseInt(s)`: skip leading white space, read an optional sign, then
      the digits; NaN (`None`) when there are none. Negative zero reads as 0. */
  function ParseInt(s: string): Option<int> {
    ParseSigned(TrimStart(s))
  }

  /** `parseInt` after the leading white space. */
  function ParseSigned(t: string): Option<int> {
    if t != [] && t[0] == '-' then
      var r := ParseUnsigned(t[1..]);
      if r.None? then None else Some(-(r.value as int))
    else if t != [] && t[0] == '+' then ParseUnsigned(t[1..])
    else ParseUnsigned(t)
  }

  /** Text that starts with anything but white space, a sign or a decimal
      digit parses to NaN. */
  lemma ParseIntNoDigit(s: string)
    requires s != [] && !IsJsSpace(s[0]) && s[0] != '-' && s[0] != '+' && !IsDecimalDigit(s[0])
    ensures ParseInt(s).None?
  {
    assert TrimStart(s) == s;
    assert DigitValue(s[0], 10).None?;
    assert DigitRun(s, 10) == 0;
  }

  /** The unsigned part of `parseInt`: base 16 after a `0x`/`0X` prefix,
      base 10 otherwise. */
  function ParseUnsigned(u: string): Option<nat> {
    if |u| >= 2 && u[0] == '0' && (u[1] == 'x' || u[1] == 'X') then LeadingDigits(u[2..], 16)
    else LeadingDigits(u, 10)
  }

  /** The value of the longest run of base-`radix` digits at the start of
      `s`; `None` when `s` does not start with a digit. */
  function LeadingDigits(s: string, radix: nat): Option<nat> {
    var k := DigitRun(s, radix);
    if k == 0 then None else Some(DigitsValue(s[..k], radix))
  }

  /** Every character `DecimalDigits` prints is a base-10 digit. */
  lemma DecimalDigitsAreDigits(n: nat)
    ensures forall i :: 0 <= i < |DecimalDigits(n)| ==> DigitValue(DecimalDigits(n)[i], 10).Some?
  {
    var s := DecimalDigits(n);
    forall i | 0 <= i < |s|
      ensures DigitValue(s[i], 10).Some?
    {
      assert IsDecimalDigit(s[i]);
    }
  }

  /** The digits `DecimalDigits` prints denote the number printed. */
  lemma {:induction false} DecimalDigitsValue(n: nat)
    ensures DigitsValue(DecimalDigits(n), 10) == n
  {
    var s := DecimalDigits(n);
    if n >= 10 {
      var q, r := n / 10, n % 10;
      DecimalDigitsValue(q);
      assert s == DecimalDigits(q) + [DigitChar(r)];
      assert s[..|s| - 1] == DecimalDigits(q);
      assert DigitOf(s[|s| - 1], 10) == r;
      assert n == q * 10 + r;
    } else {
      assert s[..0] == [];
      assert DigitOf(s[0], 10) == n;
    }
  }

  /** Reading back what `IntText` prints: `parseInt` recovers the integer,
      also when other text follows that does not continue the number (the
      `%` of a percentage, the ` minutes ago` of a relative date). Only `0`
      followed by `x` or `X` reads as the start of a hexadecimal number. */
  lemma {:induction false} ParseIntText(n: int, rest: string)
    requires rest == [] || (!IsDecimalDigit(rest[0]) && (n != 0 || (rest[0] != 'x' && rest[0] != 'X')))
    ensures ParseInt(IntText(n) + rest) == Some(n)
  {
    IntTextUntrimmed(n, rest);
    ParseUnsignedDigits(if n < 0 then -n else n, rest);
    if n < 0 {
      NegativeText(n, rest);
    } else {
      NonNegativeText(n, rest);
    }
  }

  lemma NegativeText(n: int, rest: string)
    requires n < 0
    requires ParseUnsigned(DecimalDigits(-n) + rest) == Some(-n)
    ensures ParseSigned(IntText(n) + rest) == Some(n)
  {
    var u := DecimalDigits(-n) + rest;
    assert IntText(n) + rest == "-" + u;
    ParseNegative(u);
  }

  lemma NonNegativeText(n: int, rest: string)
    requires n >= 0
    requires ParseUnsigned(DecimalDigits(n) + rest) == Some(n)
    ensures ParseSigned(IntText(n) + rest) == Some(n)
  {
    assert IntText(n) + rest == DecimalDigits(n) + rest;
    DecimalDigitsHead(n, rest);
  }

  lemma ParseNegative(u: string)
    ensures ParseSigned("-" + u) == if ParseUnsigned(u).None? then None else Some(-(ParseUnsigned(u).value as int))
  {
    assert ("-" + u)[1..] == u;
  }

  /** Decimal digits start with a digit, so neither a sign nor a space. */
  lemma DecimalDigitsHead(n: nat, rest: string)
    ensures (DecimalDigits(n) + rest)[0] != '-' && (DecimalDigits(n) + rest)[0] != '+'
    ensures !IsJsSpace((DecimalDigits(n) + rest)[0])
  {
    assert (DecimalDigits(n) + rest)[0] == DecimalDigits(n)[0];
  }

  lemma IntTextUntrimmed(n: int, rest: string)
    ensures TrimStart(IntText(n) + rest) == IntText(n) + rest
  {
    if n >= 0 {
      DecimalDigitsHead(n, rest);
    } else {
      assert (IntText(n) + rest)[0] == '-';
    }
  }

  lemma ParseUnsignedDigits(m: nat, rest: string)
    requires rest == [] || (!IsDecimalDigit(rest[0]) && (m != 0 || (rest[0] != 'x' && rest[0] != 'X')))
    ensures ParseUnsigned(DecimalDigits(m) + rest) == Some(m)
  {
    var d := DecimalDigits(m);
    var u := d + rest;
    DecimalDigitsAreDigits(m);
    DecimalDigitsValue(m);
    assert !(|u| >= 2 && u[0] == '0' && (u[1] == 'x' || u[1] == 'X')) by {
      if |u| >= 2 {
        if |d| >= 2 {
          assert u[1] == d[1];
        } else {
          assert u[1] == rest[0];
          if u[0] == '0' {
            assert m < 10 && d == [DigitChar(m)];
            assert DigitValue(u[0], 10) == Some(0);
          }
        }
      }
    }
    DigitRunOfDigits(d, rest, 10);
    assert u[..|d|] == d;
  }

  lemma {:induction false} DigitRunOfDigits(d: string, rest: string, radix: int)
    requires forall i :: 0 <= i < |d| ==> DigitValue(d[i], radix).Some?
    requires rest == [] || DigitValue(rest[0], radix).None?
    ensures DigitRun(d + rest, radix) == |d|
  {
    if d != [] {
      assert (d + rest)[1..] == d[1..] + rest;
      DigitRunOfDigits(d[1..], rest, radix);
    } else {
      assert d + rest == rest;
    }
  }

  // ---------------------------------------------------------------------
  // Array.join and String.split on one separator character

  /** `parts.join(sep)`. */
  function Join(parts: seq<string>, sep: char): string {
    if |parts| == 0 then ""
    else if |parts| == 1 then parts[0]
    else parts[0] + [sep] + Join(parts[1..], sep)
  }

  /** The index of the first `c` in `s`, or `|s|` when there is none. */
  function IndexOf(s: string, c: char): (i: nat)
    ensures i <= |s|
    ensures i < |s| ==> s[i] == c
    ensures forall j :: 0 <= j < i ==> s[j] != c
  {
    if s == [] then 0 else if s[0] == c then 0 else 1 + IndexOf(s[1..], c)
  }

  /** `s.split(sep)`: the pieces between separators; the empty text is one
      empty piece. */
  function Split(s: string, sep: char): (parts: seq<string>)
    ensures |parts| >= 1
    decreases |s|
  {
    var i := IndexOf(s, sep);
    if i == |s| then [s] else [s[..i]] + Split(s[i + 1..], sep)
  }

  /** Joining pieces that do not contain the separator and splitting the
      result gives the pieces back. */
  lemma {:induction false} SplitJoin(parts: seq<string>, sep: char)
    requires |parts| >= 1
    requires forall i :: 0 <= i < |parts| ==> sep !in parts[i]
    ensures Split(Join(parts, sep), sep) == parts
  {
    var p := parts[0];
    if |parts| == 1 {
      assert IndexOf(p, sep) == |p|;
    } else {
      var rest := Join(parts[1..], sep);
      var s := p + [sep] + rest;
      assert s[|p|] == sep;
      assert IndexOf(s, sep) == |p|;
      assert s[..|p|] == p;
      assert s[|p| + 1..] == rest;
      SplitJoin(parts[1..], sep);
    }
  }

  /** A character that no piece contains, and that is not the separator,
      does not occur in the joined text. */
  lemma {:induction false} JoinAvoids(parts: seq<string>, sep: char, c: char)
    requires c != sep
    requires forall i :: 0 <= i < |parts| ==> c !in parts[i]
    ensures c !in Join(parts, sep)
  {
    if |parts| > 1 {
      JoinAvoids(parts[1..], sep, c);
    }
  }
}
