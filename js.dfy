// JavaScript value semantics shared by the browser scripts and the route handlers:
// dynamic values, truthiness, `||`, property reads, shallow spread, `String(x)`,
// `parseInt` / `parseFloat` / `Number(x)`, strict and loose equality, and the
// browser's `localStorage` as a map of JSON items.
module Js {

  datatype Option<T> = None | Some(value: T)

  /** A JavaScript value. Objects are maps from property names to values;
      a property that is absent reads as `Undefined`. */
  datatype Value =
    | Undefined
    | Null
    | Bool(b: bool)
    | Num(n: real)
    | NaN
    | Str(s: string)
    | Arr(items: seq<Value>)
    | Obj(props: map<string, Value>)

  type Record = map<string, Value>

  /** JavaScript truthiness: `false`, `0`, `NaN`, `""`, `null` and `undefined` are falsy. */
  predicate Truthy(v: Value) {
    match v
    case Undefined => false
    case Null => false
    case Bool(b) => b
    case Num(n) => n != 0.0
    case NaN => false
    case Str(s) => s != ""
    case Arr(_) => true
    case Obj(_) => true
  }

  /** `a || b`: the left operand when it is truthy, otherwise the right one. */
  function Or(a: Value, b: Value): Value {
    if Truthy(a) then a else b
  }

  /** `v.key`. Reading a property of a non-object yields `undefined`. */
  function Get(v: Value, key: string): Value {
    if v.Obj? && key in v.props then v.props[key] else Undefined
  }

  /** The own properties copied by `{...v}`. */
  function Props(v: Value): Record {
    if v.Obj? then v.props else map[]
  }

  /** `v.key = x` on an object (a no-op on a primitive, as in sloppy-mode scripts). */
  function Set(v: Value, key: string, x: Value): Value {
    if v.Obj? then Obj(v.props[key := x]) else v
  }

  function Items(v: Value): seq<Value> {
    if v.Arr? then v.items else []
  }

  /** `v && v.length > 0` for an array or a string. */
  predicate NonEmptyList(v: Value) {
    (v.Arr? && |v.items| > 0) || (v.Str? && |v.s| > 0)
  }

  // ---------------------------------------------------------------- strings

  /** The white space `trim`, `parseInt` and `parseFloat` skip: the ASCII blanks,
      the line terminators, the byte-order mark and the space separators of Unicode. */
  predicate IsSpace(c: char) {
    c == ' ' || c == '\t' || c == '\n' || c == '\r' || c == '\U{B}' || c == '\U{C}'
    || c == '\U{A0}' || c == '\U{1680}' || ('\U{2000}' <= c <= '\U{200A}')
    || c == '\U{2028}' || c == '\U{2029}' || c == '\U{202F}' || c == '\U{205F}'
    || c == '\U{3000}' || c == '\U{FEFF}'
  }

  function TrimStart(s: string): (r: string)
    ensures |r| <= |s|
  {
    if |s| > 0 && IsSpace(s[0]) then TrimStart(s[1..]) else s
  }

  /** `trimStart` drops exactly the white space at the front. */
  lemma {:induction false} TrimStartMeaning(s: string)
    ensures var r := TrimStart(s);
      && r == s[|s| - |r|..]
      && (r == [] || !IsSpace(r[0]))
      && forall i :: 0 <= i < |s| - |r| ==> IsSpace(s[i])
  {
    if |s| > 0 && IsSpace(s[0]) {
      TrimStartMeaning(s[1..]);
    }
  }

  function TrimEnd(s: string): (r: string)
    ensures |r| <= |s|
  {
    if |s| > 0 && IsSpace(s[|s| - 1]) then TrimEnd(s[..|s| - 1]) else s
  }

  /** `trimEnd` drops exactly the white space at the back. */
  lemma {:induction false} TrimEndMeaning(s: string)
    ensures var r := TrimEnd(s);
      && r == s[..|r|]
      && (r == [] || !IsSpace(r[|r| - 1]))
      && forall i :: |r| <= i < |s| ==> IsSpace(s[i])
  {
    if |s| > 0 && IsSpace(s[|s| - 1]) {
      TrimEndMeaning(s[..|s| - 1]);
    }
  }

  /** `s.trim()`. */
  function Trim(s: string): string {
    TrimEnd(TrimStart(s))
  }

  predicate StartsWith(s: string, p: string) {
    |p| <= |s| && s[..|p|] == p
  }

  predicate EndsWith(s: string, p: string) {
    |p| <= |s| && s[|s| - |p|..] == p
  }

  /** `s.includes(p)`. */
  predicate Contains(s: string, p: string)
    decreases |s|
  {
    StartsWith(s, p) || (|s| > 0 && Contains(s[1..], p))
  }

  /** A string starting with `p` also contains `p`. */
  lemma StartsWithContains(s: string, p: string)
    requires StartsWith(s, p)
    ensures Contains(s, p)
  {
  }

  /** A string contains every substring of each of its suffixes. */
  lemma {:induction false} SuffixContains(s: string, k: nat, p: string)
    requires k <= |s| && Contains(s[k..], p)
    ensures Contains(s, p)
    decreases k
  {
    if k > 0 {
      assert s[1..][k - 1..] == s[k..];
      SuffixContains(s[1..], k - 1, p);
    }
  }

  /** A string contains everything that one of its prefixes contains. */
  lemma {:induction false} PrefixContains(s: string, k: nat, p: string)
    requires k <= |s| && Contains(s[..k], p)
    ensures Contains(s, p)
    decreases k
  {
    if !StartsWith(s[..k], p) {
      assert s[..k][1..] == s[1..][..k - 1];
      PrefixContains(s[1..], k - 1, p);
    } else {
      assert s[..k][..|p|] == s[..|p|];
    }
  }

  /** `s.toLowerCase()` for the ASCII letters (other characters are left as they are). */
  function ToLower(s: string): (r: string)
    ensures |r| == |s|
  {
    if s == [] then []
    else [if 'A' <= s[0] <= 'Z' then (s[0] as int + 32) as char else s[0]] + ToLower(s[1..])
  }

  /** JavaScript's `<` on two strings: code-unit lexicographic order. */
  predicate StrLess(a: string, b: string) {
    if a == [] then b != []
    else if b == [] then false
    else if a[0] != b[0] then a[0] < b[0]
    else StrLess(a[1..], b[1..])
  }

  // ---------------------------------------------------------------- digits and numbers

  predicate IsDigit(c: char) { '0' <= c <= '9' }

  function DigitValue(c: char): nat { if IsDigit(c) then c as int - '0' as int else 0 }

  /** Length of the run of decimal digits at the start of `s`. */
  function DigitRun(s: string): (n: nat)
    ensures n <= |s|
  {
    if |s| > 0 && IsDigit(s[0]) then 1 + DigitRun(s[1..]) else 0
  }

  /** The run is made of digits and ends before the first non-digit. */
  lemma {:induction false} DigitRunMeaning(s: string)
    ensures forall i :: 0 <= i < DigitRun(s) ==> IsDigit(s[i])
    ensures DigitRun(s) < |s| ==> !IsDigit(s[DigitRun(s)])
  {
    if |s| > 0 && IsDigit(s[0]) {
      DigitRunMeaning(s[1..]);
    }
  }

  /** The value of a string of decimal digits. */
  function DigitsValue(d: string): nat {
    if d == [] then 0 else 10 * DigitsValue(d[..|d| - 1]) + DigitValue(d[|d| - 1])
  }

  /** The value of `0.d` for a string of decimal digits `d`. */
  function Fraction(d: string): (r: real)
    ensures 0.0 <= r <= 1.0
  {
    if d == [] then 0.0 else (DigitValue(d[0]) as real + Fraction(d[1..])) / 10.0
  }

  /** An optional leading sign: the multiplier and the remaining text. */
  function Sign(s: string): (r: (int, string))
    ensures r.0 == 1 || r.0 == -1
    ensures |r.1| <= |s|
  {
    if |s| > 0 && s[0] == '-' then (-1, s[1..])
    else if |s| > 0 && s[0] == '+' then (1, s[1..])
    else (1, s)
  }

  /** `parseInt(s)` with radix 10: leading white space, an optional sign,
      then the longest run of digits; `NaN` when there is no digit. */
  function ParseIntStr(s: string): (r: Value)
    ensures r.Num? || r.NaN?
    ensures r.Num? ==> r.n == r.n.Floor as real
  {
    var (sg, rest) := Sign(TrimStart(s));
    var n := DigitRun(rest);
    if n == 0 then NaN else Num((sg * DigitsValue(rest[..n])) as real)
  }

  /** `parseFloat(s)`: leading white space, an optional sign, digits with an
      optional fractional part; `NaN` when no digit is found. */
  function ParseFloatStr(s: string): (r: Value)
    ensures r.Num? || r.NaN?
  {
    var (sg, rest) := Sign(TrimStart(s));
    var a := DigitRun(rest);
    var hasPoint := a < |rest| && rest[a] == '.';
    var frac := if hasPoint then rest[a + 1..] else "";
    var b := DigitRun(frac);
    if a == 0 && b == 0 then NaN
    else
      var v := DigitsValue(rest[..a]) as real + Fraction(frac[..b]);
      Num(if sg < 0 then -v else v)
  }

  /** Whether `t` is, in full, a signed decimal literal with at least one digit. */
  predicate IsDecimalLiteral(t: string) {
    var rest := Sign(t).1;
    var a := DigitRun(rest);
    if a == |rest| then a > 0
    else rest[a] == '.' && DigitRun(rest[a + 1..]) == |rest| - a - 1 && (a > 0 || |rest| - a - 1 > 0)
  }

  /** `Number(s)`: the trimmed text must be a decimal literal in full; the empty string is 0. */
  function StringToNumber(s: string): (r: Value)
    ensures r.Num? || r.NaN?
  {
    var t := Trim(s);
    if t == "" then Num(0.0)
    else if IsDecimalLiteral(t) then ParseFloatStr(t)
    else NaN
  }

  /** The decimal digits of a natural number, most significant first. */
  function NatToString(n: nat): (r: string)
    ensures |r| > 0 && forall i :: 0 <= i < |r| ==> IsDigit(r[i])
  {
    var d := ['0' + (n % 10) as char];
    if n < 10 then d else NatToString(n / 10) + d
  }

  function IntToString(i: int): string {
    if i < 0 then "-" + NatToString(-i) else NatToString(i)
  }

  /** Digits of the fraction part, six places, trailing zeros dropped. */
  function StripZeros(d: string): string {
    if |d| > 0 && d[|d| - 1] == '0' then StripZeros(d[..|d| - 1]) else d
  }

  function PadTo6(d: string): string decreases 6 - |d| {
    if |d| >= 6 then d else PadTo6("0" + d)
  }

  /** `String(n)` for a finite number. Integers print exactly; a fraction prints
      with at most six decimal places. */
  function NumberToString(n: real): string {
    var sign := if n < 0.0 then "-" else "";
    var m := if n < 0.0 then -n else n;
    var whole := m.Floor;
    var micro := ((m - whole as real) * 1000000.0).Floor;
    if micro == 0 then (if whole == 0 then "0" else sign + NatToString(whole))
    else sign + NatToString(whole) + "." + StripZeros(PadTo6(NatToString(micro)))
  }

  /** `String(v)`. */
  function ToJsString(v: Value): string {
    match v
    case Undefined => "undefined"
    case Null => "null"
    case Bool(b) => if b then "true" else "false"
    case Num(n) => NumberToString(n)
    case NaN => "NaN"
    case Str(s) => s
    case Arr(items) => ArrayText(v, |items|)
    case Obj(_) => "[object Object]"
  }

  /** `String(array)` for the first `k` elements: joined by commas, `null` and `undefined` as empty. */
  function ArrayText(v: Value, k: nat): string
    requires v.Arr? && k <= |v.items|
    decreases v, k
  {
    if k == 0 then ""
    else
      var e := v.items[k - 1];
      var text := match e
        case Null => ""
        case Undefined => ""
        case Arr(items) => ArrayText(e, |items|)
        case _ => ToJsString(e);
      if k == 1 then text else ArrayText(v, k - 1) + "," + text
  }

  /** `parseInt(v)`: the argument is first converted with `String(v)`. */
  function ParseInt(v: Value): (r: Value)
    ensures r.Num? || r.NaN?
  {
    ParseIntStr(ToJsString(v))
  }

  /** `parseInt` yields an integer or `NaN`. */
  lemma ParseIntIntegral(v: Value)
    ensures ParseInt(v).Num? ==> ParseInt(v).n == ParseInt(v).n.Floor as real
  {
  }

  /** `parseFloat(v)`: the argument is first converted with `String(v)`. */
  function ParseFloat(v: Value): (r: Value)
    ensures r.Num? || r.NaN?
    ensures v.Num? ==> r == v
  {
    if v.Num? then v else ParseFloatStr(ToJsString(v))
  }

  /** `Number(v)` (the `ToNumber` conversion). */
  function ToNumber(v: Value): (r: Value)
    ensures r.Num? || r.NaN?
  {
    match v
    case Undefined => NaN
    case Null => Num(0.0)
    case Bool(b) => Num(if b then 1.0 else 0.0)
    case Num(_) => v
    case NaN => NaN
    case Str(s) => StringToNumber(s)
    case Arr(_) => StringToNumber(ArrayText(v, |v.items|))
    case Obj(_) => NaN
  }

  /** What `Number(v)` gives for each kind of value: `null` is 0, a boolean 0 or 1, a
      number itself, text its `Number` reading, and `undefined` or an object `NaN`. */
  lemma ToNumberCases(v: Value)
    ensures v.Null? ==> ToNumber(v) == Num(0.0)
    ensures v.Bool? ==> ToNumber(v) == Num(if v.b then 1.0 else 0.0)
    ensures v.Num? ==> ToNumber(v) == v
    ensures v.Undefined? || v.NaN? || v.Obj? ==> ToNumber(v) == NaN
    ensures v.Str? ==> ToNumber(v) == StringToNumber(v.s)
  {
  }

  /** `Math.min(a, b)` on numbers, `NaN` spreads. */
  function NumMin(a: Value, b: Value): Value {
    if a.Num? && b.Num? then Num(if a.n <= b.n then a.n else b.n) else NaN
  }

  /** `a >= b` (the abstract relational comparison). */
  predicate GreaterEq(a: Value, b: Value) {
    var pa := Primitive(a);
    var pb := Primitive(b);
    if pa.Str? && pb.Str? then !StrLess(pa.s, pb.s)
    else
      var x := ToNumber(pa);
      var y := ToNumber(pb);
      x.Num? && y.Num? && x.n >= y.n
  }

  /** `ToPrimitive(v)` as the operators apply it: arrays and objects become their text. */
  function Primitive(v: Value): (r: Value)
    ensures !r.Arr? && !r.Obj?
  {
    if v.Arr? then Str(ArrayText(v, |v.items|)) else if v.Obj? then Str("[object Object]") else v
  }

  /** `a + b`: string concatenation when either operand is (or converts to) a string,
      numeric addition otherwise. */
  function Add(a: Value, b: Value): (r: Value)
    ensures a.Num? && b.Num? ==> r == Num(a.n + b.n)
    ensures a.Str? || b.Str? ==> r.Str?
    ensures a.Str? ==> r == Str(a.s + ToJsString(Primitive(b)))
    ensures b.Str? ==> r == Str(ToJsString(Primitive(a)) + b.s)
  {
    var pa := Primitive(a);
    var pb := Primitive(b);
    if pa.Str? || pb.Str? then Str(ToJsString(pa) + ToJsString(pb))
    else
      var x := ToNumber(pa);
      var y := ToNumber(pb);
      if x.Num? && y.Num? then Num(x.n + y.n) else NaN
  }

  /** `a > b` (the abstract relational comparison; `NaN` compares false). */
  predicate Greater(a: Value, b: Value) {
    var pa := Primitive(a);
    var pb := Primitive(b);
    if pa.Str? && pb.Str? then StrLess(pb.s, pa.s)
    else
      var x := ToNumber(pa);
      var y := ToNumber(pb);
      x.Num? && y.Num? && x.n > y.n
  }

  /** `a === b`. Arrays and objects are compared by contents (the model has no object identity). */
  predicate StrictEq(a: Value, b: Value) {
    !a.NaN? && a == b
  }

  /** `a == b` (the abstract equality comparison) on primitives. */
  predicate LooseEq(a: Value, b: Value)
    decreases (if a.Bool? then 1 else 0) + (if b.Bool? then 1 else 0)
  {
    if (a.Undefined? || a.Null?) && (b.Undefined? || b.Null?) then true
    else if a.Undefined? || a.Null? || b.Undefined? || b.Null? then false
    else if a.Bool? then LooseEq(Num(if a.b then 1.0 else 0.0), b)
    else if b.Bool? then LooseEq(a, Num(if b.b then 1.0 else 0.0))
    else if (a.Num? || a.NaN?) && b.Str? then StrictEq(a, StringToNumber(b.s))
    else if a.Str? && (b.Num? || b.NaN?) then StrictEq(StringToNumber(a.s), b)
    else StrictEq(a, b)
  }

  /** `array.includes(x)` (SameValueZero: `NaN` finds `NaN`). */
  predicate Includes(s: seq<Value>, x: Value) {
    x in s
  }

  // ---------------------------------------------------------------- localStorage

  /** A localStorage item: the JSON text written by `JSON.stringify`, or text
      that `JSON.parse` rejects. */
  datatype Stored = Json(v: Value) | Malformed

  type Storage = map<string, Stored>

  /** `JSON.parse(localStorage.getItem(key) || fallback)`; `None` when the parse throws. */
  function ReadJson(st: Storage, key: string, fallback: Value): (r: Option<Value>)
    ensures key !in st ==> r == Some(fallback)
    ensures key in st && st[key].Malformed? ==> r == None
    ensures key in st && st[key].Json? ==> r == Some(st[key].v)
  {
    if key !in st then Some(fallback)
    else match st[key]
      case Json(v) => Some(v)
      case Malformed => None
  }

  // ---------------------------------------------------------------- facts

  /** `parseInt` agrees with the digits it reads: `parseInt(String(k))` is `k` for every integer. */
  lemma {:induction false} NatToStringDigits(n: nat)
    ensures DigitRun(NatToString(n)) == |NatToString(n)|
    ensures DigitsValue(NatToString(n)) == n
  {
    var d := ['0' + (n % 10) as char];
    DigitRunMeaning(NatToString(n));
    if n >= 10 {
      NatToStringDigits(n / 10);
      var s := NatToString(n / 10) + d;
      assert s[..|s| - 1] == NatToString(n / 10);
    }
  }

  /** `parseInt(String(i))` gives back the integer `i`. */
  lemma IntToStringRoundTrip(i: int)
    ensures ParseIntStr(IntToString(i)) == Num(i as real)
  {
    var m: nat := if i < 0 then -i else i;
    var digits := NatToString(m);
    NatToStringDigits(m);
    var t := IntToString(i);
    assert t[0] == '-' || IsDigit(t[0]);
    assert !IsSpace(t[0]);
    assert TrimStart(t) == t;
    var rest := if i < 0 then t[1..] else t;
    assert rest == digits;
    assert Sign(t) == (if i < 0 then -1 else 1, rest);
    assert rest[..DigitRun(rest)] == digits;
  }

  /** `String(i)` has no leading blank, an optional minus sign and then the digits of `|i|`. */
  lemma SignedDigits(i: int)
    ensures var m: nat := if i < 0 then -i else i;
      && TrimStart(IntToString(i)) == IntToString(i)
      && Sign(IntToString(i)) == (if i < 0 then -1 else 1, NatToString(m))
      && DigitRun(NatToString(m)) == |NatToString(m)|
      && DigitsValue(NatToString(m)) == m
  {
    var m: nat := if i < 0 then -i else i;
    NatToStringDigits(m);
    var t := IntToString(i);
    assert t[0] == '-' || IsDigit(t[0]);
    assert TrimStart(t) == t;
    var rest := if i < 0 then t[1..] else t;
    assert rest == NatToString(m);
  }

  /** `parseFloat(String(i))` gives back the integer `i`. */
  lemma ParseFloatIntString(i: int)
    ensures ParseFloatStr(IntToString(i)) == Num(i as real)
  {
    var m: nat := if i < 0 then -i else i;
    SignedDigits(i);
    var rest := NatToString(m);
    assert rest[..|rest|] == rest;
    assert Fraction("") == 0.0;
  }

  /** `Number(String(i))` gives back the integer `i`. */
  lemma StringToNumberIntString(i: int)
    ensures StringToNumber(IntToString(i)) == Num(i as real)
  {
    var m: nat := if i < 0 then -i else i;
    var t := IntToString(i);
    SignedDigits(i);
    assert TrimEnd(t) == t;
    assert IsDecimalLiteral(t);
    ParseFloatIntString(i);
  }

  /** `Number` of blank text is 0, and of text starting with a letter is `NaN`;
      `parseFloat` of such text is `NaN` too. */
  lemma NumberOfText(s: string)
    ensures Trim(s) == "" ==> StringToNumber(s) == Num(0.0)
    ensures |TrimStart(s)| > 0 && 'a' <= TrimStart(s)[0] <= 'z' ==> ParseFloatStr(s).NaN?
    ensures |TrimStart(s)| > 0 && 'a' <= TrimStart(s)[0] <= 'z' ==> StringToNumber(s).NaN?
  {
    if |TrimStart(s)| > 0 && 'a' <= TrimStart(s)[0] <= 'z' {
      TrimEndMeaning(TrimStart(s));
      var t := Trim(s);
      assert t[0] == TrimStart(s)[0];
      assert Sign(t).1 == t && DigitRun(t) == 0;
    }
  }

  /** A string whose first non-blank character is a letter (such as "true") is not an integer to `parseInt`. */
  lemma ParseIntLetter(s: string)
    requires |TrimStart(s)| > 0 && 'a' <= TrimStart(s)[0] <= 'z'
    ensures ParseIntStr(s).NaN?
  {
  }


}
