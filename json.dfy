/** The JavaScript values the routes read out of parsed replies and
    database rows: truthiness and `||` defaults, property reads that throw on
    `null`, `String(v)` as a template literal renders it, and `parseInt`. */
module JsValue {
  import opened Wrappers
  import opened Text

  /** A JSON-like JavaScript value. Numbers are integers: no fractional
      number ever reaches the logic modelled here. */
  datatype Json =
    | Undefined
    | Null
    | Bool(b: bool)
    | Num(n: int)
    | Str(s: string)
    | Arr(items: seq<Json>)
    | Obj(fields: map<string, Json>)

  /** What `if (v)` and `v || d` test. */
  predicate Truthy(v: Json)
  {
    match v
    case Undefined => false
    case Null => false
    case Bool(b) => b
    case Num(n) => n != 0
    case Str(s) => s != ""
    case Arr(_) => true
    case Obj(_) => true
  }

  /** `a || b`. */
  function Or(a: Json, b: Json): Json
  {
    if Truthy(a) then a else b
  }

  /** `v || d` where the default is a string and the value is known to be a
      string when present. */
  function OrString(v: Option<string>, d: string): (r: string)
    ensures v.Some? && v.value != "" ==> r == v.value
    ensures (v.None? || v.value == "") ==> r == d
  {
    if v.Some? && v.value != "" then v.value else d
  }

  /** Reading `v.key`. `None` stands for the TypeError that `null` and
      `undefined` throw; any other value without that property reads as
      `undefined`. */
  function Get(v: Json, key: string): (r: Option<Json>)
    ensures r.None? <==> v.Undefined? || v.Null?
    ensures r.Some? && r.value != Undefined ==> v.Obj? && key in v.fields && r.value == v.fields[key]
  {
    match v
    case Undefined => None
    case Null => None
    case Obj(fields) => Some(if key in fields then fields[key] else Undefined)
    case _ => Some(Undefined)
  }

  predicate IsDigit(c: char)
  {
    '0' <= c <= '9'
  }

  function DigitChar(d: nat): (c: char)
    requires d < 10
    ensures IsDigit(c)
  {
    ('0' as int + d) as char
  }

  /** The decimal digits of `n`, most significant first, without leading
      zeros. */
  function Digits(n: nat): (s: string)
    ensures |s| >= 1
    ensures forall i :: 0 <= i < |s| ==> IsDigit(s[i])
    ensures |s| > 1 ==> s[0] != '0'
  {
    if n < 10 then [DigitChar(n)] else Digits(n / 10) + [DigitChar(n % 10)]
  }

  /** How JavaScript writes an integer: an optional minus sign and the
      digits. */
  function Decimal(n: int): (s: string)
    ensures s != [] && (IsDigit(s[0]) || s[0] == '-')
  {
    if n < 0 then "-" + Digits(-n) else Digits(n)
  }

  /** `String(v)`, as a template literal or `parseInt` renders a value:
      array elements joined by commas with `null`/`undefined` as empty. */
  function ToString(v: Json): string
  {
    match v
    case Undefined => "undefined"
    case Null => "null"
    case Bool(b) => if b then "true" else "false"
    case Num(n) => Decimal(n)
    case Str(s) => s
    case Arr(items) =>
      Join(seq(|items|, i requires 0 <= i < |items| =>
                 if items[i].Null? || items[i].Undefined? then "" else ToString(items[i])), ",")
    case Obj(_) => "[object Object]"
  }

  /** The value of a digit in base 10 or 16, if `c` is one. */
  function DigitValue(c: char, radix: nat): Option<nat>
  {
    if '0' <= c <= '9' then Some(c as int - '0' as int)
    else if radix == 16 && 'a' <= c <= 'f' then Some(c as int - 'a' as int + 10)
    else if radix == 16 && 'A' <= c <= 'F' then Some(c as int - 'A' as int + 10)
    else None
  }

  /** The longest prefix of `s` made of digits of the radix. */
  function DigitRun(s: string, radix: nat): (r: string)
    ensures |r| <= |s| && r == s[..|r|]
    ensures forall i :: 0 <= i < |r| ==> DigitValue(r[i], radix).Some?
  {
    if s != [] && DigitValue(s[0], radix).Some? then [s[0]] + DigitRun(s[1..], radix) else []
  }

  /** The number a run of digits denotes. */
  function RunValue(r: string, radix: nat): nat
    requires forall i :: 0 <= i < |r| ==> DigitValue(r[i], radix).Some?
  {
    if r == [] then 0
    else RunValue(r[..|r| - 1], radix) * radix + DigitValue(r[|r| - 1], radix).value
  }

  /** The unsigned part of `parseInt`: `0x`/`0X` switches to base 16, and
      the longest run of digits after that is the number; `None` when
      there are no digits. */
  function ParseUnsigned(u: string): (r: Option<nat>)
    ensures r.Some? ==> exists k :: 0 <= k < |u| && DigitValue(u[k], 16).Some?
  {
    var hex := |u| >= 2 && u[0] == '0' && (u[1] == 'x' || u[1] == 'X');
    var radix := if hex then 16 else 10;
    var body := if hex then u[2..] else u;
    var run := DigitRun(body, radix);
    if run == [] then None
    else
      assert u[|u| - |body|] == run[0];
      Some(RunValue(run, radix))
  }

  /** `parseInt(s)` with no radix: leading white space is skipped, one sign
      is read, and the rest is read by `ParseUnsigned`; `None` stands for
      `NaN` (no digits at all). */
  function ParseInt(s: string): (r: Option<int>)
    ensures r.Some? ==> exists k :: 0 <= k < |s| && DigitValue(s[k], 16).Some?
  {
    var t := TrimStart(s);
    var negative := t != [] && t[0] == '-';
    var u := if t != [] && (t[0] == '-' || t[0] == '+') then t[1..] else t;
    match ParseUnsigned(u)
    case None => None
    case Some(v) =>
      assert u == s[|s| - |u|..];
      var value: int := v;
      Some(if negative then -value else value)
  }

  /** Text that starts with neither white space, a sign nor a digit is
      `NaN` to `parseInt`. */
  lemma ParseIntNoDigit(s: string)
    requires s != [] && !IsSpace(s[0]) && s[0] != '-' && s[0] != '+' && !IsDigit(s[0])
    ensures ParseInt(s) == None
  {
    assert TrimStart(s) == s;
    assert DigitRun(s, 10) == [];
  }

  lemma {:induction false} DigitsValue(n: nat)
    ensures RunValue(Digits(n), 10) == n
  {
    if n >= 10 {
      var d := Digits(n);
      DigitsValue(n / 10);
      assert d[..|d| - 1] == Digits(n / 10);
    }
  }

  lemma {:induction false} DigitRunAll(s: string, radix: nat)
    requires forall i :: 0 <= i < |s| ==> DigitValue(s[i], radix).Some?
    ensures DigitRun(s, radix) == s
  {
    if s != [] {
      DigitRunAll(s[1..], radix);
    }
  }

  /** `parseInt` reads back every integer `String` writes. */
  lemma ParseIntDecimal(n: int)
    ensures ParseInt(Decimal(n)) == Some(n)
  {
    var m: nat := if n < 0 then -n else n;
    var d := Digits(m);
    DigitRunAll(d, 10);
    DigitsValue(m);
    ParseUnsignedDigits(d, m);
    if n < 0 {
      ParseIntNegative(d, m);
    } else {
      ParseIntDigits(d, m);
    }
  }

  /** The digits of a natural number read as that number. */
  lemma ParseUnsignedDigits(d: string, m: nat)
    requires d == Digits(m) && DigitRun(d, 10) == d && RunValue(d, 10) == m
    ensures ParseUnsigned(d) == Some(m)
  {
    assert !(|d| >= 2 && d[0] == '0');
  }

  /** Without a sign or leading white space, `parseInt` reads what
      `ParseUnsigned` reads. */
  lemma ParseIntDigits(d: string, m: nat)
    requires ParseUnsigned(d) == Some(m)
    requires d != [] && !IsSpace(d[0]) && d[0] != '-' && d[0] != '+'
    ensures ParseInt(d) == Some(m)
  {
    TrimStartKeeps(d);
  }

  /** A minus sign before what `ParseUnsigned` reads negates it. */
  lemma ParseIntNegative(d: string, m: nat)
    requires ParseUnsigned(d) == Some(m)
    ensures ParseInt("-" + d) == Some(-(m as int))
  {
    var s := "-" + d;
    TrimStartKeeps(s);
    assert TrimStart(s)[1..] == d;
  }

  /** Text that does not start with white space is left as it is by
      `trimStart`. */
  lemma TrimStartKeeps(s: string)
    requires s != [] && !IsSpace(s[0])
    ensures TrimStart(s) == s
  {
  }
}
