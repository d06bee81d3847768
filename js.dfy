/** JavaScript values as the frontend code sees them, with the coercions
    (truthiness, `typeof`, `Number(...)`, `String.prototype.trim`) that the
    modelled code relies on. Objects are plain JSON-like records; every other
    kind of object is lumped into `Exotic` (a Date, a Map, a class instance)
    or `Fn` (a function). */
module Js {
  import opened Text
  import opened Wrappers

  datatype JsValue =
    | Undefined
    | Null
    | Bool(b: bool)
    | Num(n: real)   // a finite number
    | NaN
    | Str(s: string)
    | Arr(items: seq<JsValue>)
    | Obj(props: map<string, JsValue>)
    | Exotic
    | Fn

  /** `!!v` */
  predicate Truthy(v: JsValue)
  {
    match v
    case Undefined => false
    case Null => false
    case Bool(b) => b
    case Num(n) => n != 0.0
    case NaN => false
    case Str(s) => s != ""
    case _ => true
  }

  function TypeOf(v: JsValue): string
  {
    match v
    case Undefined => "undefined"
    case Bool(_) => "boolean"
    case Num(_) => "number"
    case NaN => "number"
    case Str(_) => "string"
    case Fn => "function"
    case _ => "object"
  }

  predicate IsNullish(v: JsValue)
  {
    v.Undefined? || v.Null?
  }

  /** `obj[key]` on a non-nullish value: a missing own property reads as
      undefined. Inherited properties never lead to a value the modelled code
      accepts (a string, boolean or number), so they are not represented. */
  function Get(v: JsValue, key: string): JsValue
  {
    if v.Obj? && key in v.props then v.props[key] else Undefined
  }

  /** `a || b` */
  function Or(a: JsValue, b: JsValue): JsValue
  {
    if Truthy(a) then a else b
  }

  /** A truthy fallback makes `a || b` truthy whatever `a` is. */
  lemma OrTruthy(a: JsValue, b: JsValue)
    requires Truthy(b)
    ensures Truthy(Or(a, b))
  {
  }

  /** `a ?? b` */
  function Coalesce(a: JsValue, b: JsValue): JsValue
  {
    if IsNullish(a) then b else a
  }

  /** A fallback that is neither null nor undefined makes `a ?? b` defined. */
  lemma CoalesceDefined(a: JsValue, b: JsValue)
    requires !IsNullish(b)
    ensures !IsNullish(Coalesce(a, b))
  {
  }

  /** `v[k1] || v[k2] || ... || fallback` read as a list: the first of the
      named properties that is truthy, else the fallback. */
  function FirstTruthy(v: JsValue, keys: seq<string>, fallback: JsValue): JsValue
  {
    if keys == [] then fallback
    else if Truthy(Get(v, keys[0])) then Get(v, keys[0])
    else FirstTruthy(v, keys[1..], fallback)
  }

  /** The first truthy property wins; when none is truthy the fallback is
      taken. */
  lemma {:induction false} FirstTruthyPicks(v: JsValue, keys: seq<string>, fallback: JsValue, i: int)
    requires 0 <= i <= |keys|
    requires forall j :: 0 <= j < i ==> !Truthy(Get(v, keys[j]))
    requires i < |keys| ==> Truthy(Get(v, keys[i]))
    ensures FirstTruthy(v, keys, fallback) == if i < |keys| then Get(v, keys[i]) else fallback
  {
    if i > 0 {
      FirstTruthyPicks(v, keys[1..], fallback, i - 1);
    }
  }

  /** A chain of three `||` is the list reading of its three properties. */
  lemma FirstTruthyOfThree(v: JsValue, a: string, b: string, c: string, fallback: JsValue)
    ensures FirstTruthy(v, [a, b, c], fallback) == Or(Or(Or(Get(v, a), Get(v, b)), Get(v, c)), fallback)
  {
    assert [a, b, c][1..] == [b, c];
    FirstTruthyOfTwo(v, b, c, fallback);
  }

  /** A chain of two `||` is the list reading of its two properties. */
  lemma FirstTruthyOfTwo(v: JsValue, a: string, b: string, fallback: JsValue)
    ensures FirstTruthy(v, [a, b], fallback) == Or(Or(Get(v, a), Get(v, b)), fallback)
  {
    assert [a, b][1..] == [b];
    assert [b][1..] == [];
    assert FirstTruthy(v, [b], fallback) == Or(Get(v, b), fallback);
  }

  /** `v[k1] ?? v[k2] ?? ... ?? fallback` read as a list: the first of the
      named properties that is neither null nor undefined, else the
      fallback. */
  function FirstDefined(v: JsValue, keys: seq<string>, fallback: JsValue): JsValue
  {
    if keys == [] then fallback
    else if !IsNullish(Get(v, keys[0])) then Get(v, keys[0])
    else FirstDefined(v, keys[1..], fallback)
  }

  /** The first defined property wins; when every one is nullish the
      fallback is taken. */
  lemma {:induction false} FirstDefinedPicks(v: JsValue, keys: seq<string>, fallback: JsValue, i: int)
    requires 0 <= i <= |keys|
    requires forall j :: 0 <= j < i ==> IsNullish(Get(v, keys[j]))
    requires i < |keys| ==> !IsNullish(Get(v, keys[i]))
    ensures FirstDefined(v, keys, fallback) == if i < |keys| then Get(v, keys[i]) else fallback
  {
    if i > 0 {
      FirstDefinedPicks(v, keys[1..], fallback, i - 1);
    }
  }

  /** A chain of three `??` is the list reading of its three properties. */
  lemma FirstDefinedOfThree(v: JsValue, a: string, b: string, c: string, fallback: JsValue)
    ensures FirstDefined(v, [a, b, c], fallback) == Coalesce(Coalesce(Coalesce(Get(v, a), Get(v, b)), Get(v, c)), fallback)
  {
    assert [a, b, c][1..] == [b, c];
    assert [b, c][1..] == [c];
    assert [c][1..] == [];
    assert FirstDefined(v, [c], fallback) == Coalesce(Get(v, c), fallback);
    assert FirstDefined(v, [b, c], fallback) == Coalesce(Get(v, b), Coalesce(Get(v, c), fallback));
  }

  /** The characters `String.prototype.trim` removes: WhiteSpace and
      LineTerminator of ECMAScript (tab, vertical tab, form feed, the Unicode
      space separators, BOM, LF, CR, LS, PS). */
  predicate IsJsWhitespace(c: char)
  {
    c == '\t' || c == '\n' || c == '\U{000B}' || c == '\U{000C}' || c == '\r' ||
    c == ' ' || c == '\U{00A0}' || c == '\U{1680}' || ('\U{2000}' <= c <= '\U{200A}') ||
    c == '\U{2028}' || c == '\U{2029}' || c == '\U{202F}' || c == '\U{205F}' ||
    c == '\U{3000}' || c == '\U{FEFF}'
  }

  function TrimStart(s: string): (r: string)
    ensures |r| <= |s|
  {
    if s != [] && IsJsWhitespace(s[0]) then TrimStart(s[1..]) else s
  }

  function TrimEnd(s: string): (r: string)
    ensures |r| <= |s|
    ensures r != [] ==> !IsJsWhitespace(r[|r| - 1])
  {
    if s != [] && IsJsWhitespace(s[|s| - 1]) then TrimEnd(s[..|s| - 1]) else s
  }

  predicate AllWhitespace(s: string)
  {
    forall i :: 0 <= i < |s| ==> IsJsWhitespace(s[i])
  }

  /** `String.prototype.trim`: empty exactly for a string of white space
      only, and otherwise beginning and ending with a character that is not
      white space. */
  function Trim(s: string): (r: string)
    ensures |r| <= |s|
    ensures r == [] <==> AllWhitespace(s)
    ensures r != [] ==> !IsJsWhitespace(r[0]) && !IsJsWhitespace(r[|r| - 1])
  {
    TrimStartEmpty(s);
    if TrimStart(s) != [] then
      TrimEndKeepsNonWhitespaceHead(TrimStart(s));
      TrimEnd(TrimStart(s))
    else
      TrimEnd(TrimStart(s))
  }

  lemma {:induction false} TrimStartEmpty(s: string)
    ensures TrimStart(s) == [] <==> AllWhitespace(s)
    ensures TrimStart(s) != [] ==> !IsJsWhitespace(TrimStart(s)[0])
  {
    if s != [] && IsJsWhitespace(s[0]) {
      TrimStartEmpty(s[1..]);
      assert AllWhitespace(s) <==> AllWhitespace(s[1..]) by {
        if AllWhitespace(s[1..]) {
          forall i | 0 <= i < |s| ensures IsJsWhitespace(s[i]) {
            if i > 0 { assert s[i] == s[1..][i - 1]; }
          }
        }
      }
    }
  }

  lemma {:induction false} TrimEndKeepsNonWhitespaceHead(s: string)
    requires s != [] && !IsJsWhitespace(s[0])
    ensures TrimEnd(s) != [] && TrimEnd(s)[0] == s[0]
  {
    if IsJsWhitespace(s[|s| - 1]) {
      TrimEndKeepsNonWhitespaceHead(s[..|s| - 1]);
    }
  }

  predicate IsDigit(c: char)
  {
    '0' <= c <= '9'
  }

  predicate AllDigits(s: string)
  {
    forall i :: 0 <= i < |s| ==> IsDigit(s[i])
  }

  function DigitsValue(s: string): (n: nat)
    requires AllDigits(s)
  {
    if s == [] then 0
    else
      assert IsDigit(s[|s| - 1]);
      DigitsValue(s[..|s| - 1]) * 10 + (s[|s| - 1] as int - '0' as int)
  }

  function Pow10(n: nat): (r: nat)
    ensures r >= 1
  {
    if n == 0 then 1 else 10 * Pow10(n - 1)
  }

  /** The position of the first decimal point of `u`, or `|u|`. */
  function DotIndex(u: string): (k: nat)
    ensures k <= |u|
    ensures k < |u| ==> u[k] == '.'
    ensures forall j :: 0 <= j < k ==> u[j] != '.'
  {
    if u == [] || u[0] == '.' then 0 else 1 + DotIndex(u[1..])
  }

  /** The value of the decimal literal `ip.fp`. */
  function DecimalValue(ip: string, fp: string): real
    requires AllDigits(ip) && AllDigits(fp)
  {
    DigitsValue(ip) as real + DigitsValue(fp) as real / Pow10(|fp|) as real
  }

  /** Digits with at most one decimal point and at least one digit, read
      as their value. */
  function ReadUnsignedDecimal(u: string): Option<real>
  {
    var k := DotIndex(u);
    var ip := u[..k];
    var fp := if k < |u| then u[k + 1..] else [];
    if AllDigits(ip) && AllDigits(fp) && |ip| + |fp| > 0 then Some(DecimalValue(ip, fp)) else None
  }

  /** A trimmed, non-empty string read as a number: an optional sign, then
      an unsigned decimal literal. */
  function ReadDecimal(t: string): JsValue
    requires t != []
  {
    var u := if t[0] == '-' || t[0] == '+' then t[1..] else t;
    match ReadUnsignedDecimal(u)
    case None => NaN
    case Some(x) => Num(if t[0] == '-' then -x else x)
  }

  /** `Number(v)`. Strings are read after trimming: the empty string is 0
      and a signed decimal literal is its value; every other string is NaN
      here. */
  function ToNumber(v: JsValue): (r: JsValue)
    ensures r.Num? || r.NaN?
    ensures v.Str? && Trim(v.s) == [] ==> r == Num(0.0)
  {
    match v
    case Undefined => NaN
    case Null => Num(0.0)
    case Bool(b) => Num(if b then 1.0 else 0.0)
    case Num(n) => v
    case NaN => NaN
    case Str(s) =>
      var t := Trim(s);
      if t == [] then Num(0.0) else ReadDecimal(t)
    case _ => NaN
  }

  /** A string that starts and ends with a character other than white
      space is its own trim. */
  lemma TrimKeepsTight(s: string)
    requires s != [] && !IsJsWhitespace(s[0]) && !IsJsWhitespace(s[|s| - 1])
    ensures Trim(s) == s
  {
  }

  /** `Number` reads a string of digits as its value: `"7"` is 7. */
  lemma ToNumberReadsInteger(ip: string)
    requires AllDigits(ip) && ip != []
    ensures ToNumber(Str(ip)) == Num(DigitsValue(ip) as real)
  {
    ReadInteger(ip);
    assert !IsJsWhitespace(ip[0]) && !IsJsWhitespace(ip[|ip| - 1]);
    ToNumberOfTight(ip, DigitsValue(ip) as real);
  }

  /** `Number` reads a decimal literal with a fractional part: `"99.5"` is
      99.5 and `"12."` is 12. */
  lemma ToNumberReadsFraction(ip: string, fp: string)
    requires AllDigits(ip) && AllDigits(fp) && ip != []
    ensures ToNumber(Str(ip + "." + fp)) == Num(DecimalValue(ip, fp))
  {
    var u := ip + "." + fp;
    ReadUnsigned(ip, fp, u);
    LiteralIsTight(ip, fp, u);
    ToNumberOfTight(u, DecimalValue(ip, fp));
  }

  /** `Number` reads a negative decimal literal: `"-3.25"` is -3.25. */
  lemma ToNumberReadsNegative(ip: string, fp: string)
    requires AllDigits(ip) && AllDigits(fp) && ip != []
    ensures ToNumber(Str("-" + ip + "." + fp)) == Num(-DecimalValue(ip, fp))
  {
    ReadsNegativeLiteral(ip, fp, ip + "." + fp, "-" + (ip + "." + fp));
    SignFirst(ip, fp);
  }

  lemma ReadsNegativeLiteral(ip: string, fp: string, u: string, t: string)
    requires AllDigits(ip) && AllDigits(fp) && ip != []
    requires u == ip + "." + fp && t == "-" + u
    ensures ToNumber(Str(t)) == Num(-DecimalValue(ip, fp))
  {
    NegativeValue(ip, fp, u, t);
    LiteralIsTight(ip, fp, t);
    ToNumberOfTight(t, -DecimalValue(ip, fp));
  }

  lemma NegativeValue(ip: string, fp: string, u: string, t: string)
    requires AllDigits(ip) && AllDigits(fp) && ip != []
    requires u == ip + "." + fp && t == "-" + u
    ensures t != [] && ReadDecimal(t) == Num(-DecimalValue(ip, fp))
  {
    var x := DecimalValue(ip, fp);
    ReadUnsigned(ip, fp, u);
    assert u[0] == ip[0] && IsDigit(ip[0]);
    ReadNegative(u, t, x);
  }

  lemma SignFirst(ip: string, fp: string)
    ensures "-" + ip + "." + fp == "-" + (ip + "." + fp)
  {
  }

  /** A literal made of a sign or digits, a point and digits has no white
      space at either end. */
  lemma LiteralIsTight(ip: string, fp: string, t: string)
    requires AllDigits(ip) && AllDigits(fp) && ip != []
    requires t == "-" + (ip + "." + fp) || t == ip + "." + fp
    ensures t != [] && !IsJsWhitespace(t[0]) && !IsJsWhitespace(t[|t| - 1])
  {
    assert t[0] == '-' || t[0] == ip[0];
    if fp == [] {
      assert t[|t| - 1] == '.';
    } else {
      assert t[|t| - 1] == fp[|fp| - 1];
    }
  }

  /** A string without white space at either end is read as it stands. */
  lemma ToNumberOfTight(s: string, x: real)
    requires s != [] && !IsJsWhitespace(s[0]) && !IsJsWhitespace(s[|s| - 1])
    requires ReadDecimal(s) == Num(x)
    ensures ToNumber(Str(s)) == Num(x)
  {
    TrimKeepsTight(s);
  }

  lemma ReadInteger(ip: string)
    requires AllDigits(ip) && ip != []
    ensures ReadDecimal(ip) == Num(DigitsValue(ip) as real)
  {
    DotIndexOfDigits(ip, []);
    assert ip + [] == ip;
    assert ip[..|ip|] == ip;
  }

  lemma ReadUnsigned(ip: string, fp: string, u: string)
    requires AllDigits(ip) && AllDigits(fp) && ip != []
    requires u == ip + "." + fp
    ensures ReadDecimal(u) == Num(DecimalValue(ip, fp))
  {
    DotIndexOfDigits(ip, "." + fp);
    assert u == ip + ("." + fp);
    assert u[..|ip|] == ip;
    assert u[|ip| + 1..] == fp;
  }

  lemma ReadNegative(u: string, t: string, x: real)
    requires u != [] && '0' <= u[0] <= '9'
    requires t == "-" + u && ReadDecimal(u) == Num(x)
    ensures t != [] && ReadDecimal(t) == Num(-x)
  {
    assert t[0] == '-' && t[1..] == u;
  }

  /** The first decimal point after a run of digits is right behind it. */
  lemma {:induction false} DotIndexOfDigits(ip: string, rest: string)
    requires AllDigits(ip)
    requires rest == [] || rest[0] == '.'
    ensures DotIndex(ip + rest) == |ip|
  {
    if ip != [] {
      assert (ip + rest)[1..] == ip[1..] + rest;
      DotIndexOfDigits(ip[1..], rest);
    }
  }

  /** The digits of "99.5" on either side of the point. */
  lemma BoundDigits()
    ensures AllDigits("99") && AllDigits("5")
    ensures DecimalValue("99", "5") == 99.5
  {
    assert "99"[..1] == "9" && "9"[..0] == [] && "5"[..0] == [];
    assert DigitsValue("99") == 99;
    assert DigitsValue("5") == 5 && Pow10(1) == 10;
  }

  /** A witness that a decimal bound such as "99.5" is read as its value. */
  lemma DecimalBoundIsRead()
    ensures ToNumber(Str("99.5")) == Num(99.5)
  {
    BoundDigits();
    ToNumberReadsFraction("99", "5");
    assert "99" + "." + "5" == "99.5";
  }

  /** `v?.toLowerCase().includes(term)` as a truth value: a nullish value
      gives undefined (false); a value that is not a string has no
      `toLowerCase` and throws, which is `None`. */
  function OptionalLowerIncludes(v: JsValue, term: string): Option<bool>
  {
    if IsNullish(v) then Some(false)
    else if v.Str? then Some(Contains(Lower(v.s), term))
    else None
  }

  /** `v.toLowerCase().includes(term)` without optional chaining: anything
      but a string throws. */
  function LowerIncludes(v: JsValue, term: string): Option<bool>
  {
    if v.Str? then Some(Contains(Lower(v.s), term)) else None
  }
}
