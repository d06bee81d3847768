/** The `validator` object and the key guards of `storage`
    (frontend/src/utils/storageUtils.js). */
module StorageUtils {
  import opened Wrappers
  import opened Text
  import opened Js

  // ---------------------------------------------------------------------
  // Scalar validators
  // ---------------------------------------------------------------------

  /** `typeof value === 'string' && value.trim().length > 0`: the empty
      string and whitespace-only strings are rejected, any string with a
      character other than white space is accepted. */
  predicate IsNonEmptyString(v: JsValue)
    ensures IsNonEmptyString(v) <==> TypeOf(v) == "string" && !AllWhitespace(v.s)
  {
    v.Str? && |Trim(v.s)| > 0
  }

  /** `typeof value === 'boolean'` */
  predicate IsBoolean(v: JsValue)
    ensures IsBoolean(v) <==> TypeOf(v) == "boolean"
  {
    v.Bool?
  }

  /** `isPositiveNumber(value, min = 0, max = Infinity)`: a number that is
      not NaN, in `[min, max]`; `None` stands for the default `Infinity`. */
  predicate IsPositiveNumber(v: JsValue, min: real, max: Option<real>)
    ensures IsPositiveNumber(v, min, max) <==>
      TypeOf(v) == "number" && v != NaN && min <= v.n && (max.Some? ==> v.n <= max.value)
  {
    v.Num? && v.n >= min && (max.None? || v.n <= max.value)
  }

  /** With the default bounds 0 is accepted and every negative number, NaN
      and every non-number is rejected. */
  lemma DefaultBoundsAcceptNonNegatives(v: JsValue)
    ensures IsPositiveNumber(v, 0.0, None) <==> v.Num? && v.n >= 0.0
    ensures IsPositiveNumber(Num(0.0), 0.0, None)
    ensures !IsPositiveNumber(Num(-1.0), 0.0, None)
    ensures !IsPositiveNumber(NaN, 0.0, None)
  {
  }

  /** `Array.prototype.includes` compares with SameValueZero. Objects,
      arrays and functions are compared by reference, which the model does
      not track; they never match here. */
  predicate SameValueZero(a: JsValue, b: JsValue)
  {
    match a
    case Undefined => b.Undefined?
    case Null => b.Null?
    case Bool(x) => b.Bool? && b.b == x
    case Num(x) => b.Num? && b.n == x
    case NaN => b.NaN?
    case Str(x) => b.Str? && b.s == x
    case _ => false
  }

  /** A value `includes` can find without comparing references. */
  predicate IsPrimitive(v: JsValue)
  {
    !(v.Arr? || v.Obj? || v.Exotic? || v.Fn?)
  }

  /** `Array.isArray(allowed) && allowed.includes(value)`: nothing but an
      array accepts anything, and a primitive value is accepted exactly
      when the array holds it (NaN finds NaN). */
  predicate IsOneOf(v: JsValue, allowed: JsValue)
    ensures !allowed.Arr? ==> !IsOneOf(v, allowed)
    ensures IsPrimitive(v) ==> (IsOneOf(v, allowed) <==> allowed.Arr? && v in allowed.items)
  {
    allowed.Arr? && exists i :: 0 <= i < |allowed.items| && SameValueZero(allowed.items[i], v)
  }

  /** A JavaScript array of strings. */
  function StrArray(names: seq<string>): (v: JsValue)
    ensures v.Arr? && |v.items| == |names|
    ensures forall i :: 0 <= i < |names| ==> v.items[i] == Str(names[i])
  {
    Arr(seq(|names|, i requires 0 <= i < |names| => Str(names[i])))
  }

  /** Anything but an array as the allowed list rejects every value; against
      an array of strings a string is accepted exactly when it is listed. */
  lemma OneOfStrings(v: JsValue, allowed: JsValue, s: string, names: seq<string>)
    ensures !allowed.Arr? ==> !IsOneOf(v, allowed)
    ensures IsOneOf(Str(s), StrArray(names)) <==> s in names
  {
    if s in names {
      var i :| 0 <= i < |names| && names[i] == s;
      assert SameValueZero(StrArray(names).items[i], Str(s));
    }
  }

  /** A non-null object that is not an array and whose class tag is
      `[object Object]`: in this model the `Obj` records. */
  predicate IsPlainObject(v: JsValue)
    ensures IsPlainObject(v) <==> TypeOf(v) == "object" && !v.Null? && !v.Arr? && !v.Exotic?
  {
    v.Obj?
  }

  // ---------------------------------------------------------------------
  // Schema validation (`validateSchema` and its inner `validateProperty`)
  // ---------------------------------------------------------------------

  /** `rules.type`; a type string the switch does not know checks nothing. */
  datatype RuleType = StringType | BooleanType | NumberType | ObjectType | OtherType(name: string)

  /** The rules of one schema entry. Absent or falsy attributes are
      `None`/false; `properties` lists the sub-rules in `Object.keys` order
      (an absent `properties` and an empty one check the same). */
  datatype Rule = Rule(
    required: bool,
    ty: Option<RuleType>,
    min: Option<int>,
    max: Option<int>,
    oneOf: Option<seq<string>>,
    properties: seq<Prop>)

  /** A key of a schema (or of `properties`) with its rules. */
  datatype Prop = Prop(key: string, rule: Rule)

  /** `path ? `${path}.${key}` : key` */
  function FullPath(path: string, key: string): (r: string)
    ensures path != "" ==> r == path + "." + key
    ensures path == "" ==> r == key
  {
    if path != "" then path + "." + key else key
  }

  /** `parts.join(sep)`, which is "" for no parts. */
  function JoinAll(parts: seq<string>, sep: string): string
  {
    if parts == [] then ""
    else if |parts| == 1 then parts[0]
    else parts[0] + sep + JoinAll(parts[1..], sep)
  }

  /** The " >= min" / " <= max" suffix of the number message. */
  function BoundsText(min: Option<int>, max: Option<int>): string
  {
    (if min.Some? then " >= " + IntToString(min.value) else "")
    + (if max.Some? then " <= " + IntToString(max.value) else "")
  }

  /** The errors `validateProperty(obj, key, rules, path)` pushes. */
  function PropErrors(obj: JsValue, p: Prop, path: string): (r: seq<string>)
    decreases p
    ensures IsNullish(Get(obj, p.key)) ==> (r == [] <==> !p.rule.required)
    ensures !IsNullish(Get(obj, p.key)) ==> (r == [] <==>
      TypeErrors(Get(obj, p.key), p.rule, FullPath(path, p.key)) == []
      && OneOfErrors(Get(obj, p.key), p.rule, FullPath(path, p.key)) == [])
  {
    var rule := p.rule;
    var fullPath := FullPath(path, p.key);
    var val := Get(obj, p.key);
    if rule.required && IsNullish(val) then [fullPath + " is required"]
    else if IsNullish(val) then []
    else TypeErrors(val, rule, fullPath) + OneOfErrors(val, rule, fullPath)
  }

  /** The errors of the `switch (rules.type)`. */
  function TypeErrors(val: JsValue, rule: Rule, fullPath: string): (r: seq<string>)
    decreases rule
    ensures rule.ty != Some(ObjectType) ==> |r| <= 1
    ensures rule.ty == Some(StringType) ==> (r == [] <==> IsNonEmptyString(val))
    ensures rule.ty == Some(BooleanType) ==> (r == [] <==> IsBoolean(val))
    ensures rule.ty == Some(ObjectType) && !IsPlainObject(val) ==> |r| == 1
    ensures rule.ty == Some(ObjectType) && IsPlainObject(val) ==>
      (r == [] <==> forall i :: 0 <= i < |rule.properties| ==> PropErrors(val, rule.properties[i], fullPath) == [])
  {
    if rule.ty.None? then []
    else match rule.ty.value
      case StringType =>
        if !IsNonEmptyString(val) then [fullPath + " must be a non-empty string"] else []
      case BooleanType =>
        if !IsBoolean(val) then [fullPath + " must be a boolean"] else []
      case NumberType =>
        var min := if rule.min.Some? then rule.min.value as real else 0.0;
        var max := if rule.max.Some? then Some(rule.max.value as real) else None;
        if !IsPositiveNumber(val, min, max)
        then [fullPath + " must be a valid number" + BoundsText(rule.min, rule.max)]
        else []
      case ObjectType =>
        if !IsPlainObject(val) then [fullPath + " must be an object"]
        else PropsErrors(val, rule.properties, fullPath)
      case OtherType(_) => []
  }

  /** The errors of the `rules.oneOf` check. */
  function OneOfErrors(val: JsValue, rule: Rule, fullPath: string): seq<string>
  {
    if rule.oneOf.Some? && !IsOneOf(val, StrArray(rule.oneOf.value))
    then [fullPath + " must be one of: " + JoinAll(rule.oneOf.value, ", ")]
    else []
  }

  /** The errors of every rule of `props`, in order. */
  function PropsErrors(obj: JsValue, props: seq<Prop>, path: string): (r: seq<string>)
    decreases props
    ensures r == [] <==> forall i :: 0 <= i < |props| ==> PropErrors(obj, props[i], path) == []
  {
    if props == [] then []
    else PropErrors(obj, props[0], path) + PropsErrors(obj, props[1..], path)
  }

  /** The `errors` list `validateSchema(value, schema)` returns. */
  function SchemaErrors(value: JsValue, schema: seq<Prop>): (r: seq<string>)
    ensures !IsPlainObject(value) ==> r == ["Value must be an object"]
    ensures IsPlainObject(value) ==>
      (r == [] <==> forall i :: 0 <= i < |schema| ==> PropErrors(value, schema[i], "") == [])
  {
    if !IsPlainObject(value) then ["Value must be an object"] else PropsErrors(value, schema, "")
  }

  /** `validateSchema(value, schema)`: the errors in the order the checks
      push them, and `isValid` exactly when there are none. */
  method ValidateSchema(value: JsValue, schema: seq<Prop>) returns (isValid: bool, errors: seq<string>)
    ensures errors == SchemaErrors(value, schema)
    ensures isValid <==> errors == []
    ensures !IsPlainObject(value) ==> !isValid && errors == ["Value must be an object"]
  {
    errors := [];
    if !IsPlainObject(value) {
      return false, ["Value must be an object"];
    }
    errors := ValidateProperties(value, schema, "", errors);
    isValid := |errors| == 0;
  }

  /** `Object.keys(props).forEach(key => validateProperty(obj, key, ...))` */
  method ValidateProperties(obj: JsValue, props: seq<Prop>, path: string, errors: seq<string>)
    returns (errors': seq<string>)
    ensures errors' == errors + PropsErrors(obj, props, path)
    decreases props
  {
    errors' := errors;
    var i := 0;
    while i < |props|
      invariant 0 <= i <= |props|
      invariant errors' + PropsErrors(obj, props[i..], path) == errors + PropsErrors(obj, props, path)
    {
      var before := errors';
      errors' := ValidateProperty(obj, props[i], path, errors');
      PropsErrorsStep(obj, props, path, i, before);
      i := i + 1;
    }
    assert props[|props|..] == [];
    assert errors' + [] == errors';
  }

  /** One turn of the `forEach`: the errors of property `i` come before
      those of the properties after it. */
  lemma PropsErrorsStep(obj: JsValue, props: seq<Prop>, path: string, i: int, before: seq<string>)
    requires 0 <= i < |props|
    ensures before + PropsErrors(obj, props[i..], path)
      == (before + PropErrors(obj, props[i], path)) + PropsErrors(obj, props[i + 1..], path)
  {
    assert props[i..][1..] == props[i + 1..];
  }

  /** `validateProperty(obj, key, rules, path)`, pushing onto `errors`. */
  method ValidateProperty(obj: JsValue, p: Prop, path: string, errors: seq<string>)
    returns (errors': seq<string>)
    ensures errors' == errors + PropErrors(obj, p, path)
    decreases p
  {
    var rule := p.rule;
    var fullPath := if path != "" then path + "." + p.key else p.key;
    var val := Get(obj, p.key);
    errors' := errors;

    if rule.required && (val.Undefined? || val.Null?) {
      errors' := errors' + [fullPath + " is required"];
      return;
    }
    if val.Undefined? || val.Null? {
      return;
    }
    errors' := ValidateType(val, rule, fullPath, errors');
    ghost var afterType := errors';
    if rule.oneOf.Some? && !IsOneOf(val, StrArray(rule.oneOf.value)) {
      errors' := errors' + [fullPath + " must be one of: " + JoinAll(rule.oneOf.value, ", ")];
    }
    assert errors' == afterType + OneOfErrors(val, rule, fullPath);
  }

  /** The `switch (rules.type)` of `validateProperty`, pushing onto `errors`. */
  method ValidateType(val: JsValue, rule: Rule, fullPath: string, errors: seq<string>)
    returns (errors': seq<string>)
    ensures errors' == errors + TypeErrors(val, rule, fullPath)
    decreases rule
  {
    errors' := errors;
    if rule.ty.None? {
      return;
    }
    match rule.ty.value
    case StringType =>
      if !IsNonEmptyString(val) {
        errors' := errors' + [fullPath + " must be a non-empty string"];
      }
    case BooleanType =>
      if !IsBoolean(val) {
        errors' := errors' + [fullPath + " must be a boolean"];
      }
    case NumberType =>
      var min := if rule.min.Some? then rule.min.value as real else 0.0;
      var max := if rule.max.Some? then Some(rule.max.value as real) else None;
      if !IsPositiveNumber(val, min, max) {
        errors' := errors' + [fullPath + " must be a valid number" + BoundsText(rule.min, rule.max)];
      }
    case ObjectType =>
      if !IsPlainObject(val) {
        errors' := errors' + [fullPath + " must be an object"];
      } else {
        errors' := ValidateProperties(val, rule.properties, fullPath, errors');
      }
    case OtherType(_) =>
  }

  // ---------------------------------------------------------------------
  // Properties of the validation
  // ---------------------------------------------------------------------

  /** A required key holding null or undefined yields exactly the
      "is required" error, with no type check; an optional one yields
      nothing. */
  lemma MissingValueErrors(obj: JsValue, p: Prop, path: string)
    requires IsNullish(Get(obj, p.key))
    ensures p.rule.required ==> PropErrors(obj, p, path) == [FullPath(path, p.key) + " is required"]
    ensures !p.rule.required ==> PropErrors(obj, p, path) == []
  {
  }

  /** A number rule without bounds still rejects a negative number, since
      `min` defaults to 0. */
  lemma UnboundedNumberRejectsNegative(obj: JsValue, p: Prop, path: string)
    requires p.rule.ty == Some(NumberType) && p.rule.min.None? && p.rule.max.None?
    requires Get(obj, p.key).Num? && Get(obj, p.key).n < 0.0
    ensures FullPath(path, p.key) + " must be a valid number" in PropErrors(obj, p, path)
  {
    var fullPath := FullPath(path, p.key);
    assert BoundsText(None, None) == "";
    assert fullPath + " must be a valid number" + "" == fullPath + " must be a valid number";
    assert TypeErrors(Get(obj, p.key), p.rule, fullPath) == [fullPath + " must be a valid number"];
  }

  /** `s` begins with `prefix`. */
  predicate StartsWith(s: string, prefix: string)
  {
    |prefix| <= |s| && s[..|prefix|] == prefix
  }

  lemma StartsWithTrans(a: string, b: string, c: string)
    requires StartsWith(a, b) && StartsWith(b, c)
    ensures StartsWith(a, c)
  {
    assert a[..|c|] == a[..|b|][..|c|];
  }

  lemma StartsWithAppend(a: string, b: string)
    ensures StartsWith(a + b, a)
  {
    assert (a + b)[..|a|] == a;
  }

  /** Every error of a property names its dotted path first: nested
      properties are reported as `parent.child`. */
  lemma {:induction false} PropErrorsCarryPath(obj: JsValue, p: Prop, path: string)
    ensures forall e :: e in PropErrors(obj, p, path) ==> StartsWith(e, FullPath(path, p.key))
    decreases p
  {
    var rule := p.rule;
    var fullPath := FullPath(path, p.key);
    var val := Get(obj, p.key);
    if rule.required && IsNullish(val) {
      StartsWithAppend(fullPath, " is required");
    } else if !IsNullish(val) {
      TypeErrorsCarryPath(val, rule, fullPath);
      if rule.oneOf.Some? {
        StartsWithAppend(fullPath, " must be one of: " + JoinAll(rule.oneOf.value, ", "));
      }
    }
  }

  lemma {:induction false} TypeErrorsCarryPath(val: JsValue, rule: Rule, fullPath: string)
    ensures forall e :: e in TypeErrors(val, rule, fullPath) ==> StartsWith(e, fullPath)
    decreases rule
  {
    if rule.ty.Some? {
      match rule.ty.value
      case StringType => StartsWithAppend(fullPath, " must be a non-empty string");
      case BooleanType => StartsWithAppend(fullPath, " must be a boolean");
      case NumberType =>
        StartsWithAppend(fullPath, " must be a valid number" + BoundsText(rule.min, rule.max));
      case ObjectType =>
        StartsWithAppend(fullPath, " must be an object");
        PropsErrorsCarryPath(val, rule.properties, fullPath);
      case OtherType(_) =>
    }
  }

  lemma {:induction false} PropsErrorsCarryPath(obj: JsValue, props: seq<Prop>, path: string)
    ensures forall e :: e in PropsErrors(obj, props, path) ==> StartsWith(e, path)
    decreases props
  {
    if props != [] {
      PropErrorsCarryPath(obj, props[0], path);
      PropsErrorsCarryPath(obj, props[1..], path);
      var full := FullPath(path, props[0].key);
      if path != "" {
        StartsWithAppend(path, "." + props[0].key);
        assert full == path + ("." + props[0].key);
      }
      assert StartsWith(full, path);
      forall e | e in PropErrors(obj, props[0], path) ensures StartsWith(e, path) {
        StartsWithTrans(e, full, path);
      }
    }
  }

  /** Keys that the schema does not name are never looked at: changing or
      adding one leaves the errors unchanged. */
  lemma {:induction false} UnlistedKeysIgnored(m: map<string, JsValue>, k: string, v: JsValue,
                                               props: seq<Prop>, path: string)
    requires forall i :: 0 <= i < |props| ==> props[i].key != k
    ensures PropsErrors(Obj(m[k := v]), props, path) == PropsErrors(Obj(m), props, path)
    decreases props
  {
    if props != [] {
      assert Get(Obj(m[k := v]), props[0].key) == Get(Obj(m), props[0].key);
      UnlistedKeysIgnored(m, k, v, props[1..], path);
    }
  }

  // ---------------------------------------------------------------------
  // The `storage` facade over the in-memory fallback
  // ---------------------------------------------------------------------

  /** `!key || typeof key !== 'string'`: the key guard of get, set and remove. */
  predicate InvalidKey(key: JsValue)
  {
    !Truthy(key) || !key.Str?
  }

  /** The storage facade when `localStorage` is unavailable: the
      `memoryStorage` map behind `get`, `set` and `remove`. */
  class Storage {
    var memory: map<string, JsValue>

    constructor ()
      ensures memory == map[]
    {
      memory := map[];
    }

    /** `storage.get(key, defaultValue)` */
    method Get(key: JsValue, defaultValue: JsValue) returns (v: JsValue)
      ensures InvalidKey(key) ==> v == defaultValue
      ensures !InvalidKey(key) && key.s in memory ==> v == memory[key.s]
      ensures !InvalidKey(key) && key.s !in memory ==> v == defaultValue
    {
      if !Truthy(key) || !key.Str? {
        return defaultValue;
      }
      v := if key.s in memory then memory[key.s] else defaultValue;
    }

    /** `storage.set(key, value)` */
    method Set(key: JsValue, value: JsValue) returns (ok: bool)
      modifies this
      ensures ok <==> !InvalidKey(key)
      ensures !ok ==> memory == old(memory)
      ensures ok ==> memory == old(memory)[key.s := value]
    {
      if !Truthy(key) || !key.Str? {
        return false;
      }
      memory := memory[key.s := value];
      ok := true;
    }

    /** `storage.remove(key)` */
    method Remove(key: JsValue) returns (ok: bool)
      modifies this
      ensures ok <==> !InvalidKey(key)
      ensures !ok ==> memory == old(memory)
      ensures ok ==> memory == old(memory) - {key.s}
    {
      if !Truthy(key) || !key.Str? {
        return false;
      }
      memory := memory - {key.s};
      ok := true;
    }
  }

  /** The key guard rejects exactly the empty string and every non-string. */
  lemma InvalidKeyIffEmptyOrNotString(key: JsValue)
    ensures InvalidKey(key) <==> !(key.Str? && key.s != "")
  {
  }

  /** A value stored under a valid key reads back as stored, and every
      other key keeps its entry. */
  method SetThenGet(st: Storage, key: string, value: JsValue) returns (v: JsValue)
    requires key != ""
    modifies st
    ensures v == value
    ensures forall k :: k != key ==> (k in st.memory <==> k in old(st.memory))
    ensures forall k :: k != key && k in st.memory ==> st.memory[k] == old(st.memory)[k]
  {
    var ok := st.Set(Str(key), value);
    v := st.Get(Str(key), Null);
  }
}
