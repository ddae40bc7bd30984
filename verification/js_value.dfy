/**
  An abstract JavaScript value: enough of the language's runtime to evaluate
  `typeof`, `Array.isArray`, `Object.prototype.toString.call(…)` and the `in`
  operator, which is all the type helpers look at.
 */
module JsValues {

  /** The kinds of function object; each has its own `toString` tag. */
  datatype FunctionKind = Ordinary | Async | Generator | AsyncGenerator

  datatype JsValue =
    | JsUndefined
    | JsNull
    | JsBoolean(b: bool)
    | JsNumber                 // the numeric value plays no part in this model
    | JsBigInt(i: int)
    | JsString(s: string)
    | JsSymbol(description: string)
    | JsArray(items: seq<JsValue>)
    | JsFunction(kind: FunctionKind)
      /** Any other object. `tag` is the name that `Object.prototype.toString`
          reports for it: "Object" for a plain object or class instance, "Date",
          "Map", … for built-ins, or the object's own `Symbol.toStringTag`.
          `props` holds the properties the `in` operator finds. */
    | JsObject(tag: string, props: map<string, JsValue>)

  /** The result of `typeof`. */
  datatype TypeOfResult =
    | TUndefined | TObject | TBoolean | TNumber | TBigInt | TString | TSymbol | TFunction

  function TypeOf(v: JsValue): (t: TypeOfResult)
    ensures t == TObject <==> v.JsNull? || v.JsArray? || v.JsObject?
    ensures t == TFunction <==> v.JsFunction?
  {
    match v
    case JsUndefined => TUndefined
    case JsNull => TObject
    case JsBoolean(_) => TBoolean
    case JsNumber => TNumber
    case JsBigInt(_) => TBigInt
    case JsString(_) => TString
    case JsSymbol(_) => TSymbol
    case JsArray(_) => TObject
    case JsFunction(_) => TFunction
    case JsObject(_, _) => TObject
  }

  /** The `X` in the "[object X]" that `Object.prototype.toString.call(v)`
      returns (section 20.1.3.6 of ECMA-262): primitives are boxed first, and
      the async and generator function prototypes carry their own
      `Symbol.toStringTag`. */
  function ToStringTag(v: JsValue): string
  {
    match v
    case JsUndefined => "Undefined"
    case JsNull => "Null"
    case JsBoolean(_) => "Boolean"
    case JsNumber => "Number"
    case JsBigInt(_) => "BigInt"
    case JsString(_) => "String"
    case JsSymbol(_) => "Symbol"
    case JsArray(_) => "Array"
    case JsFunction(kind) => FunctionTag(kind)
    case JsObject(tag, _) => tag
  }

  function FunctionTag(kind: FunctionKind): string
  {
    match kind
    case Ordinary => "Function"
    case Async => "AsyncFunction"
    case Generator => "GeneratorFunction"
    case AsyncGenerator => "AsyncGeneratorFunction"
  }

  /** `key in v` for an object operand. Arrays and functions are modelled
      without named properties. */
  predicate HasProperty(v: JsValue, key: string)
  {
    v.JsObject? && key in v.props
  }

  /** `v[key]`: the property's value, or undefined when it is absent. */
  function GetProperty(v: JsValue, key: string): (r: JsValue)
    ensures !HasProperty(v, key) ==> r == JsUndefined
  {
    if HasProperty(v, key) then v.props[key] else JsUndefined
  }

  /** `values.includes(v)` for an array of strings: a strict-equality search,
      so only a string value can be found. */
  predicate IncludesString(values: seq<string>, v: JsValue)
  {
    v.JsString? && v.s in values
  }

  /** `Array.isArray(v)`. */
  predicate IsArray(v: JsValue)
  {
    v.JsArray?
  }

  /** `s.startsWith(prefix)`. */
  predicate StartsWith(s: string, prefix: string)
  {
    |prefix| <= |s| && s[..|prefix|] == prefix
  }

  /** A string starts with `prefix` exactly when it is `prefix` followed by something. */
  lemma StartsWithIffConcat(s: string, prefix: string)
    ensures StartsWith(s, prefix) <==> exists rest :: s == prefix + rest
  {
    if StartsWith(s, prefix) {
      assert s == prefix + s[|prefix|..];
    }
    if exists rest :: s == prefix + rest {
      var rest :| s == prefix + rest;
      assert s[..|prefix|] == prefix;
    }
  }

  /** Appending to a string keeps every prefix it had. */
  lemma StartsWithAppend(s: string, prefix: string, suffix: string)
    requires StartsWith(s, prefix)
    ensures StartsWith(s + suffix, prefix)
  {
    assert (s + suffix)[..|prefix|] == s[..|prefix|];
  }
}
