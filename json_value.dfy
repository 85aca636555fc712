/** Raw JSON values as the Python validators see them after `json.load`, the
    Python operations they apply to those values (`in`, subscripting,
    `isinstance`, `type(v).__name__`, `float(v)`), and the failure values that
    stand for raised exceptions. */
module JsonValue {
  import opened Strings

  /** A value produced by `json.load`. A JSON object becomes a dict (keys are
      strings); numbers are `int` or `float`, the latter held here as an exact
      real. */
  datatype Json =
    | JNull
    | JBool(b: bool)
    | JInt(i: int)
    | JFloat(f: real)
    | JStr(s: string)
    | JList(items: seq<Json>)
    | JDict(fields: map<string, Json>)

  /** What a validator raises: `ValidationError(message)`, or some other
      Python exception (TypeError, KeyError, AttributeError) that the source
      lets escape on input it does not guard against. */
  datatype Failure = Invalid(message: string) | Crash(reason: string)

  datatype Outcome = Pass | Fail(failure: Failure)

  datatype Result<T> = Ok(value: T) | Err(failure: Failure)

  datatype Option<T> = None | Some(value: T)

  /** `type(v).__name__` */
  function TypeName(v: Json): string
  {
    match v
    case JNull => "NoneType"
    case JBool(_) => "bool"
    case JInt(_) => "int"
    case JFloat(_) => "float"
    case JStr(_) => "str"
    case JList(_) => "list"
    case JDict(_) => "dict"
  }

  /** The type tests the validators pass to `isinstance`. */
  datatype PyType = StrType | ListType | MappingType | DictType | NumberType

  /** `isinstance(v, t)`. `bool` is a subclass of `int` in Python, so booleans
      pass the `(int, float)` test. */
  predicate IsInstance(v: Json, t: PyType)
  {
    match t
    case StrType => v.JStr?
    case ListType => v.JList?
    case MappingType => v.JDict?
    case DictType => v.JDict?
    case NumberType => v.JBool? || v.JInt? || v.JFloat?
  }

  /** The names `_expect_type` prints for a type test. */
  function TypeNames(t: PyType): string
  {
    match t
    case StrType => "str"
    case ListType => "list"
    case MappingType => "Mapping"
    case DictType => "dict"
    case NumberType => "int, float"
  }

  /** `float(v)` for a value that passed the number test. */
  function NumValue(v: Json): real
    requires IsInstance(v, NumberType)
  {
    match v
    case JBool(b) => if b then 1.0 else 0.0
    case JInt(i) => i as real
    case JFloat(f) => f
  }

  /** `key in v`: key membership for a dict, element equality for a list,
      substring search for a string; TypeError for anything else. */
  function Contains(v: Json, key: string): (r: Result<bool>)
    ensures v.JDict? ==> r == Ok(key in v.fields)
    ensures v.JList? ==> r == Ok(JStr(key) in v.items)
    ensures v.JStr? ==> r == Ok(IsSubstring(key, v.s))
    ensures r.Err? <==> !(v.JDict? || v.JList? || v.JStr?)
  {
    match v
    case JDict(m) => Ok(key in m)
    case JList(items) => Ok(JStr(key) in items)
    case JStr(s) => Ok(IsSubstring(key, s))
    case _ => Err(Crash("TypeError: argument of type '" + TypeName(v) + "' is not iterable"))
  }

  /** `v[key]`: only a dict holding the key yields a value. */
  function Get(v: Json, key: string): (r: Result<Json>)
    ensures r.Ok? <==> v.JDict? && key in v.fields
    ensures r.Ok? ==> r.value == v.fields[key]
  {
    match v
    case JDict(m) => if key in m then Ok(m[key]) else Err(Crash("KeyError: '" + key + "'"))
    case JList(_) => Err(Crash("TypeError: list indices must be integers or slices, not str"))
    case JStr(_) => Err(Crash("TypeError: string indices must be integers, not 'str'"))
    case _ => Err(Crash("TypeError: '" + TypeName(v) + "' object is not subscriptable"))
  }

  /** `d[key]` where `d` is known to be a dict holding `key`. */
  function Field(v: Json, key: string): Json
    requires v.JDict? && key in v.fields
  {
    v.fields[key]
  }

  /** `v.get(key, default)`: AttributeError on anything but a dict. */
  function GetOr(v: Json, key: string, default: Json): (r: Result<Json>)
    ensures r.Ok? <==> v.JDict?
    ensures v.JDict? ==> r.value == if key in v.fields then v.fields[key] else default
  {
    match v
    case JDict(m) => Ok(if key in m then m[key] else default)
    case _ => Err(Crash("AttributeError: '" + TypeName(v) + "' object has no attribute 'get'"))
  }

  /** Python truthiness of a JSON value. */
  predicate Truthy(v: Json)
  {
    match v
    case JNull => false
    case JBool(b) => b
    case JInt(i) => i != 0
    case JFloat(f) => f != 0.0
    case JStr(s) => s != ""
    case JList(items) => items != []
    case JDict(m) => m != map[]
  }

  // ---------------------------------------------------------------------------
  // The two checking helpers both validators define identically

  function MissingKeyMessage(ctx: string, key: string): string
  {
    ctx + ": missing required key '" + key + "'"
  }

  /** `_expect_keys(obj, keys, ctx)`: the first key that `in` does not find
      raises; an `in` that itself raises propagates. */
  function ExpectKeys(obj: Json, keys: seq<string>, ctx: string): (r: Outcome)
    ensures r.Pass? <==> forall k :: k in keys ==> Contains(obj, k) == Ok(true)
    ensures r.Fail? ==> exists i :: 0 <= i < |keys| && FirstMissing(obj, keys, i)
                                   && r.failure == MissingKeyFailure(obj, keys[i], ctx)
  {
    if keys == [] then Pass
    else
      match Contains(obj, keys[0])
      case Err(f) => assert FirstMissing(obj, keys, 0); Fail(f)
      case Ok(found) =>
        if !found then assert FirstMissing(obj, keys, 0); Fail(Invalid(MissingKeyMessage(ctx, keys[0])))
        else
          var rest := ExpectKeys(obj, keys[1..], ctx);
          if rest.Fail? then
            var i :| 0 <= i < |keys[1..]| && FirstMissing(obj, keys[1..], i)
                     && rest.failure == MissingKeyFailure(obj, keys[1..][i], ctx);
            assert FirstMissing(obj, keys, i + 1);
            rest
          else
            assert forall k :: k in keys ==> k == keys[0] || k in keys[1..];
            rest
  }

  /** keys[i] is the first key that `in` does not find in obj. */
  predicate FirstMissing(obj: Json, keys: seq<string>, i: int)
    requires 0 <= i < |keys|
  {
    (forall j :: 0 <= j < i ==> Contains(obj, keys[j]) == Ok(true)) && Contains(obj, keys[i]) != Ok(true)
  }

  function MissingKeyFailure(obj: Json, key: string, ctx: string): Failure
  {
    match Contains(obj, key)
    case Err(f) => f
    case Ok(_) => Invalid(MissingKeyMessage(ctx, key))
  }

  /** For a dict, the key check passes exactly when every key is present. */
  lemma ExpectKeysDict(obj: Json, keys: seq<string>, ctx: string)
    requires obj.JDict?
    ensures ExpectKeys(obj, keys, ctx).Pass? <==> forall k :: k in keys ==> k in obj.fields
    ensures ExpectKeys(obj, keys, ctx).Fail? ==> ExpectKeys(obj, keys, ctx).failure.Invalid?
  {
  }

  function TypeMessage(v: Json, t: PyType, ctx: string): string
  {
    ctx + ": expected type " + TypeNames(t) + ", got " + TypeName(v)
  }

  /** `_expect_type(val, typ, ctx)` */
  function ExpectType(v: Json, t: PyType, ctx: string): (r: Outcome)
    ensures r.Pass? <==> IsInstance(v, t)
    ensures r.Fail? ==> r.failure == Invalid(TypeMessage(v, t, ctx))
  {
    if IsInstance(v, t) then Pass else Fail(Invalid(TypeMessage(v, t, ctx)))
  }

  /** f"[{i}]": the index suffix of a path-like context. */
  function Index(ctx: string, i: int): string
  {
    ctx + "[" + IntToString(i) + "]"
  }
}
