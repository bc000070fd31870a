/** JavaScript values as far as the action validator and the reducer inspect them,
    and the validator itself (`validateAction`). */
module Actions {

  /** A JavaScript value. Numbers are mathematical integers; an object is its own
      string-keyed properties; a function is only its identity. */
  datatype Value =
    | Undefined
    | Null
    | Bool(b: bool)
    | Num(n: int)
    | Str(s: string)
    | Arr(elements: seq<Value>)
    | Func(id: nat)
    | Obj(props: map<string, Value>)

  /** `!!v`: undefined, null, false, 0 and the empty string are the falsy values. */
  predicate Truthy(v: Value) {
    match v
    case Undefined => false
    case Null => false
    case Bool(b) => b
    case Num(n) => n != 0
    case Str(s) => s != ""
    case _ => true
  }

  /** The `typeof` operator (null and arrays report "object"). */
  function TypeOf(v: Value): string {
    match v
    case Undefined => "undefined"
    case Null => "object"
    case Bool(_) => "boolean"
    case Num(_) => "number"
    case Str(_) => "string"
    case Arr(_) => "object"
    case Func(_) => "function"
    case Obj(_) => "object"
  }

  /** `Array.isArray(v)`. */
  predicate IsArray(v: Value) {
    v.Arr?
  }

  /** The property read `v.type`. Reading a property of undefined or null throws,
      so those are excluded; every other value without an own `type` gives undefined. */
  function TypeField(v: Value): (r: Value)
    requires v != Undefined && v != Null
    ensures !v.Obj? ==> r == Undefined
    ensures v.Obj? ==> (r == Undefined <==> "type" !in v.props || v.props["type"] == Undefined)
  {
    if v.Obj? && "type" in v.props then v.props["type"] else Undefined
  }

  /** The first guard of the validator, `!v || typeof v !== 'object' ||
      Array.isArray(v)`, holds of exactly the values that are not plain objects:
      null is caught by falsiness, functions and primitives by `typeof`, arrays
      by `Array.isArray`. */
  lemma ObjectGuardIff(v: Value)
    ensures (!Truthy(v) || TypeOf(v) != "object" || IsArray(v)) <==> !v.Obj?
    ensures TypeOf(v) == "object" <==> v.Null? || v.Arr? || v.Obj?
    ensures v.Obj? ==> Truthy(v)
  {
  }

  /** Whether a dispatch goes ahead, or the message of the error it throws. */
  datatype Outcome = Pass | Fail(message: string)

  const NotAnObjectMessage := "Action must be an object!"
  const MissingTypeMessage := "Action must have a type"

  /** `validateAction`: the first guard rejects falsy values, every value whose
      `typeof` is not "object", and arrays, which together leave exactly the plain
      objects; the second guard rejects an object whose `type` is the
      nine-letter string "undefined". A missing `type` is NOT rejected. */
  function ValidateAction(v: Value): (r: Outcome)
    ensures r.Pass? <==> v.Obj? && TypeField(v) != Str("undefined")
    ensures r == Fail(NotAnObjectMessage) <==> !v.Obj?
    ensures r == Fail(MissingTypeMessage) <==> v.Obj? && TypeField(v) == Str("undefined")
  {
    if !Truthy(v) || TypeOf(v) != "object" || IsArray(v) then
      Fail(NotAnObjectMessage)
    else if TypeField(v) == Str("undefined") then
      Fail(MissingTypeMessage)
    else
      Pass
  }

  /** The values `dispatch` hands to the reducer: those the validator lets through. */
  type Action = v: Value | ValidateAction(v).Pass? witness Obj(map[])

  /** An object without a `type` property passes validation, and so does one whose
      `type` is the value undefined; one whose `type` is the string "undefined" does not. */
  lemma UntypedObjectAccepted(props: map<string, Value>)
    requires "type" !in props || props["type"] == Undefined
    ensures ValidateAction(Obj(props)) == Pass
  {
  }

  /** What the second guard and its message evidently mean: reject an object
      whose `type` is unset (missing, or the value undefined). */
  function ValidateActionIntended(v: Value): (r: Outcome)
    ensures r.Pass? <==> v.Obj? && "type" in v.props && v.props["type"] != Undefined
    ensures r == Fail(NotAnObjectMessage) <==> !v.Obj?
    ensures r.Pass? ==> ValidateAction(v).Pass? || TypeField(v) == Str("undefined")
  {
    if !Truthy(v) || TypeOf(v) != "object" || IsArray(v) then
      Fail(NotAnObjectMessage)
    else if TypeField(v) == Undefined then
      Fail(MissingTypeMessage)
    else
      Pass
  }

  /** The two validators disagree exactly on objects whose `type` is unset (the
      written one accepts them) and on objects whose `type` is the string
      "undefined" (the written one rejects them); on everything else they agree. */
  lemma {:induction false} ValidatorsDisagreeOnlyOnTypeTag(v: Value)
    ensures ValidateAction(v) != ValidateActionIntended(v) <==>
              v.Obj? && (TypeField(v) == Undefined || TypeField(v) == Str("undefined"))
  {
    if v.Obj? {
      assert Str("undefined") != Undefined;
    }
  }
}
