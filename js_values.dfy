/** The JavaScript values that flow through the phase machine: hook results,
    message payloads and player records. Functions are represented by an
    identity only; objects by their own enumerable properties. */
module JsValues {

  datatype Value =
    | Undefined
    | Null
    | Bool(b: bool)
    | Num(n: int)
    | Str(s: string)
    | Fn(id: nat)
    | Arr(items: seq<Value>)
    | Obj(fields: map<string, Value>)

  /** `result === false`: the only value that vetoes a phase transition. */
  predicate IsFalse(v: Value) {
    v == Bool(false)
  }

  /** A call a phase makes to one of its own hooks. */
  datatype HookCall = OnStartCalled(data: seq<Value>) | OnEndCalled
}
