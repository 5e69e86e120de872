/**
 * The loosely-typed payload and its validated field access.
 *
 * A webhook payload is a JSON tree. The Python code walks it with
 * `payload["a"]["b"].tame(check_string)`; every step may fail with a
 * validation error that names the path reached so far. Here a `WildValue`
 * is a JSON value paired with the path it was reached by, and each step is
 * a function returning a `Result`.
 */
module Validator {
  import opened Wrappers

  datatype Json =
    | JNull
    | JBool(b: bool)
    | JInt(i: int)
    | JString(s: string)
    | JObject(fields: map<string, Json>)
    | JList(items: seq<Json>)

  /** One step of an access path: a dictionary key or a list position. */
  datatype Step = Key(name: string) | Index(n: nat)

  type Path = seq<Step>

  /** Why a validated access failed. */
  datatype Problem = NotADict | KeyMissing | NotAString | NotAnInteger | NotABool | NotAList

  /** Exceptions the modelled code can raise. */
  datatype Error =
    | ValidationError(at: Path, problem: Problem)    // a field is missing or mistyped
    | IndexError(at: Path)                           // `split()[0]` of a blank string
    | MissingHttpEventHeader(header: string)         // the event header is absent
    | UnsupportedWebhookEventType(event: string)     // unknown event, or nothing to send

  /** A payload value together with the path it was reached by. */
  datatype WildValue = WildValue(path: Path, value: Json)

  /** The whole payload, reached by the empty path. */
  function Root(payload: Json): (w: WildValue)
    ensures w.path == [] && w.value == payload
  {
    WildValue([], payload)
  }

  /** `w[key]`: fails unless `w` is a dictionary holding `key`. */
  function Get(w: WildValue, key: string): (r: Result<WildValue, Error>)
    ensures r.Success? <==> w.value.JObject? && key in w.value.fields
    ensures r.Success? ==> r.value.path == w.path + [Key(key)] && r.value.value == w.value.fields[key]
    ensures r.Failure? ==> r.error.ValidationError? && r.error.at == w.path + [Key(key)]
  {
    match w.value
    case JObject(fields) =>
      if key in fields then Success(WildValue(w.path + [Key(key)], fields[key]))
      else Failure(ValidationError(w.path + [Key(key)], KeyMissing))
    case _ => Failure(ValidationError(w.path + [Key(key)], NotADict))
  }

  /** `w[keys[0]][keys[1]]...`, failing at the first step that fails. */
  function At(w: WildValue, keys: seq<string>): (r: Result<WildValue, Error>)
    ensures r.Success? ==> |r.value.path| == |w.path| + |keys| && r.value.path[..|w.path|] == w.path
    ensures r.Failure? ==> r.error.ValidationError?
    decreases |keys|
  {
    if keys == [] then Success(w)
    else
      var next :- Get(w, keys[0]);
      At(next, keys[1..])
  }

  /** `w.tame(check_string)` */
  function TameString(w: WildValue): (r: Result<string, Error>)
    ensures r.Success? <==> w.value.JString?
    ensures r.Success? ==> r.value == w.value.s
  {
    if w.value.JString? then Success(w.value.s) else Failure(ValidationError(w.path, NotAString))
  }

  /** `w.tame(check_int)` */
  function TameInt(w: WildValue): (r: Result<int, Error>)
    ensures r.Success? <==> w.value.JInt?
    ensures r.Success? ==> r.value == w.value.i
  {
    if w.value.JInt? then Success(w.value.i) else Failure(ValidationError(w.path, NotAnInteger))
  }

  /** `w.tame(check_bool)` */
  function TameBool(w: WildValue): (r: Result<bool, Error>)
    ensures r.Success? <==> w.value.JBool?
    ensures r.Success? ==> r.value == w.value.b
  {
    if w.value.JBool? then Success(w.value.b) else Failure(ValidationError(w.path, NotABool))
  }

  function StringAt(w: WildValue, keys: seq<string>): Result<string, Error>
  {
    var v :- At(w, keys);
    TameString(v)
  }

  function IntAt(w: WildValue, keys: seq<string>): Result<int, Error>
  {
    var v :- At(w, keys);
    TameInt(v)
  }

  function BoolAt(w: WildValue, keys: seq<string>): Result<bool, Error>
  {
    var v :- At(w, keys);
    TameBool(v)
  }

  /** Python truthiness of the wrapped value (`if w:`). */
  predicate Truthy(w: WildValue)
  {
    match w.value
    case JNull => false
    case JBool(b) => b
    case JInt(i) => i != 0
    case JString(s) => s != []
    case JObject(fields) => |fields| != 0
    case JList(items) => items != []
  }

  /** `for item in w`: the elements of a list, each reached by its position. */
  function Items(w: WildValue): (r: Result<seq<WildValue>, Error>)
    ensures r.Success? <==> w.value.JList?
    ensures r.Success? ==> |r.value| == |w.value.items|
    ensures r.Success? ==> forall i :: 0 <= i < |r.value| ==>
      r.value[i] == WildValue(w.path + [Index(i)], w.value.items[i])
  {
    match w.value
    case JList(items) => Success(seq(|items|, i requires 0 <= i < |items| => WildValue(w.path + [Index(i)], items[i])))
    case _ => Failure(ValidationError(w.path, NotAList))
  }
}
