/**
 * What the pattern code sees of the language model and of `json.loads`.
 *
 * The model is an oracle: a chat completion either raises or returns a
 * message whose `content` may be absent. Decoding is an oracle too: it
 * rejects the text (with the `JSONDecodeError` text), yields a non-object
 * top-level value (a list, a string, a number, ...), or yields a dictionary.
 * Dictionaries are their items in order, so keyword binding can report the
 * first offending key the way Python does.
 */
module Llm {
  import opened Base
  import opened Text

  /** `client.chat.completions.create(...)`: raised with a text, or replied with optional content. */
  datatype Completion =
    | CallFailed(error: string)
    | Replied(content: Option<string>)

  /**
   * A decoded JSON value, as far as the callers look at it. Floats, lists and
   * dictionaries nested inside the top-level object are `Other`, carrying
   * their Python type name, their `str()` text and their truthiness.
   */
  datatype JsonValue =
    | JNull
    | JBool(b: bool)
    | JInt(i: int)
    | JString(s: string)
    | JOther(kind: string, repr: string, truthy: bool)

  /**
   * `json.loads(text)`. An object's members are listed in the order the text
   * gives them; `json.loads` keeps the last of duplicate keys, so the model's
   * first-match lookup agrees with it only when keys are unique.
   */
  datatype Decoded =
    | Malformed(error: string)
    | NonObject(kind: string)
    | Object(items: seq<(string, JsonValue)>)

  /** `f"{v}"` / `str(v)` */
  function Str(v: JsonValue): string {
    match v
    case JNull => "None"
    case JBool(b) => if b then "True" else "False"
    case JInt(i) => IntToString(i)
    case JString(s) => s
    case JOther(_, repr, _) => repr
  }

  /** `bool(v)` */
  predicate Truthy(v: JsonValue) {
    match v
    case JNull => false
    case JBool(b) => b
    case JInt(i) => i != 0
    case JString(s) => s != ""
    case JOther(_, _, t) => t
  }

  /** Whether `v` can be a dictionary key (`in` on a dict hashes it). */
  predicate Hashable(v: JsonValue) {
    !(v.JOther? && (v.kind == "list" || v.kind == "dict"))
  }

  /** The text Python gives for hashing a list or a dictionary. */
  function UnhashableText(v: JsonValue): string {
    "unhashable type: '" + (if v.JOther? then v.kind else "") + "'"
  }

  /** `d.get(key)`: the value filed under `key`, `None` when there is none. */
  function Get(items: seq<(string, JsonValue)>, key: string): (r: JsonValue)
    ensures (forall k :: 0 <= k < |items| ==> items[k].0 != key) ==> r == JNull
    ensures forall k ::
      (0 <= k < |items| && items[k].0 == key && forall j :: 0 <= j < k ==> items[j].0 != key) ==> r == items[k].1
  {
    if |items| == 0 then JNull
    else if items[0].0 == key then items[0].1
    else Get(items[1..], key)
  }

  /** `'list' object has no attribute 'get'`: calling `.get` on a non-dictionary. */
  function NoGetText(kind: string): string {
    "'" + kind + "' object has no attribute 'get'"
  }

  // ---------------------------------------------------------------------
  // Field types of the pydantic models
  // ---------------------------------------------------------------------

  /**
   * One failed field of a pydantic model. `str()` of a `ValidationError` is
   * a multi-line report; `Text` stands in for it with the field and the reason.
   */
  datatype ValidationError = ValidationError(model: string, field: string, reason: string) {
    function Text(): string {
      "1 validation error for " + model + "\n" + field + "\n  " + reason
    }
  }

  const NotAString := "Input should be a valid string"
  const NotAnInteger := "Input should be a valid integer"

  /** A `str | None` field: a string or null, nothing else. */
  function StrField(v: JsonValue): (r: Result<Option<string>, string>)
    ensures r.Ok? <==> v.JNull? || v.JString?
    ensures v.JNull? ==> r == Ok(None)
    ensures v.JString? ==> r == Ok(Some(v.s))
  {
    match v
    case JNull => Ok(None)
    case JString(s) => Ok(Some(s))
    case _ => Err(NotAString)
  }

  /** An `int | None` field: an integer or null; pydantic's lax coercions into `int` are not modelled. */
  function IntField(v: JsonValue): (r: Result<Option<int>, string>)
    ensures r.Ok? <==> v.JNull? || v.JInt?
    ensures v.JNull? ==> r == Ok(None)
    ensures v.JInt? ==> r == Ok(Some(v.i))
  {
    match v
    case JNull => Ok(None)
    case JInt(i) => Ok(Some(i))
    case _ => Err(NotAnInteger)
  }
}
