/**
 * The shapes of a JavaScript value that reaches a `catch` block or the
 * `error` half of a wire result, as far as `normalizeError` looks at them,
 * together with JavaScript truthiness on those shapes.
 */
module ErrorValues {
  import opened Maybe

  /** A property read off an object: undefined or null, a string, or a value of another type. */
  datatype Prop = Absent | Text(text: string) | NonText

  /** One entry of an array-shaped error body; its `message` is a string or missing. */
  datatype BodyEntry = BodyEntry(message: Option<string>)

  /** The `body` property of an error object. */
  datatype Body =
    | NoBody                            // undefined or null
    | ObjectBody(message: Prop)         // a plain object, such as an Apex error body
    | ArrayBody(entries: seq<BodyEntry>)
    | PrimitiveBody(truthy: bool)       // a string, number or boolean: it has no `message`

  /**
   * A thrown or rejected value. `Falsy` stands for undefined, null, false,
   * 0 and NaN; the empty string is `StringError("")`, which is falsy too.
   * Any other value (an Error, an Apex error, a non-zero number) is an
   * `ObjectError` with its `body` and its string `message`, if any.
   */
  datatype ErrorValue =
    | Falsy
    | StringError(s: string)
    | ObjectError(body: Body, message: Option<string>)

  /** `!!e`. */
  predicate Truthy(e: ErrorValue) {
    match e
    case Falsy => false
    case StringError(s) => s != ""
    case ObjectError(_, _) => true
  }

  /** `!!e.body`: every object and every array is truthy, even an empty one. */
  predicate BodyTruthy(b: Body) {
    match b
    case NoBody => false
    case ObjectBody(_) => true
    case ArrayBody(_) => true
    case PrimitiveBody(t) => t
  }

  /** `e.body.message` for a present body: only a plain object body carries one. */
  function BodyMessage(b: Body): Prop {
    if b.ObjectBody? then b.message else Absent
  }

  /** `x.message` as `join` renders it: a missing message becomes the empty string. */
  function EntryText(x: BodyEntry): string {
    if x.message.Some? then x.message.value else ""
  }

  /** `body.map(x => x.message)`, rendered for `join`. */
  function EntryMessages(entries: seq<BodyEntry>): (r: seq<string>)
    ensures |r| == |entries|
    ensures forall i :: 0 <= i < |entries| ==> r[i] == EntryText(entries[i])
  {
    if entries == [] then [] else [EntryText(entries[0])] + EntryMessages(entries[1..])
  }
}
