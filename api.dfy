/** The shapes of the backend's JSON replies as the screens read them, and
    the JavaScript truthiness rules the screens apply to optional fields. */
module Api {

  datatype Option<T> = None | Some(value: T)

  /** A present, non-empty string: what `if (x)` accepts for a string field. */
  predicate Truthy(o: Option<string>) {
    o.Some? && o.value != []
  }

  /** `o || fallback` for an optional string field. */
  function Or(o: Option<string>, fallback: string): (r: string)
    ensures Truthy(o) ==> r == o.value
    ensures !Truthy(o) ==> r == fallback
  {
    if Truthy(o) then o.value else fallback
  }

  /** `o ?? fallback`: only a missing value falls back; `''` is kept. */
  function Coalesce<T>(o: Option<T>, fallback: T): (r: T)
    ensures o.Some? ==> r == o.value
    ensures o.None? ==> r == fallback
  {
    if o.Some? then o.value else fallback
  }

  datatype Status = SUCCESS | ERROR

  /** The `data` field of a reply: `null`/absent, an array, a page object
      whose `content` is an array, any other object, or a primitive value
      (a number, string or boolean, truthy or not). */
  datatype Payload<T> = Null | Items(items: seq<T>) | Page(content: seq<T>) | Single(item: T) | Primitive(truthy: bool)

  /** `data` as an `if` condition: every array and object is truthy, the
      empty array included; `null` is not; a primitive by its value. */
  predicate TruthyData<T>(data: Payload<T>) {
    match data
    case Null => false
    case Primitive(truthy) => truthy
    case _ => true
  }

  /** The list a screen extracts from `data`: the array itself, the page's
      `content`, a single object wrapped in a list, and nothing otherwise. */
  function Normalise<T>(data: Payload<T>): (r: seq<T>)
    ensures data.Items? ==> r == data.items
    ensures data.Page? ==> r == data.content
    ensures data.Single? ==> r == [data.item]
    ensures data.Null? || data.Primitive? ==> r == []
  {
    match data
    case Items(items) => items
    case Page(content) => content
    case Single(item) => [item]
    case _ => []
  }

  /** A reply envelope `{ status, code, data, message }`. */
  datatype Response<T> = Response(status: Status, code: string, data: Payload<T>, message: Option<string>)
}
