/** The pieces of the browser that every view leans on: JavaScript truthiness of
    strings, the `a || b || c` chain over strings, the shape of a `fetch` reply,
    and `localStorage` as a mutable string-to-string map. */
module Browser {

  datatype Option<T> = None | Some(value: T)

  /** What one `fetch` (followed by `res.json()` where the view parses the body)
      ends in: a 2xx reply with its parsed body, a non-2xx reply with its status
      and parsed error body, or a rejected promise (network failure, or a body
      that is not JSON). */
  datatype Reply<B, E> = Ok(body: B) | NotOk(status: int, err: E) | Thrown

  /** A string value read from JavaScript is truthy iff it is present and non-empty
      (`null`, `undefined` and `""` are all falsy). */
  predicate Truthy(v: Option<string>) {
    v.Some? && v.value != ""
  }

  /** An optional string as it enters a `||` chain: missing values behave like "". */
  function Text(v: Option<string>): (r: string)
    ensures r != "" <==> Truthy(v)
    ensures v.Some? ==> r == v.value
    ensures v.None? ==> r == ""
  {
    if v.Some? then v.value else ""
  }

  /** `xs[0] || xs[1] || ... ` over strings: the first truthy operand, or "" when
      every operand is falsy. */
  function FirstTruthy(xs: seq<string>): (r: string)
    ensures r == "" <==> forall i :: 0 <= i < |xs| ==> xs[i] == ""
    ensures forall i :: 0 <= i < |xs| && xs[i] != "" && (forall j :: 0 <= j < i ==> xs[j] == "") ==> r == xs[i]
  {
    if |xs| == 0 then ""
    else if xs[0] != "" then xs[0]
    else
      assert forall i :: 1 <= i < |xs| ==> xs[1..][i - 1] == xs[i];
      FirstTruthy(xs[1..])
  }

  /** `String(b)`, which is what `localStorage.setItem` stores for a boolean. */
  function BoolText(b: bool): (r: string)
    ensures b <==> r == "true"
    ensures !b <==> r == "false"
  {
    if b then "true" else "false"
  }

  /** `localStorage.getItem(key)`: `null` (None) for a missing key. */
  function Lookup(items: map<string, string>, key: string): (r: Option<string>)
    ensures r.Some? <==> key in items
    ensures r.Some? ==> r.value == items[key]
  {
    if key in items then Some(items[key]) else None
  }

  /** The browser's `localStorage`: one mutable map shared by every view. */
  class Store {
    var items: map<string, string>

    constructor (initial: map<string, string>)
      ensures items == initial
    {
      items := initial;
    }

    /** `localStorage.setItem(key, value)` */
    method SetItem(key: string, value: string)
      modifies this
      ensures items == old(items)[key := value]
    {
      items := items[key := value];
    }

    /** `localStorage.removeItem(key)`; removing a missing key is a no-op. */
    method RemoveItem(key: string)
      modifies this
      ensures items == old(items) - {key}
    {
      items := items - {key};
    }
  }
}
