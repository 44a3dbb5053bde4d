/** The JavaScript values that the site's handlers inspect, as far as their
    rules can tell them apart. */
module Js {

  datatype Option<T> = None | Some(value: T)

  /** A property read from parsed JSON or from a CMS record. Values that are
      neither strings, `null` nor missing compare unequal to every string
      literal the handlers test, so they are folded into `Undefined`. */
  datatype Attr = Undefined | Null | Str(s: string) {

    /** JavaScript truthiness: `undefined`, `null` and `''` are falsy. */
    predicate Truthy() {
      Str? && s != ""
    }

    /** `this || fallback`, for a string fallback. */
    function Or(fallback: string): (r: string)
      ensures Truthy() ==> r == s
      ensures !Truthy() ==> r == fallback
    {
      if Truthy() then s else fallback
    }

    /** The text a template literal `${...}` produces for this value. */
    function Interpolated(): (r: string)
      ensures Str? ==> r == s
      ensures Undefined? ==> r == "undefined"
      ensures Null? ==> r == "null"
    {
      match this
      case Undefined => "undefined"
      case Null => "null"
      case Str(t) => t
    }
  }

  /** A thrown value caught by a `catch (error)` block. */
  datatype Exception = ErrorObject(message: string) | NonError

  /** `error instanceof Error ? error.message : fallback`, the idiom every
      handler uses to turn a caught value into text. */
  function MessageOr(e: Exception, fallback: string): (r: string)
    ensures e.ErrorObject? ==> r == e.message
    ensures e.NonError? ==> r == fallback
  {
    match e
    case ErrorObject(m) => m
    case NonError => fallback
  }

  /** A `string | null` state used as a condition (`error ? … : …`): `null`
      and the empty string are falsy, any other string is truthy. */
  predicate TruthyText(m: Option<string>) {
    m.Some? && m.value != ""
  }

  /** The `TypeError` a property read on `null` or `undefined` raises. */
  function PropertyReadError(base: Attr, property: string): (e: Exception)
    requires !base.Str?
    ensures e.ErrorObject?
  {
    ErrorObject("Cannot read properties of " + base.Interpolated() + " (reading '" + property + "')")
  }

  /** The outcome of one `fetch` whose body is then read as JSON: the call
      (or reading the body) throws, the response is not ok and its JSON
      carries `error?.message`, or the response is ok. */
  datatype FetchOutcome = Threw(e: Exception) | NotOk(errorMessage: Attr) | Ok

  /** The outcome of fetching a list from the CMS: the call throws, the
      response is not ok, or it is ok and its JSON has a `data` list or not. */
  datatype ListFetch<T> = ListThrew(e: Exception) | ListNotOk | ListOk(data: Option<seq<T>>)
}
