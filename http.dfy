/** The parts of an HTTP exchange the handlers read and write. */
module Http {
  import opened Wrappers
  import opened Js

  /** The parsed query string: each parameter given once, as text. */
  type QueryString = map<string, string>

  /** A JSON object as the handlers send it. */
  type Json = map<string, Value>

  datatype Body =
    | Empty
    | Object(fields: Json)
    | Objects(items: seq<Json>)
      /** `{offset, limit, count, <key>: items}` as the listing handlers build it. */
    | Listing(offset: Num, limit: Num, count: nat, key: string, items: seq<Json>)
      /** `{<key>: message}`: the GP lookup answers under "error", every other handler under "errors". */
    | Error(key: string, message: string)

  /** The status, the `Auth` header when one is set, and the body. */
  datatype Response = Response(status: nat, auth: Option<string>, body: Body)

  /** What the client gets: a response, or nothing when the handler throws before it sends one. */
  datatype Reply = Sent(response: Response) | NoReply

  /** `key` is present with a non-empty value: `q.hasOwnProperty(key) && q[key].length > 0`. */
  predicate NonEmpty(q: QueryString, key: string) {
    key in q && |q[key]| > 0
  }
}
