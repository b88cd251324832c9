/** The shapes of the HTTP exchanges the serverless handlers take part in. */
module Http {
  import opened Types

  /** The outcome of `await req.json()`: the body either parses or the call throws. */
  datatype Json<T> = Unparsable(message: string) | Parsed(value: T)

  datatype Request<T> = Request(verb: string, body: Json<T>)

  /** What a call into the generative model gives back: a value, or an exception. */
  datatype Gen<T> = Returned(value: T) | Threw

  /** The payload of a response. `Record` carries the stored object written back. */
  datatype Body =
    | PlainText(text: string)
    | ErrorJson(error: string)
    | Record(value: Raw)
    | Saved
    | ReplyJson(reply: Option<string>)
    | TextStream

  datatype Response = Response(status: int, body: Body)

  /** What a handler leaves behind: its response and the store's new contents. */
  datatype Outcome = Outcome(resp: Response, entries: map<string, Raw>)

  const MethodNotAllowed := Response(405, PlainText("Method Not Allowed"))
}
