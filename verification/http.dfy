/** What a route handler answers: a status code and the body it writes. */
module Http {
  import opened Wrappers
  import opened MessageModel

  datatype Body =
    /** `res.json({ message })` */
    | Json(message: string)
    /**
     * The answer to a provider reply that was not ok: "HTTP error: <status> <statusText>",
     * with the provider's parsed error body as `details`, or, when that body was not
     * JSON, the suffix ". Could not parse error details." and no details.
     */
    | ProviderFailure(status: int, statusText: string, details: Option<string>)
    /** `res.json(data)` with the provider's parsed reply */
    | ProviderData(data: string)
    /** `res.send(text)`; `res.sendStatus(code)` sends the status name as text */
    | PlainText(text: string)
    /** `res.json(messages)` */
    | Records(records: seq<Record>)

  datatype Response = Response(status: int, body: Body)

  /**
   * The outcome of an async handler: it wrote a response, or its promise
   * rejected before writing one (no `try`/`catch` around the failing `await`).
   */
  datatype Reply = Responded(response: Response) | NoReply
}
