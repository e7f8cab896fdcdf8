/**
 * Values shared by the client pages and the two API routes: the documents of
 * the "drawings" collection, the records /api/list sends back, the body the
 * new-drawing page posts to /api/save, and JSON responses with their status.
 */
module Documents {

  /** A stored document: the id the store assigned plus the three fields save writes. */
  datatype Doc = Doc(id: string, userId: string, name: string, drawing: string)

  /** One element of the JSON array /api/list answers with. */
  datatype ListRecord = ListRecord(drawingId: string, userId: string, name: string, drawing: string)

  /** The JSON body of a save request: `{userId, drawingName, drawingData}`. */
  datatype SaveBody = SaveBody(userId: string, drawingName: string, drawingData: string)

  /** A request to /api/save: its HTTP method (`verb`) and its parsed body. */
  datatype SaveRequest = SaveRequest(verb: string, body: SaveBody)

  /** A request to /api/list: its HTTP method (`verb`) and its `userId` query parameter. */
  datatype ListRequest = ListRequest(verb: string, userId: string)

  /** A JSON response body: either `{message}` or an array of list records. */
  datatype Body = Message(message: string) | Records(records: seq<ListRecord>)

  datatype Response = Response(status: int, body: Body)

  /** Status classes of RFC 9110, section 15.3 (2xx), 15.5 (4xx) and 15.6 (5xx). */
  predicate Successful(status: int) { 200 <= status <= 299 }
  predicate ClientError(status: int) { 400 <= status <= 499 }
  predicate ServerError(status: int) { 500 <= status <= 599 }

  /** Both routes answer a method they do not serve with 400 `{message: "Bad request"}`. */
  const BadRequest: Response := Response(400, Message("Bad request"))
}
