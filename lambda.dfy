/**
 * The request/response boundary of every handler: HTTP status codes, the
 * response body, the parsed request body and the failures of the
 * collaborators the handlers call.
 */
module Lambda {
  import opened Documents

  const StatusOK: int := 200
  const StatusBadRequest: int := 400
  const StatusNotFound: int := 404
  const StatusInternalServerError: int := 500

  /** What a response carries as its body (the JSON text itself is not modelled). */
  datatype ResponseBody =
    | NoBody
    | PageBody(page: Page)
    | SiteBody(site: Site)
    | PagesBody(pages: set<Page>)
    | RawBody(text: string)

  /** A response; the fixed CORS and content-type headers are left out. */
  datatype Response = Response(status: int, body: ResponseBody)

  /** A response with a status and no body. */
  function Status(code: int): Response {
    Response(code, NoBody)
  }

  /**
   * The collaborator call that reports an error during one invocation, if
   * any. A handler that never makes the named call behaves as for NoFault.
   */
  datatype Fault =
    | NoFault
    | GetFails         // db.GetItem
    | DecodeFails      // dynamodbattribute.UnmarshalMap / UnmarshalListOfMaps
    | EncodeItemFails  // dynamodbattribute.MarshalMap
    | PutFails         // db.PutItem
    | ResponseFails    // json.Marshal of the response body
    | BuildFails       // expression builder Build
    | QueryFails       // db.Query
    | DeleteFails      // db.DeleteItem

  /** The request body after json.Unmarshal: either malformed or a decoded value. */
  datatype Body<T> = Malformed | Parsed(value: T)

  /** A handler's response together with the table state it leaves behind. */
  datatype Outcome<S> = Outcome(response: Response, state: S)

  /** Whether the GetItem call and the UnmarshalMap of its item both succeed. */
  predicate ReadOk(fault: Fault) {
    fault != GetFails && fault != DecodeFails
  }

  /** Whether the MarshalMap and PutItem calls both succeed once reached. */
  predicate WriteOk(fault: Fault) {
    fault != EncodeItemFails && fault != PutFails
  }
}
