/**
 * The Solana Actions documents and the HTTP responses that carry them, reduced
 * to what the lock route decides: status, JSON body and whether the standard
 * Actions CORS headers are attached.
 */
module Actions {
  import opened Wrappers

  /** A named input the client fills into an href template. */
  // `label` is a keyword of Dafny: the JSON field `label` is `labelText` here.
  datatype ActionParameter = ActionParameter(name: string, labelText: string)

  /** One entry of `links.actions`: a fixed href, or a template with parameters. */
  datatype LinkedAction = LinkedAction(labelText: string, href: string, parameters: Option<seq<ActionParameter>>)

  /** The discovery document returned by GET. */
  datatype ActionGetResponse = ActionGetResponse(icon: string, labelText: string, description: string,
                                                 title: string, actions: seq<LinkedAction>)

  /** The JSON bodies the route can send. */
  datatype JsonBody =
    | GetPayload(document: ActionGetResponse)   // GET / OPTIONS payload
    | PostPayload(transaction: string)          // POST payload: the encoded unsigned transaction
    | Message(message: string)                  // `{ message: ... }`
    | Text(text: string)                        // a bare JSON string

  /** An HTTP response; `cors` records that the Actions CORS headers are attached. */
  datatype HttpResponse = HttpResponse(status: int, body: JsonBody, cors: bool)
}
