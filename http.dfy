/** The values of the Fetch standard that the service worker inspects, reduced to
    the parts it looks at: a request's method and URL path, a response's status,
    body and Content-Type, and whether a network fetch settled or was rejected. */
module Http {

  datatype Option<+T> = None | Some(value: T)

  /** A same-origin request: its method (`verb`, as the browser reports it) and the
      pathname of its URL, which also serves as the cache key. */
  datatype Request = Request(verb: string, path: string)

  /** A response: status code, body text and the value of its Content-Type header. */
  datatype Response = Response(status: int, body: string, contentType: string) {

    /** `response.ok` of the Fetch standard: the status is in 200-299. */
    predicate Ok() {
      200 <= status <= 299
    }
  }

  /** What `fetch(request)` settles to: a response, ok or not, or a rejection
      (no connection, DNS failure, ...). */
  datatype NetOutcome = Fetched(response: Response) | Failed

  /** How the page sees the answer to one fetch event: the worker did not call
      `respondWith` (the browser then does its own fetch), it answered with a
      response, or the promise it passed to `respondWith` was rejected, which the
      page sees as a network error. */
  datatype Outcome = NotHandled | Respond(response: Response) | NetworkError
}
