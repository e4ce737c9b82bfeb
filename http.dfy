/** What the model needs of an HTTP exchange: the outgoing request, the error response,
    and the reply an observable delivers (a body, or an error). */
module Http {

  /** `HttpErrorResponse.error`: an `ErrorEvent` raised on the client, or the body the
      server sent. `ServerSide` carries a string `message`; `ServerValue` is a body whose
      `message` is not a string but is truthy (an array, an object, a non-zero number,
      `true`); `NoMessage` is a body without `message`, or with a falsy non-string one
      (`null`, `0`, `false`), or no body at all. */
  datatype ErrorBody = ClientSide(message: string) | ServerSide(message: string) | ServerValue | NoMessage

  datatype HttpErrorResponse = HttpErrorResponse(status: nat, error: ErrorBody)

  datatype HttpReply<T> = Success(body: T) | Failure(response: HttpErrorResponse)

  datatype HttpRequest = HttpRequest(httpMethod: string, url: string, headers: map<string, string>, body: string)

  /** A value an observable raises, as `typeof error === 'string'` tells them apart. */
  datatype Thrown = ThrownString(text: string) | ThrownObject

  /** What a page shows for a failed request: a string error as it is, anything else
      as the page's fixed text. */
  function ShownError(e: Thrown, fallback: string): (r: string)
    ensures e.ThrownString? ==> r == e.text
    ensures e.ThrownObject? ==> r == fallback
  {
    match e
    case ThrownString(text) => text
    case ThrownObject => fallback
  }
}
