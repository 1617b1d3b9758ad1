/** The error taxonomy of the networking layer. */
module NetworkErrors {
  import opened Wrappers

  /**
   * An error body the backend defined. The source declares `code` as a constant
   * initialised to nil, so no RequestError ever has one.
   */
  datatype RequestError = RequestError(code: Option<int>, message: Option<string>)

  /** The memberwise initialiser: only the message can be given. */
  function NewRequestError(message: Option<string>): (r: RequestError)
    ensures r.code == None && r.message == message
  {
    RequestError(None, message)
  }

  /** The JSON shape of a backend error body; every field may be missing. */
  datatype RequestErrorModel = RequestErrorModel(
    name: Option<string>,
    message: Option<string>,
    errorcode: Option<string>,
    errors: Option<seq<string>>)

  datatype NetworkError = InvalidURL | ResponseError | Unknown | ServerError

  /** The localised description of a network error. */
  function ErrorDescription(e: NetworkError): (r: Option<string>)
    ensures r.Some? && r.value != []
  {
    match e
    case InvalidURL => Some("Invalid URL")
    case ResponseError => Some("Unexpected status code")
    case Unknown => Some("Something went wrong")
    case ServerError => Some("Unknown error")
  }

  /** Distinct errors are described differently. */
  lemma ErrorDescriptionInjective(e1: NetworkError, e2: NetworkError)
    requires ErrorDescription(e1) == ErrorDescription(e2)
    ensures e1 == e2
  {
  }
}
