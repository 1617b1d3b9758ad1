/**
 * How `NetworkManager.endpointCall` turns what the data task delivered into the
 * result of its `Future`: the status check and error-body classification of its
 * `tryMap` step, the error mapping of its `sink`, and the rule that the first
 * promise call fixes the result.
 */
module EndpointCall {
  import opened Wrappers
  import opened NetworkErrors

  /** A `DecodingError` thrown by `JSONDecoder`. */
  datatype DecodingError = DecodingError(description: string)

  /** The result of decoding a body as some type. */
  datatype Decoded<T> = Decoded(value: T) | Undecodable(error: DecodingError)

  /** The errors that can reach the `sink`. */
  datatype ThrownError =
    | Network(networkError: NetworkError)
    | Request(requestError: RequestError)
    | Decoding(decodingError: DecodingError)
    | Transport(code: int)   // a `URLError` from the data task itself

  /** What a `Future` is fulfilled with. */
  datatype Outcome<T> = Success(value: T) | Failure(error: ThrownError)

  /**
   * What the data task delivered: a transport failure, or a response with its
   * status code (none when the response is not an HTTP response) and its body
   * decoded as an error model and as the expected type.
   */
  datatype Exchange<T> =
    | TransportFailed(code: int)
    | Responded(status: Option<int>, errorBody: Decoded<RequestErrorModel>, valueBody: Decoded<T>)

  const NoSuchSkillrCode: string := "No such skillr"
  const RateLimitName: string := "RateLimitError"
  const NoSuchSkillrMessage: string := "NetworkErrorCodes.Skillr.NoSuchSkillr"
  const RateLimitMessage: string := "NetworkErrorCodes.User.rateLimit"

  predicate IsSuccessStatus(status: Option<int>) {
    status.Some? && 200 <= status.value <= 299
  }

  /** The request error thrown for a decoded error body. */
  function ClassifyErrorModel(m: RequestErrorModel): (r: RequestError)
    ensures r.code == None
    ensures m.errorcode == Some(NoSuchSkillrCode) ==> r.message == Some(NoSuchSkillrMessage)
    ensures m.errorcode == None && m.name == Some(RateLimitName) ==> r.message == Some(RateLimitMessage)
    ensures m.errorcode != Some(NoSuchSkillrCode) && !(m.errorcode == None && m.name == Some(RateLimitName)) ==>
              r.message == m.message
  {
    if m.errorcode == Some(NoSuchSkillrCode) then NewRequestError(Some(NoSuchSkillrMessage))
    else if m.errorcode == None && m.name == Some(RateLimitName) then NewRequestError(Some(RateLimitMessage))
    else NewRequestError(m.message)
  }

  /** The `sink`'s mapping of a failure: decoding and request errors pass, anything else is `unknown`. */
  function SinkFailure<T>(e: ThrownError): (r: Outcome<T>)
    ensures r.Failure?
    ensures e.Decoding? || e.Request? ==> r.error == e
    ensures !(e.Decoding? || e.Request?) ==> r.error == Network(Unknown)
  {
    match e
    case Decoding(_) => Failure(e)
    case Request(_) => Failure(e)
    case Network(_) => Failure(Network(Unknown))
    case Transport(_) => Failure(Network(Unknown))
  }

  /**
   * The outcome `endpointCall` promises, stated as the classification table:
   * an unparsable URL, a transport failure, a 2xx status, status 500, and any
   * other status with a decodable or an undecodable error body.
   */
  function Classify<T>(urlParses: bool, x: Exchange<T>): (r: Outcome<T>)
    ensures r == Failure(Network(InvalidURL)) <==> !urlParses
    ensures r.Success? <==> urlParses && x.Responded? && IsSuccessStatus(x.status) && x.valueBody.Decoded?
    ensures r.Success? ==> r.value == x.valueBody.value
    ensures r == Failure(Network(ServerError)) <==> urlParses && x.Responded? && x.status == Some(500)
    ensures r == Failure(Network(Unknown)) <==> urlParses && x.TransportFailed?
    ensures r.Failure? ==> r.error != Network(ResponseError) && !r.error.Transport?
    ensures r.Failure? && r.error.Request? ==>
              urlParses && x.Responded? && !IsSuccessStatus(x.status) && x.status != Some(500) &&
              x.errorBody.Decoded? && r.error.requestError == ClassifyErrorModel(x.errorBody.value)
    ensures r.Failure? && r.error.Decoding? ==>
              urlParses && x.Responded? && x.status != Some(500) &&
              (if IsSuccessStatus(x.status) then x.valueBody == Undecodable(r.error.decodingError)
               else x.errorBody == Undecodable(r.error.decodingError))
  {
    if !urlParses then Failure(Network(InvalidURL))
    else match x
      case TransportFailed(_) => Failure(Network(Unknown))
      case Responded(status, errorBody, valueBody) =>
        if IsSuccessStatus(status) then
          match valueBody
          case Decoded(v) => Success(v)
          case Undecodable(e) => Failure(Decoding(e))
        else if status == Some(500) then Failure(Network(ServerError))
        else
          match errorBody
          case Decoded(m) => Failure(Request(ClassifyErrorModel(m)))
          case Undecodable(e) => Failure(Decoding(e))
  }

  /** A Combine `Future`: once fulfilled, later promise calls are ignored. */
  class Future<T> {
    var result: Option<Outcome<T>>

    constructor ()
      ensures result == None
    {
      result := None;
    }

    /** The `promise` closure. */
    method Promise(o: Outcome<T>)
      modifies this
      ensures result == if old(result).None? then Some(o) else old(result)
    {
      if result.None? {
        result := Some(o);
      }
    }
  }

  /** The result of the `tryMap` step: the data passed on, or the error it throws. */
  datatype Step = Pass | Throw(error: ThrownError)

  /**
   * The `tryMap` closure, given the future it may fulfil directly: a 2xx status
   * passes, 500 promises and throws `serverError`, anything else throws the error
   * classified from the decoded body or the decoding error.
   */
  method TryMap<T>(future: Future<T>, status: Option<int>, errorBody: Decoded<RequestErrorModel>)
    returns (step: Step)
    modifies future
    ensures step.Pass? <==> IsSuccessStatus(status)
    ensures status == Some(500) ==>
              step == Throw(Network(ServerError)) &&
              future.result == if old(future.result).None? then Some(Failure(Network(ServerError))) else old(future.result)
    ensures status != Some(500) ==> future.result == old(future.result)
    ensures !IsSuccessStatus(status) && status != Some(500) ==>
              step == Throw(match errorBody
                            case Decoded(m) => Request(ClassifyErrorModel(m))
                            case Undecodable(e) => Decoding(e))
  {
    if !IsSuccessStatus(status) {
      if status == Some(500) {
        future.Promise(Failure(Network(ServerError)));
        return Throw(Network(ServerError));
      } else {
        match errorBody {
          case Undecodable(e) =>
            return Throw(Decoding(e));
          case Decoded(decodedData) =>
            if decodedData.errorcode == Some(NoSuchSkillrCode) {
              return Throw(Request(NewRequestError(Some(NoSuchSkillrMessage))));
            } else if decodedData.errorcode == None && decodedData.name == Some(RateLimitName) {
              return Throw(Request(NewRequestError(Some(RateLimitMessage))));
            }
            return Throw(Request(NewRequestError(decodedData.message)));
        }
      }
    }
    return Pass;
  }

  /**
   * `endpointCall` from the URL check to the `sink`: every promise call the code
   * makes, in order, on a fresh future; the result is the one the first call fixed.
   */
  method EndpointCall<T>(urlParses: bool, x: Exchange<T>) returns (o: Outcome<T>)
    ensures o == Classify(urlParses, x)
  {
    var future := new Future<T>();
    if !urlParses {
      future.Promise(Failure(Network(InvalidURL)));
    } else {
      match x {
        case TransportFailed(code) =>
          future.Promise(SinkFailure(Transport(code)));
        case Responded(status, errorBody, valueBody) =>
          var step := TryMap(future, status, errorBody);
          match step {
            case Throw(e) =>
              future.Promise(SinkFailure(e));
            case Pass =>
              match valueBody {
                case Undecodable(e) => future.Promise(SinkFailure(Decoding(e)));
                case Decoded(v) => future.Promise(Success(v));
              }
          }
      }
    }
    o := future.result.value;
  }
}
