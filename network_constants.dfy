/**
 * The endpoint catalog: the fixed API operations, the path each one maps to, whether
 * it needs a bearer token, the HTTP request methods and the base URL the paths are
 * appended to.
 */
module NetworkConstants {
  import opened Wrappers
  import opened Text

  /** The environments the API is deployed in. */
  datatype BaseAPI = Prod | Staging | Development

  function BaseAPIRawValue(b: BaseAPI): string {
    match b
    case Prod => "https://api-production.fryends.com/api"
    case Staging => "https://api-staging.fryends.com/api"
    case Development => "http://api.fryends.com/api"
  }

  /** The base URL every endpoint path is appended to: the development API. */
  const BaseURL: string := BaseAPIRawValue(Development)

  /** HTTP request methods; `NoMethod` is the source's `.none`, whose raw value is empty. */
  datatype RequestMethod =
    | Options | Get | Head | Post | Put | Patch | Delete | Trace | Connect | NoMethod

  function RequestMethodRawValue(m: RequestMethod): string {
    match m
    case Options => "OPTIONS"
    case Get => "GET"
    case Head => "HEAD"
    case Post => "POST"
    case Put => "PUT"
    case Patch => "PATCH"
    case Delete => "DELETE"
    case Trace => "TRACE"
    case Connect => "CONNECT"
    case NoMethod => ""
  }

  /** `RequestMethod(rawValue:)`, the failable initialiser of a String-backed enum. */
  function RequestMethodFromRawValue(s: string): (r: Option<RequestMethod>)
    ensures r.Some? ==> RequestMethodRawValue(r.value) == s
  {
    if s == "OPTIONS" then Some(Options)
    else if s == "GET" then Some(Get)
    else if s == "HEAD" then Some(Head)
    else if s == "POST" then Some(Post)
    else if s == "PUT" then Some(Put)
    else if s == "PATCH" then Some(Patch)
    else if s == "DELETE" then Some(Delete)
    else if s == "TRACE" then Some(Trace)
    else if s == "CONNECT" then Some(Connect)
    else if s == "" then Some(NoMethod)
    else None
  }

  /** Raw values round-trip, so they are pairwise distinct; only `NoMethod` is empty. */
  lemma RequestMethodRawValueRoundTrip(m: RequestMethod)
    ensures RequestMethodFromRawValue(RequestMethodRawValue(m)) == Some(m)
    ensures RequestMethodRawValue(m) == "" <==> m == NoMethod
  {
  }

  lemma RequestMethodRawValueInjective(m1: RequestMethod, m2: RequestMethod)
    requires RequestMethodRawValue(m1) == RequestMethodRawValue(m2)
    ensures m1 == m2
  {
    RequestMethodRawValueRoundTrip(m1);
    RequestMethodRawValueRoundTrip(m2);
  }

  /** The API endpoints the network manager calls. */
  datatype Endpoint =
    | RefreshToken
    | Login
    | RetrieveSkillrList(query: Option<string>)

  const SkillrListPath: string := "/app/skillrs"

  /** The query fragment that marks a request for the caller's favourites. */
  const FavouritesMarker: string := "isFavourite=true"

  /** The path of an endpoint; the list query is appended verbatim. */
  function Value(e: Endpoint): (r: string)
    ensures r != [] && r[0] == '/'
    ensures e.RetrieveSkillrList? ==> SkillrListPath <= r && r[|SkillrListPath|..] == e.query.GetOr("")
  {
    match e
    case RefreshToken => "/refreshToken"
    case Login => "/login"
    case RetrieveSkillrList(query) => SkillrListPath + query.GetOr("")
  }

  /**
   * The path tells the endpoints apart: equal paths mean the same endpoint, up to
   * a missing query and an empty one, which give the same path.
   */
  lemma ValueDistinguishesEndpoints(e1: Endpoint, e2: Endpoint)
    requires Value(e1) == Value(e2)
    ensures e1.RetrieveSkillrList? <==> e2.RetrieveSkillrList?
    ensures e1.RetrieveSkillrList? ==> e1.query.GetOr("") == e2.query.GetOr("")
    ensures !e1.RetrieveSkillrList? ==> e1 == e2
  {
    SkillrPathSecondChar(e1);
    SkillrPathSecondChar(e2);
  }

  /** Only the list path has `a` after its slash. */
  lemma SkillrPathSecondChar(e: Endpoint)
    ensures |Value(e)| >= 2 && (Value(e)[1] == 'a' <==> e.RetrieveSkillrList?)
  {
  }

  /**
   * Every request URL keeps the base URL's last path segment (`api`) intact:
   * the endpoint path starts a new segment instead of extending it.
   */
  lemma RequestUrlKeepsBasePath(e: Endpoint)
    ensures BaseURL + "/" <= BaseURL + Value(e)
    ensures "http://api.fryends.com/api/" <= BaseURL + Value(e)
  {
    var v := Value(e);
    assert (BaseURL + v)[..|BaseURL| + 1] == BaseURL + [v[0]];
  }

  /** Whether the call must carry `Authorization: Bearer <token>`. */
  function IncludeBearerToken(e: Endpoint): (r: bool)
    ensures r <==> e.RetrieveSkillrList? && e.query.Some? && ContainsSubstring(e.query.value, FavouritesMarker)
  {
    match e
    case RefreshToken => false
    case Login => false
    case RetrieveSkillrList(query) =>
      if query.Some? then
        HasSubstringCorrect(query.value, FavouritesMarker);
        HasSubstring(query.value, FavouritesMarker)
      else false
  }
}
