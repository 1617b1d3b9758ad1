/**
 * The request builder of `NetworkManager`: the HTTP method per endpoint, the headers,
 * the JSON or multipart body, and the move of GET parameters into the URL query.
 */
module NetworkManager {
  import opened Wrappers
  import opened Text
  import opened Utf8
  import opened NetworkConstants
  import opened Media
  import opened Multipart
  import opened UserDefaultsKeys

  const BoundaryPrefix: string := "Boundary-"
  const ApplicationJson: string := "application/json"
  const MultipartFormData: string := "multipart/form-data; boundary="

  /** `generateBoundary`, with the UUID string as input. */
  function GenerateBoundary(uuid: string): (r: string)
    ensures BoundaryPrefix <= r && r[|BoundaryPrefix|..] == uuid
  {
    BoundaryPrefix + uuid
  }

  /** `setRequestMethod`: the skillr list is fetched, login and token refresh post. */
  function SetRequestMethod(e: Endpoint): (r: RequestMethod)
    ensures r == Get <==> e.RetrieveSkillrList?
    ensures r == Post <==> !e.RetrieveSkillrList?
  {
    match e
    case RetrieveSkillrList(_) => Get
    case Login => Post
    case RefreshToken => Post
  }

  /**
   * A URL split the way URL components split it at the query: everything before the
   * first '?', and the percent-encoded query after it, if any.
   */
  datatype UrlComponents = UrlComponents(beforeQuery: string, percentEncodedQuery: Option<string>)

  predicate WellFormed(c: UrlComponents) {
    '?' !in c.beforeQuery
  }

  /** The absolute string of the components' URL. */
  function UrlString(c: UrlComponents): string {
    c.beforeQuery + (if c.percentEncodedQuery.Some? then "?" + c.percentEncodedQuery.value else "")
  }

  /** Splitting a URL string at its first '?'. */
  function ParseUrl(s: string): (r: UrlComponents)
    ensures WellFormed(r)
  {
    match IndexOf(s, '?')
    case None => UrlComponents(s, None)
    case Some(i) => UrlComponents(s[..i], Some(s[i + 1..]))
  }

  lemma ParseUrlString(s: string)
    ensures UrlString(ParseUrl(s)) == s
  {
    match IndexOf(s, '?')
    case None =>
    case Some(i) =>
      assert s == s[..i] + "?" + s[i + 1..];
  }

  lemma UrlStringParse(c: UrlComponents)
    requires WellFormed(c)
    ensures ParseUrl(UrlString(c)) == c
  {
    if c.percentEncodedQuery.Some? {
      var q := c.percentEncodedQuery.value;
      IndexOfAppend(c.beforeQuery, "?" + q, '?');
      assert c.beforeQuery + ("?" + q) == UrlString(c);
      assert UrlString(c)[|c.beforeQuery| + 1..] == q;
    }
  }

  /** The components of the endpoint URL `baseURL + value`, as `endpointCall` builds them. */
  function EndpointComponents(e: Endpoint): (r: UrlComponents)
    ensures UrlString(r) == BaseURL + Value(e)
  {
    ParseUrlString(BaseURL + Value(e));
    ParseUrl(BaseURL + Value(e))
  }

  /** The skillr list URL before any query holds no '?'. */
  lemma SkillrListUrlHasNoQuery()
    ensures '?' !in BaseURL + SkillrListPath
  {
  }

  lemma SkillrUrlText(base: string, q: string)
    ensures base + Value(RetrieveSkillrList(Some("?" + q))) == (base + SkillrListPath) + ("?" + q)
  {
    assert Value(RetrieveSkillrList(Some("?" + q))) == SkillrListPath + ("?" + q);
  }

  /** Behind any base without '?', a skillr query written as `?...` becomes the URL query. */
  lemma SkillrQueryAfterBase(base: string, q: string)
    requires '?' !in base + SkillrListPath
    ensures ParseUrl(base + Value(RetrieveSkillrList(Some("?" + q))))
         == UrlComponents(base + SkillrListPath, Some(q))
  {
    var c := UrlComponents(base + SkillrListPath, Some(q));
    SkillrUrlText(base, q);
    UrlStringParse(c);
  }

  /** A skillr query written as `?...` becomes the endpoint URL's query. */
  lemma SkillrQueryIsUrlQuery(q: string)
    ensures EndpointComponents(RetrieveSkillrList(Some("?" + q)))
         == UrlComponents(BaseURL + SkillrListPath, Some(q))
  {
    SkillrListUrlHasNoQuery();
    SkillrQueryAfterBase(BaseURL, q);
  }

  /** `URLQueryItem`: a name and an optional value. */
  datatype QueryItem = QueryItem(name: string, value: Option<string>)

  /** Parameters as query items: a non-string value gives an item without a value. */
  function QueryItems(ps: Params): (r: seq<QueryItem>)
    ensures |r| == |ps|
    ensures forall i :: 0 <= i < |ps| ==> r[i].name == ps[i].0
    ensures forall i :: 0 <= i < |ps| ==> (r[i].value.Some? <==> ps[i].1.Str?)
    ensures forall i :: 0 <= i < |ps| && ps[i].1.Str? ==> r[i].value == Some(ps[i].1.text)
  {
    if ps == [] then []
    else
      var v := if ps[0].1.Str? then Some(ps[0].1.text) else None;
      [QueryItem(ps[0].0, v)] + QueryItems(ps[1..])
  }

  /**
   * The percent-encoded query of a list of items: `name=value` or a bare `name`,
   * joined by '&'. The percent-encoding of one name or value is an input.
   */
  function PercentEncodedQuery(items: seq<QueryItem>, pct: string -> string): string {
    if items == [] then ""
    else
      var first := pct(items[0].name) + (if items[0].value.Some? then "=" + pct(items[0].value.value) else "");
      if |items| == 1 then first else first + "&" + PercentEncodedQuery(items[1..], pct)
  }

  /** `URLRequest`: its method, its header fields, its body. */
  datatype Request = Request(url: string, httpMethod: string, headers: map<string, string>, body: Option<seq<Byte>>)

  /** `URLRequest(url:)`: method GET, no header fields, no body. */
  function NewRequest(url: string): (r: Request)
    ensures r.url == url && r.httpMethod == RequestMethodRawValue(Get)
    ensures r.headers == map[] && r.body == None
  {
    Request(url, "GET", map[], None)
  }

  /** The request `setUrlRequest` builds goes through the query path exactly for a GET with parameters. */
  predicate QueryPath(endpoint: Endpoint, params: Option<Params>) {
    params.Some? && endpoint.RetrieveSkillrList?
  }

  /**
   * The header fields `setUrlRequest` sets: the bearer token exactly when the endpoint
   * needs it, the multipart content type with the body's boundary when there is media,
   * and JSON content type and accept fields otherwise.
   */
  predicate HasEndpointHeaders(request: Request, endpoint: Endpoint, hasMedia: bool, jwt: Option<string>, boundary: string) {
    var h := request.headers;
    h.Keys <= {"Authorization", "Content-Type", "Accept"} &&
    ("Authorization" in h <==> IncludeBearerToken(endpoint)) &&
    ("Authorization" in h ==> h["Authorization"] == "Bearer " + jwt.GetOr("")) &&
    "Content-Type" in h &&
    ("Accept" in h <==> !hasMedia) &&
    (hasMedia ==> h["Content-Type"] == MultipartFormData + boundary) &&
    (!hasMedia ==> h["Content-Type"] == ApplicationJson && h["Accept"] == ApplicationJson)
  }

  /** The first steps of `setUrlRequest`: a request for the URL, its method, and its header fields. */
  method ConfiguredRequest(url: UrlComponents, hasMedia: bool, endpoint: Endpoint, defaults: UserDefaults, boundary: string)
    returns (request: Request)
    ensures request.url == UrlString(url) && request.body == None
    ensures request.httpMethod == RequestMethodRawValue(SetRequestMethod(endpoint))
    ensures HasEndpointHeaders(request, endpoint, hasMedia, defaults.Jwt(), boundary)
  {
    request := NewRequest(UrlString(url));
    request := request.(httpMethod := RequestMethodRawValue(SetRequestMethod(endpoint)));
    if IncludeBearerToken(endpoint) {
      request := request.(headers := request.headers["Authorization" := "Bearer " + defaults.Jwt().GetOr("")]);
    }
    if hasMedia {
      request := request.(headers := request.headers["Content-Type" := MultipartFormData + boundary]);
    } else {
      request := request.(headers := request.headers["Content-Type" := ApplicationJson]);
      request := request.(headers := request.headers["Accept" := ApplicationJson]);
    }
  }

  /** Whether a method string is POST or PUT, the methods that carry the parameters in the body. */
  predicate SendsBody(httpMethod: string) {
    httpMethod == RequestMethodRawValue(Post) || httpMethod == RequestMethodRawValue(Put)
  }

  lemma SendsBodyUnlessQueryPath(endpoint: Endpoint)
    ensures SendsBody(RequestMethodRawValue(SetRequestMethod(endpoint))) <==> !endpoint.RetrieveSkillrList?
  {
    RequestMethodRawValueRoundTrip(SetRequestMethod(endpoint));
    RequestMethodRawValueRoundTrip(Post);
    RequestMethodRawValueRoundTrip(Put);
  }

  /**
   * `setUrlRequest`. The stored token is read from `defaults`; the UUID of the
   * boundary, the JSON serialisation of the parameters and the percent-encoding
   * of query names and values are inputs.
   */
  method SetUrlRequest(url: UrlComponents, params: Option<Params>, media: Option<Media>, endpoint: Endpoint,
                       defaults: UserDefaults, uuid: string, json: Option<seq<Byte>>, pct: string -> string)
    returns (request: Request)
    requires WellFormed(url)
    requires media.Some? && params.Some? ==> AllStrings(params.value)
    // the query path: the request is rebuilt from the URL alone
    ensures QueryPath(endpoint, params) ==>
      var c := ParseUrl(request.url);
      c.beforeQuery == url.beforeQuery &&
      c.percentEncodedQuery == Some(ReplacePlus(PercentEncodedQuery(QueryItems(params.value), pct))) &&
      '+' !in c.percentEncodedQuery.value &&
      request.httpMethod == RequestMethodRawValue(Get) && request.headers == map[]
    // otherwise: the endpoint URL, its method, and its header fields
    ensures !QueryPath(endpoint, params) ==>
      request.url == UrlString(url) && request.httpMethod == RequestMethodRawValue(SetRequestMethod(endpoint)) &&
      HasEndpointHeaders(request, endpoint, media.Some?, defaults.Jwt(), GenerateBoundary(uuid))
    // the body
    ensures media.Some? ==> request.body == Some(MultipartBody(params, media, GenerateBoundary(uuid)))
    ensures media.None? && params.Some? && !QueryPath(endpoint, params) ==> request.body == json
    ensures media.None? && (params.None? || QueryPath(endpoint, params)) ==> request.body == None
  {
    var boundary := GenerateBoundary(uuid);
    request := ConfiguredRequest(url, media.Some?, endpoint, defaults, boundary);
    if params.Some? {
      SendsBodyUnlessQueryPath(endpoint);
      if SendsBody(request.httpMethod) {
        if media.Some? {
          var dataBody := CreateDataBody(params, media, boundary);
          request := request.(body := Some(dataBody));
        } else {
          request := request.(body := json);
        }
      } else {
        var components := ParseUrl(UrlString(url));
        UrlStringParse(url);
        components := components.(percentEncodedQuery := Some(PercentEncodedQuery(QueryItems(params.value), pct)));
        var replacingPlus := ReplacePlus(components.percentEncodedQuery.value);
        components := components.(percentEncodedQuery := Some(replacingPlus));
        request := NewRequest(UrlString(components));
        UrlStringParse(components);
      }
    }
    if media.Some? {
      var dataBody := CreateDataBody(params, media, boundary);
      request := request.(body := Some(dataBody));
    }
  }

  /** The favourites list, the one endpoint that needs the bearer token. */
  const FavouritesList: Endpoint := RetrieveSkillrList(Some("?" + FavouritesMarker))

  /** The favourites list needs the token, and its URL query is the favourites marker. */
  lemma FavouritesListFacts()
    ensures IncludeBearerToken(FavouritesList)
    ensures EndpointComponents(FavouritesList) == UrlComponents(BaseURL + SkillrListPath, Some(FavouritesMarker))
    ensures WellFormed(EndpointComponents(FavouritesList))
  {
    assert OccursAt("?" + FavouritesMarker, FavouritesMarker, 1);
    SkillrQueryIsUrlQuery(FavouritesMarker);
  }

  /** The query of the single item `page=1`, when percent-encoding leaves its name and value alone. */
  lemma PageQueryText(pct: string -> string)
    requires pct("page") == "page" && pct("1") == "1"
    ensures ReplacePlus(PercentEncodedQuery([QueryItem("page", Some("1"))], pct)) == "page=1"
    ensures !ContainsSubstring("page=1", FavouritesMarker)
  {
    assert PercentEncodedQuery([QueryItem("page", Some("1"))], pct) == "page=1";
    HasSubstringCorrect("page=1", FavouritesMarker);
  }

  /**
   * The favourites list fetched with one more parameter: the request that is sent
   * carries no bearer token, and its query no longer asks for favourites.
   */
  method FavouritesPageLosesToken(defaults: UserDefaults, uuid: string, pct: string -> string)
    returns (request: Request)
    requires pct("page") == "page" && pct("1") == "1"
    ensures IncludeBearerToken(FavouritesList) && "Authorization" !in request.headers
    ensures ParseUrl(request.url).percentEncodedQuery == Some("page=1")
    ensures !ContainsSubstring(ParseUrl(request.url).percentEncodedQuery.value, FavouritesMarker)
  {
    FavouritesListFacts();
    var url := EndpointComponents(FavouritesList);
    var params := [("page", ParamValue.Str("1"))];
    assert QueryItems(params) == [QueryItem("page", Some("1"))];
    PageQueryText(pct);
    request := SetUrlRequest(url, Some(params), None, FavouritesList, defaults, uuid, None, pct);
  }

  /** The endpoint's own query followed by the parameters' query. */
  function JoinQueries(existing: string, added: string): (r: string)
    ensures existing <= r
    ensures existing == "" ==> r == added
    ensures added == "" ==> r == existing
    ensures existing != "" && added != "" ==> |r| == |existing| + 1 + |added| && r[|existing|] == '&' && r[|existing| + 1..] == added
  {
    if existing == "" then added
    else if added == "" then existing
    else existing + "&" + added
  }

  /** Rewriting the joined query keeps the rewritten existing query in front. */
  lemma JoinedQueryKeepsExisting(existing: string, added: string)
    ensures ReplacePlus(existing) <= ReplacePlus(JoinQueries(existing, added))
  {
    var query := JoinQueries(existing, added);
    assert query == existing + query[|existing|..];
    ReplacePlusAppend(existing, query[|existing|..]);
  }

  /**
   * `setUrlRequest` as intended: GET parameters are added to the endpoint's own query,
   * and the method and header fields set before are kept.
   */
  method SetUrlRequestKeepingHeaders(url: UrlComponents, params: Option<Params>, media: Option<Media>, endpoint: Endpoint,
                                     defaults: UserDefaults, uuid: string, json: Option<seq<Byte>>, pct: string -> string)
    returns (request: Request)
    requires WellFormed(url)
    requires media.Some? && params.Some? ==> AllStrings(params.value)
    ensures request.httpMethod == RequestMethodRawValue(SetRequestMethod(endpoint))
    ensures HasEndpointHeaders(request, endpoint, media.Some?, defaults.Jwt(), GenerateBoundary(uuid))
    ensures QueryPath(endpoint, params) ==>
      var c := ParseUrl(request.url);
      var added := PercentEncodedQuery(QueryItems(params.value), pct);
      c.beforeQuery == url.beforeQuery &&
      c.percentEncodedQuery == Some(ReplacePlus(JoinQueries(url.percentEncodedQuery.GetOr(""), added))) &&
      ReplacePlus(url.percentEncodedQuery.GetOr("")) <= c.percentEncodedQuery.value &&
      '+' !in c.percentEncodedQuery.value
    ensures !QueryPath(endpoint, params) ==> request.url == UrlString(url)
    ensures media.Some? ==> request.body == Some(MultipartBody(params, media, GenerateBoundary(uuid)))
    ensures media.None? && params.Some? && !QueryPath(endpoint, params) ==> request.body == json
    ensures media.None? && (params.None? || QueryPath(endpoint, params)) ==> request.body == None
  {
    var boundary := GenerateBoundary(uuid);
    request := ConfiguredRequest(url, media.Some?, endpoint, defaults, boundary);
    if params.Some? {
      SendsBodyUnlessQueryPath(endpoint);
      if SendsBody(request.httpMethod) {
        if media.Some? {
          var dataBody := CreateDataBody(params, media, boundary);
          request := request.(body := Some(dataBody));
        } else {
          request := request.(body := json);
        }
      } else {
        var existing := url.percentEncodedQuery.GetOr("");
        var query := JoinQueries(existing, PercentEncodedQuery(QueryItems(params.value), pct));
        JoinedQueryKeepsExisting(existing, PercentEncodedQuery(QueryItems(params.value), pct));
        var components := url.(percentEncodedQuery := Some(ReplacePlus(query)));
        request := request.(url := UrlString(components));
        UrlStringParse(components);
      }
    }
    if media.Some? {
      var dataBody := CreateDataBody(params, media, boundary);
      request := request.(body := Some(dataBody));
    }
  }

  /** With the correction, the favourites list keeps its token and its favourites query. */
  method FavouritesPageKeepsToken(defaults: UserDefaults, uuid: string, pct: string -> string)
    returns (request: Request)
    ensures "Authorization" in request.headers
    ensures request.headers["Authorization"] == "Bearer " + defaults.Jwt().GetOr("")
    ensures ReplacePlus(FavouritesMarker) <= ParseUrl(request.url).percentEncodedQuery.GetOr("")
  {
    FavouritesListFacts();
    var url := EndpointComponents(FavouritesList);
    var params := [("page", ParamValue.Str("1"))];
    request := SetUrlRequestKeepingHeaders(url, Some(params), None, FavouritesList, defaults, uuid, None, pct);
  }
}
