# fryends networking and authentication core, in Dafny

This project models the request-building and response-classification rules of the
fryends iOS app's `NetworkManager`, the endpoint catalog and error taxonomy they use,
and the token store behind `UserAuthenticationManagerImpl`. It proves properties of
that model.

- **Endpoint catalog** (`NetworkConstants`).
  - Each endpoint maps to a path.
  - The favourites query switches the bearer token on.
  - Request-method raw values round-trip.
  - The base URL is the development API.
- **Request builder** (`NetworkManager`).
  - `SetUrlRequest` builds a `URLRequest` value step by step: the method, the `Authorization: Bearer …` header (section 2.1 of RFC 6750), the JSON or multipart `Content-Type`, and the body.
  - For a GET with parameters it rebuilds the request from a URL whose query holds the parameters, with every `+` rewritten to `%2B`.
- **Multipart serialiser** (`Multipart`).
  - `CreateDataBody` appends UTF-8 text and raw bytes to a `MutableData` buffer (the app's `NSMutableData` extension).
  - It is proved to produce exactly `MultipartBody`: the form fields (section 4.2 of RFC 7578), the `cover` field, the file part and the closing delimiter (section 5.1.1 of RFC 2046).
  - A parser reads the fields back; the round trip is proved.
  - `Utf8` models `String.data(using: .utf8)`, with a decoder proved to invert it.
- **Response classifier** (`EndpointCall`).
  - The `tryMap` step: 2xx passes, 500 promises and throws `serverError`, and other statuses throw the classified error body.
  - The `sink` mapping.
  - A `Future` class where the first promise call wins.
  - `EndpointCall` runs the promise calls in the code's order and is proved to return `Classify`, the classification table.
- **Token store** (`UserDefaultsKeys`, `UserAuthentication`).
  - The preferences store is a class with a map field. The `fcm-token` entry holds the token.
  - `UserAuthenticationManagerImpl` implements the `UserAuthenticationManager` interface (fryends/Managers/UserAuthentication/UserAuthenticationManager.swift:11-27) over that store, with frame conditions.

Inputs the code obtains from the system are parameters of the model:

| value | source in the app |
|---|---|
| boundary UUID | `NSUUID` |
| current date or timestamp | `Date()` |
| JSON serialisation of the parameters | `JSONSerialization` |
| percent-encoding of one query name or value | `URLComponents` |
| whether the endpoint URL parses | `URLComponents` |
| parameter iteration order | the Swift dictionary; the model takes a sequence |
| what the data task delivered | `URLSession` |

Non-String parameter values become value-less query items (`value as? String`). The
endpoint's own comment shows integer paging parameters, which therefore reach the
query as bare names; the model reproduces this.

An error body that cannot be decoded surfaces as a `DecodingError`. The decode at
NetworkManager.swift:151 sits in a `do` block with no `catch`, so its error reaches the
`sink`, which passes it through. The `throw NetworkError.unknown` at :162 is
unreachable. The model follows this.

## Model

| member | source | states |
|---|---|---|
| NetworkConstants.RequestMethodFromRawValue | fryends/Managers/Networking/NetworkConstants.swift:44-55 | a raw string maps back only to the method whose raw value it is |
| NetworkConstants.RequestMethodRawValueRoundTrip | fryends/Managers/Networking/NetworkConstants.swift:44-55 | every method's raw value reads back as that method, so raw values are pairwise distinct; only `.none` has the empty raw value |
| NetworkConstants.RequestMethodRawValueInjective | fryends/Managers/Networking/NetworkConstants.swift:44-55 | equal raw values mean the same method |
| NetworkConstants.Value | fryends/Managers/Networking/NetworkConstants.swift:87-96 | every path is non-empty and starts with '/'; the skillr list path is `/app/skillrs` followed by the query verbatim, or nothing for nil |
| NetworkConstants.ValueDistinguishesEndpoints | fryends/Managers/Networking/NetworkConstants.swift:87-96 | equal paths mean the same endpoint, except that a nil and an empty list query give the same path |
| NetworkConstants.RequestUrlKeepsBasePath | fryends/Managers/Networking/NetworkConstants.swift:33-40 | the base URL is the development API: `baseURL + value` always starts with `http://api.fryends.com/api/`, so a path never extends the base URL's last segment |
| NetworkConstants.IncludeBearerToken | fryends/Managers/Networking/NetworkConstants.swift:111-123 | true exactly for the skillr list with a non-nil query containing `isFavourite=true`; false for refreshToken, login and a nil query (the `default` branch is unreachable) |
| NetworkErrors.NewRequestError | fryends/Managers/Networking/NetworkErrors.swift:14-17 | a RequestError carries the given message and never a code |
| NetworkErrors.ErrorDescription | fryends/Managers/Networking/NetworkErrors.swift:34-47 | every network error has a description, never nil or empty |
| NetworkErrors.ErrorDescriptionInjective | fryends/Managers/Networking/NetworkErrors.swift:34-47 | the four descriptions are pairwise distinct |
| Media.MimeType | fryends/Managers/Networking/NetworkManager.swift:15-17 | `image/jpeg` exactly for a photo, `video/mp4` exactly for a video |
| Media.Target | fryends/Managers/Networking/NetworkManager.swift:19-26 | `profileImage` exactly for a photo, `profileVideo` exactly for a video |
| Media.FileName | fryends/Managers/Networking/NetworkManager.swift:28-35 | the name is the type's stem, the decimal seconds since 1970, and the type's extension |
| Media.FileNameTimestamp | fryends/Managers/Networking/NetworkManager.swift:28-35 | the timestamp can be read back from a generated file name |
| Media.NewMedia | fryends/Managers/Networking/NetworkManager.swift:45-55 | the failable initialiser never fails; it keeps key, data and cover flag, takes the MIME type from the media type, and names the file stem + date + extension |
| Media.NewMediaExtensionMatchesMimeType | fryends/Managers/Networking/NetworkManager.swift:45-55 | the file extension `.jpg`/`.mp4` always agrees with the MIME type |
| Utf8.EncodeScalar | fryends/Managers/Networking/NetworkManager.swift:416-421 | each character takes one to four bytes, exactly one for ASCII |
| Utf8.EncodeLength | fryends/Managers/Networking/NetworkManager.swift:416-421 | a string's UTF-8 form has between one and four bytes per character |
| Utf8.EncodeAppend | fryends/Managers/Networking/NetworkManager.swift:416-421 | appending two strings one after the other appends the bytes of their concatenation |
| Utf8.EncodeAscii | fryends/Managers/Networking/NetworkManager.swift:416-421 | ASCII text is appended byte for byte |
| Utf8.DecodeEncode | fryends/Managers/Networking/NetworkManager.swift:416-421 | the conversion never fails and loses nothing: decoding the bytes gives the string back |
| Utf8.EncodeInjective | fryends/Managers/Networking/NetworkManager.swift:416-421 | different strings append different bytes |
| Text.HasSubstringCorrect | fryends/Managers/Networking/NetworkConstants.swift:117 | the substring test used for the bearer-token decision holds exactly when the marker occurs at some position |
| Text.ReplacePlus | fryends/Managers/Networking/NetworkManager.swift:283 | after the rewrite no `+` is left |
| Text.ReplacePlusAppend | fryends/Managers/Networking/NetworkManager.swift:283 | the rewrite works piecewise over a concatenation |
| Text.RestoreReplacePlus | fryends/Managers/Networking/NetworkManager.swift:283 | when the text held no `%2B` already, rewriting `%2B` back to `+` restores it: the rewrite loses nothing |
| Text.IndexOf | fryends/Managers/Networking/NetworkManager.swift:278 | the first position of a character, or none when it does not occur |
| Text.ParseNatDigits | fryends/Managers/Networking/NetworkManager.swift:31-33 | the decimal digits of a natural number read back as that number |
| Text.IntTextRoundTrip | fryends/Managers/Networking/NetworkManager.swift:31-33 | the decimal text of an Int starts with '-' exactly for negatives and reads back as the Int |
| Multipart.StringPairs | fryends/Managers/Networking/NetworkManager.swift:380 | with every value a String, each parameter gives its key and its text, in order |
| Multipart.ParamsTextSnoc | fryends/Managers/Networking/NetworkManager.swift:377-381 | one more loop iteration appends exactly that parameter's part |
| Multipart.ParsePart | fryends/Managers/Networking/NetworkManager.swift:378-380 | a field written for a key without `"` and a value without CR is read back as that key and value, with the rest untouched |
| Multipart.ParseParamsText | fryends/Managers/Networking/NetworkManager.swift:376-381 | the form fields of such parameters read back as the same parameters in the same order |
| Multipart.BodyEndsWithCloseDelimiter | fryends/Managers/Networking/NetworkManager.swift:400 | every body ends with `--boundary--` CRLF |
| Multipart.EmptyBodyIsCloseDelimiter | fryends/Managers/Networking/NetworkManager.swift:373-401 | with no parameters and no media the body is the closing delimiter alone |
| Multipart.MutableData.constructor | fryends/Managers/Networking/NetworkManager.swift:375 | a new buffer is empty |
| Multipart.MutableData.AppendString | fryends/Managers/Networking/NetworkManager.swift:416-421 | appending a String adds exactly its UTF-8 bytes |
| Multipart.MutableData.AppendData | fryends/Managers/Networking/NetworkManager.swift:396 | appending data adds exactly those bytes |
| Multipart.CreateDataBody | fryends/Managers/Networking/NetworkManager.swift:373-402 | the buffer ends up holding `MultipartBody`: each parameter's field in iteration order, a `cover` field iff the media is a cover, the file part iff there is media, and always the closing delimiter; every value must be a String |
| NetworkManager.GenerateBoundary | fryends/Managers/Networking/NetworkManager.swift:404-406 | the boundary is `Boundary-` followed by the UUID string |
| NetworkManager.SetRequestMethod | fryends/Managers/Networking/NetworkManager.swift:217-229 | GET exactly for the skillr list, POST exactly for login and refreshToken |
| NetworkManager.ParseUrl | fryends/Managers/Networking/NetworkManager.swift:278 | re-parsing a URL string gives components whose part before the query holds no '?' |
| NetworkManager.ParseUrlString | fryends/Managers/Networking/NetworkManager.swift:278 | the parsed components print back as the same string |
| NetworkManager.UrlStringParse | fryends/Managers/Networking/NetworkManager.swift:278 | components print and re-parse to themselves |
| NetworkManager.EndpointComponents | fryends/Managers/Networking/NetworkManager.swift:122 | the endpoint URL's components print as `baseURL + value` |
| NetworkManager.SkillrQueryIsUrlQuery | fryends/Managers/Networking/NetworkManager.swift:122 | a list query `?q` becomes the URL query `q` of `…/api/app/skillrs` |
| NetworkManager.QueryItems | fryends/Managers/Networking/NetworkManager.swift:280-282 | one item per parameter with its key as name; a String value becomes the item's value, any other value an item without one |
| NetworkManager.NewRequest | fryends/Managers/Networking/NetworkManager.swift:243 | a new URLRequest has method GET, no header fields and no body |
| NetworkManager.ConfiguredRequest | fryends/Managers/Networking/NetworkManager.swift:243-260 | the request carries the URL, the endpoint's method, `Authorization: Bearer <stored token or empty>` iff the endpoint needs it, the multipart content type with the body's boundary and no Accept when there is media, and JSON Content-Type and Accept otherwise |
| NetworkManager.SendsBodyUnlessQueryPath | fryends/Managers/Networking/NetworkManager.swift:264-265 | the method is POST or PUT exactly for endpoints other than the skillr list |
| NetworkManager.SetUrlRequest | fryends/Managers/Networking/NetworkManager.swift:238-295 | for a GET with parameters: the URL keeps its part before the query, its query is the parameters' query with every `+` rewritten (so no `+` is left), the method is GET and all header fields are gone. Otherwise: the URL, the endpoint's method and header fields as above, and as body the multipart body for media or the JSON for POST/PUT parameters. A request with media always gets the multipart body |
| NetworkManager.FavouritesListFacts | fryends/Managers/Networking/NetworkConstants.swift:116-120 | the favourites list endpoint needs the bearer token, and its URL query is `isFavourite=true` |
| NetworkManager.FavouritesPageLosesToken | fryends/Managers/Networking/NetworkManager.swift:275-286 | as written, the favourites list with a `page` parameter needs the bearer token but is sent without an Authorization field, and (with query names and values that percent-encoding leaves as they are) its query is exactly `page=1`, which no longer holds `isFavourite=true` |
| NetworkManager.JoinQueries | fryends/Managers/Networking/NetworkManager.swift:280-282 | the existing query is kept as a prefix, and the added items follow after `&` |
| NetworkManager.JoinedQueryKeepsExisting | fryends/Managers/Networking/NetworkManager.swift:280-284 | after the `+` rewrite the joined query still starts with the rewritten endpoint query |
| NetworkManager.SetUrlRequestKeepingHeaders | fryends/Managers/Networking/NetworkManager.swift:238-295 | corrected: the method and header fields are those of the endpoint on every path, and the query of a GET keeps the endpoint's own query (rewritten) followed by the parameters |
| NetworkManager.FavouritesPageKeepsToken | fryends/Managers/Networking/NetworkManager.swift:275-286 | with the correction, the same request carries `Authorization: Bearer <token>` and still asks for favourites |
| EndpointCall.ClassifyErrorModel | fryends/Managers/Networking/NetworkManager.swift:150-159 | errorcode "No such skillr" gives "NetworkErrorCodes.Skillr.NoSuchSkillr"; a missing errorcode with name "RateLimitError" gives "NetworkErrorCodes.User.rateLimit"; anything else gives the body's message; never a code |
| EndpointCall.SinkFailure | fryends/Managers/Networking/NetworkManager.swift:177-199 | decoding and request errors pass unchanged; network and transport errors become `unknown` |
| EndpointCall.Classify | fryends/Managers/Networking/NetworkManager.swift:122-205 | `invalidURL` iff the URL does not parse; success iff a 2xx body decodes; `serverError` iff status 500; `unknown` iff the transport failed; never `responseError` or a raw transport error; a request error only from a decoded non-2xx, non-500 error body; a decoding error only from the body that failed to decode |
| EndpointCall.Future.constructor | fryends/Managers/Networking/NetworkManager.swift:120 | a new future is unfulfilled |
| EndpointCall.Future.Promise | fryends/Managers/Networking/NetworkManager.swift:145-147 | the first promise call fixes the result, and later calls change nothing |
| EndpointCall.TryMap | fryends/Managers/Networking/NetworkManager.swift:133-172 | passes exactly a 2xx status; at 500 fulfils the future with `serverError` and throws it; otherwise throws the classified error body or the decoding error and leaves the future alone |
| EndpointCall.EndpointCall | fryends/Managers/Networking/NetworkManager.swift:111-209 | running the URL check, `tryMap`, decoding and `sink` on one future yields exactly `Classify`, so the `unknown` promised at :193 after a 500 is ignored |
| UserDefaultsKeys.ReadJwt | fryends/Utilities/UserDefaultsKeys.swift:22-24 | the token is read from key `fcm-token`; it is nil when the entry is absent or not a String |
| UserDefaultsKeys.WriteJwt | fryends/Utilities/UserDefaultsKeys.swift:25-27 | after a write, reading gives the written value; writing nil removes the entry; no other key changes |
| UserDefaultsKeys.ClearJwt | fryends/Utilities/UserDefaultsKeys.swift:15-17 | after clearing, the token reads nil and no other key changes |
| UserDefaultsKeys.ClearIsWriteNil | fryends/Utilities/UserDefaultsKeys.swift:15-27 | clearing is the same as setting the token to nil |
| UserDefaultsKeys.WriteJwtOverwrites | fryends/Utilities/UserDefaultsKeys.swift:25-27 | the last write wins, and writing a value twice is writing it once |
| UserDefaultsKeys.WriteReadJwt | fryends/Utilities/UserDefaultsKeys.swift:21-27 | writing back the String just read leaves the store as it was |
| UserDefaultsKeys.UserDefaults.Jwt | fryends/Utilities/UserDefaultsKeys.swift:22-24 | the getter reads the store's token entry |
| UserDefaultsKeys.UserDefaults.SetJwt | fryends/Utilities/UserDefaultsKeys.swift:25-27 | the setter updates only the token entry, and the getter then returns the value set |
| UserDefaultsKeys.ClearUserDefaults | fryends/Utilities/UserDefaultsKeys.swift:15-17 | the standard store loses only its token entry |
| UserAuthentication.LoggedOut | fryends/Managers/UserAuthentication/UserAuthenticationManagerImpl.swift:90-93 | after logout the token reads `""` and no other key changes |
| UserAuthentication.LogoutIdempotent | fryends/Managers/UserAuthentication/UserAuthenticationManagerImpl.swift:90-93 | logging out twice leaves the same store as logging out once |
| UserAuthentication.InitLeavesStoreUnchanged | fryends/Managers/UserAuthentication/UserAuthenticationManagerImpl.swift:43-49 | construction never changes the store: a nil token writes nothing, a non-empty one triggers only the no-op refresh, an empty one is rewritten as `""` |
| UserAuthentication.UserAuthenticationManagerImpl.Jwt | fryends/Managers/UserAuthentication/UserAuthenticationManagerImpl.swift:68-72 | the manager's token is the store's token entry |
| UserAuthentication.UserAuthenticationManagerImpl.constructor | fryends/Managers/UserAuthentication/UserAuthenticationManagerImpl.swift:38-50 | construction runs refresh or logout according to the stored token and leaves the store unchanged |
| UserAuthentication.UserAuthenticationManagerImpl.SetJwt | fryends/Managers/UserAuthentication/UserAuthenticationManagerImpl.swift:63-67 | setting writes through to the store's token entry only |
| UserAuthentication.UserAuthenticationManagerImpl.SetUserLoggedInWith | fryends/Managers/UserAuthentication/UserAuthenticationManagerImpl.swift:77-84 | afterwards the token is the given one and no other key changed |
| UserAuthentication.UserAuthenticationManagerImpl.RefreshUserDetails | fryends/Managers/UserAuthentication/UserAuthenticationManagerImpl.swift:86-88 | changes nothing |
| UserAuthentication.UserAuthenticationManagerImpl.Logout | fryends/Managers/UserAuthentication/UserAuthenticationManagerImpl.swift:90-93 | afterwards the token is `""` (present, not removed) and no other key changed |
| UserAuthentication.UserAuthenticationManagerImpl.RemoveJwt | fryends/Managers/UserAuthentication/UserAuthenticationManagerImpl.swift:95-99 | stores `""` rather than removing the entry |

## Left out

- Network I/O and Combine plumbing are not modelled: the `URLSession` data task, `receive(on:)`, `cancelables` and the checks on the reachability stub. What the data task delivers is an input (`Exchange`) of `EndpointCall`.
- `uploadImageOrVideo` is not modelled. It is a raw PUT whose only logic is reporting `error == nil`.
- `totalRecall` is not modelled because nothing calls it. `parseTest`, logging and `print` are not modelled either: they have no effect on results.
- Library code is taken as input:
  - URL parsing: "parses" is a boolean, and components are split at the first '?'.
  - `JSONSerialization`: the JSON body is an opaque input.
  - `JSONDecoder`: a body decodes to a value or to a `DecodingError`, given as input.
  - Percent-encoding: a function on one query name or value.
- The `DispatchQueue` in `UserAuthenticationManagerImpl` is not modelled; only the intended sequential effect is. `setUserLoggedInWith` and `removeJwt` call `sync` on the queue that the `jwt` accessor syncs on again, which would deadlock.
- `refreshDetailsCallBack` and `setDependencies` are not modelled: the first is an empty closure, the second an empty method. Resolving the manager from the dependency container is not modelled either.
- `Endpoint.description`, the `AppDomain` names, `deviceType`, `RequestParamKey` and the unused `HeaderContentType` values are not modelled. No rule depends on them.
- NetworkConstants.IncludeBearerToken: the marker test compares Unicode scalars, not Swift Characters (grapheme clusters under canonical equivalence), so it matches the source's `contains` on ASCII queries only; a query ending in `isFavourite=true` followed by a combining accent is true in the model and false in the app.
- Media.NewMedia: the date text in the file name (`\(Date())`) is an input string, so its format is not modelled.
- Media.FileName: the `Int(Date().timeIntervalSince1970)` conversion from floating point is not modelled. The seconds are an input Int.
- NetworkManager.SetUrlRequest: the fallback to `URL(fileURLWithPath: "")` when a URL cannot be formed is not modelled. The components come from a URL that already parsed, so the model assumes they form one again.
- Multipart.CreateDataBody: the forced cast `value as! String` traps on a non-String value. The model states this as a precondition rather than a crash.
- EndpointCall.EndpointCall: the generic decoder is an input (`valueBody`). Only the order of promise calls and the first-call-wins rule are modelled, not their asynchrony.
- Several other files are outside this model, because they contain no logic the rules depend on: the UI files, the dependency registration in fryendsApp.swift, Logger.swift, Constants.swift, the ReactiveFlow subjects, NetworkReachability.swift and NilModel.swift.

## Findings

| source | as written | input that shows it | evidently intended | confidence | as-written member | corrected member |
|---|---|---|---|---|---|---|
| fryends/Managers/Networking/NetworkManager.swift:285 | for a GET with parameters the request is replaced by `URLRequest(url:)`, dropping the Authorization, Content-Type and Accept fields, and the query items replace the endpoint's own query | `retrieveSkillrList(query: "?isFavourite=true")` with parameters `["page": "1"]`: the endpoint needs the bearer token, yet the request has no Authorization field and its query is only `page=1` | keep the method and header fields set before, and add the parameters to the endpoint's query | high, not executed | NetworkManager.FavouritesPageLosesToken | NetworkManager.SetUrlRequestKeepingHeaders |
