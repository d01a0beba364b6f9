/** Request dispatch against the fixed API base (api/APIRequest.kt).

    The HTTP transport is not modelled: every operation takes the transport
    as a function from the request it builds to the response that comes back.
    The JSON body of a response is kept already decoded (`message`, `payload`). */
module ApiRequest {
  import opened Wrappers
  import opened Users
  import opened ApiTypes

  /** The base every API path is appended to. */
  const ApiUrl := "https://game-repeatedly-glowworm.ngrok-free.app/"

  const JsonContentType := "application/json"
  const ContentTypeHeader := "Content-Type"
  const ImagePrefix := "image/"

  // HTTP status codes the screens branch on.
  const StatusOK := 200
  const StatusCreated := 201
  const StatusNotFound := 404
  const StatusNotAcceptable := 406
  const StatusConflict := 409
  const StatusPayloadTooLarge := 413
  const StatusInternalServerError := 500

  /** Ktor's HttpMethod, which is identified by its name. */
  datatype HttpMethod = HttpMethod(value: string)

  const Get := HttpMethod("GET")
  const Post := HttpMethod("POST")

  /** The exception `requestFromAPI` throws for a method other than GET and POST. */
  datatype ApiError = InvalidRequestMethod(verb: HttpMethod)

  /** A JSON request as the request builder leaves it. */
  datatype Request<T> = Request(
    verb: HttpMethod,
    url: string,
    contentType: Option<string>,
    body: Option<T>)

  /** A response: status, headers, and the decoded envelope. */
  datatype HttpResponse = HttpResponse(
    status: int,
    headers: map<string, string>,
    message: string,
    payload: Option<User>)

  /** One part of a multipart form: JSON text (kept as the body it encodes) or raw bytes. */
  datatype PartValue = JsonInfo(info: ProfileUpdateBody) | FileBytes(bytes: seq<bv8>)

  datatype FormPart = FormPart(key: string, value: PartValue, headers: seq<(string, string)>)

  datatype MultipartRequest = MultipartRequest(verb: HttpMethod, url: string, parts: seq<FormPart>)

  datatype HeadRequest = HeadRequest(url: string)

  /** The request the body-less `requestFromAPI` builds, or the exception it throws. */
  function PlainRequest<T>(path: string, verb: HttpMethod): (r: Result<Request<T>, ApiError>)
    ensures r.Success? <==> verb == Get || verb == Post
    ensures r.Success? ==> r.value.verb == verb && r.value.url == ApiUrl + path
    ensures r.Success? ==> r.value.contentType == Some(JsonContentType) && r.value.body == None
    ensures r.Failure? ==> r.error == InvalidRequestMethod(verb)
  {
    if verb == Get then
      Success(Request(Get, ApiUrl + path, Some(JsonContentType), None))
    else if verb == Post then
      Success(Request(Post, ApiUrl + path, Some(JsonContentType), None))
    else
      Failure(InvalidRequestMethod(verb))
  }

  /** The request `requestFromAPI` with a body builds, or the exception it throws.
      The body is attached only when it is not null. */
  function BodyRequest<T>(path: string, verb: HttpMethod, body: Option<T>): (r: Result<Request<T>, ApiError>)
    ensures r.Success? <==> verb == Get || verb == Post
    ensures r.Success? ==> r.value.verb == verb && r.value.url == ApiUrl + path
    ensures r.Success? ==> r.value.contentType == Some(JsonContentType) && r.value.body == body
    ensures r.Failure? ==> r.error == InvalidRequestMethod(verb)
  {
    var attached := if body.Some? then Some(body.value) else None;
    if verb == Get then
      Success(Request(Get, ApiUrl + path, Some(JsonContentType), attached))
    else if verb == Post then
      Success(Request(Post, ApiUrl + path, Some(JsonContentType), attached))
    else
      Failure(InvalidRequestMethod(verb))
  }

  /** A null body gives the same request, or the same exception, as the body-less overload. */
  lemma NullBodyIsPlainRequest<T>(path: string, verb: HttpMethod)
    ensures BodyRequest<T>(path, verb, None) == PlainRequest<T>(path, verb)
  {
  }

  /** Every request `requestFromAPI` sends targets the API base followed by the path, and the path
      can be read back from it: two different paths never reach the same URL. */
  lemma RequestTargetsApiUrl<T>(path: string, other: string, verb: HttpMethod, body: Option<T>)
    requires verb == Get || verb == Post
    ensures BodyRequest(path, verb, body).Success? && BodyRequest(other, verb, body).Success?
    ensures var url := BodyRequest(path, verb, body).value.url;
      ApiUrl <= url && url[|ApiUrl|..] == path
    ensures path != other ==> BodyRequest(path, verb, body).value.url != BodyRequest(other, verb, body).value.url
  {
    var url := BodyRequest(path, verb, body).value.url;
    var url2 := BodyRequest(other, verb, body).value.url;
    assert url[|ApiUrl|..] == path;
    assert url2[|ApiUrl|..] == other;
  }

  /** `requestFromAPI(path, method)`: send the body-less request, or throw. */
  function RequestFromApi<T>(send: Request<T> -> HttpResponse, path: string, verb: HttpMethod)
    : (r: Result<HttpResponse, ApiError>)
    ensures r.Failure? <==> verb != Get && verb != Post
    ensures r.Failure? ==> r.error == InvalidRequestMethod(verb)
    ensures r.Success? ==> r.value == send(Request(verb, ApiUrl + path, Some(JsonContentType), None))
  {
    match PlainRequest(path, verb)
    case Success(request) => Success(send(request))
    case Failure(e) => Failure(e)
  }

  /** `requestFromAPI(path, method, body)`: send the request carrying the body, or throw. */
  function RequestFromApiWithBody<T>(send: Request<T> -> HttpResponse, path: string, verb: HttpMethod, body: Option<T>)
    : (r: Result<HttpResponse, ApiError>)
    ensures r.Failure? <==> verb != Get && verb != Post
    ensures r.Failure? ==> r.error == InvalidRequestMethod(verb)
    ensures r.Success? ==> r.value == send(Request(verb, ApiUrl + path, Some(JsonContentType), body))
  {
    match BodyRequest(path, verb, body)
    case Success(request) => Success(send(request))
    case Failure(e) => Failure(e)
  }

  /** The multipart POST `requestMultipartFromAPI` submits. */
  function MultipartRequestFor(path: string, parts: seq<FormPart>): (r: MultipartRequest)
    ensures r.verb == Post && r.parts == parts
    ensures ApiUrl <= r.url && r.url[|ApiUrl|..] == path
  {
    var url := ApiUrl + path;
    assert url[|ApiUrl|..] == path;
    MultipartRequest(Post, url, parts)
  }

  /** `requestMultipartFromAPI(path, parts)`. */
  function RequestMultipartFromApi(send: MultipartRequest -> HttpResponse, path: string, parts: seq<FormPart>)
    : (r: HttpResponse)
    ensures r == send(MultipartRequest(Post, ApiUrl + path, parts))
  {
    send(MultipartRequestFor(path, parts))
  }

  /** The HEAD request `checkImageURL` issues: none when the text is not a web URL. */
  function ImageProbe(isWebUrl: string -> bool, url: string): (r: Option<HeadRequest>)
    ensures r.None? <==> !isWebUrl(url)
    ensures r.Some? ==> r.value.url == url
  {
    if isWebUrl(url) then Some(HeadRequest(url)) else None
  }

  /** Whether a response declares an image: it has a Content-Type header beginning with "image/". */
  predicate DeclaresImage(response: HttpResponse)
  {
    ContentTypeHeader in response.headers && ImagePrefix <= response.headers[ContentTypeHeader]
  }

  /** `checkImageURL(url)`; `isWebUrl` stands for `Patterns.WEB_URL` and `head` for the transport. */
  function CheckImageUrl(isWebUrl: string -> bool, head: HeadRequest -> HttpResponse, url: string): (r: bool)
    ensures !isWebUrl(url) ==> !r
    ensures isWebUrl(url) ==> (r <==> DeclaresImage(head(HeadRequest(url))))
    ensures r ==> ContentTypeHeader in head(HeadRequest(url)).headers
  {
    match ImageProbe(isWebUrl, url)
    case None => false
    case Some(request) => DeclaresImage(head(request))
  }

  /** A text that is not a web URL is refused whatever the transport would have answered:
      no request is made. */
  lemma RejectedUrlIgnoresTransport(isWebUrl: string -> bool, head1: HeadRequest -> HttpResponse,
                                    head2: HeadRequest -> HttpResponse, url: string)
    requires !isWebUrl(url)
    ensures ImageProbe(isWebUrl, url) == None
    ensures !CheckImageUrl(isWebUrl, head1, url) && !CheckImageUrl(isWebUrl, head2, url)
  {
  }
}
