/** The API client (`Client` in client.go): its defaults, the finalization of a request
    into an HTTP call (`parseRequest`) and the classification of the reply (`callAPI`). */
module Clients {
  import opened Values
  import opened Common
  import opened Requests
  import QueryEncoding

  const BaseAPIMainURL := "https://api.telegram.org/bot"
  const DefaultUserAgent := "Telegram/Golang"
  const MethodGet := "GET"
  const ContentType := "Content-Type"
  const ApplicationJson := "application/json"
  const StatusBadRequest := 400

  /** What `http.NewRequest` is given and `req.Header` is set to. */
  datatype HttpRequest = HttpRequest(httpMethod: string, url: string, header: Header, body: Bytes)

  /** How one round trip ended: an error from building the request, from `HTTPClient.Do` or
      from reading the body; or a response with its status, its body and the error (if any)
      of closing that body. */
  datatype Exchange =
    | Failed(reason: string)
    | Received(status: int, body: Bytes, closeError: Option<string>)

  /** The HTTP client: performs one request. */
  type Transport = HttpRequest -> Exchange

  /** `json.Unmarshal(data, new(APIError))`: whatever the envelope holds after decoding,
      with the decoding error alongside when there was one. */
  type ErrorDecoder = Bytes -> (APIError, Option<string>)

  /** The request `parseRequest` leaves behind once the options have run. */
  function Finalize(baseURL: string, f: RequestFields): RequestFields {
    var bodyString := QueryEncoding.Encode(OrEmpty(f.form));
    Validated(f).(fullURL := FullURL(baseURL + f.endpoint, QueryEncoding.Encode(OrEmpty(f.query))),
                  header := Some(FinalHeader(OrEmpty(f.header), bodyString)),
                  body := Some(FinalBody(f.json, bodyString)))
  }

  /** The URL: the query string follows a `?` when it is not empty. */
  function FullURL(url: string, queryString: string): string {
    if queryString != "" then url + "?" + queryString else url
  }

  /** The header: `Content-Type: application/json` is added when the form encodes to text. */
  function FinalHeader(header: Header, bodyString: string): Header {
    if bodyString != "" then header[ContentType := [ApplicationJson]] else header
  }

  /** The body: the JSON when the form encodes to text, otherwise empty. */
  function FinalBody(json: Bytes, bodyString: string): Bytes {
    if bodyString != "" then json else []
  }

  /** The request after `validate`. */
  function Validated(f: RequestFields): RequestFields {
    f.(query := Some(OrEmpty(f.query)), form := Some(OrEmpty(f.form)))
  }

  /** What finalizing a request does: both maps exist, the URL carries the encoded query
      only when there is one, and the form's JSON becomes the body, announced by a JSON
      content type, only when the form is non-empty; nothing else changes. */
  lemma FinalizeShape(baseURL: string, f: RequestFields)
    ensures var g := Finalize(baseURL, f);
      && g.httpMethod == f.httpMethod && g.endpoint == f.endpoint && g.json == f.json
      && g.query == Some(OrEmpty(f.query)) && g.form == Some(OrEmpty(f.form))
      && (|OrEmpty(f.query)| == 0 ==> g.fullURL == baseURL + f.endpoint)
      && (|OrEmpty(f.query)| > 0 ==>
            g.fullURL == baseURL + f.endpoint + "?" + QueryEncoding.Encode(OrEmpty(f.query)))
      && (|OrEmpty(f.form)| > 0 ==>
            g.header == Some(OrEmpty(f.header)[ContentType := [ApplicationJson]]) && g.body == Some(f.json))
      && (|OrEmpty(f.form)| == 0 ==> g.header == Some(OrEmpty(f.header)) && g.body == Some([]))
  {
  }

  /** Finalizing a request that was already validated gives the same result. */
  lemma FinalizeValidated(baseURL: string, f: RequestFields)
    ensures Finalize(baseURL, Validated(f)) == Finalize(baseURL, f)
  {
  }

  /** Joining a `?`-free prefix and a query string with `?`: the pieces come back apart. */
  lemma JoinSplits(prefix: string, qs: string)
    requires forall k :: 0 <= k < |prefix| ==> prefix[k] != '?'
    ensures var u := prefix + "?" + qs;
      u[..|prefix|] == prefix && u[|prefix|] == '?' && u[|prefix| + 1..] == qs
    ensures '?' !in prefix
  {
    var u := prefix + "?" + qs;
    assert u == prefix + ("?" + qs);
    assert u[..|prefix|] == prefix;
    assert u[|prefix| + 1..] == qs;
  }

  /** The URL always starts with the base URL and the endpoint; the query, when present,
      follows a `?` and can be cut off again there, and when the base URL and the endpoint
      contain no `?`, a `?` appears exactly when there is a query. */
  lemma {:induction false} FullURLSplits(baseURL: string, f: RequestFields)
    requires forall k :: 0 <= k < |baseURL + f.endpoint| ==> (baseURL + f.endpoint)[k] != '?'
    ensures var u := Finalize(baseURL, f).fullURL;
      var prefix := baseURL + f.endpoint;
      |prefix| <= |u| && u[..|prefix|] == prefix
      && (|OrEmpty(f.query)| > 0 <==> '?' in u)
      && (|OrEmpty(f.query)| > 0 ==> u[|prefix| + 1..] == QueryEncoding.Encode(OrEmpty(f.query)))
  {
    var u := Finalize(baseURL, f).fullURL;
    var prefix := baseURL + f.endpoint;
    var qs := QueryEncoding.Encode(OrEmpty(f.query));
    JoinSplits(prefix, qs);
    if |OrEmpty(f.query)| > 0 {
      assert u == prefix + "?" + qs;
    } else {
      assert u == prefix;
    }
  }

  /** The HTTP request built from a finalized request. */
  function Outgoing(g: RequestFields): (h: HttpRequest)
    ensures h.httpMethod == g.httpMethod && h.url == g.fullURL
    ensures g.header.Some? ==> h.header == g.header.value
    ensures g.body.Some? ==> h.body == g.body.value
  {
    HttpRequest(g.httpMethod, g.fullURL, OrEmpty(g.header), if g.body.Some? then g.body.value else [])
  }

  /** The HTTP request a finalized request turns into: the method and the full URL;
      when the form is non-empty, a header that announces JSON and the JSON as body;
      otherwise the request's own header (empty when nil) and an empty body. */
  lemma OutgoingShape(baseURL: string, f: RequestFields)
    ensures var h := Outgoing(Finalize(baseURL, f));
      && h.httpMethod == f.httpMethod
      && (|OrEmpty(f.query)| == 0 ==> h.url == baseURL + f.endpoint)
      && (|OrEmpty(f.query)| > 0 ==>
            h.url == baseURL + f.endpoint + "?" + QueryEncoding.Encode(OrEmpty(f.query)))
      && (|OrEmpty(f.form)| > 0 ==>
            ContentType in h.header && h.header[ContentType] == [ApplicationJson] && h.body == f.json)
      && (|OrEmpty(f.form)| > 0 ==>
            forall k :: k in OrEmpty(f.header) && k != ContentType ==> k in h.header && h.header[k] == OrEmpty(f.header)[k])
      && (|OrEmpty(f.form)| == 0 ==> h.header == OrEmpty(f.header) && h.body == [])
  {
    FinalizeShape(baseURL, f);
  }

  /** What `callAPI` hands back for one exchange: a transport failure gives empty data and
      that error; a status of 400 or more gives nil data and a `*APIError` holding whatever
      the body decoded to, even when decoding failed; a lower status gives the raw body,
      with no error unless closing the body failed (the deferred close overwrites the nil). */
  function Classify(x: Exchange, decode: ErrorDecoder): (o: (Option<Bytes>, Option<Error>))
    ensures x.Failed? ==> o == (Some([]), Some(Other(x.reason)))
    ensures x.Received? && x.status >= StatusBadRequest ==>
      o.0 == None && o.1.Some? && IsAPIError(o.1.value) && o.1.value.apiError == decode(x.body).0
    ensures x.Received? && x.status < StatusBadRequest ==>
      o.0 == Some(x.body) && (o.1 == None <==> x.closeError == None)
  {
    match x
    case Failed(reason) => (Some([]), Some(Other(reason)))
    case Received(status, body, closeError) =>
      if status >= StatusBadRequest then (None, Some(ApiErrorRef(decode(body).0)))
      else (Some(body), if closeError.Some? then Some(Other(closeError.value)) else None)
  }

  /** An error status always reaches the caller as an API error whose text shows the
      decoded code and description. */
  lemma ErrorStatusMessage(x: Exchange, decode: ErrorDecoder)
    requires x.Received? && x.status >= StatusBadRequest
    ensures var o := Classify(x, decode);
      o.1.Some? && IsAPIError(o.1.value)
      && ParseErrorText(Message(o.1.value))
         == Some((decode(x.body).0.errorCode, decode(x.body).0.description))
  {
    ErrorTextRoundTrip(decode(x.body).0);
  }

  class Client {
    var token: string
    var baseURL: string
    var userAgent: string
    var debug: bool
    var transport: Transport
    var decodeError: ErrorDecoder

    /** `NewClient`: the base URL is the bot endpoint followed by the token; debugging is off. */
    constructor NewClient(token: string, transport: Transport, decodeError: ErrorDecoder)
      ensures this.token == token
      ensures baseURL == BaseAPIMainURL + token
      ensures userAgent == DefaultUserAgent
      ensures !debug
      ensures this.transport == transport && this.decodeError == decodeError
    {
      this.token := token;
      baseURL := BaseAPIMainURL + token;
      userAgent := DefaultUserAgent;
      debug := false;
      this.transport := transport;
      this.decodeError := decodeError;
    }

    /** The request as `parseRequest` leaves it. */
    function Prepared(f: RequestFields, opts: seq<RequestOption>): RequestFields
      reads this
    {
      Finalize(baseURL, ApplyOptions(opts, f))
    }

    /** What `callAPI` returns for a request and the options. */
    function Outcome(f: RequestFields, opts: seq<RequestOption>): (Option<Bytes>, Option<Error>)
      reads this
    {
      Classify(transport(Outgoing(Prepared(f, opts))), decodeError)
    }

    /** `parseRequest`: runs the options in order, validates, and fills in the URL, the
        header and the body. It never fails. */
    method ParseRequest(r: Request, opts: seq<RequestOption>) returns (err: Option<Error>)
      modifies r
      ensures r.Fields() == Prepared(old(r.Fields()), opts)
      ensures err == None
    {
      r.ApplyEach(opts);
      ghost var f := r.Fields();
      err := r.Validate();
      assert r.Fields() == Validated(f);
      var fullURL := baseURL + r.endpoint;
      var queryString := QueryEncoding.Encode(r.query.value);
      var bodyString := QueryEncoding.Encode(r.form.value);
      var header := if r.header.Some? then r.header.value else map[];
      var body: Bytes := [];
      if bodyString != "" {
        header := header[ContentType := [ApplicationJson]];
        body := r.json;
      }
      if queryString != "" {
        fullURL := fullURL + "?" + queryString;
      }
      r.fullURL := fullURL;
      r.header := Some(header);
      r.body := Some(body);
    }

    /** `callAPI`: finalizes the request, sends it and classifies the reply. */
    method CallAPI(r: Request, opts: seq<RequestOption>) returns (data: Option<Bytes>, err: Option<Error>)
      modifies r
      ensures r.Fields() == Prepared(old(r.Fields()), opts)
      ensures (data, err) == Outcome(old(r.Fields()), opts)
    {
      err := ParseRequest(r, opts);
      var x := transport(HttpRequest(r.httpMethod, r.fullURL, r.header.value, r.body.value));
      if x.Failed? {
        return Some([]), Some(Other(x.reason));
      }
      if x.status >= StatusBadRequest {
        var (apiErr, _) := decodeError(x.body);
        return None, Some(ApiErrorRef(apiErr));
      }
      data := Some(x.body);
      if x.closeError.Some? {
        err := Some(Other(x.closeError.value));
      }
    }
  }
}
