/** The advisory API call, `callAPI` (main.go:114-182): the request is
    posted as JSON, a non-200 reply is copied to stderr and turned into an
    error, and a 200 reply is decoded into the response. */
module Api {
  import opened Errors
  import opened Request

  newtype byte = b: int | 0 <= b < 0x100

  /** msg: one advisory message. */
  datatype Msg = Msg(msg: string)

  /** effigyResponse: the three advisories the service returns. */
  datatype EffigyResponse = EffigyResponse(
    latestEFIVersion: Msg,
    latestOSVersion: Msg,
    latestBuildNumber: Msg)

  const ApiUrl: string := "https://api.efigy.io/apple/oneshot"
  const JsonContentType: string := "application/json"
  const StatusOK: int := 200

  /** The arguments of one http.Client.Post call; the body is the encoded
      JSON object. */
  datatype PostRequest = PostRequest(url: string, contentType: string, body: seq<(string, string)>)

  /** What json.Decoder.Decode does to a zero effigyResponse: the value it
      leaves behind (zero, partly or fully filled) and the error it returns. */
  datatype Decoding = Decoding(filled: EffigyResponse, failure: Option<Error>)

  /** What http.Client.Post yields: a transport error, or a reply with its
      StatusCode, its Status text ("503 Service Unavailable"), its body and
      what decoding that body gives. */
  datatype HttpOutcome =
    | TransportError(err: Error)
    | Reply(statusCode: int, status: string, body: seq<byte>, decoding: Decoding)

  /** The injected HTTP client. The exchange with the server is an oracle;
      `sent` records every Post made through this client. */
  class HttpClient {
    const exchange: PostRequest -> HttpOutcome
    ghost var sent: seq<PostRequest>

    constructor (exchange: PostRequest -> HttpOutcome)
      ensures this.exchange == exchange && sent == []
    {
      this.exchange := exchange;
      sent := [];
    }

    method Post(request: PostRequest) returns (outcome: HttpOutcome)
      modifies this
      ensures outcome == exchange(request)
      ensures sent == old(sent) + [request]
    {
      outcome := exchange(request);
      sent := sent + [request];
    }
  }

  /** os.Stderr, as the bytes written to it. */
  class DiagnosticStream {
    ghost var written: seq<byte>

    constructor ()
      ensures written == []
    {
      written := [];
    }

    /** io.Copy(os.Stderr, body). */
    method Write(bytes: seq<byte>)
      modifies this
      ensures written == old(written) + bytes
    {
      written := written + bytes;
    }
  }

  /** The single Post callAPI makes for a request. */
  function PostFor(request: EffigyRequest): (p: PostRequest)
    ensures p.url == ApiUrl && p.contentType == JsonContentType
    ensures DecodeRequest(p.body) == Some(request)
  {
    EncodeRequestLossless(request);
    PostRequest(ApiUrl, JsonContentType, EncodeRequest(request))
  }

  /** fmt.Errorf("got %s from effigy api", status): its text quotes the
      status line. */
  function StatusError(status: string): (e: Error)
    ensures e.Formatted? && Contains(Message(e), status)
  {
    var e := Formatted("got " + status + " from effigy api");
    assert StartsWith(e.text[4..], status);
    e
  }

  /** What callAPI returns for an outcome of Post. A transport error comes
      back as it is, any status but 200 becomes an error quoting the status
      line, and a 200 always succeeds with whatever decoding left in the
      response: the check after Decode tests the error of Post, which is
      nil there, so a decoding failure is dropped. */
  function Interpret(outcome: HttpOutcome): (r: Result<EffigyResponse>)
    ensures r.Ok? <==> outcome.Reply? && outcome.statusCode == StatusOK
    ensures r.Ok? ==> r.value == outcome.decoding.filled
    ensures outcome.TransportError? ==> r == Err(outcome.err)
    ensures outcome.Reply? && r.Err? ==> Contains(Message(r.error), outcome.status)
  {
    match outcome
    case TransportError(err) => Err(err)
    case Reply(code, status, _, decoding) =>
      if code != StatusOK then Err(StatusError(status)) else Ok(decoding.filled)
  }

  /** The bytes callAPI copies to stderr for an outcome of Post: the whole
      body of a non-200 reply, nothing otherwise. */
  function Diagnostic(outcome: HttpOutcome): (d: seq<byte>)
    ensures d != [] ==> outcome.Reply? && outcome.statusCode != StatusOK
    ensures outcome.Reply? && outcome.statusCode != StatusOK ==> d == outcome.body
  {
    if outcome.Reply? && outcome.statusCode != StatusOK then outcome.body else []
  }

  /** callAPI (main.go:160-182). */
  method CallAPI(client: HttpClient, stderr: DiagnosticStream, request: EffigyRequest)
    returns (r: Result<EffigyResponse>)
    modifies client, stderr
    ensures client.sent == old(client.sent) + [PostFor(request)]
    ensures r == Interpret(client.exchange(PostFor(request)))
    ensures stderr.written == old(stderr.written) + Diagnostic(client.exchange(PostFor(request)))
  {
    // Encoding a struct of strings cannot fail, so the buffer always holds
    // the encoded request.
    var body := EncodeRequest(request);
    var resp := client.Post(PostRequest(ApiUrl, JsonContentType, body));
    if resp.TransportError? {
      return Err(resp.err);
    }
    if resp.statusCode != StatusOK {
      stderr.Write(resp.body);
      return Err(StatusError(resp.status));
    }
    // Decode fills `response` in place; its error is not the one tested.
    var response := resp.decoding.filled;
    return Ok(response);
  }

  /** A 200 reply whose body does not decode is still a success, carrying
      whatever the decoder left in the response, and nothing is logged. */
  lemma MalformedReplyAccepted(status: string, body: seq<byte>, partial: EffigyResponse, failure: Error)
    ensures var outcome := Reply(StatusOK, status, body, Decoding(partial, Some(failure)));
      Interpret(outcome) == Ok(partial) && Diagnostic(outcome) == []
  {
  }

  /** A non-200 reply is never decoded: the result and the log do not
      depend on what decoding its body would give. */
  lemma NonOkReplyNotDecoded(code: int, status: string, body: seq<byte>, d1: Decoding, d2: Decoding)
    requires code != StatusOK
    ensures Interpret(Reply(code, status, body, d1)) == Interpret(Reply(code, status, body, d2))
    ensures Diagnostic(Reply(code, status, body, d1)) == body
  {
  }
}
