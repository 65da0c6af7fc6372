/** What a command hands to the HTTP transport and what it gets back. The
    transport, standard input and standard output are outside the model: their
    outcomes are given as an `Io` value. */
module Requests {
  import opened Common
  import opened Headers
  import opened Urls

  /** The request passed to `http.DefaultClient.Do`; `url` is None for a nil `URL` field. */
  datatype Request = Request(verb: string, url: Option<Url>, header: Header, body: Option<seq<byte>>)

  /** A response, as far as the commands look at it: the status code, the
      `Content-Type` header, whether there is a body, whether the JSON decoder
      and encoder succeed on it, and whether copying to standard output succeeds. */
  datatype Response = Response(
    status: int,
    contentType: string,
    hasBody: bool,
    decodes: bool,
    reencodes: bool,
    copyOk: bool)

  /** The outside world of one request: the bytes read from standard input
      (None: the read fails) and the transport's reply (None: a transport error). */
  datatype Io = Io(stdin: Option<seq<byte>>, reply: Option<Response>)

  const CONTENT_TYPE := "Content-Type"
  const JSON := "application/json"

  /** `http.Client.Do`: a request without a URL fails before anything is sent. */
  function Send(req: Request, io: Io): (r: Option<Response>)
    ensures req.url.None? ==> r.None?
    ensures req.url.Some? ==> r == io.reply
  {
    if req.url.None? then None else io.reply
  }

  /** The request carries a body for POST and PUT, and for any method given
      a content type as second argument (http.go:33-39, 162-164; main.go:186-191, 274-276). */
  predicate BodyRequired(httpMethod: string, args: seq<string>)
  {
    httpMethod == "POST" || httpMethod == "PUT" || |args| >= 2
  }
}
