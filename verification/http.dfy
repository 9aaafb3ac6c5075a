/**
 * The part of fasthttp's request context that the redirector touches:
 * the request's path and Host header, and a response that handlers fill
 * in step by step.
 */
module Http {

  const StatusOK := 200
  const StatusFound := 302
  const StatusNotFound := 404

  /** The content type fasthttp gives a response nobody set one on. */
  const DefaultContentType := "text/plain; charset=utf-8"

  /** An incoming request: its path and raw Host header (which may carry a
      ":port" suffix). */
  datatype Request = Request(path: string, host: string)

  /** A response as a value: status, content type, the headers set with
      `Header.Set` (a later set replaces an earlier one), and the body. */
  datatype Response = Response(
    status: int,
    contentType: string,
    headers: map<string, string>,
    body: string)

  /** The response fasthttp starts every request with. */
  const Blank := Response(StatusOK, DefaultContentType, map[], "")

  /** The response half of a request context, updated in place. */
  class ResponseCtx {
    var status: int
    var contentType: string
    var headers: map<string, string>
    var body: string

    /** The response as it stands. */
    function Snapshot(): Response
      reads this
    {
      Response(status, contentType, headers, body)
    }

    constructor ()
      ensures Snapshot() == Blank
    {
      status, contentType, headers, body := StatusOK, DefaultContentType, map[], "";
    }

    /** `SetStatusCode` */
    method SetStatusCode(code: int)
      modifies this`status
      ensures Snapshot() == old(Snapshot()).(status := code)
    {
      status := code;
    }

    /** `SetContentType` */
    method SetContentType(ct: string)
      modifies this`contentType
      ensures Snapshot() == old(Snapshot()).(contentType := ct)
    {
      contentType := ct;
    }

    /** `Response.Header.Set`: replaces any earlier value of the header. */
    method SetHeader(name: string, value: string)
      modifies this`headers
      ensures Snapshot() == old(Snapshot()).(headers := old(headers)[name := value])
    {
      headers := headers[name := value];
    }

    /** `Write`, `WriteString` and `fmt.Fprintf` on the context: append to
        the body. */
    method Write(data: string)
      modifies this`body
      ensures Snapshot() == old(Snapshot()).(body := old(body) + data)
    {
      body := body + data;
    }
  }
}
