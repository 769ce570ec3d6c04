/**
 * The response-finalising middleware of elton-responder, as values.
 *
 * `New` resolves a `Config` into a `Responder`; `Handle` is the handler
 * closure `New` returns, applied to one request: it runs the rest of the
 * chain (`next`) and then `Finish` turns the response the chain left behind
 * into bytes, a Content-Type and a status code, or into an error.
 */
module Responder {
  import opened Wrappers

  type Byte = bv8

  /** The value a handler stores in `c.Body` (a Go `interface{}`); `V` stands for every other type. */
  datatype Body<V> =
    | Nil                      // c.Body == nil
    | Text(text: seq<Byte>)    // a Go string: its bytes
    | Binary(data: seq<Byte>)  // a []byte
    | Reader                   // anything that implements io.Reader
    | Value(v: V)              // any other value, serialised by the marshal function

  /** What the finaliser reads and writes in an `elton.Context`. */
  datatype Response<V> = Response(
    body: Body<V>,
    bodyBuffer: Option<seq<Byte>>,  // c.BodyBuffer; None when it is nil
    statusCode: int,                // c.StatusCode; 0 means not set
    contentType: string             // the Content-Type response header; "" when not set
  )

  /** An `error` travelling back up the middleware chain. */
  datatype Failure<E> =
    | Foreign(cause: E)  // an error this package did not create
    | Hes(statusCode: int, message: string, category: string, exception: bool)
    // hes.NewWithErrorStatusCode(cause, code) with Exception set; its message is the cause's own text
    | Wrapped(cause: E, statusCode: int, exception: bool)

  /** The result of a handler: the error it returned and the response it leaves in the context. */
  datatype Outcome<V, E> = Outcome(err: Option<Failure<E>>, resp: Response<V>)

  type Marshal<!V, E> = V -> Result<seq<Byte>, E>

  /** responder.Config; None stands for a nil function. */
  datatype Config<!V, E> = Config(
    skipper: Option<Response<V> -> bool>,
    fastest: bool,
    marshal: Option<Marshal<V, E>>,
    contentType: string
  )

  /** The settings the handler closure captures once `New` has filled in the defaults. */
  datatype Responder<!V, E> = Responder(
    skipper: Response<V> -> bool,
    marshal: Marshal<V, E>,
    contentType: string
  )

  const ErrCategory: string := "elton-responder"
  const MIMETextPlain: string := "text/plain; charset=UTF-8"
  const MIMEBinary: string := "application/octet-stream"
  const MIMEApplicationJSON: string := "application/json; charset=UTF-8"
  const StatusOK: int := 200
  const StatusInternalServerError: int := 500

  /** errInvalidResponse: the error for a response with neither a status nor a body. */
  function ErrInvalidResponse<E>(): Failure<E> {
    Hes(StatusInternalServerError, "invalid response", ErrCategory, true)
  }

  /** The skipper used when none is configured; this model assumes it skips nothing. */
  function DefaultSkipper<V>(s: Response<V>): bool { false }

  /**
   * New: a nil skipper becomes the default one, a nil marshal becomes
   * `jsonMarshal` (encoding/json's Marshal) and an empty content type
   * becomes application/json. `Fastest` is never read.
   */
  function New<V, E>(config: Config<V, E>, jsonMarshal: Marshal<V, E>): (h: Responder<V, E>)
    ensures h.contentType != ""
    ensures config.contentType != "" ==> h.contentType == config.contentType
    ensures config.contentType == "" ==> h.contentType == MIMEApplicationJSON
    ensures config.skipper.Some? ==> h.skipper == config.skipper.value
    ensures config.skipper.None? ==> h.skipper == DefaultSkipper
    ensures h.marshal == if config.marshal.Some? then config.marshal.value else jsonMarshal
  {
    var skipper := if config.skipper.None? then DefaultSkipper else config.skipper.value;
    var marshal := if config.marshal.None? then jsonMarshal else config.marshal.value;
    var contentType := if config.contentType == "" then MIMEApplicationJSON else config.contentType;
    Responder(skipper, marshal, contentType)
  }

  /** NewDefault: `New` with an empty `Config`. */
  function NewDefault<V, E>(jsonMarshal: Marshal<V, E>): (h: Responder<V, E>)
    ensures h.skipper == DefaultSkipper
    ensures h.marshal == jsonMarshal
    ensures h.contentType == MIMEApplicationJSON
  {
    New(Config(None, false, None, ""), jsonMarshal)
  }

  /** `Config.Fastest` has no effect on the handler `New` builds. */
  lemma NewIgnoresFastest<V, E>(config: Config<V, E>, jsonMarshal: Marshal<V, E>)
    ensures New(config.(fastest := !config.fastest), jsonMarshal) == New(config, jsonMarshal)
  {
  }

  /** The bytes a body turns into and the Content-Type its kind calls for (None: none). */
  datatype Encoded = Encoded(bytes: seq<Byte>, mime: Option<string>)

  /** The type switch on the body: strings and byte slices as they are, anything else marshalled. */
  function Encode<V, E>(h: Responder<V, E>, body: Body<V>): (r: Result<Encoded, E>)
    ensures r.Failure? <==> body.Value? && h.marshal(body.v).Failure?
    ensures r.Failure? ==> r.error == h.marshal(body.v).error
    ensures r.Success? ==> (r.value.mime.None? <==> body.Nil? || body.Reader?)
    ensures r.Success? && body.Text? ==> r.value.mime == Some(MIMETextPlain)
    ensures r.Success? && body.Binary? ==> r.value.mime == Some(MIMEBinary)
    ensures r.Success? && (body.Nil? || body.Reader?) ==> r.value.bytes == []
    ensures r.Success? && (body.Text? || body.Binary?) ==>
              r.value.bytes == (if body.Text? then body.text else body.data)
    ensures r.Success? && body.Value? ==>
              r.value.bytes == h.marshal(body.v).value && r.value.mime == Some(h.contentType)
  {
    match body
    case Text(t) => Success(Encoded(t, Some(MIMETextPlain)))
    case Binary(d) => Success(Encoded(d, Some(MIMEBinary)))
    case Value(v) =>
      (match h.marshal(v)
       case Failure(e) => Failure(e)
       case Success(buf) => Success(Encoded(buf, Some(h.contentType))))
    case _ => Success(Encoded([], None))
  }

  /** The chain left a response for the finaliser to build: no error, no buffer, not invalid, no reader. */
  predicate Finalizes<V, E>(o: Outcome<V, E>) {
    && o.err.None?
    && o.resp.bodyBuffer.None?
    && !(o.resp.statusCode == 0 && o.resp.body.Nil?)
    && !o.resp.body.Reader?
  }

  /**
   * What the handler does once `c.Next()` has returned `o`: pass an error
   * on, leave a finished or streamed response alone, reject a response with
   * neither status nor body, and otherwise commit bytes, Content-Type and status.
   */
  function Finish<V, E>(h: Responder<V, E>, o: Outcome<V, E>): (r: Outcome<V, E>)
    // an error from the chain comes back as it is, and nothing is touched
    ensures o.err.Some? ==> r == o
    // a body buffer already set means the response is done
    ensures o.resp.bodyBuffer.Some? ==> r == o
    // a reader body is left for the transport to stream
    ensures o.resp.body.Reader? ==> r == o
    // neither status nor body, with nothing else to stop earlier: errInvalidResponse
    ensures o.err.None? && o.resp.bodyBuffer.None? ==>
              (r.err == Some(ErrInvalidResponse()) <==> o.resp.statusCode == 0 && o.resp.body.Nil?)
    // an error raised here leaves the response as it was
    ensures r.err.Some? ==> r.resp == o.resp
    // a marshal failure is returned as a 500 exception wrapping the cause
    ensures Finalizes(o) && o.resp.body.Value? ==>
              match h.marshal(o.resp.body.v)
              case Failure(e) => r == Outcome(Some(Wrapped(e, StatusInternalServerError, true)), o.resp)
              case Success(buf) => r.err.None?
    // a finalised response fails only when marshalling does: strings, byte slices and nil bodies succeed
    ensures Finalizes(o) ==> (r.err.Some? <==> o.resp.body.Value? && h.marshal(o.resp.body.v).Failure?)
    // the body itself is never replaced
    ensures r.resp.body == o.resp.body
    // a Content-Type already present is kept
    ensures o.resp.contentType != "" ==> r.resp.contentType == o.resp.contentType
    // otherwise it follows the kind of body
    ensures Finalizes(o) && r.err.None? && o.resp.contentType == "" ==>
              r.resp.contentType == match o.resp.body
                                    case Text(_) => MIMETextPlain
                                    case Binary(_) => MIMEBinary
                                    case Value(_) => h.contentType
                                    case _ => ""
    // a status already set is kept, 0 becomes 200 on success
    ensures r.resp.statusCode == o.resp.statusCode || (o.resp.statusCode == 0 && r.resp.statusCode == StatusOK)
    ensures Finalizes(o) && r.err.None? ==> r.resp.statusCode != 0
    // the buffer receives the bytes, exactly when there are any
    ensures Finalizes(o) && r.err.None? ==>
              var bytes := match o.resp.body
                           case Text(t) => t
                           case Binary(d) => d
                           case Value(v) => h.marshal(v).value
                           case _ => [];
              r.resp.bodyBuffer == if |bytes| != 0 then Some(bytes) else None
  {
    var s := o.resp;
    if o.err.Some? || s.bodyBuffer.Some? then o
    else if s.statusCode == 0 && s.body.Nil? then Outcome(Some(ErrInvalidResponse()), s)
    else if s.body.Reader? then o
    else match Encode(h, s.body)
      case Failure(e) => Outcome(Some(Wrapped(e, StatusInternalServerError, true)), s)
      case Success(enc) =>
        var contentType := if s.contentType == "" && enc.mime.Some? then enc.mime.value else s.contentType;
        var statusCode := if s.statusCode == 0 then StatusOK else s.statusCode;
        var bodyBuffer := if |enc.bytes| != 0 then Some(enc.bytes) else None;
        Outcome(None, Response(s.body, bodyBuffer, statusCode, contentType))
  }

  /** The handler closure of `New`, run on a request whose context holds `s` and whose chain continues with `next`. */
  function Handle<V, E>(h: Responder<V, E>, next: Response<V> -> Outcome<V, E>, s: Response<V>): (r: Outcome<V, E>)
    ensures h.skipper(s) ==> r == next(s)
    ensures next(s).err.Some? ==> r == next(s)
    ensures next(s).resp.bodyBuffer.Some? ==> r == next(s)
    ensures r.resp.body == next(s).resp.body
    ensures next(s).resp.contentType != "" ==> r.resp.contentType == next(s).resp.contentType
    ensures !h.skipper(s) && Finalizes(next(s)) && r.err.None? ==> r.resp.statusCode != 0
  {
    if h.skipper(s) then next(s) else Finish(h, next(s))
  }

  /** A finished response is a fixed point: finishing it again changes nothing. */
  lemma FinishIdempotent<V, E>(h: Responder<V, E>, o: Outcome<V, E>)
    ensures Finish(h, Finish(h, o)) == Finish(h, o)
  {
  }

  /** `n` copies of the same responder mounted in front of `next`. */
  function Stacked<V, E>(n: nat, h: Responder<V, E>, next: Response<V> -> Outcome<V, E>): Response<V> -> Outcome<V, E>
  {
    if n == 0 then next else s => Handle(h, Stacked(n - 1, h, next), s)
  }

  /** Mounting the responder several times over acts as mounting it once. */
  lemma {:induction false} StackedActsOnce<V, E>(n: nat, h: Responder<V, E>, next: Response<V> -> Outcome<V, E>, s: Response<V>)
    requires n >= 1
    ensures Stacked(n, h, next)(s) == Handle(h, next, s)
  {
    if n > 1 {
      StackedActsOnce(n - 1, h, next, s);
      FinishIdempotent(h, next(s));
    }
  }
}
