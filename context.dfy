/**
 * The handler closure of responder.New working in place on an `elton.Context`:
 * the fields it reads and writes, and `Respond`, which updates them step by
 * step and is proved to do what `Responder.Handle` describes.
 */
module ResponderContext {
  import opened Wrappers
  import opened Responder

  /** The part of an `elton.Context` the responder reads and writes. */
  class Context<V> {
    var body: Body<V>
    var bodyBuffer: Option<seq<Byte>>
    var statusCode: int
    var contentType: string  // the Content-Type header; "" when not set

    /** The response the context currently holds. */
    function Snapshot(): Response<V>
      reads this
    {
      Response(body, bodyBuffer, statusCode, contentType)
    }

    /** A fresh context, as elton.NewContext makes it: no body, no buffer, no status, no headers. */
    constructor ()
      ensures Snapshot() == Response(Nil, None, 0, "")
    {
      body, bodyBuffer, statusCode, contentType := Nil, None, 0, "";
    }

    /** c.Next(): the rest of the chain runs and leaves its response in the context. */
    method CallNext<E>(next: Response<V> -> Outcome<V, E>) returns (err: Option<Failure<E>>)
      modifies this
      ensures Outcome(err, Snapshot()) == next(old(Snapshot()))
    {
      var o := next(Snapshot());
      body, bodyBuffer, statusCode, contentType := o.resp.body, o.resp.bodyBuffer, o.resp.statusCode, o.resp.contentType;
      err := o.err;
    }

    /** The handler `New` returns, run on this context with the chain continuing as `next`. */
    method Respond<E>(h: Responder<V, E>, next: Response<V> -> Outcome<V, E>) returns (err: Option<Failure<E>>)
      modifies this
      ensures Outcome(err, Snapshot()) == Handle(h, next, old(Snapshot()))
      ensures body == next(old(Snapshot())).resp.body
    {
      if h.skipper(Snapshot()) {
        err := CallNext(next);
        return;
      }
      err := CallNext(next);
      if err.Some? {
        return;
      }
      if bodyBuffer.Some? {
        return;
      }
      if statusCode == 0 && body.Nil? {
        err := Some(ErrInvalidResponse());
        return;
      }
      if body.Reader? {
        return;
      }
      var hadContentType := contentType != "";
      var bytes: seq<Byte> := [];
      match body {
        case Text(t) =>
          if !hadContentType {
            contentType := MIMETextPlain;
          }
          bytes := t;
        case Binary(d) =>
          if !hadContentType {
            contentType := MIMEBinary;
          }
          bytes := d;
        case Value(v) =>
          var buf := h.marshal(v);
          if buf.Failure? {
            err := Some(Wrapped(buf.error, StatusInternalServerError, true));
            return;
          }
          if !hadContentType {
            contentType := h.contentType;
          }
          bytes := buf.value;
        case _ =>
      }
      var code := statusCode;
      if code == 0 {
        code := StatusOK;
      }
      if |bytes| != 0 {
        bodyBuffer := Some(bytes);
      }
      statusCode := code;
    }
  }

  /** "abc" */
  const Abc: seq<Byte> := [0x61, 0x62, 0x63]

  // The cases of the package's own tests, replayed on `Respond`.

  /** skip: the skipper fires, only the chain runs. */
  method ScenarioSkip<V, E>(jsonMarshal: Marshal<V, E>) {
    var c := new Context<V>();
    var skipAll := New(Config(Some((s: Response<V>) => true), false, None, ""), jsonMarshal);
    var err := c.Respond(skipAll, (s: Response<V>) => Outcome(None, s));
    assert err.None? && c.Snapshot() == Response(Nil, None, 0, "");
  }

  /** return error: the chain's error comes back unchanged. */
  method ScenarioReturnError<V, E>(jsonMarshal: Marshal<V, E>, customErr: E) {
    var c := new Context<V>();
    var err := c.Respond(New(Config(None, false, None, ""), jsonMarshal), (s: Response<V>) => Outcome(Some(Foreign(customErr)), s));
    assert err == Some(Foreign(customErr)) && c.Snapshot() == Response(Nil, None, 0, "");
  }

  /** set BodyBuffer: an empty buffer left by the chain ends the work. */
  method ScenarioBodyBufferSet<V, E>(jsonMarshal: Marshal<V, E>) {
    var c := new Context<V>();
    var err := c.Respond(New(Config(None, false, None, ""), jsonMarshal), (s: Response<V>) => Outcome(None, s.(bodyBuffer := Some([]))));
    assert err.None? && c.Snapshot() == Response(Nil, Some([]), 0, "");
  }

  /** invalid response: a handler that sets neither body nor status. */
  method ScenarioInvalidResponse<V, E>(jsonMarshal: Marshal<V, E>) {
    var c := new Context<V>();
    var err := c.Respond(New(Config(None, true, None, ""), jsonMarshal), (s: Response<V>) => Outcome(None, s));
    assert err == Some(Hes(500, "invalid response", "elton-responder", true));
  }

  /** return string. */
  method ScenarioString<V, E>(jsonMarshal: Marshal<V, E>) {
    var c := new Context<V>();
    var err := c.Respond(New(Config(None, true, None, ""), jsonMarshal), (s: Response<V>) => Outcome(None, s.(body := Text(Abc))));
    assert err.None? && c.statusCode == 200 && c.bodyBuffer == Some(Abc);
    assert c.contentType == "text/plain; charset=UTF-8";
  }

  /** return bytes. */
  method ScenarioBytes<V, E>(jsonMarshal: Marshal<V, E>) {
    var c := new Context<V>();
    var err := c.Respond(New(Config(None, true, None, ""), jsonMarshal), (s: Response<V>) => Outcome(None, s.(body := Binary(Abc))));
    assert err.None? && c.statusCode == 200 && c.bodyBuffer == Some(Abc);
    assert c.contentType == MIMEBinary;
  }

  /** return struct through c.Created: status 201 is kept, the bytes are the encoder's. */
  method ScenarioStruct<V, E>(jsonMarshal: Marshal<V, E>, record: V)
    requires jsonMarshal(record).Success? && |jsonMarshal(record).value| != 0
  {
    var c := new Context<V>();
    var err := c.Respond(New(Config(None, true, None, ""), jsonMarshal), (s: Response<V>) => Outcome(None, s.(body := Value(record), statusCode := 201)));
    assert err.None? && c.statusCode == 201 && c.bodyBuffer == Some(jsonMarshal(record).value);
    assert c.contentType == MIMEApplicationJSON;
  }

  /** json marshal fail: a 500 exception wrapping the encoder's error, nothing committed. */
  method ScenarioMarshalFailure<V, E>(jsonMarshal: Marshal<V, E>, unencodable: V)
    requires jsonMarshal(unencodable).Failure?
  {
    var c := new Context<V>();
    var err := c.Respond(New(Config(None, true, None, ""), jsonMarshal), (s: Response<V>) => Outcome(None, s.(body := Value(unencodable))));
    assert err == Some(Wrapped(jsonMarshal(unencodable).error, 500, true));
    assert c.statusCode == 0 && c.bodyBuffer.None? && c.contentType == "";
  }

  /** reader body: nothing is buffered and no status is set. */
  method ScenarioReader<V, E>(jsonMarshal: Marshal<V, E>) {
    var c := new Context<V>();
    var err := c.Respond(New(Config(None, true, None, ""), jsonMarshal), (s: Response<V>) => Outcome(None, s.(body := Reader)));
    assert err.None? && c.bodyBuffer.None? && c.statusCode == 0;
  }
}
