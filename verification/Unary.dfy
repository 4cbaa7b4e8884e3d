// Unary calls: Client.invokeOnSubject (pkg/rpc/client.go) and the server's
// serverUnaryRequestHandler (pkg/rpc/server.go).
module Unary {
  import opened Wire

  // What proto.Unmarshal leaves in the message, with its error if any.
  datatype Decoded<M> = Decoded(message: M, error: Option<Error>)

  datatype Encoded = Encoded(payload: Payload) | EncodingError(error: Error)

  // How messages of type M travel. `zero` is the freshly allocated message.
  datatype Codec<!M(!new)> = Codec(encode: M -> Encoded, decode: Payload -> Decoded<M>, zero: M)

  // Marshalling round-trips, and only the zero message is empty on the wire.
  ghost predicate Faithful<M(!new)>(c: Codec<M>) {
    && (forall m {:trigger c.encode(m)} :: c.encode(m).Encoded? ==> c.decode(c.encode(m).payload) == Decoded(m, None))
    && (forall m {:trigger c.encode(m)} :: c.encode(m) == Encoded([]) <==> m == c.zero)
  }

  // *Frame messages pass their bytes through.
  function RawCodec(): Codec<Payload> {
    Codec((p: Payload) => Encoded(p), (p: Payload) => Decoded(p, None), [])
  }

  datatype UnaryRequest = UnaryRequest(path: string, data: Payload, metadata: Option<MD>)

  datatype UnaryResponse = UnaryResponse(status: Option<Status>, data: Payload, header: Option<MD>, trailer: Option<MD>)

  // What becomes of the request: its envelope does not marshal, or
  // nc.RequestWithContext yields an error, bytes that do not parse, a response of
  // another kind, or the unary response.
  datatype Exchange =
    | TimedOut
    | Cancelled
    | NoResponders
    | Broken(text: string)
    | Unsendable(error: Error)
    | Unparsable(error: Error)
    | OtherResponse
    | Answered(response: UnaryResponse)

  const TIMED_OUT: Error := StatusError(Status(CODE_DEADLINE_EXCEEDED, "deadline exceeded"))
  const CANCELED: Error := StatusError(Status(CODE_CANCELED, "context canceled"))
  const NO_RESPONDERS: Error := StatusError(Status(CODE_UNAVAILABLE, "no responders"))
  const NOT_UNARY: Error := StatusError(Status(CODE_INTERNAL, "expected unary response"))

  // The error of an exchange without a unary response.
  function ExchangeError(x: Exchange): Error
    requires !x.Answered?
  {
    match x
    case TimedOut => TIMED_OUT
    case Cancelled => CANCELED
    case NoResponders => NO_RESPONDERS
    case Unsendable(e) => e
    case Broken(text) => StatusError(Status(CODE_UNAVAILABLE, text))
    case Unparsable(e) => e
    case OtherResponse => NOT_UNARY
  }

  // metadata from the wire, appended to a fresh MD: a key without values leaves nothing.
  function FreshMD(md: Option<MD>): MD {
    if md.None? then map[] else map k | k in md.value && md.value[k] != [] :: md.value[k]
  }

  // The target was overwritten with exactly these values; with none if there are none.
  ghost predicate Holds(target: Option<MD>, md: Option<MD>) {
    target.Some? && forall k {:trigger Values(target.value, k)} ::
      Values(target.value, k) == if md.None? then [] else Values(md.value, k)
  }

  // What the caller is told of an exchange without a unary response.
  predicate Reports(x: Exchange, err: Option<Error>) {
    match x
    case TimedOut => err == Some(StatusError(Status(4, "deadline exceeded")))
    case Cancelled => err == Some(StatusError(Status(1, "context canceled")))
    case NoResponders => err == Some(StatusError(Status(14, "no responders")))
    case Broken(text) => err == Some(StatusError(Status(14, text)))
    case Unsendable(e) => err == Some(e)
    case Unparsable(e) => err == Some(e)
    case OtherResponse => err == Some(StatusError(Status(13, "expected unary response")))
    case Answered(_) => false
  }

  // What a call makes of a response: the error it returns, and the reply after it.
  ghost predicate Yields<M(!new)>(c: Codec<M>, u: UnaryResponse, before: M, reply: M, err: Option<Error>) {
    if u.status.Some? && u.status.value.code != 0 then err == Some(StatusError(u.status.value)) && reply == before
    else if u.data == [] then err.None? && reply == before
    else err == c.decode(u.data).error && reply == c.decode(u.data).message
  }

  // InPayload is reported for a body, unless it was to be decoded and is not a message.
  predicate BodyReported<M(!new)>(c: Codec<M>, u: UnaryResponse) {
    u.data != [] && ((u.status.Some? && u.status.value.code != 0) || c.decode(u.data).error.None?)
  }

  // ---------------------------------------------------------------------
  // The client
  // ---------------------------------------------------------------------

  // A call as its caller sees it: the reply message, the targets of the Header and
  // Trailer call options (None until overwritten), and what the stats handler saw.
  class Call<B(!new)> {
    const codec: Codec<B>
    var reply: B
    var header: Option<MD>
    var trailer: Option<MD>
    var trace: seq<StatEvent>

    constructor (codec: Codec<B>, reply: B)
      ensures this.codec == codec && this.reply == reply && header.None? && trailer.None? && trace == []
    {
      this.codec, this.reply := codec, reply;
      header, trailer, trace := None, None, [];
    }

    // invokeOnSubject on a subject behind which `exchange` answers.
    method InvokeOnSubject<A(!new)>(req: Codec<A>, path: string, args: A, metadata: Option<MD>,
                                    exchange: UnaryRequest -> Exchange)
      returns (err: Option<Error>)
      requires trace == []
      modifies this
      ensures var r := Invoke(req, codec, path, args, metadata, exchange, old(reply));
              && err == r.err && reply == r.reply && trace == r.trace
              && header == (if r.header.Some? then r.header else old(header))
              && trailer == (if r.header.Some? then r.trailer else old(trailer))
      ensures Says(req, codec, path, args, metadata, exchange, Outcome(old(reply), None, [], old(header), old(trailer)),
                   Outcome(reply, err, trace, header, trailer))
    {
      InvokeSays(req, codec, path, args, metadata, exchange, Outcome(reply, None, [], header, trailer));
      trace := trace + [StatBegin];
      var encoded := req.encode(args);
      if encoded.EncodingError? {
        err := Some(encoded.error);
        trace := trace + [StatEnd(err)];
        return;
      }
      trace := trace + [OutPayload(|encoded.payload|)];
      var x := exchange(UnaryRequest(path, encoded.payload, MakeMetadata(metadata)));
      if !x.Answered? {
        err := Some(ExchangeError(x));
        trace := trace + [StatEnd(err)];
        return;
      }
      err := Accept(x.response, |encoded.payload|);
    }

    // The rest of invokeOnSubject, from the response on.
    method Accept(u: UnaryResponse, ghost sent: nat) returns (err: Option<Error>)
      requires trace == [StatBegin, OutPayload(sent)]
      modifies this
      ensures var r := Receive(codec, u, sent, old(reply));
              err == r.err && reply == r.reply && trace == r.trace && header == r.header && trailer == r.trailer
    {
      header, trailer := Some(FreshMD(u.header)), Some(FreshMD(u.trailer));
      if IsOk(u.status) && |u.data| > 0 {
        var decoded := codec.decode(u.data);
        reply := decoded.message;
        if decoded.error.Some? {
          err := decoded.error;
          trace := trace + [StatEnd(err)];
          return;
        }
      }
      if |u.data| > 0 {
        trace := trace + [InPayload(|u.data|)];
      }
      err := if IsOk(u.status) then None else Some(StatusError(u.status.value));
      trace := trace + [StatEnd(err)];
    }
  }

  // The outcome of a call on a reply message; header and trailer are None where the
  // call options are left alone.
  datatype Outcome<M> = Outcome(
    reply: M,
    err: Option<Error>,
    trace: seq<StatEvent>,
    header: Option<MD>,
    trailer: Option<MD>)

  function Invoke<A(!new), B(!new)>(req: Codec<A>, resp: Codec<B>, path: string, args: A, metadata: Option<MD>,
                                    exchange: UnaryRequest -> Exchange, reply: B): Outcome<B>
  {
    match req.encode(args)
    case EncodingError(e) => Outcome(reply, Some(e), [StatBegin, StatEnd(Some(e))], None, None)
    case Encoded(p) =>
      var x := exchange(UnaryRequest(path, p, MakeMetadata(metadata)));
      if !x.Answered? then
        var e := ExchangeError(x);
        Outcome(reply, Some(e), [StatBegin, OutPayload(|p|), StatEnd(Some(e))], None, None)
      else
        Receive(resp, x.response, |p|, reply)
  }

  function Receive<M(!new)>(c: Codec<M>, u: UnaryResponse, sent: nat, reply: M): Outcome<M> {
    var header, trailer := Some(FreshMD(u.header)), Some(FreshMD(u.trailer));
    var inPayload := if u.data == [] then [] else [InPayload(|u.data|)];
    if !IsOk(u.status) then
      var e := Some(StatusError(u.status.value));
      Outcome(reply, e, [StatBegin, OutPayload(sent)] + inPayload + [StatEnd(e)], header, trailer)
    else if u.data == [] then
      Outcome(reply, None, [StatBegin, OutPayload(sent), StatEnd(None)], header, trailer)
    else
      var d := c.decode(u.data);
      if d.error.Some? then
        Outcome(d.message, d.error, [StatBegin, OutPayload(sent), StatEnd(d.error)], header, trailer)
      else
        Outcome(d.message, None, [StatBegin, OutPayload(sent)] + inPayload + [StatEnd(None)], header, trailer)
  }

  // What a call leaves: the reply, the error, the trace and the targets after it.
  ghost predicate Says<A(!new), B(!new)>(req: Codec<A>, resp: Codec<B>, path: string, args: A, metadata: Option<MD>,
                                         exchange: UnaryRequest -> Exchange, before: Outcome<B>, after: Outcome<B>)
  {
    var encoded := req.encode(args);
    if encoded.EncodingError? then
      && after.err == Some(encoded.error) && after.trace == [StatBegin, StatEnd(after.err)] && Untouched(before, after)
    else
      var p := encoded.payload;
      var x := exchange(UnaryRequest(path, p, if metadata == Some(map[]) then None else metadata));
      if x.Answered? then Receives(resp, x.response, |p|, before, after)
      else
        && Reports(x, after.err) && after.trace == [StatBegin, OutPayload(|p|), StatEnd(after.err)]
        && Untouched(before, after)
  }

  // What a response leaves.
  ghost predicate Receives<M(!new)>(c: Codec<M>, u: UnaryResponse, sent: nat, before: Outcome<M>, after: Outcome<M>) {
    && Holds(after.header, u.header) && Holds(after.trailer, u.trailer)
    && Yields(c, u, before.reply, after.reply, after.err)
    && after.trace == [StatBegin, OutPayload(sent)] + (if BodyReported(c, u) then [InPayload(|u.data|)] else [])
                      + [StatEnd(after.err)]
  }

  lemma ReceiveSays<M(!new)>(c: Codec<M>, u: UnaryResponse, sent: nat, before: Outcome<M>)
    ensures Receives(c, u, sent, before, Receive(c, u, sent, before.reply))
  {}

  ghost predicate Untouched<M(!new)>(before: Outcome<M>, after: Outcome<M>) {
    after.reply == before.reply && after.header == before.header && after.trailer == before.trailer
  }

  lemma InvokeSays<A(!new), B(!new)>(req: Codec<A>, resp: Codec<B>, path: string, args: A, metadata: Option<MD>,
                                     exchange: UnaryRequest -> Exchange, before: Outcome<B>)
    ensures var r := Invoke(req, resp, path, args, metadata, exchange, before.reply);
            var header := if r.header.Some? then r.header else before.header;
            var trailer := if r.header.Some? then r.trailer else before.trailer;
            Says(req, resp, path, args, metadata, exchange, before, Outcome(r.reply, r.err, r.trace, header, trailer))
  {
    var md := MakeMetadata(metadata);
    assert md == if metadata == Some(map[]) then None else metadata;
    if req.encode(args).Encoded? && exchange(UnaryRequest(path, req.encode(args).payload, md)).Answered? {
      var p := req.encode(args).payload;
      ReceiveSays(resp, exchange(UnaryRequest(path, p, md)).response, |p|, before);
    }
  }

  // Begin, optional OutPayload, optional InPayload, End; InPayload only after
  // OutPayload, End with the error of the call.
  ghost predicate UnaryTrace(t: seq<StatEvent>, err: Option<Error>) {
    || t == [StatBegin, StatEnd(err)]
    || (exists n :: t == [StatBegin, OutPayload(n), StatEnd(err)])
    || (exists n, k :: t == [StatBegin, OutPayload(n), InPayload(k), StatEnd(err)])
  }

  /** On every path of a call the stats handler sees Begin, perhaps OutPayload,
      perhaps then InPayload, and End with the error the call returns. */
  lemma ClientTrace<A(!new), B(!new)>(req: Codec<A>, resp: Codec<B>, path: string, args: A, metadata: Option<MD>,
                                      exchange: UnaryRequest -> Exchange, reply: B)
    ensures var r := Invoke(req, resp, path, args, metadata, exchange, reply);
            UnaryTrace(r.trace, r.err)
  {
    var r := Invoke(req, resp, path, args, metadata, exchange, reply);
    if req.encode(args).Encoded? {
      var p := req.encode(args).payload;
      var x := exchange(UnaryRequest(path, p, MakeMetadata(metadata)));
      if x.Answered? && x.response.data != [] && |r.trace| == 4 {
        assert r.trace == [StatBegin, OutPayload(|p|), InPayload(|x.response.data|), StatEnd(r.err)];
      } else {
        assert r.trace == [StatBegin, OutPayload(|p|), StatEnd(r.err)];
      }
    }
  }

  // ---------------------------------------------------------------------
  // The server
  // ---------------------------------------------------------------------

  datatype Reaction<M> = Responds(message: M) | Fails(error: Error)

  type Handler<!A, B> = (Option<MD>, A) -> Reaction<B>

  // No error anywhere is a status error with code OK.
  ghost predicate SaneCodec<M(!new)>(c: Codec<M>) {
    && (forall m {:trigger c.encode(m)} :: c.encode(m).EncodingError? ==> WellFormedError(Some(c.encode(m).error)))
    && (forall p {:trigger c.decode(p)} :: WellFormedError(c.decode(p).error))
  }

  ghost predicate SaneHandler<A(!new), B>(handler: Handler<A, B>) {
    forall md, a :: handler(md, a).Fails? ==> WellFormedError(Some(handler(md, a).error))
  }

  // A generated handler decodes the request first and fails with that error.
  function Handle<A(!new), B>(req: Codec<A>, handler: Handler<A, B>, u: UnaryRequest): Reaction<B> {
    var d := req.decode(u.data);
    if d.error.Some? then Fails(d.error.value) else handler(u.metadata, d.message)
  }

  // A response without a body that carries the error.
  predicate Refuses(u: UnaryResponse, e: Error) {
    u.status.Some? && Carries(u.status.value, e) && u.data == [] && u.header.None? && u.trailer.None?
  }

  // serverUnaryRequestHandler: the response it publishes. The End event carries the
  // handler's error, even when it is the response that cannot be marshalled.
  method ServeUnary<A(!new), B(!new)>(req: Codec<A>, resp: Codec<B>, handler: Handler<A, B>, u: UnaryRequest)
    returns (response: UnaryResponse, trace: seq<StatEvent>)
    requires SaneCodec(req) && SaneCodec(resp) && SaneHandler(handler)
    ensures response == Serve(req, resp, handler, u)
    ensures var d := req.decode(u.data);
            if d.error.Some? then Refuses(response, d.error.value)
            else
              match handler(u.metadata, d.message)
              case Fails(e) => Refuses(response, e)
              case Responds(m) =>
                match resp.encode(m)
                case EncodingError(e) => Refuses(response, e)
                case Encoded(p) => response == UnaryResponse(None, p, None, None)
    ensures var r := Handle(req, handler, u);
            trace == [StatBegin, InPayload(|u.data|)]
                     + (if r.Responds? && resp.encode(r.message).Encoded? then [OutPayload(|response.data|)] else [])
                     + [StatEnd(if r.Fails? then Some(r.error) else None)]
  {
    trace := [StatBegin, InPayload(|u.data|)];
    var reaction := Handle(req, handler, u);
    var status: Option<Status>;
    var data: Payload := [];
    match reaction {
      case Fails(e) =>
        status := StatusProto(Some(e));
        trace := trace + [StatEnd(Some(e))];
      case Responds(m) =>
        match resp.encode(m) {
          case EncodingError(e) =>
            status := StatusProto(Some(e));
          case Encoded(p) =>
            data := p;
            status := StatusProto(None);
            trace := trace + [OutPayload(|p|)];
        }
        trace := trace + [StatEnd(None)];
    }
    response := UnaryResponse(status, data, None, None);
  }

  function Serve<A(!new), B(!new)>(req: Codec<A>, resp: Codec<B>, handler: Handler<A, B>, u: UnaryRequest)
    : UnaryResponse
    requires SaneCodec(req) && SaneCodec(resp) && SaneHandler(handler)
  {
    match Handle(req, handler, u)
    case Fails(e) => UnaryResponse(StatusProto(Some(e)), [], None, None)
    case Responds(m) =>
      match resp.encode(m)
      case EncodingError(e) => UnaryResponse(StatusProto(Some(e)), [], None, None)
      case Encoded(p) => UnaryResponse(StatusProto(None), p, None, None)
  }

  // ---------------------------------------------------------------------
  // Together
  // ---------------------------------------------------------------------

  // A status error that carries e.
  predicate TellsOf(err: Option<Error>, e: Error) {
    err.Some? && err.value.StatusError? && Carries(err.value.status, e)
  }

  /** A call answered by a server is the handler called directly. If the handler
      fails, the caller gets its status and its reply is untouched; if it responds,
      the call succeeds and the reply becomes the response exactly when the response
      is not the zero message or the reply was fresh: an empty body is never decoded
      into the reply. */
  lemma CallIsDirect<A(!new), B(!new)>(req: Codec<A>, resp: Codec<B>, handler: Handler<A, B>,
                                       path: string, args: A, metadata: Option<MD>, reply: B)
    requires Faithful(req) && Faithful(resp) && SaneCodec(req) && SaneCodec(resp) && SaneHandler(handler)
    requires req.encode(args).Encoded?
    ensures var server: UnaryRequest -> Exchange := u => Answered(Serve(req, resp, handler, u));
            var direct := handler(MakeMetadata(metadata), args);
            var r := Invoke(req, resp, path, args, metadata, server, reply);
            match direct
            case Fails(e) => TellsOf(r.err, e) && r.reply == reply
            case Responds(m) =>
              match resp.encode(m)
              case EncodingError(e) => TellsOf(r.err, e) && r.reply == reply
              case Encoded(_) => r.err.None? && (r.reply == m <==> m != resp.zero || reply == resp.zero)
  {
    var p := req.encode(args).payload;
    assert req.decode(p) == Decoded(args, None);
    var u := UnaryRequest(path, p, MakeMetadata(metadata));
    assert Handle(req, handler, u) == handler(MakeMetadata(metadata), args);
    var direct := handler(MakeMetadata(metadata), args);
    if direct.Responds? && resp.encode(direct.message).Encoded? {
      var q := resp.encode(direct.message).payload;
      assert resp.encode(direct.message) == Encoded(q);
      assert resp.decode(q) == Decoded(direct.message, None);
    }
  }

  /** The raw frames of the sidecar are faithful messages. */
  lemma RawCodecFaithful()
    ensures Faithful(RawCodec()) && SaneCodec(RawCodec())
  {}
}
