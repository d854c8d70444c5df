/**
 * The webhook endpoint: authenticates an HTTP-delivered interaction with
 * the platform's Ed25519 scheme over timestamp followed by body, decodes
 * it, dispatches it through a typed router and shapes the HTTP reply.
 * The curve check and the JSON codec are oracles.
 */
module Lambda {
  import opened Discord
  import opened Dispatch
  import Router
  import Hex

  const HeaderSignature := "X-Signature-Ed25519"
  const HeaderTimestamp := "X-Signature-Timestamp"

  const PublicKeySize := 32
  const SignatureSize := 64

  const StatusOK := 200
  const StatusAccepted := 202
  const StatusUnauthorized := 401

  /**
   * An Ed25519 public key, or the empty key that switches authentication
   * off. The library's verifier panics on a key of any other length.
   */
  type PublicKey = k: seq<byte> | |k| == 0 || |k| == PublicKeySize

  /** The curve check of Ed25519 verification (section 5.1.7 of RFC 8032): key, message, signature. */
  type Curve = (seq<byte>, seq<byte>, seq<byte>) -> bool

  /**
   * ed25519.Verify: a signature that is not 64 bytes long, or whose last
   * byte has any of its top three bits set, is refused before the curve check.
   */
  function Ed25519Verify(curve: Curve, publicKey: seq<byte>, message: seq<byte>, sig: seq<byte>): bool
  {
    |sig| == SignatureSize && sig[SignatureSize - 1] < 32 && curve(publicKey, message, sig)
  }

  /** A function-URL request: its headers and its raw body. */
  datatype Request = Request(headers: map<string, seq<byte>>, body: seq<byte>)

  datatype Response = Response(statusCode: int, body: seq<byte>)

  /** What Handle gives back: a response, or an error for the caller to turn into a server error. */
  datatype HandleResult = Reply(response: Response) | Error(message: string)

  /** The JSON decoder for interactions and the JSON encoder for responses. */
  datatype Codec = Codec(decode: seq<byte> -> Result<Interaction>, encode: InteractionResponse -> Result<seq<byte>>)

  datatype VerifyError =
    | MissingSignature
    | MissingTimestamp
    | MalformedSignature(cause: Hex.DecodeError)
    | InvalidSignature

  function ErrorText(e: VerifyError): string
  {
    match e
    case MissingSignature => "missing header " + HeaderSignature
    case MissingTimestamp => "missing header " + HeaderTimestamp
    case MalformedSignature(cause) => "invalid signature: " + Hex.ErrorText(cause)
    case InvalidSignature => "invalid signature"
  }

  /** A header's value; an absent header reads as empty. */
  function Header(headers: map<string, seq<byte>>, name: string): seq<byte>
  {
    if name in headers then headers[name] else []
  }

  /**
   * Authenticates a request: skipped for the empty key; otherwise the
   * signature header, then the timestamp header, must be non-empty, the
   * signature must be hex, and it must verify over timestamp ++ body.
   */
  function Verify(publicKey: PublicKey, headers: map<string, seq<byte>>, body: seq<byte>, curve: Curve): Option<VerifyError>
  {
    if |publicKey| == 0 then None
    else
      var signature := Header(headers, HeaderSignature);
      if signature == [] then Some(MissingSignature)
      else
        var ts := Header(headers, HeaderTimestamp);
        if ts == [] then Some(MissingTimestamp)
        else match Hex.Decode(signature)
          case Failed(e) => Some(MalformedSignature(e))
          case Decoded(sig) => if Ed25519Verify(curve, publicKey, ts + body, sig) then None else Some(InvalidSignature)
  }

  /** The HTTP reply for the router's response: 202 and no body for none, 200 and its JSON otherwise. */
  function Shape(response: Option<InteractionResponse>, encode: InteractionResponse -> Result<seq<byte>>): HandleResult
  {
    match response
    case None => Reply(Response(StatusAccepted, []))
    case Some(r) =>
      match encode(r)
      case Ok(bs) => Reply(Response(StatusOK, bs))
      case Err(e) => Error(e)
  }

  /** With the empty key every request is accepted, whatever its headers and body. */
  lemma VerifyDisabledByEmptyKey(headers: map<string, seq<byte>>, body: seq<byte>, curve: Curve)
    ensures Verify([], headers, body, curve) == None
  {
  }

  /**
   * A missing signature header is reported first, whatever the timestamp;
   * with a signature present, a missing timestamp is reported next.
   */
  lemma VerifyMissingHeaders(publicKey: PublicKey, headers: map<string, seq<byte>>, body: seq<byte>, curve: Curve)
    requires |publicKey| == PublicKeySize
    ensures Header(headers, HeaderSignature) == [] ==> Verify(publicKey, headers, body, curve) == Some(MissingSignature)
    ensures Header(headers, HeaderSignature) != [] && Header(headers, HeaderTimestamp) == [] ==>
              Verify(publicKey, headers, body, curve) == Some(MissingTimestamp)
  {
  }

  /**
   * A signature that is not hex (a non-hex byte, or an odd length) is
   * refused as malformed, before and independently of any curve check.
   */
  lemma {:induction false} VerifyRejectsNonHex(publicKey: PublicKey, headers: map<string, seq<byte>>, body: seq<byte>,
                                               curve: Curve, other: Curve)
    requires |publicKey| == PublicKeySize
    requires Header(headers, HeaderSignature) != [] && Header(headers, HeaderTimestamp) != []
    requires |Header(headers, HeaderSignature)| % 2 == 1 ||
             exists k :: 0 <= k < |Header(headers, HeaderSignature)| && !Hex.IsHexDigit(Header(headers, HeaderSignature)[k])
    ensures Verify(publicKey, headers, body, curve).Some?
    ensures Verify(publicKey, headers, body, curve).value.MalformedSignature?
    ensures Verify(publicKey, headers, body, curve) == Verify(publicKey, headers, body, other)
    ensures ErrorText(Verify(publicKey, headers, body, curve).value)[..19] == "invalid signature: "
  {
    Hex.DecodeSucceedsIff(Header(headers, HeaderSignature));
  }

  /**
   * With both headers present and a hex signature, the request is accepted
   * exactly when the signature verifies over the timestamp bytes followed by
   * the body bytes, and only the curve's answer on that message matters.
   */
  lemma VerifyChecksTimestampThenBody(publicKey: PublicKey, headers: map<string, seq<byte>>, body: seq<byte>,
                                      curve: Curve, other: Curve)
    requires |publicKey| == PublicKeySize
    requires Header(headers, HeaderSignature) != [] && Header(headers, HeaderTimestamp) != []
    requires Hex.Decode(Header(headers, HeaderSignature)).Decoded?
    ensures var sig := Hex.Decode(Header(headers, HeaderSignature)).bytes;
            var message := Header(headers, HeaderTimestamp) + body;
            && (Verify(publicKey, headers, body, curve) == None <==> Ed25519Verify(curve, publicKey, message, sig))
            && (Verify(publicKey, headers, body, curve) != None ==> Verify(publicKey, headers, body, curve) == Some(InvalidSignature))
            && (curve(publicKey, message, sig) == other(publicKey, message, sig) ==>
                  Verify(publicKey, headers, body, curve) == Verify(publicKey, headers, body, other))
  {
  }

  /**
   * A request signed correctly over the exact timestamp ++ body, with the
   * signature hex-encoded in either letter case, is accepted.
   */
  lemma {:induction false} AuthenticRequestAccepted(publicKey: PublicKey, ts: seq<byte>, body: seq<byte>, sig: seq<byte>,
                                                    upper: bool, curve: Curve)
    requires |publicKey| == PublicKeySize && ts != []
    requires |sig| == SignatureSize && sig[SignatureSize - 1] < 32 && curve(publicKey, ts + body, sig)
    ensures var encoded := if upper then Hex.EncodeUpper(sig) else Hex.Encode(sig);
            Verify(publicKey, map[HeaderSignature := encoded, HeaderTimestamp := ts], body, curve) == None
  {
    var headers := map[HeaderSignature := if upper then Hex.EncodeUpper(sig) else Hex.Encode(sig), HeaderTimestamp := ts];
    assert Header(headers, HeaderTimestamp) == ts;
    if upper {
      Hex.DecodeEncodeUpper(sig);
    } else {
      Hex.DecodeEncode(sig);
      Hex.EncodeIsHex(sig);
    }
    assert Header(headers, HeaderSignature) != [] by {
      if upper { assert |Hex.EncodeUpper(sig)| > 0; }
    }
  }

  /** No response maps to 202 with an empty body; a response maps to 200 with its encoding, or to the encoder's error. */
  lemma ShapeStatus(response: Option<InteractionResponse>, encode: InteractionResponse -> Result<seq<byte>>)
    ensures response.None? ==> Shape(response, encode) == Reply(Response(StatusAccepted, []))
    ensures response.Some? && encode(response.value).Ok? ==>
              Shape(response, encode) == Reply(Response(StatusOK, encode(response.value).value))
    ensures response.Some? && encode(response.value).Err? ==> Shape(response, encode) == Error(encode(response.value).error)
  {
  }

  /**
   * An accepted application command for a registered key in deferred mode:
   * the reply is 202, the acknowledgement is sent first and the handler runs
   * once after it.
   */
  lemma {:induction false} DeferredCommandScenario(handlers: map<Router.Key, HandlerId>, s: Session, i: Interaction,
                                                   run: HandlerOracle, encode: InteractionResponse -> Result<seq<byte>>)
    requires i.kind == InteractionApplicationCommand && Router.KeyOf(i.data) in handlers
    ensures Shape(Router.ResponseFor(i.kind), encode) == Reply(Response(StatusAccepted, []))
    ensures var effects := Router.Effects(handlers, true, s, i, None, run);
            && |effects| >= 2
            && effects[0] == AckSent(s, DeferredAck)
            && effects[1] == HandlerCalled(handlers[Router.KeyOf(i.data)], s, i.data)
            && HandlerCalls(effects) == 1
  {
    Router.DispatchExactKeyOnce(handlers, true, s, i, None, run);
  }

  datatype EndpointOption = WithRouter(router: Router.Router) | WithLogger

  /** The router the last WithRouter option supplies, if any. */
  function RouterOverride(options: seq<EndpointOption>): Option<Router.Router>
  {
    if options == [] then None
    else match options[|options| - 1]
      case WithRouter(r) => Some(r)
      case WithLogger => RouterOverride(options[..|options| - 1])
  }

  /**
   * No WithRouter option keeps the default router; otherwise the last router
   * given is used, whatever options follow it.
   */
  lemma {:induction false} RouterOverrideIsLastOption(options: seq<EndpointOption>, r: Router.Router)
    ensures (forall j :: 0 <= j < |options| ==> !options[j].WithRouter?) ==> RouterOverride(options).None?
    ensures forall j :: 0 <= j < |options| && options[j].WithRouter? &&
                        (forall k :: j < k < |options| ==> !options[k].WithRouter?) ==>
                          RouterOverride(options) == Some(options[j].router)
    ensures RouterOverride(options + [WithRouter(r)]) == Some(r)
  {
    if options != [] {
      var n := |options| - 1;
      RouterOverrideIsLastOption(options[..n], r);
      assert forall j :: 0 <= j < n ==> options[..n][j] == options[j];
    }
  }

  class Endpoint {
    var s: Session?
    const publicKey: PublicKey
    var router: Router.Router

    /** An endpoint with no shared session and a fresh router unless an option supplies one. */
    constructor (publicKey: PublicKey, options: seq<EndpointOption>)
      ensures this.publicKey == publicKey && s == null
      ensures RouterOverride(options).Some? ==> router == RouterOverride(options).value
      ensures RouterOverride(options).None? ==>
                fresh(router) && router.handlers == map[] && !router.deferredResponseEnabled
    {
      var defaultRouter := new Router.Router([Router.WithLogger]);
      this.publicKey := publicKey;
      s := null;
      router := defaultRouter;
      new;
      var k := 0;
      while k < |options|
        invariant 0 <= k <= |options|
        invariant this.publicKey == publicKey && s == null
        invariant RouterOverride(options[..k]).Some? ==> router == RouterOverride(options[..k]).value
        invariant RouterOverride(options[..k]).None? ==> router == defaultRouter
        invariant defaultRouter.handlers == map[] && !defaultRouter.deferredResponseEnabled
      {
        assert options[..k + 1][..k] == options[..k];
        if options[k].WithRouter? {
          router := options[k].router;
        }
        k := k + 1;
      }
      assert options[..k] == options;
    }

    /** Uses `s` for every dispatch instead of a per-interaction session; null restores per-interaction sessions. */
    method WithSession(s: Session?)
      modifies this`s
      ensures this.s == s
    {
      this.s := s;
    }

    /** Registers `handler` with the router under (name, commandType). */
    method WithApplicationCommand(name: string, commandType: CommandType, handler: HandlerId)
      modifies router`handlers
      ensures router.handlers == old(router.handlers)[Router.Key(name, commandType) := handler]
    {
      router.RegisterCommand(name, commandType, handler);
    }

    method WithChatApplicationCommand(name: string, handler: HandlerId)
      modifies router`handlers
      ensures router.handlers == old(router.handlers)[Router.Key(name, ChatApplicationCommand) := handler]
    {
      WithApplicationCommand(name, ChatApplicationCommand, handler);
    }

    method WithUserApplicationCommand(name: string, handler: HandlerId)
      modifies router`handlers
      ensures router.handlers == old(router.handlers)[Router.Key(name, UserApplicationCommand) := handler]
    {
      WithApplicationCommand(name, UserApplicationCommand, handler);
    }

    method WithMessageApplicationCommand(name: string, handler: HandlerId)
      modifies router`handlers
      ensures router.handlers == old(router.handlers)[Router.Key(name, MessageApplicationCommand) := handler]
    {
      WithApplicationCommand(name, MessageApplicationCommand, handler);
    }

    /**
     * Handles one request. `curve` and `codec` are the cryptographic and JSON
     * collaborators, `ackError` and `run` what the dispatch's network calls
     * and handlers produce; `dispatched` is the session the router used.
     */
    method Handle(event: Option<Request>, curve: Curve, codec: Codec, ackError: Option<string>, run: HandlerOracle)
      returns (result: HandleResult, effects: seq<Event>, ghost dispatched: Option<Session>)
      ensures event.None? ==> result == Error("received nil event") && effects == [] && dispatched.None?
      ensures event.Some? && Verify(publicKey, event.value.headers, event.value.body, curve).Some? ==>
                result == Reply(Response(StatusUnauthorized, [])) && effects == [] && dispatched.None?
      ensures event.Some? && Verify(publicKey, event.value.headers, event.value.body, curve).None? &&
              codec.decode(event.value.body).Err? ==>
                result == Error(codec.decode(event.value.body).error) && effects == [] && dispatched.None?
      ensures event.Some? && Verify(publicKey, event.value.headers, event.value.body, curve).None? &&
              codec.decode(event.value.body).Ok? ==>
                var i := codec.decode(event.value.body).value;
                && dispatched.Some?
                && (s != null ==> dispatched.value == s)
                && (s == null ==> fresh(dispatched.value) && dispatched.value.token == "Bot " + i.token)
                && result == Shape(Router.ResponseFor(i.kind), codec.encode)
                && effects == Router.Effects(router.handlers, router.deferredResponseEnabled, dispatched.value, i, ackError, run)
    {
      effects, dispatched := [], None;
      if event.None? {
        result := Error("received nil event");
        return;
      }
      var request := event.value;
      if Verify(publicKey, request.headers, request.body, curve).Some? {
        result := Reply(Response(StatusUnauthorized, []));
        return;
      }
      var decoded := codec.decode(request.body);
      if decoded.Err? {
        result := Error(decoded.error);
        return;
      }
      var response, e, session := HandleInteraction(decoded.value, ackError, run);
      effects, dispatched := e, Some(session);
      if response.None? {
        result := Reply(Response(StatusAccepted, []));
        return;
      }
      var encoded := codec.encode(response.value);
      if encoded.Err? {
        result := Error(encoded.error);
        return;
      }
      result := Reply(Response(StatusOK, encoded.value));
    }

    /**
     * Dispatches through the router with the shared session, or with a
     * session built for this interaction from "Bot " and its token.
     */
    method HandleInteraction(i: Interaction, ackError: Option<string>, run: HandlerOracle)
      returns (response: Option<InteractionResponse>, effects: seq<Event>, session: Session)
      ensures s != null ==> session == s
      ensures s == null ==> fresh(session) && session.token == "Bot " + i.token
      ensures response == Router.ResponseFor(i.kind)
      ensures effects == Router.Effects(router.handlers, router.deferredResponseEnabled, session, i, ackError, run)
    {
      if s != null {
        session := s;
      } else {
        session := new Session("Bot " + i.token);
      }
      response, effects := router.HandleWithContext(session, i, ackError, run);
    }
  }
}
