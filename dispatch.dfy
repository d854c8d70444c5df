/**
 * The dispatch protocol both routers follow for an application command:
 * an optional deferred acknowledgement (a failure to send it ends the
 * dispatch), then the handler found by the lookup, run once, its error only
 * logged. Stated once, as the trace of effects it produces; each router
 * supplies its own lookup.
 */
module Dispatch {
  import opened Discord

  /** What a handler returns when run with a session and an interaction: None for success. */
  type HandlerOracle = (HandlerId, Session, Interaction) -> Option<string>

  /** The oracle under which every handler succeeds. */
  function Succeeding(h: HandlerId, s: Session, i: Interaction): Option<string> { None }

  predicate IsAck(e: Event) { e.AckSent? || e.AckFailed? }

  /** The lookup is reached: deferred mode is off, or the acknowledgement went out. */
  predicate AckPassed(deferred: bool, ackError: Option<string>) { !deferred || ackError.None? }

  /** The acknowledgement effect: none when deferred mode is off. */
  function AckEffects(deferred: bool, s: Session, ackError: Option<string>): seq<Event>
  {
    if !deferred then []
    else if ackError.Some? then [AckFailed(s, DeferredAck, ackError.value)]
    else [AckSent(s, DeferredAck)]
  }

  /** The effect of running handler `h`: nothing on success, a logged error otherwise. */
  function RunEffects(h: HandlerId, s: Session, i: Interaction, run: HandlerOracle): seq<Event>
  {
    match run(h, s, i)
    case None => []
    case Some(e) => [HandlerFailed(h, e)]
  }

  /**
   * The effects of dispatching `i` with session `s`. `ackError` is what
   * sending the acknowledgement produced, `found` the lookup's result and
   * `run` the handlers' results.
   */
  function Protocol(deferred: bool, s: Session, i: Interaction, ackError: Option<string>,
                    found: Option<HandlerId>, run: HandlerOracle): seq<Event>
  {
    if !AckPassed(deferred, ackError) then AckEffects(deferred, s, ackError)
    else match found
      case None => AckEffects(deferred, s, ackError) + [HandlerNotFound(i.data.name)]
      case Some(h) => AckEffects(deferred, s, ackError) + [HandlerCalled(h, s, i.data)] + RunEffects(h, s, i, run)
  }

  /** The number of handler invocations in a trace. */
  function HandlerCalls(effects: seq<Event>): nat
  {
    if effects == [] then 0
    else HandlerCalls(effects[..|effects| - 1]) + (if effects[|effects| - 1].HandlerCalled? then 1 else 0)
  }

  lemma {:induction false} HandlerCallsAppend(a: seq<Event>, b: seq<Event>)
    ensures HandlerCalls(a + b) == HandlerCalls(a) + HandlerCalls(b)
    decreases |b|
  {
    if b == [] {
      assert a + b == a;
    } else {
      var n := |b| - 1;
      assert (a + b)[..|a + b| - 1] == a + b[..n];
      assert (a + b)[|a + b| - 1] == b[n];
      HandlerCallsAppend(a, b[..n]);
    }
  }

  lemma HandlerCallsSingle(e: Event)
    ensures HandlerCalls([e]) == if e.HandlerCalled? then 1 else 0
  {
  }

  /**
   * Exactly one handler runs when the lookup is reached and succeeds, none
   * otherwise.
   */
  lemma {:induction false} ProtocolCallsOnce(deferred: bool, s: Session, i: Interaction, ackError: Option<string>,
                                             found: Option<HandlerId>, run: HandlerOracle)
    ensures HandlerCalls(Protocol(deferred, s, i, ackError, found, run)) ==
            if AckPassed(deferred, ackError) && found.Some? then 1 else 0
  {
    var ack := AckEffects(deferred, s, ackError);
    assert HandlerCalls(ack) == 0 by {
      if ack != [] { HandlerCallsSingle(ack[0]); }
    }
    if AckPassed(deferred, ackError) {
      match found
      case None =>
        HandlerCallsSingle(HandlerNotFound(i.data.name));
        HandlerCallsAppend(ack, [HandlerNotFound(i.data.name)]);
      case Some(h) =>
        var log := RunEffects(h, s, i, run);
        assert HandlerCalls(log) == 0 by {
          if log != [] { HandlerCallsSingle(log[0]); }
        }
        HandlerCallsSingle(HandlerCalled(h, s, i.data));
        HandlerCallsAppend(ack, [HandlerCalled(h, s, i.data)]);
        HandlerCallsAppend(ack + [HandlerCalled(h, s, i.data)], log);
    }
  }

  /** The handler that runs is the one the lookup found, given the command's data and the session. */
  lemma ProtocolCallsFoundHandler(deferred: bool, s: Session, i: Interaction, ackError: Option<string>,
                                  found: Option<HandlerId>, run: HandlerOracle)
    ensures forall e :: e in Protocol(deferred, s, i, ackError, found, run) && e.HandlerCalled? ==>
              found.Some? && e == HandlerCalled(found.value, s, i.data)
  {
  }

  /**
   * In deferred mode the acknowledgement is the first effect and the only
   * one of its kind, and a handler appears only after a successful one;
   * without deferred mode nothing is sent.
   */
  lemma ProtocolAckComesFirst(deferred: bool, s: Session, i: Interaction, ackError: Option<string>,
                              found: Option<HandlerId>, run: HandlerOracle)
    ensures var p := Protocol(deferred, s, i, ackError, found, run);
      && (deferred ==> |p| >= 1 && p[0] == (if ackError.Some? then AckFailed(s, DeferredAck, ackError.value) else AckSent(s, DeferredAck)))
      && (forall j :: 0 <= j < |p| && IsAck(p[j]) ==> deferred && j == 0)
      && (forall j :: 0 <= j < |p| && p[j].HandlerCalled? ==> !deferred || (0 < j && p[0] == AckSent(s, DeferredAck)))
  {
  }

  /** A failed acknowledgement ends the dispatch: no lookup, no handler. */
  lemma ProtocolAckFailureAborts(s: Session, i: Interaction, e: string, found: Option<HandlerId>, run: HandlerOracle)
    ensures Protocol(true, s, i, Some(e), found, run) == [AckFailed(s, DeferredAck, e)]
  {
  }

  /**
   * A handler's error is only logged: the trace is the one a succeeding
   * handler would leave, with the error appended, so it neither removes nor
   * alters an acknowledgement already sent.
   */
  lemma ProtocolHandlerErrorOnlyLogged(deferred: bool, s: Session, i: Interaction, ackError: Option<string>,
                                       found: Option<HandlerId>, run: HandlerOracle)
    ensures Protocol(deferred, s, i, ackError, found, run) ==
            Protocol(deferred, s, i, ackError, found, Succeeding) +
            (if AckPassed(deferred, ackError) && found.Some? && run(found.value, s, i).Some?
             then [HandlerFailed(found.value, run(found.value, s, i).value)] else [])
  {
  }
}
