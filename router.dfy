/**
 * The typed router: handlers registered under a (name, command type) key,
 * a request/response entry point that switches on the interaction kind, and
 * a fire-and-forget entry point that discards the response.
 */
module Router {
  import opened Discord
  import opened Dispatch

  /** A registry key: the command's name and its type together. */
  datatype Key = Key(name: string, commandType: CommandType)

  /** Construction options. The logger is an observability sink with no effect on behaviour. */
  datatype RouterOption = WithLogger | WithDeferredResponse(enabled: bool)

  function KeyOf(data: CommandData): Key
  {
    Key(data.name, data.commandType)
  }

  /** The registry lookup: the handler stored under exactly `k`, if any. */
  function Lookup(handlers: map<Key, HandlerId>, k: Key): Option<HandlerId>
  {
    if k in handlers then Some(handlers[k]) else None
  }

  /** The deferred setting after applying `options` in order to a fresh router. */
  function DeferredSetting(options: seq<RouterOption>): bool
  {
    if options == [] then false
    else match options[|options| - 1]
      case WithDeferredResponse(enabled) => enabled
      case WithLogger => DeferredSetting(options[..|options| - 1])
  }

  /** Deferred responses stay disabled unless some option enables them, and the last such option decides. */
  lemma {:induction false} DeferredSettingIsLastOption(options: seq<RouterOption>)
    ensures (forall j :: 0 <= j < |options| ==> !options[j].WithDeferredResponse?) ==> !DeferredSetting(options)
    ensures forall j :: 0 <= j < |options| && options[j].WithDeferredResponse? &&
                        (forall k :: j < k < |options| ==> !options[k].WithDeferredResponse?) ==>
                          DeferredSetting(options) == options[j].enabled
  {
    if options != [] {
      var n := |options| - 1;
      var init := options[..n];
      DeferredSettingIsLastOption(init);
      assert forall j :: 0 <= j < n ==> init[j] == options[j];
    }
  }

  /** The response HandleWithContext returns for an interaction of kind `kind`. */
  function ResponseFor(kind: InteractionType): Option<InteractionResponse>
  {
    match kind
    case InteractionPing => Some(PongResponse)
    case InteractionApplicationCommand => None
    case _ => Some(UnexpectedInteraction)
  }

  /** The effects the router produces for `i`: the dispatch protocol for an application command, nothing otherwise. */
  function Effects(handlers: map<Key, HandlerId>, deferred: bool, s: Session, i: Interaction,
                   ackError: Option<string>, run: HandlerOracle): seq<Event>
  {
    if i.kind == InteractionApplicationCommand
    then Protocol(deferred, s, i, ackError, Lookup(handlers, KeyOf(i.data)), run)
    else []
  }

  /**
   * A ping is answered with Pong, an application command with no response,
   * anything else with the "Unexpected interaction" message; only an
   * application command has effects, so a ping never consults the registry.
   */
  lemma ResponseByKind(handlers: map<Key, HandlerId>, deferred: bool, s: Session, i: Interaction,
                       ackError: Option<string>, run: HandlerOracle)
    ensures ResponseFor(i.kind) == Some(PongResponse) <==> i.kind == InteractionPing
    ensures ResponseFor(i.kind) == None <==> i.kind == InteractionApplicationCommand
    ensures ResponseFor(i.kind) == Some(UnexpectedInteraction) <==>
              i.kind != InteractionPing && i.kind != InteractionApplicationCommand
    ensures i.kind != InteractionApplicationCommand ==> Effects(handlers, deferred, s, i, ackError, run) == []
  {
  }

  /**
   * The handler under the interaction's exact (name, type) key runs exactly
   * once when the acknowledgement step is passed, and no handler runs when
   * that key is not registered, even if the name is registered under another type.
   */
  lemma {:induction false} DispatchExactKeyOnce(handlers: map<Key, HandlerId>, deferred: bool, s: Session, i: Interaction,
                                                ackError: Option<string>, run: HandlerOracle)
    requires i.kind == InteractionApplicationCommand
    ensures HandlerCalls(Effects(handlers, deferred, s, i, ackError, run)) ==
            if AckPassed(deferred, ackError) && Key(i.data.name, i.data.commandType) in handlers then 1 else 0
    ensures forall e :: e in Effects(handlers, deferred, s, i, ackError, run) && e.HandlerCalled? ==>
              e.handler == handlers[Key(i.data.name, i.data.commandType)]
  {
    ProtocolCallsOnce(deferred, s, i, ackError, Lookup(handlers, KeyOf(i.data)), run);
    ProtocolCallsFoundHandler(deferred, s, i, ackError, Lookup(handlers, KeyOf(i.data)), run);
  }

  /** Registering a name under one type does not serve invocations of that name with another type. */
  lemma {:induction false} OtherTypeDoesNotMatch(name: string, t: CommandType, h: HandlerId, deferred: bool, s: Session,
                                                 i: Interaction, ackError: Option<string>, run: HandlerOracle)
    requires i.kind == InteractionApplicationCommand && i.data == CommandData(name, i.data.commandType) && i.data.commandType != t
    ensures HandlerCalls(Effects(map[Key(name, t) := h], deferred, s, i, ackError, run)) == 0
  {
    DispatchExactKeyOnce(map[Key(name, t) := h], deferred, s, i, ackError, run);
  }

  class Router {
    var handlers: map<Key, HandlerId>
    var deferredResponseEnabled: bool

    /** A router with an empty registry and the options applied in order. */
    constructor (options: seq<RouterOption>)
      ensures handlers == map[]
      ensures deferredResponseEnabled == DeferredSetting(options)
    {
      handlers := map[];
      deferredResponseEnabled := false;
      new;
      var k := 0;
      while k < |options|
        invariant 0 <= k <= |options|
        invariant handlers == map[]
        invariant deferredResponseEnabled == DeferredSetting(options[..k])
      {
        assert options[..k + 1][..k] == options[..k];
        if options[k].WithDeferredResponse? {
          deferredResponseEnabled := options[k].enabled;
        }
        k := k + 1;
      }
      assert options[..k] == options;
    }

    /** Maps (name, commandType) to `handler`, replacing any earlier entry for that key. */
    method RegisterCommand(name: string, commandType: CommandType, handler: HandlerId)
      modifies this`handlers
      ensures handlers == old(handlers)[Key(name, commandType) := handler]
    {
      handlers := handlers[Key(name, commandType) := handler];
    }

    /** The fire-and-forget entry point: the same dispatch, with the response discarded. */
    method Handle(s: Session, i: Interaction, ackError: Option<string>, run: HandlerOracle) returns (effects: seq<Event>)
      ensures effects == Effects(handlers, deferredResponseEnabled, s, i, ackError, run)
    {
      var _, e := HandleWithContext(s, i, ackError, run);
      effects := e;
    }

    /** The request/response entry point: switches on the interaction kind. */
    method HandleWithContext(s: Session, i: Interaction, ackError: Option<string>, run: HandlerOracle)
      returns (response: Option<InteractionResponse>, effects: seq<Event>)
      ensures response == ResponseFor(i.kind)
      ensures effects == Effects(handlers, deferredResponseEnabled, s, i, ackError, run)
    {
      match i.kind
      case InteractionPing =>
        response, effects := Some(PongResponse), [];
      case InteractionApplicationCommand =>
        effects := HandleApplicationCommand(s, i, ackError, run);
        response := None;
      case _ =>
        response, effects := Some(UnexpectedInteraction), [];
    }

    /** Acknowledge if deferred mode is on, look the handler up by (name, type), run it, log its error. */
    method HandleApplicationCommand(s: Session, i: Interaction, ackError: Option<string>, run: HandlerOracle)
      returns (effects: seq<Event>)
      ensures effects == Protocol(deferredResponseEnabled, s, i, ackError, Lookup(handlers, KeyOf(i.data)), run)
    {
      effects := [];
      if deferredResponseEnabled {
        if ackError.Some? {
          effects := effects + [AckFailed(s, DeferredAck, ackError.value)];
          return;
        }
        effects := effects + [AckSent(s, DeferredAck)];
      }
      var command := i.data;
      var key := Key(command.name, command.commandType);
      if key !in handlers {
        effects := effects + [HandlerNotFound(command.name)];
        return;
      }
      var h := handlers[key];
      effects := effects + [HandlerCalled(h, s, command)];
      var err := run(h, s, i);
      if err.Some? {
        effects := effects + [HandlerFailed(h, err.value)];
      }
    }
  }
}
