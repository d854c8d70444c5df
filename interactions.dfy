/**
 * The legacy router: handlers registered by command name only, options
 * that may register handlers while the router is built, and one
 * fire-and-forget entry point that serves application commands and only
 * logs every other kind of interaction.
 */
module Interactions {
  import opened Discord
  import opened Dispatch

  datatype RouterOption =
    | WithLogger
    | WithDeferredResponse(enabled: bool)
    | WithCommandHandler(name: string, handler: HandlerId)

  /** The registry lookup by name. */
  function Lookup(handlers: map<string, HandlerId>, name: string): Option<HandlerId>
  {
    if name in handlers then Some(handlers[name]) else None
  }

  /** The deferred setting after applying `options` in order. */
  function DeferredSetting(options: seq<RouterOption>): bool
  {
    if options == [] then false
    else match options[|options| - 1]
      case WithDeferredResponse(enabled) => enabled
      case _ => DeferredSetting(options[..|options| - 1])
  }

  /** The registry after applying `options` in order to an empty one. */
  function HandlersFrom(options: seq<RouterOption>): map<string, HandlerId>
  {
    if options == [] then map[]
    else
      var init := HandlersFrom(options[..|options| - 1]);
      match options[|options| - 1]
      case WithCommandHandler(name, handler) => init[name := handler]
      case _ => init
  }

  /** Deferred responses stay disabled unless some option enables them, and the last such option decides. */
  lemma {:induction false} DeferredSettingIsLastOption(options: seq<RouterOption>)
    ensures (forall j :: 0 <= j < |options| ==> !options[j].WithDeferredResponse?) ==> !DeferredSetting(options)
    ensures forall j :: 0 <= j < |options| && options[j].WithDeferredResponse? &&
                        (forall k :: j < k < |options| ==> !options[k].WithDeferredResponse?) ==>
                          DeferredSetting(options) == options[j].enabled
  {
    if options != [] {
      var n := |options| - 1;
      var init := options[..n];
      DeferredSettingIsLastOption(init);
      assert forall j :: 0 <= j < n ==> init[j] == options[j];
    }
  }

  /** A name is registered exactly when some WithCommandHandler option names it. */
  lemma {:induction false} HandlersFromKeys(options: seq<RouterOption>, name: string)
    ensures name in HandlersFrom(options) <==>
              exists j :: 0 <= j < |options| && options[j].WithCommandHandler? && options[j].name == name
  {
    if options != [] {
      var n := |options| - 1;
      var init := options[..n];
      HandlersFromKeys(init, name);
      assert forall j :: 0 <= j < n ==> init[j] == options[j];
    }
  }

  /** Options apply in order: for each name, the last WithCommandHandler option naming it wins. */
  lemma {:induction false} HandlersFromLastWins(options: seq<RouterOption>, j: nat)
    requires j < |options| && options[j].WithCommandHandler?
    requires forall k :: j < k < |options| ==> !(options[k].WithCommandHandler? && options[k].name == options[j].name)
    ensures options[j].name in HandlersFrom(options)
    ensures HandlersFrom(options)[options[j].name] == options[j].handler
  {
    var n := |options| - 1;
    if j < n {
      var init := options[..n];
      assert forall k :: 0 <= k < n ==> init[k] == options[k];
      HandlersFromLastWins(init, j);
    }
  }

  /**
   * A registered name runs its handler exactly once when the acknowledgement
   * step is passed; an unregistered name runs none. The command type plays
   * no part in the lookup.
   */
  lemma {:induction false} DispatchByNameOnce(handlers: map<string, HandlerId>, deferred: bool, s: Session, i: Interaction,
                                              ackError: Option<string>, run: HandlerOracle)
    ensures HandlerCalls(Protocol(deferred, s, i, ackError, Lookup(handlers, i.data.name), run)) ==
            if AckPassed(deferred, ackError) && i.data.name in handlers then 1 else 0
    ensures forall e :: e in Protocol(deferred, s, i, ackError, Lookup(handlers, i.data.name), run) && e.HandlerCalled? ==>
              e.handler == handlers[i.data.name]
  {
    ProtocolCallsOnce(deferred, s, i, ackError, Lookup(handlers, i.data.name), run);
    ProtocolCallsFoundHandler(deferred, s, i, ackError, Lookup(handlers, i.data.name), run);
  }

  /**
   * A handler registered for "foo" is called once when "foo" is invoked and
   * not at all when "bar" is invoked (immediate mode).
   */
  lemma {:induction false} RegisteredFooScenario(h: HandlerId, s: Session, i: Interaction, run: HandlerOracle)
    requires i.kind == InteractionApplicationCommand
    ensures i.data.name == "foo" ==> HandlerCalls(Protocol(false, s, i, None, Lookup(map["foo" := h], i.data.name), run)) == 1
    ensures i.data.name == "bar" ==> HandlerCalls(Protocol(false, s, i, None, Lookup(map["foo" := h], i.data.name), run)) == 0
  {
    DispatchByNameOnce(map["foo" := h], false, s, i, None, run);
  }

  class Router {
    var handlers: map<string, HandlerId>
    var deferredResponseEnabled: bool

    /** An empty router with the options applied in order. */
    constructor (options: seq<RouterOption>)
      ensures handlers == HandlersFrom(options)
      ensures deferredResponseEnabled == DeferredSetting(options)
    {
      handlers := map[];
      deferredResponseEnabled := false;
      new;
      var k := 0;
      while k < |options|
        invariant 0 <= k <= |options|
        invariant handlers == HandlersFrom(options[..k])
        invariant deferredResponseEnabled == DeferredSetting(options[..k])
      {
        assert options[..k + 1][..k] == options[..k];
        match options[k] {
          case WithDeferredResponse(enabled) => deferredResponseEnabled := enabled;
          case WithCommandHandler(name, handler) => RegisterCommand(name, handler);
          case WithLogger =>
        }
        k := k + 1;
      }
      assert options[..k] == options;
    }

    /** Maps `name` to `handler`, replacing any earlier entry for that name. */
    method RegisterCommand(name: string, handler: HandlerId)
      modifies this`handlers
      ensures handlers == old(handlers)[name := handler]
    {
      handlers := handlers[name := handler];
    }

    /** Dispatches an application command; any other kind is only logged. */
    method Handle(s: Session, i: Interaction, ackError: Option<string>, run: HandlerOracle) returns (effects: seq<Event>)
      ensures i.kind == InteractionApplicationCommand ==>
                effects == Protocol(deferredResponseEnabled, s, i, ackError, Lookup(handlers, i.data.name), run)
      ensures i.kind != InteractionApplicationCommand ==> effects == [UnexpectedType(i.kind)]
    {
      if i.kind == InteractionApplicationCommand {
        effects := HandleApplicationCommand(s, i, ackError, run);
      } else {
        effects := [UnexpectedType(i.kind)];
      }
    }

    /** Acknowledge if deferred mode is on, look the handler up by name, run it, log its error. */
    method HandleApplicationCommand(s: Session, i: Interaction, ackError: Option<string>, run: HandlerOracle)
      returns (effects: seq<Event>)
      ensures effects == Protocol(deferredResponseEnabled, s, i, ackError, Lookup(handlers, i.data.name), run)
    {
      effects := [];
      if deferredResponseEnabled {
        if ackError.Some? {
          effects := effects + [AckFailed(s, DeferredAck, ackError.value)];
          return;
        }
        effects := effects + [AckSent(s, DeferredAck)];
      }
      var command := i.data;
      if command.name !in handlers {
        effects := effects + [HandlerNotFound(command.name)];
        return;
      }
      var h := handlers[command.name];
      effects := effects + [HandlerCalled(h, s, command)];
      var err := run(h, s, i);
      if err.Some? {
        effects := effects + [HandlerFailed(h, err.value)];
      }
    }
  }
}
