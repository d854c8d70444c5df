/**
 * The chat platform as the bot library sees it: the decoded interaction
 * events it delivers, the responses it accepts, the session object through
 * which a bot talks to it, and the trace of effects a dispatch leaves behind.
 *
 * Enumerations carry the platform's numeric codes in their documentation
 * only; nothing in the model depends on the numbers.
 */
module Discord {

  type byte = x: int | 0 <= x < 256

  datatype Option<+T> = None | Some(value: T)

  /** A value or the text of the error that prevented it. */
  datatype Result<+T> = Ok(value: T) | Err(error: string)

  /** Kinds of application command (codes 1, 2, 3). */
  datatype CommandType =
    | ChatApplicationCommand
    | UserApplicationCommand
    | MessageApplicationCommand

  /** Kinds of interaction (codes 1 to 5). */
  datatype InteractionType =
    | InteractionPing
    | InteractionApplicationCommand
    | InteractionMessageComponent
    | InteractionApplicationCommandAutocomplete
    | InteractionModalSubmit

  /** The decoded data of an application-command invocation. */
  datatype CommandData = CommandData(name: string, commandType: CommandType)

  /**
   * One inbound interaction. `token` is the per-interaction token used to
   * answer it; `data` is meaningful for application commands only.
   */
  datatype Interaction = Interaction(kind: InteractionType, id: string, token: string, data: CommandData)

  /** Kinds of interaction response (codes 1, 4, 5). */
  datatype ResponseType =
    | Pong
    | ChannelMessageWithSource
    | DeferredChannelMessageWithSource

  /** Message payload of a response; `ephemeral` is message flag 1 << 6. */
  datatype ResponseData = ResponseData(content: string, ephemeral: bool)

  datatype InteractionResponse = InteractionResponse(responseType: ResponseType, data: Option<ResponseData>)

  /** The answer to a liveness ping. */
  const PongResponse := InteractionResponse(Pong, None)

  /** The initial acknowledgement sent in deferred mode: "thinking", visible to the invoker only. */
  const DeferredAck := InteractionResponse(DeferredChannelMessageWithSource, Some(ResponseData("", true)))

  /** The reply to an interaction kind the router does not support. */
  const UnexpectedInteraction := InteractionResponse(ChannelMessageWithSource, Some(ResponseData("Unexpected interaction", false)))

  /** An application-command handler, identified opaquely; what it does when run is an oracle. */
  type HandlerId = nat

  /** A gateway event handler (an arbitrary callback), identified opaquely. */
  type EventHandler = nat

  /** The function that unregisters a gateway event handler: the handler's slot in the session. */
  datatype Remover = Remover(index: nat)

  /**
   * A command definition. It is a reference type because the builder keys
   * its command map by pointer identity: two definitions with equal fields
   * are still two commands.
   */
  class ApplicationCommand {
    const name: string
    const commandType: CommandType
    const description: string

    constructor (name: string, commandType: CommandType, description: string)
      ensures this.name == name && this.commandType == commandType && this.description == description
    {
      this.name := name;
      this.commandType := commandType;
      this.description := description;
    }
  }

  /** Where a bulk overwrite applies: an application, globally (empty guild) or in one guild. */
  datatype Scope = Scope(appID: string, guildID: string)

  /** One bulk-overwrite request as the session received it. */
  datatype OverwriteCall = OverwriteCall(appID: string, guildID: string, commands: seq<ApplicationCommand>)

  /** The commands registered under each scope: the platform's side of a migration. */
  type CommandStore = map<Scope, seq<ApplicationCommand>>

  /** What a successful bulk overwrite does to the platform: the scope's set is replaced wholesale. */
  function Overwrite(remote: CommandStore, scope: Scope, commands: seq<ApplicationCommand>): CommandStore
  {
    remote[scope := commands]
  }

  /**
   * A session with the platform. It holds the bot token, the gateway event
   * handlers added to it, and, standing in for the platform behind it, the
   * remote command store together with a log of the overwrite calls made.
   */
  class Session {
    var token: string
    var eventHandlers: seq<EventHandler>
    var remote: CommandStore
    var overwriteCalls: seq<OverwriteCall>

    constructor (token: string)
      ensures this.token == token && eventHandlers == [] && remote == map[] && overwriteCalls == []
    {
      this.token := token;
      eventHandlers := [];
      remote := map[];
      overwriteCalls := [];
    }

    /** Registers a gateway event handler and returns the function that removes it again. */
    method AddHandler(h: EventHandler) returns (remover: Remover)
      modifies this`eventHandlers
      ensures eventHandlers == old(eventHandlers) + [h]
      ensures remover == Remover(|old(eventHandlers)|)
    {
      remover := Remover(|eventHandlers|);
      eventHandlers := eventHandlers + [h];
    }

    /**
     * Replaces the commands of scope (appID, guildID) in one call. `failure`
     * is what the network produced: on an error nothing changes remotely.
     */
    method ApplicationCommandBulkOverwrite(appID: string, guildID: string, commands: seq<ApplicationCommand>, failure: Option<string>)
      returns (result: seq<ApplicationCommand>, err: Option<string>)
      modifies this`remote, this`overwriteCalls
      ensures overwriteCalls == old(overwriteCalls) + [OverwriteCall(appID, guildID, commands)]
      ensures err == failure
      ensures remote == if failure.None? then Overwrite(old(remote), Scope(appID, guildID), commands) else old(remote)
      ensures failure.None? ==> result == commands
    {
      overwriteCalls := overwriteCalls + [OverwriteCall(appID, guildID, commands)];
      err := failure;
      if failure.None? {
        remote := Overwrite(remote, Scope(appID, guildID), commands);
        result := commands;
      } else {
        result := [];
      }
    }
  }

  /**
   * What one dispatch does, in order: the acknowledgement it sent (or failed
   * to send) through a session, the handler it ran, and the errors it
   * logged instead of returning.
   */
  datatype Event =
    | AckSent(session: Session, response: InteractionResponse)
    | AckFailed(session: Session, response: InteractionResponse, error: string)
    | HandlerNotFound(name: string)
    | HandlerCalled(handler: HandlerId, session: Session, data: CommandData)
    | HandlerFailed(handler: HandlerId, error: string)
    | UnexpectedType(kind: InteractionType)
}
