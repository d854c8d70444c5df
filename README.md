# Interaction dispatch and command reconciliation for a Discord bot

This project is a Dafny model of the core of a small Go library for Discord bots. The core has five parts.

- **Typed router.** It routes an application-command interaction to the handler registered under the command's (name, type) pair. It answers a ping with Pong and any other interaction kind with an "Unexpected interaction" message.
- **Legacy router.** It does the same keyed by name only, and merely logs other kinds.
- **Migrator.** It collects command definitions and makes the platform's command set for one application, globally or in one guild, equal to them in a single bulk-overwrite call.
- **Webhook endpoint.** It authenticates an HTTP-delivered interaction with Ed25519 (section 5.1.7 of RFC 8032). The signature is over the timestamp header followed by the body and arrives hex-encoded (section 8 of RFC 4648). The endpoint then decodes the interaction, dispatches it through a typed router and shapes the HTTP reply.
- **Builder.** It accumulates a bot's configuration. Its `Build` attaches gateway handlers to the session and wires every command into a router and, when there is one or migration is enabled, a migrator.

How the model represents the library:

- **State.** What the library mutates is a class: `Router.Router`, `Interactions.Router`, `Migrator.Migrator`, `Lambda.Endpoint`, `Bot.Builder`, `Bot.Bot` and `Discord.Session`. Their constructors and setters change fields under `modifies` clauses. Registration writes a `map` field and appending writes a `seq` field.
- **Dispatch side effects.** Sending the acknowledgement, a missing handler, running a handler and a handler's error are recorded in an effect trace (`Discord.Event`). Each dispatch method returns that trace.
- **Dispatch protocol.** The protocol both routers share is one function, `Dispatch.Protocol`. Each router's dispatch method is proved to produce exactly its trace. Counting and ordering properties are lemmas about that function.
- **Oracles.** What the network, a handler, the Ed25519 curve check or the JSON codec does is a parameter:
  - `ackError` is what sending the acknowledgement returned;
  - `run` gives each handler's error;
  - `Curve` is the curve check;
  - `Codec` is the JSON decoder and encoder;
  - `failure` is the bulk overwrite's error.
- **Remote command store.** The platform's command store is a field of the session. A successful bulk overwrite replaces the scope's list with the one sent (`Discord.Overwrite`).
- **Map iteration order.** Go iterates maps in no fixed order, so `Build` takes the iteration order of its commands map as a parameter `order`, required to list every key exactly once.
- **Hex decoding.** It is modelled exactly as Go's `encoding/hex` does it, including which error it reports first and the text of that error.

`Lambda.Endpoint.Handle` rejects only a missing event (lambda/endpoint.go:101-103). An empty body goes on to authentication and decoding like any other.

## Model

| member | source | states |
|---|---|---|
| Discord.Session.AddHandler | builder.go:121-123 | the handler is appended to the session's handlers and the remover returned names its slot |
| Discord.Session.ApplicationCommandBulkOverwrite | interactions/migrator/migrator.go:9-11 | one call is logged with its arguments; on success the scope's commands become exactly the list sent, on failure nothing changes remotely; the error is the network's |
| Dispatch.Protocol | interactions/router/router.go:79-105 | the dispatch protocol both routers share (also interactions/router.go:65-90); no contract of its own: its properties are stated by ProtocolCallsOnce, ProtocolCallsFoundHandler, ProtocolAckComesFirst, ProtocolAckFailureAborts and ProtocolHandlerErrorOnlyLogged |
| Dispatch.ProtocolCallsOnce | interactions/router/router.go:79-105 | exactly one handler invocation when the acknowledgement step is passed (or skipped) and the lookup finds a handler, none otherwise |
| Dispatch.ProtocolCallsFoundHandler | interactions/router/router.go:94-102 | the only handler invoked is the one the lookup found, with the session and the command's data |
| Dispatch.ProtocolAckComesFirst | interactions/router/router.go:81-92 | in deferred mode the ephemeral deferred acknowledgement is the first effect and the only one of its kind, and a handler appears only after it was sent successfully; without deferred mode nothing is sent |
| Dispatch.ProtocolAckFailureAborts | interactions/router/router.go:88-91 | a failed acknowledgement is the whole trace: no lookup, no handler |
| Dispatch.ProtocolHandlerErrorOnlyLogged | interactions/router/router.go:102-104 | a handler's error only appends a log entry to the trace a succeeding handler leaves; the acknowledgement and invocation are unchanged |
| Router.DeferredSetting | interactions/router/router.go:32-50 | the deferred setting the options leave; no contract of its own: Router.DeferredSettingIsLastOption states it |
| Router.DeferredSettingIsLastOption | interactions/router/router.go:26-37 | deferred mode stays off unless an option sets it, and the last such option decides |
| Router.ResponseFor | interactions/router/router.go:63-77 | the response for each interaction kind; no contract of its own: Router.ResponseByKind states it |
| Router.Effects | interactions/router/router.go:63-77 | the effects of HandleWithContext; no contract of its own: Router.ResponseByKind, Router.DispatchExactKeyOnce and Router.OtherTypeDoesNotMatch state them |
| Router.ResponseByKind | interactions/router/router.go:63-77 | Pong exactly for a ping, no response exactly for an application command, the "Unexpected interaction" message exactly for every other kind; only an application command has effects |
| Router.DispatchExactKeyOnce | interactions/router/router.go:94-102 | the handler under the exact (name, type) key runs once when the acknowledgement step is passed; none runs when that key is absent |
| Router.OtherTypeDoesNotMatch | interactions/router/router.go:96 | a name registered under one type does not serve the same name invoked with another type |
| Router.Router.constructor | interactions/router/router.go:26-37 | a new router has an empty registry and the deferred setting the options leave |
| Router.Router.RegisterCommand | interactions/router/router.go:52-54 | the key (name, type) maps to the handler, replacing any previous one; other keys are unchanged |
| Router.Router.Handle | interactions/router/router.go:58-60 | the effects are those of HandleWithContext, whose response is discarded |
| Router.Router.HandleWithContext | interactions/router/router.go:63-77 | the response is determined by the interaction kind alone; the effects are the dispatch protocol for an application command and nothing otherwise |
| Router.Router.HandleApplicationCommand | interactions/router/router.go:79-105 | the effects are the dispatch protocol with the handler looked up under (name, type) |
| Interactions.DeferredSetting | interactions/router.go:24-41 | the deferred setting the options leave; no contract of its own: Interactions.DeferredSettingIsLastOption states it |
| Interactions.DeferredSettingIsLastOption | interactions/router.go:18-29 | deferred mode stays off unless an option sets it, and the last such option decides |
| Interactions.HandlersFrom | interactions/router.go:18-47 | the registry the options leave; no contract of its own: Interactions.HandlersFromKeys and Interactions.HandlersFromLastWins state it |
| Interactions.HandlersFromKeys | interactions/router.go:24-26 | a name is registered exactly when some WithCommandHandler option names it |
| Interactions.HandlersFromLastWins | interactions/router.go:43-47 | options apply in order, so the last WithCommandHandler option for a name gives its handler |
| Interactions.DispatchByNameOnce | interactions/router.go:79-89 | a registered name runs its handler once when the acknowledgement step is passed, an unregistered name runs none, whatever the command type |
| Interactions.RegisteredFooScenario | interactions/router_test.go:7-32 | with a handler for "foo", invoking "foo" calls it once and invoking "bar" calls nothing |
| Interactions.Router.constructor | interactions/router.go:18-29 | the registry and the deferred setting are those the options leave when applied in order |
| Interactions.Router.RegisterCommand | interactions/router.go:49-51 | the name maps to the handler, replacing any previous one; other names are unchanged |
| Interactions.Router.Handle | interactions/router.go:55-63 | an application command gets the dispatch protocol; any other kind only logs its type |
| Interactions.Router.HandleApplicationCommand | interactions/router.go:65-90 | the effects are the dispatch protocol with the handler looked up by name |
| Migrator.GuildIDFrom | interactions/migrator/migrator.go:28-40 | the guild the options leave; no contract of its own: Migrator.GuildIDFromOptions states it |
| Migrator.GuildIDFromOptions | interactions/migrator/migrator.go:35-40 | without options the scope is global (empty guild); otherwise the last guild given is used |
| Migrator.OverwriteReplaces | interactions/migrator/migrator.go:51 | after a successful migration the scope holds exactly the declared commands, a name is present exactly when declared, and other scopes are untouched |
| Migrator.FooReplacedByBar | bot_test.go:75-91 | a remote "foo" with only "bar" declared leaves exactly "bar" |
| Migrator.OverwriteIdempotent | interactions/migrator/migrator.go:50-54 | migrating twice with the same declarations leaves what migrating once leaves |
| Migrator.Migrator.constructor | interactions/migrator/migrator.go:25-33 | the session and application are stored, no commands are declared, and the guild is the one the options leave |
| Migrator.Migrator.WithApplicationCommand | interactions/migrator/migrator.go:43-47 | exactly one command is appended at the end |
| Migrator.Migrator.Migrate | interactions/migrator/migrator.go:50-54 | exactly one bulk-overwrite call with the configured application, guild and declared list; its error is returned as it is and the migrator does not change |
| Migrator.MigrateTwice | interactions/migrator/migrator.go:50-54 | two successful migrations make two identical calls and leave the remote state one migration leaves |
| Hex.Decode | lambda/endpoint.go:170 | Go's hex decoding; no contract of its own: Hex.DecodeEncode, Hex.DecodeEncodeUpper, Hex.DecodeSucceedsIff, Hex.DecodePairs, Hex.DecodeReportsFirstInvalidByte and Hex.DecodeOddLength state it |
| Hex.ErrorText | lambda/endpoint.go:170-173 | the text of Go's hex errors, "encoding/hex: odd length hex string" or "encoding/hex: invalid byte: " with the byte in %#U notation; no contract and no lemma of its own |
| Hex.EncodeIsHex | lambda/endpoint.go:170 | encoding gives two hex digits per byte |
| Hex.DecodeEncode | lambda/endpoint.go:170 | decoding a lower-case encoding gives the bytes back |
| Hex.DecodeEncodeUpper | lambda/endpoint.go:170 | decoding an upper-case encoding gives the bytes back |
| Hex.DecodeSucceedsIff | lambda/endpoint.go:170-173 | decoding succeeds exactly on even-length inputs made of hex digits, and halves the length |
| Hex.DecodePairs | lambda/endpoint.go:170 | on success, byte k is 16 times the value of digit 2k plus the value of digit 2k+1, with either letter case accepted in each digit, so mixed-case input decodes too |
| Hex.DecodeReportsFirstInvalidByte | lambda/endpoint.go:170-173 | the error names the first byte that is not a hex digit |
| Hex.DecodeOddLength | lambda/endpoint.go:170-173 | an odd-length input of hex digits is reported as odd length |
| Lambda.Verify | lambda/endpoint.go:148-182 | request authentication; no contract of its own: Lambda.VerifyDisabledByEmptyKey, Lambda.VerifyMissingHeaders, Lambda.VerifyRejectsNonHex, Lambda.VerifyChecksTimestampThenBody and Lambda.AuthenticRequestAccepted state it |
| Lambda.ErrorText | lambda/endpoint.go:161-179 | the error messages of authentication; no contract of its own: Lambda.VerifyRejectsNonHex states the "invalid signature: " prefix of a malformed signature |
| Lambda.VerifyDisabledByEmptyKey | lambda/endpoint.go:152-154 | with the empty key every request is accepted |
| Lambda.VerifyMissingHeaders | lambda/endpoint.go:161-168 | a missing signature is reported first; with a signature, a missing timestamp is reported |
| Lambda.VerifyRejectsNonHex | lambda/endpoint.go:170-173 | a non-hex or odd-length signature is refused as malformed, with an "invalid signature: " message, whatever the curve says |
| Lambda.VerifyChecksTimestampThenBody | lambda/endpoint.go:175-181 | with both headers and a hex signature, acceptance holds exactly when the signature verifies over timestamp followed by body; otherwise the error is "invalid signature" |
| Lambda.AuthenticRequestAccepted | lambda/endpoint.go:161-181 | a correct signature over timestamp followed by body, hex-encoded in either case, is accepted |
| Lambda.Shape | lambda/endpoint.go:131-143 | the HTTP reply for the router's response; no contract of its own: Lambda.ShapeStatus states it |
| Lambda.ShapeStatus | lambda/endpoint.go:131-143 | no response gives 202 with an empty body; a response gives 200 with its encoding, or the encoder's error |
| Lambda.DeferredCommandScenario | lambda/endpoint.go:126-132 | a deferred application command for a registered key gives 202, the acknowledgement first and the handler once after it |
| Lambda.RouterOverride | lambda/endpoint.go:41-55 | the router the last WithRouter option gives; no contract of its own: Lambda.RouterOverrideIsLastOption states it and Lambda.Endpoint.constructor its use |
| Lambda.RouterOverrideIsLastOption | lambda/endpoint.go:41-55 | without a WithRouter option no router is given; otherwise the last WithRouter option decides the router, whatever options follow it |
| Lambda.Endpoint.constructor | lambda/endpoint.go:32-46 | no shared session; the router is the last one an option gives, else a fresh empty router with deferred mode off |
| Lambda.Endpoint.WithSession | lambda/endpoint.go:64-68 | the shared session is set to the argument, which may be null so that dispatch goes back to per-interaction sessions |
| Lambda.Endpoint.WithApplicationCommand | lambda/endpoint.go:89-93 | the router maps (name, type) to the handler, other keys unchanged |
| Lambda.Endpoint.WithChatApplicationCommand | lambda/endpoint.go:72-74 | registration under the chat command type |
| Lambda.Endpoint.WithUserApplicationCommand | lambda/endpoint.go:78-80 | registration under the user command type |
| Lambda.Endpoint.WithMessageApplicationCommand | lambda/endpoint.go:84-86 | registration under the message command type |
| Lambda.Endpoint.Handle | lambda/endpoint.go:98-144 | a nil event is an error; a failed authentication is 401 with an empty body and no dispatch; a decoding error is passed on; otherwise the router's response shaped as 202 or 200 and the router's effects for the dispatched session |
| Lambda.Endpoint.HandleInteraction | lambda/endpoint.go:185-199 | dispatch uses the shared session, or a fresh one whose token is "Bot " followed by the interaction's token |
| Bot.RegisterAll | builder.go:139-145 | the router's registry after registering the commands in iteration order; no contract of its own: Bot.RegisterAllKeys, Bot.RegisterAllLastWins and Bot.EveryCommandRegistered state it |
| Bot.RegisterAllKeys | builder.go:139-145 | after registration a key is present exactly when it was before or some command has it; a key no command has keeps its handler |
| Bot.RegisterAllLastWins | builder.go:139-145 | a command's key holds its handler when no later command shares the key |
| Bot.EnumerationIsExact | builder.go:139 | an iteration of the commands map visits every command and visits each once |
| Bot.EveryCommandRegistered | builder.go:139-145 | every command is routable under (name, type) after Build, with its own handler when no other command shares the key, whatever the iteration order |
| Bot.Removers | builder.go:121-123 | one remover per handler, naming consecutive slots |
| Bot.Bot.constructor | builder.go:111-119 | the bot starts with the builder's session, application, health-check address, intents, router and migrator, and no removers |
| Bot.Builder.constructor | builder.go:30-39 | the application and session are stored, with no commands, no handlers, no router or migrator and migration disabled |
| Bot.Builder.WithIntents | builder.go:47-52 | the intents are set |
| Bot.Builder.WithHealthCheck | builder.go:54-58 | the health-check address is set |
| Bot.Builder.WithHandler | builder.go:60-64 | one handler is appended |
| Bot.Builder.WithHandlers | builder.go:66-72 | each handler is appended, in order |
| Bot.Builder.WithRouter | builder.go:74-78 | the router is set to the argument, which may be null so that Build creates a default one |
| Bot.Builder.WithMigrator | builder.go:80-84 | the migrator is set to the argument, which may be null so that Build creates a default one when migration is enabled |
| Bot.Builder.WithGuildID | builder.go:86-90 | the guild is set |
| Bot.Builder.WithMigrationEnabled | builder.go:92-96 | the migration switch is set |
| Bot.Builder.WithApplicationCommand | builder.go:98-102 | the command maps to the handler, replacing any previous handler for that same command |
| Bot.Builder.WithApplicationCommands | builder.go:104-108 | every entry is copied in, replacing clashing entries and keeping the others |
| Bot.Builder.Build | builder.go:110-149 | the handlers are added to the session in order with one remover each; without commands router and migrator stay as configured and untouched; with commands the wiring below holds |
| Bot.Builder.WireCommands | builder.go:126-146 | the given router, else a fresh one with deferred mode off, holds every command; the given migrator, else one for this application and guild when migration is enabled, else none, declares every command after what it declared |
| Bot.AddHandlers | builder.go:121-123 | the session's handlers grow by the given ones in order, and the removers name their slots |
| Bot.RegisterCommands | builder.go:139-145 | the router's registry is the registration fold over the iteration order; a migrator's declared list grows by that order |

## Left out

- Three log calls are trace events: `HandlerNotFound` (interactions/router/router.go:98, interactions/router.go:83), `HandlerFailed` (interactions/router/router.go:103, interactions/router.go:88) and `UnexpectedType` (interactions/router.go:61). The other log calls, the logger options and the X-Ray subsegments are left out: they are observability with no effect on behaviour, and the logger options exist only as inert options.
- The Ed25519 curve arithmetic is an oracle (`Lambda.Curve`). Only the length check and the top-bits check on the signature's last byte are modelled. Go's verifier makes both checks before the curve check.
- JSON decoding and encoding are oracles (`Lambda.Codec`). The body `null` decodes to a nil interaction and then panics in Go. That case is not modelled.
- Header canonicalisation is left out. The loop that copies the event's headers into an `http.Header` (lambda/endpoint.go:156-159) canonicalises names and merges keys that collide. Header lookup here is a plain map lookup.
- Lambda.EndpointOption: `WithRouter` takes a non-null router, so `WithRouter(nil)` is not modelled. In Go the endpoint then holds a nil router. It still answers a ping with Pong and any other non-command kind with the "Unexpected interaction" message, because `HandleWithContext` reads the router only on the application-command path (interactions/router/router.go:65-81). An application-command dispatch panics there. So does every `With*ApplicationCommand` call, through `RegisterCommand` (lambda/endpoint.go:90, interactions/router/router.go:53).
- Nil handlers and nil commands are not modelled. `HandlerId` is a plain identifier and `ApplicationCommand` a non-null reference. In Go, `RegisterCommand` stores a nil handler, and dispatch panics when it calls that handler (interactions/router/router.go:102, interactions/router.go:87). A nil `*ApplicationCommand` is a legal key of the builder's map (builder.go:99). `Build` then panics when it reads the command's name (builder.go:140). The migrator's `WithApplicationCommand` appends a nil command as it is (interactions/migrator/migrator.go:44).
- Construction options are limited to the library's own option constructors: `WithLogger` and `WithDeferredResponse` for both routers, `WithCommandHandler` for the legacy router, `WithGuildID` for the migrator, and `WithRouter` and `WithLogger` for the endpoint. Each is a closed datatype here. In Go an option is any function of the value being built (interactions/router/router.go:24-26, interactions/router.go:18, interactions/migrator/migrator.go:22-25, lambda/endpoint.go:32,48). A caller-written option can call an exported method during construction, so it can change the registry, the command list or the session. `Router.Router.constructor`, `Interactions.Router.constructor`, `Migrator.Migrator.constructor` and `Lambda.Endpoint.constructor` state an empty registry, no commands or no session only for the library's own options, not for such an option.
- `Discord.EventHandler` stands for a handler function of a signature discordgo recognises. For any other value, discordgo's `AddHandler` registers nothing, logs an error and returns a remover that does nothing. `Bot.Builder.WithHandler` takes an `interface{}` (builder.go:60-64), so such a value can reach `Build`. `Discord.Session.AddHandler` always appends, so that case is not modelled.
- `Lambda.PublicKey` admits only keys of length 0 or 32. Go's verifier panics on any other length, so the model requires a key of one of those lengths.
- Interaction kinds and command types outside the platform's defined codes are left out. The enumerations hold only the defined kinds.
- The Go context passed to every call is left out. So is the error of creating a per-interaction session, which the endpoint ignores.
- `Bot.Builder.Build`: the `Bot` type in bot.go has no router and migrator fields, though builder.go:111-119 sets them. The model gives `Bot.Bot` the fields that `Build` sets.
- `Bot.Builder.Build`: the builder's session is taken to be non-nil. A nil session makes `AddHandler` panic when handlers were configured.
- `Bot.Builder.Build` does not state that a router or migrator it creates is fresh. `Bot.Builder.WireCommands` states it.
- Running the bot is left out: opening the gateway session, the health-check server and the parameter-store session sources in bot.go, health_check.go and lambda/session*.go. That work is I/O and concurrency.
- Handler removal is left out. A remover is only a value naming the handler's slot.
