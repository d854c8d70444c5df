/**
 * The bot builder: configuration accumulated field by field, and Build,
 * which wires handlers into the session and commands into a router and,
 * when migration applies, a migrator.
 */
module Bot {
  import opened Discord
  import Router
  import Migrator

  /**
   * The router's registry after registering the commands in `order`, one
   * after the other, each under its (name, type) key.
   */
  function RegisterAll(handlers: map<Router.Key, HandlerId>, order: seq<ApplicationCommand>,
                       commands: map<ApplicationCommand, HandlerId>): map<Router.Key, HandlerId>
    requires forall c :: c in order ==> c in commands
  {
    if order == [] then handlers
    else
      var c := order[|order| - 1];
      RegisterAll(handlers, order[..|order| - 1], commands)[Router.Key(c.name, c.commandType) := commands[c]]
  }

  function KeyOfCommand(c: ApplicationCommand): Router.Key
  {
    Router.Key(c.name, c.commandType)
  }

  /** `order` lists every key of `commands` exactly once: one possible iteration order of the map. */
  predicate Enumerates(order: seq<ApplicationCommand>, commands: map<ApplicationCommand, HandlerId>)
  {
    multiset(order) == multiset(commands.Keys)
  }

  /**
   * After registration, a key is present exactly when it was before or some
   * command has it, and a key no command has keeps its old handler.
   */
  lemma {:induction false} RegisterAllKeys(handlers: map<Router.Key, HandlerId>, order: seq<ApplicationCommand>,
                                           commands: map<ApplicationCommand, HandlerId>, k: Router.Key)
    requires forall c :: c in order ==> c in commands
    ensures k in RegisterAll(handlers, order, commands) <==>
              k in handlers || exists j :: 0 <= j < |order| && KeyOfCommand(order[j]) == k
    ensures (forall j :: 0 <= j < |order| ==> KeyOfCommand(order[j]) != k) && k in handlers ==>
              RegisterAll(handlers, order, commands)[k] == handlers[k]
  {
    if order != [] {
      var n := |order| - 1;
      RegisterAllKeys(handlers, order[..n], commands, k);
      assert forall j :: 0 <= j < n ==> order[..n][j] == order[j];
    }
  }

  lemma {:induction false} RegisterAllLastWins(handlers: map<Router.Key, HandlerId>, order: seq<ApplicationCommand>,
                                               commands: map<ApplicationCommand, HandlerId>, j: nat)
    requires forall c :: c in order ==> c in commands
    requires j < |order|
    requires forall m :: j < m < |order| ==> KeyOfCommand(order[m]) != KeyOfCommand(order[j])
    ensures KeyOfCommand(order[j]) in RegisterAll(handlers, order, commands)
    ensures RegisterAll(handlers, order, commands)[KeyOfCommand(order[j])] == commands[order[j]]
  {
    var n := |order| - 1;
    if j < n {
      assert forall m :: 0 <= m < n ==> order[..n][m] == order[m];
      RegisterAllLastWins(handlers, order[..n], commands, j);
    }
  }

  /** A command that occurs twice in a sequence is counted twice by its multiset. */
  lemma {:induction false} RepeatedCountsTwice(order: seq<ApplicationCommand>, j: nat, m: nat)
    requires j < m < |order| && order[j] == order[m]
    ensures multiset(order)[order[j]] >= 2
  {
    assert order == order[..j] + [order[j]] + order[j + 1..];
    assert order[j + 1..] == order[j + 1..m] + [order[m]] + order[m + 1..];
  }

  /** An enumeration of a map's keys names each key once and names nothing else. */
  lemma {:induction false} EnumerationIsExact(order: seq<ApplicationCommand>, commands: map<ApplicationCommand, HandlerId>)
    requires Enumerates(order, commands)
    ensures forall c :: c in order <==> c in commands
    ensures forall j, m :: 0 <= j < m < |order| ==> order[j] != order[m]
  {
    forall c ensures c in order <==> c in commands {
      assert c in order <==> c in multiset(order);
      assert c in commands.Keys <==> c in multiset(commands.Keys);
    }
    forall j, m | 0 <= j < m < |order| ensures order[j] != order[m] {
      if order[j] == order[m] {
        RepeatedCountsTwice(order, j, m);
      }
    }
  }

  /**
   * Every command ends up routable under its (name, type): when no other
   * command shares its key, with its own handler, whatever the iteration order.
   */
  lemma {:induction false} EveryCommandRegistered(handlers: map<Router.Key, HandlerId>, order: seq<ApplicationCommand>,
                                                  commands: map<ApplicationCommand, HandlerId>, c: ApplicationCommand)
    requires Enumerates(order, commands)
    requires c in commands
    ensures forall o :: o in order ==> o in commands
    ensures KeyOfCommand(c) in RegisterAll(handlers, order, commands)
    ensures (forall d :: d in commands && d != c ==> KeyOfCommand(d) != KeyOfCommand(c)) ==>
              RegisterAll(handlers, order, commands)[KeyOfCommand(c)] == commands[c]
  {
    EnumerationIsExact(order, commands);
    var j :| 0 <= j < |order| && order[j] == c;
    RegisterAllKeys(handlers, order, commands, KeyOfCommand(c));
    if forall d :: d in commands && d != c ==> KeyOfCommand(d) != KeyOfCommand(c) {
      forall m | j < m < |order| ensures KeyOfCommand(order[m]) != KeyOfCommand(order[j]) {
        assert order[m] != c && order[m] in commands;
      }
      RegisterAllLastWins(handlers, order, commands, j);
    }
  }

  class Bot {
    var session: Session
    var applicationID: string
    var healthCheckAddr: Option<string>
    var intents: nat
    var router: Router.Router?
    var migrator: Migrator.Migrator?
    var handlerRemovers: seq<Remover>

    constructor (session: Session, applicationID: string, healthCheckAddr: Option<string>, intents: nat,
                 router: Router.Router?, migrator: Migrator.Migrator?)
      ensures this.session == session && this.applicationID == applicationID
      ensures this.healthCheckAddr == healthCheckAddr && this.intents == intents
      ensures this.router == router && this.migrator == migrator && handlerRemovers == []
    {
      this.session := session;
      this.applicationID := applicationID;
      this.healthCheckAddr := healthCheckAddr;
      this.intents := intents;
      this.router := router;
      this.migrator := migrator;
      handlerRemovers := [];
    }
  }

  /** The removers AddHandler hands back for `count` handlers added from slot `start` on. */
  function Removers(start: nat, count: nat): (r: seq<Remover>)
    ensures |r| == count
    ensures forall j :: 0 <= j < count ==> r[j] == Remover(start + j)
  {
    if count == 0 then [] else Removers(start, count - 1) + [Remover(start + count - 1)]
  }

  class Builder {
    var session: Session
    var applicationID: string
    var healthCheckAddr: Option<string>
    var intents: nat
    var router: Router.Router?
    var migrator: Migrator.Migrator?
    var guildID: string
    var handlers: seq<EventHandler>
    var commands: map<ApplicationCommand, HandlerId>
    var migrationEnabled: bool

    /** A builder with no handlers, no commands, no router or migrator, and migration disabled. */
    constructor (applicationID: string, session: Session)
      ensures this.applicationID == applicationID && this.session == session
      ensures commands == map[] && handlers == []
      ensures router == null && migrator == null && !migrationEnabled
      ensures guildID == "" && healthCheckAddr.None? && intents == 0
    {
      this.session := session;
      this.applicationID := applicationID;
      healthCheckAddr := None;
      intents := 0;
      router := null;
      migrator := null;
      guildID := "";
      handlers := [];
      commands := map[];
      migrationEnabled := false;
    }

    method WithIntents(i: nat)
      modifies this`intents
      ensures intents == i
    {
      intents := i;
    }

    method WithHealthCheck(addr: string)
      modifies this`healthCheckAddr
      ensures healthCheckAddr == Some(addr)
    {
      healthCheckAddr := Some(addr);
    }

    /** Appends one gateway event handler. */
    method WithHandler(h: EventHandler)
      modifies this`handlers
      ensures handlers == old(handlers) + [h]
    {
      handlers := handlers + [h];
    }

    /** Appends each handler of `hs`, in order. */
    method WithHandlers(hs: seq<EventHandler>)
      modifies this`handlers
      ensures handlers == old(handlers) + hs
    {
      for k := 0 to |hs|
        invariant handlers == old(handlers) + hs[..k]
      {
        assert hs[..k + 1] == hs[..k] + [hs[k]];
        WithHandler(hs[k]);
      }
      assert hs[..|hs|] == hs;
    }

    /** Sets the router; null leaves Build to create a default one. */
    method WithRouter(r: Router.Router?)
      modifies this`router
      ensures router == r
    {
      router := r;
    }

    /** Sets the migrator; null leaves Build to create a default one when migration is enabled. */
    method WithMigrator(m: Migrator.Migrator?)
      modifies this`migrator
      ensures migrator == m
    {
      migrator := m;
    }

    method WithGuildID(id: string)
      modifies this`guildID
      ensures guildID == id
    {
      guildID := id;
    }

    method WithMigrationEnabled(enabled: bool)
      modifies this`migrationEnabled
      ensures migrationEnabled == enabled
    {
      migrationEnabled := enabled;
    }

    /** Adds command `c` with handler `h`, replacing the handler `c` had. */
    method WithApplicationCommand(c: ApplicationCommand, h: HandlerId)
      modifies this`commands
      ensures commands == old(commands)[c := h]
    {
      commands := commands[c := h];
    }

    /** Copies every entry of `hs` in, replacing clashing entries and keeping the others. */
    method WithApplicationCommands(hs: map<ApplicationCommand, HandlerId>)
      modifies this`commands
      ensures commands.Keys == old(commands).Keys + hs.Keys
      ensures forall c :: c in hs ==> commands[c] == hs[c]
      ensures forall c :: c in old(commands) && c !in hs ==> commands[c] == old(commands)[c]
    {
      commands := commands + hs;
    }

    /**
     * Builds the bot. `order` is the order in which the commands map is
     * iterated, which Go leaves unspecified.
     */
    method Build(order: seq<ApplicationCommand>) returns (bot: Bot)
      requires Enumerates(order, commands)
      modifies session`eventHandlers, router, migrator
      ensures fresh(bot)
      ensures bot.session == session && bot.applicationID == applicationID
      ensures bot.healthCheckAddr == healthCheckAddr && bot.intents == intents
      ensures session.eventHandlers == old(session.eventHandlers) + handlers
      ensures bot.handlerRemovers == Removers(|old(session.eventHandlers)|, |handlers|)
      ensures forall c :: c in order ==> c in commands
      ensures router != null ==> router.deferredResponseEnabled == old(router.deferredResponseEnabled)
      ensures migrator != null ==> unchanged(migrator`appID, migrator`guildID)
      ensures |commands| == 0 ==> bot.router == router && bot.migrator == migrator
      ensures |commands| == 0 && router != null ==> router.handlers == old(router.handlers)
      ensures |commands| == 0 && migrator != null ==> migrator.commands == old(migrator.commands)
      ensures |commands| > 0 ==> Wired(bot, order, old(if router == null then map[] else router.handlers),
                                       old(if migrator == null then [] else migrator.commands))
    {
      EnumerationIsExact(order, commands);
      bot := new Bot(session, applicationID, healthCheckAddr, intents, router, migrator);
      var removers := AddHandlers(session, handlers);
      bot.handlerRemovers := removers;
      if |commands| > 0 {
        WireCommands(bot, order);
      }
    }

    /**
     * The bot's command wiring after Build with a non-empty commands map:
     * the given router or else a fresh one with deferred responses off,
     * holding every command of `order`; the given migrator, else one made
     * for this application and guild when migration is enabled, else none,
     * declaring every command of `order` after what it already declared.
     */
    ghost predicate Wired(bot: Bot, order: seq<ApplicationCommand>, registry: map<Router.Key, HandlerId>,
                          declared: seq<ApplicationCommand>)
      reads this, bot, bot.router, bot.migrator
      requires forall c :: c in order ==> c in commands
    {
      && bot.router != null
      && (router != null ==> bot.router == router)
      && (router == null ==> !bot.router.deferredResponseEnabled)
      && bot.router.handlers == RegisterAll(registry, order, commands)
      && (migrator != null ==> bot.migrator == migrator && migrator.commands == declared + order)
      && (migrator == null && !migrationEnabled ==> bot.migrator == null)
      && (migrator == null && migrationEnabled ==>
            && bot.migrator != null
            && bot.migrator.s == session && bot.migrator.appID == applicationID
            && bot.migrator.guildID == guildID && bot.migrator.commands == order)
    }

    /** The command half of Build: supply a router and a migrator when missing, then register. */
    method WireCommands(bot: Bot, order: seq<ApplicationCommand>)
      requires forall c :: c in order ==> c in commands
      requires bot.router == router && bot.migrator == migrator
      modifies bot`router, bot`migrator, router, migrator
      ensures router != null ==> router.deferredResponseEnabled == old(router.deferredResponseEnabled)
      ensures migrator != null ==> unchanged(migrator`appID, migrator`guildID)
      ensures router == null ==> fresh(bot.router)
      ensures migrator == null && bot.migrator != null ==> fresh(bot.migrator)
      ensures Wired(bot, order, old(if router == null then map[] else router.handlers),
                    old(if migrator == null then [] else migrator.commands))
    {
      if bot.router == null {
        bot.router := new Router.Router([Router.WithLogger]);
      }
      if bot.migrator == null && migrationEnabled {
        bot.migrator := new Migrator.Migrator(session, applicationID, [Migrator.WithGuildID(guildID)]);
      }
      RegisterCommands(bot.router, bot.migrator, order, commands);
    }
  }

  /** Adds each handler to the session in order and collects the removers it hands back. */
  method AddHandlers(session: Session, hs: seq<EventHandler>) returns (removers: seq<Remover>)
    modifies session`eventHandlers
    ensures session.eventHandlers == old(session.eventHandlers) + hs
    ensures removers == Removers(|old(session.eventHandlers)|, |hs|)
  {
    removers := [];
    var start := |session.eventHandlers|;
    for k := 0 to |hs|
      invariant session.eventHandlers == old(session.eventHandlers) + hs[..k]
      invariant removers == Removers(start, k)
    {
      var remover := session.AddHandler(hs[k]);
      removers := removers + [remover];
      assert hs[..k + 1] == hs[..k] + [hs[k]];
    }
    assert hs[..|hs|] == hs;
  }

  /**
   * Registers each command of `order` with the router under its (name, type)
   * and, when there is a migrator, declares it there as well.
   */
  method RegisterCommands(r: Router.Router, m: Migrator.Migrator?, order: seq<ApplicationCommand>,
                          commands: map<ApplicationCommand, HandlerId>)
    requires forall c :: c in order ==> c in commands
    modifies r`handlers, m
    ensures r.handlers == RegisterAll(old(r.handlers), order, commands)
    ensures m != null ==> m.commands == old(m.commands) + order
    ensures m != null ==> unchanged(m`appID, m`guildID)
  {
    for k := 0 to |order|
      invariant r.handlers == RegisterAll(old(r.handlers), order[..k], commands)
      invariant m != null ==> m.commands == old(m.commands) + order[..k]
      invariant m != null ==> unchanged(m`appID, m`guildID)
    {
      assert order[..k + 1][..k] == order[..k];
      var c := order[k];
      r.RegisterCommand(c.name, c.commandType, commands[c]);
      if m != null {
        m.WithApplicationCommand(c);
      }
    }
    assert order[..|order|] == order;
  }
}
