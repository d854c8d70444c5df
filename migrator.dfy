/**
 * The migrator: a list of command definitions built by appending, and one
 * bulk-overwrite call that makes the platform's command set for the
 * configured scope equal to that list.
 */
module Migrator {
  import opened Discord

  datatype MigratorOption = WithGuildID(id: string)

  /** The guild after applying `options` in order: empty, meaning global, unless an option sets it. */
  function GuildIDFrom(options: seq<MigratorOption>): string
  {
    if options == [] then "" else options[|options| - 1].id
  }

  /** No option leaves the scope global; with options, the last guild given is the one used. */
  lemma GuildIDFromOptions(options: seq<MigratorOption>, id: string)
    ensures GuildIDFrom([]) == ""
    ensures GuildIDFrom([WithGuildID(id)]) == id
    ensures GuildIDFrom(options + [WithGuildID(id)]) == id
  {
  }

  function Names(commands: seq<ApplicationCommand>): set<string>
  {
    set c | c in commands :: c.name
  }

  /**
   * After a successful migration the scope holds exactly the declared list:
   * a command that was there before and is not declared is gone, a declared
   * one is present, and every other scope is as it was.
   */
  lemma {:induction false} OverwriteReplaces(remote: CommandStore, scope: Scope, declared: seq<ApplicationCommand>, name: string)
    ensures Overwrite(remote, scope, declared)[scope] == declared
    ensures name in Names(Overwrite(remote, scope, declared)[scope]) <==> name in Names(declared)
    ensures forall other :: other in remote && other != scope ==> Overwrite(remote, scope, declared)[other] == remote[other]
  {
  }

  /** The named scenario: "foo" exists remotely, "bar" is declared; afterwards only "bar" exists. */
  lemma {:induction false} FooReplacedByBar(remote: CommandStore, scope: Scope, foo: ApplicationCommand, bar: ApplicationCommand)
    requires foo.name == "foo" && bar.name == "bar"
    requires scope in remote && foo in remote[scope]
    ensures Names(Overwrite(remote, scope, [bar])[scope]) == {"bar"}
    ensures "foo" !in Names(Overwrite(remote, scope, [bar])[scope])
  {
    assert Names([bar]) == {"bar"} by {
      assert forall c :: c in [bar] <==> c == bar;
    }
  }

  /** Migrating twice with unchanged declarations leaves the same remote state as migrating once. */
  lemma OverwriteIdempotent(remote: CommandStore, scope: Scope, declared: seq<ApplicationCommand>)
    ensures Overwrite(Overwrite(remote, scope, declared), scope, declared) == Overwrite(remote, scope, declared)
  {
  }

  class Migrator {
    const s: Session
    var appID: string
    var commands: seq<ApplicationCommand>
    var guildID: string

    /** A migrator for `appID` with no commands and the options applied in order. */
    constructor (s: Session, appID: string, options: seq<MigratorOption>)
      ensures this.s == s && this.appID == appID
      ensures commands == []
      ensures guildID == GuildIDFrom(options)
    {
      this.s := s;
      this.appID := appID;
      commands := [];
      guildID := "";
      new;
      var k := 0;
      while k < |options|
        invariant 0 <= k <= |options|
        invariant this.appID == appID && commands == []
        invariant guildID == GuildIDFrom(options[..k])
      {
        assert options[..k + 1][|options[..k + 1]| - 1] == options[k];
        guildID := options[k].id;
        k := k + 1;
      }
      assert options[..k] == options;
    }

    /** Appends one command to the list to migrate. */
    method WithApplicationCommand(c: ApplicationCommand)
      modifies this`commands
      ensures commands == old(commands) + [c]
    {
      commands := commands + [c];
    }

    /**
     * One bulk-overwrite call for (appID, guildID) carrying exactly the
     * accumulated list; its error, `failure` being what the network produced,
     * is returned as it is. The migrator itself does not change.
     */
    method Migrate(failure: Option<string>) returns (err: Option<string>)
      modifies s`remote, s`overwriteCalls
      ensures s.overwriteCalls == old(s.overwriteCalls) + [OverwriteCall(appID, guildID, commands)]
      ensures s.remote == if failure.None? then Overwrite(old(s.remote), Scope(appID, guildID), commands) else old(s.remote)
      ensures err == failure
    {
      var _, e := s.ApplicationCommandBulkOverwrite(appID, guildID, commands, failure);
      err := e;
    }
  }

  /** A client of the specifications: two migrations in a row leave what one leaves. */
  method MigrateTwice(m: Migrator) returns (first: Option<string>, second: Option<string>)
    modifies m.s`remote, m.s`overwriteCalls
    ensures first.None? && second.None?
    ensures m.s.remote == Overwrite(old(m.s.remote), Scope(m.appID, m.guildID), m.commands)
    ensures m.s.overwriteCalls == old(m.s.overwriteCalls) + [OverwriteCall(m.appID, m.guildID, m.commands)] +
              [OverwriteCall(m.appID, m.guildID, m.commands)]
  {
    first := m.Migrate(None);
    second := m.Migrate(None);
    OverwriteIdempotent(old(m.s.remote), Scope(m.appID, m.guildID), m.commands);
  }
}
