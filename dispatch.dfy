/**
 * The bot's event handler: routing an incoming interaction to a command
 * handler by the command's name and, for `f1`, by its first option, and the
 * table of slash commands the bot registers when it connects.
 */
module Dispatch {
  import opened Wrappers
  import Json

  /** One option the user filled in; for a subcommand, its name. */
  datatype CommandOption = CommandOption(name: string, value: Option<Json.Json>)

  /** The data of an application (slash) command. */
  datatype CommandData = CommandData(name: string, options: seq<CommandOption>)

  /** The kinds of interaction the gateway delivers. */
  datatype Interaction =
    | Ping
    | ApplicationCommand(data: CommandData)
    | MessageComponent
    | Autocomplete
    | ModalSubmit

  /** The command handlers the router can call. */
  datatype Handler = PingCommand | ConstructorStandings | DriverStandings

  /** What `interaction_create` does with one interaction. */
  datatype Action =
    | Ignore                    // no reply at all
    | Invoke(handler: Handler)  // run a command handler
    | Reply(text: string)       // send a fixed text message
    | Panic(message: string)    // the handler task panics

  const InvalidOption: string := "Invalid option"
  const NotImplemented: string := "Not implemented :("
  const MissingOption: string := "Expected user to select option"

  /** `interaction_create`: route on the command name, then for `f1` on the first option only. */
  function Route(interaction: Interaction): (a: Action)
    ensures a == Ignore <==> !interaction.ApplicationCommand?
    ensures interaction.ApplicationCommand? && interaction.data.name == "ping" ==> a == Invoke(PingCommand)
    ensures interaction.ApplicationCommand? && interaction.data.name == "f1" && |interaction.data.options| > 0 ==>
      (a == Invoke(ConstructorStandings) <==> interaction.data.options[0].name == "constructor")
      && (a == Invoke(DriverStandings) <==> interaction.data.options[0].name == "driver")
    ensures a == Invoke(PingCommand) ==> interaction.ApplicationCommand? && interaction.data.name == "ping"
  {
    match interaction
    case ApplicationCommand(data) =>
      if data.name == "ping" then Invoke(PingCommand)
      else if data.name == "f1" then
        if |data.options| == 0 then Panic(MissingOption)
        else if data.options[0].name == "constructor" then Invoke(ConstructorStandings)
        else if data.options[0].name == "driver" then Invoke(DriverStandings)
        else Reply(InvalidOption)
      else Reply(NotImplemented)
    case _ => Ignore
  }

  // ---------------------------------------------------------------------------
  // The registered command table (`ready`)
  // ---------------------------------------------------------------------------

  datatype OptionKind = SubCommand

  datatype OptionSpec = OptionSpec(name: string, description: string, kind: OptionKind)

  /** Guild commands are registered for one server, global ones everywhere. */
  datatype Scope = Guild | Global

  datatype CommandSpec = CommandSpec(name: string, description: string, options: seq<OptionSpec>, scope: Scope)

  /** The slash commands `ready` registers, in registration order. */
  const Registered: seq<CommandSpec> := [
    CommandSpec("f1", "Get the current F1 driver or constructor standings", [
      OptionSpec("constructor", "Get current constructor standings", SubCommand),
      OptionSpec("driver", "Get current driver standings", SubCommand)
    ], Guild),
    CommandSpec("ping", "A ping command to verify if the bot is accepting comands", [], Global)
  ]

  /** `name` is the name of a registered command. */
  predicate IsRegistered(name: string)
  {
    exists c :: c in Registered && c.name == name
  }

  /** `sub` is registered as an option of the command named `name`. */
  predicate IsRegisteredOption(name: string, sub: string)
  {
    exists c, o :: c in Registered && c.name == name && o in c.options && o.name == sub
  }

  /** A command whose name is registered is never answered with the fallback text. */
  lemma RegisteredNeverFallsBack(data: CommandData)
    requires IsRegistered(data.name)
    ensures Route(ApplicationCommand(data)) != Reply(NotImplemented)
  {
  }

  /**
   * Choosing a registered subcommand always reaches its own handler, whatever
   * follows it: `constructor` the constructor standings, `driver` the driver standings.
   */
  lemma RegisteredOptionsRouted(name: string, sub: string, value: Option<Json.Json>, rest: seq<CommandOption>)
    requires IsRegisteredOption(name, sub)
    ensures Route(ApplicationCommand(CommandData(name, [CommandOption(sub, value)] + rest)))
         == Invoke(if sub == "constructor" then ConstructorStandings else DriverStandings)
  {
    var c, o :| c in Registered && c.name == name && o in c.options && o.name == sub;
    assert c == Registered[0];
  }

  /** A registered command without options (that is, `ping`) reaches the ping handler whatever options arrive. */
  lemma OptionlessCommandsRouted(data: CommandData)
    requires exists c :: c in Registered && c.name == data.name && c.options == []
    ensures data.name == "ping"
    ensures Route(ApplicationCommand(data)) == Invoke(PingCommand)
  {
    var c :| c in Registered && c.name == data.name && c.options == [];
    assert c == Registered[1];
  }

  /** The fallback text is sent exactly for names that were never registered. */
  lemma NotImplementedExactlyUnregistered(data: CommandData)
    ensures Route(ApplicationCommand(data)) == Reply(NotImplemented) <==> !IsRegistered(data.name)
  {
    if data.name == "f1" { assert Registered[0] in Registered; }
    if data.name == "ping" { assert Registered[1] in Registered; }
  }

  /** `Invalid option` is sent exactly when `f1`'s first option is not one registered for `f1`. */
  lemma InvalidOptionExactlyUnregistered(data: CommandData)
    ensures Route(ApplicationCommand(data)) == Reply(InvalidOption)
        <==> data.name == "f1" && |data.options| > 0 && !IsRegisteredOption("f1", data.options[0].name)
  {
    if data.name == "f1" && |data.options| > 0 {
      var sub := data.options[0].name;
      var c := Registered[0];
      if sub == "constructor" { assert c.options[0] in c.options; }
      if sub == "driver" { assert c.options[1] in c.options; }
    }
  }

  /** The router panics exactly for an `f1` command that arrives without any option. */
  lemma PanicsExactlyWithoutOption(data: CommandData)
    ensures Route(ApplicationCommand(data)).Panic? <==> data.name == "f1" && data.options == []
    ensures Route(ApplicationCommand(data)).Panic? ==> Route(ApplicationCommand(data)).message == MissingOption
  {
  }

  /** Only the name and the first option's name matter: later options and option values are ignored. */
  lemma OnlyFirstOptionConsulted(d1: CommandData, d2: CommandData)
    requires d1.name == d2.name
    requires |d1.options| > 0 <==> |d2.options| > 0
    requires |d1.options| > 0 ==> d1.options[0].name == d2.options[0].name
    ensures Route(ApplicationCommand(d1)) == Route(ApplicationCommand(d2))
  {
  }
}
