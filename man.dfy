/** The `man` command (src/commands/man.rs): the manual page of the command
    named by the first argument. It reads the player's level and changes
    nothing. */
module Manual {
  import opened Wrappers
  import opened Text
  import opened CommandRegistry

  /** `ManCommand::execute`, over the player's level and the argument vector. */
  function Execute(level: int32, argv: seq<string>): (r: Result<string, string>)
    ensures r.Ok? <==>
      |argv| > 1 && GetCommandByName(argv[1]).Some? && level >= RequiredLevel(GetCommandByName(argv[1]).value)
  {
    if |argv| > 1 then
      match GetCommandByName(argv[1])
      case Some(c) => if level < RequiredLevel(c) then Err(TARGET_FORBIDDEN) else Ok(ManPage(c))
      case None => Err("No such command: " + argv[1])
    else Err("Usage: " + Synopsis(ManCommand))
  }

  /** Without a target the usage line is returned. */
  lemma Usage(level: int32, argv: seq<string>)
    requires |argv| <= 1
    ensures Execute(level, argv) == Err("Usage: man <command_name>")
  {
    assert "Usage: " + "man <command_name>" == "Usage: man <command_name>";
  }

  /** With a target, the result depends on the target alone: further
      arguments are ignored. */
  lemma ExtraArgumentsIgnored(level: int32, argv: seq<string>, extra: seq<string>)
    requires |argv| >= 2
    ensures Execute(level, argv + extra) == Execute(level, argv)
  {
    assert (argv + extra)[1] == argv[1];
  }

  /** The manual opens exactly for the commands the `commands` listing shows
      at the player's level, and then gives that command's manual page; a
      known command above the level is refused, not reported missing. */
  lemma SucceedsForListed(level: int32, argv: seq<string>)
    requires |argv| >= 2
    ensures var r := Execute(level, argv);
      && (r.Ok? <==> GetCommandByName(argv[1]).Some? && GetCommandByName(argv[1]).value in ListedCommands("", level))
      && (r.Ok? ==> r.value == ManPage(GetCommandByName(argv[1]).value))
      && (GetCommandByName(argv[1]).Some? && r.Err? ==> r.error == TARGET_FORBIDDEN)
      && (GetCommandByName(argv[1]).None? ==> r == Err("No such command: " + argv[1]))
  {
  }

  /** `man` itself needs no level, so its own page is always available. */
  lemma OwnPageAlwaysAvailable(level: int32)
    ensures Execute(level, ["man", "man"]) == Ok(ManPage(ManCommand))
    ensures Execute(level, ["manual", "manual"]) == Ok(ManPage(ManCommand))
  {
    ManLookup();
    ManualLookup();
  }
}
