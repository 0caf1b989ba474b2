/** The `help` command (src/commands/help.rs): the one-line synopsis of the
    command named by the first argument. It reads the player's level and
    changes nothing. */
module Help {
  import opened Wrappers
  import opened Text
  import opened CommandRegistry

  /** `HelpCommand::execute`, over the player's level and the argument vector
      (`argv[0]` is the command's own name). */
  function Execute(level: int32, argv: seq<string>): (r: Result<string, string>)
    ensures r.Ok? <==>
      |argv| > 1 && GetCommandByName(argv[1]).Some? && level >= RequiredLevel(GetCommandByName(argv[1]).value)
  {
    if |argv| > 1 then
      match GetCommandByName(argv[1])
      case Some(c) => if level < RequiredLevel(c) then Err(TARGET_FORBIDDEN) else Ok(Synopsis(c))
      case None => Err("No such command: " + argv[1])
    else Err("Usage: " + Synopsis(HelpCommand))
  }

  /** Without a target the usage line is returned. */
  lemma Usage(level: int32, argv: seq<string>)
    requires |argv| <= 1
    ensures Execute(level, argv) == Err("Usage: help <command_name>")
  {
    assert "Usage: " + "help <command_name>" == "Usage: help <command_name>";
  }

  /** With a target, the result depends on the target alone: further
      arguments are ignored. */
  lemma ExtraArgumentsIgnored(level: int32, argv: seq<string>, extra: seq<string>)
    requires |argv| >= 2
    ensures Execute(level, argv + extra) == Execute(level, argv)
  {
    assert (argv + extra)[1] == argv[1];
  }

  /** Help succeeds exactly for the commands the `commands` listing shows at
      the player's level, and then gives that command's synopsis; a known
      command above the level is refused, and is not reported missing. */
  lemma SucceedsForListed(level: int32, argv: seq<string>)
    requires |argv| >= 2
    ensures var r := Execute(level, argv);
      && (r.Ok? <==> GetCommandByName(argv[1]).Some? && GetCommandByName(argv[1]).value in ListedCommands("", level))
      && (r.Ok? ==> r.value == Synopsis(GetCommandByName(argv[1]).value))
      && (GetCommandByName(argv[1]).Some? && r.Err? ==> r.error == TARGET_FORBIDDEN)
      && (GetCommandByName(argv[1]).None? ==> r == Err("No such command: " + argv[1]))
  {
  }

  /** The target is looked up like a command line's name, in any case. */
  lemma TargetCaseIgnored(level: int32, name: string, target: string, extra: seq<string>)
    requires GetCommandByName(target).Some?
    ensures Execute(level, [name, Upper(target)] + extra) == Execute(level, [name, target] + extra)
  {
    assert AllWhitespace([]);
    LookupIgnoresCaseAndPadding([], target, []);
    assert [] + Upper(target) + [] == Upper(target);
    assert ([name, Upper(target)] + extra)[1] == Upper(target);
    assert ([name, target] + extra)[1] == target;
  }

  /** `manual` stands for `man` as a target too. */
  lemma TargetManualAlias(level: int32, name: string, extra: seq<string>)
    ensures Execute(level, [name, "manual"] + extra) == Execute(level, [name, "man"] + extra)
  {
    ManLookup();
    ManualLookup();
    assert ([name, "manual"] + extra)[1] == "manual";
    assert ([name, "man"] + extra)[1] == "man";
  }

  /** At level 0, `help fireball` is refused rather than reported missing. */
  lemma FireballAtLevelZero()
    ensures Execute(0, ["help", "fireball"]) == Err(TARGET_FORBIDDEN)
  {
    FireballLookup();
  }
}
