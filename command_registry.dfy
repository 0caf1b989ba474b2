/** The console's command table (src/commands/mod.rs and the per-command
    constants of the four built-ins): the commands, their synopses, manual
    pages and access levels, the name lookup and the filtered listing. */
module CommandRegistry {
  import opened Wrappers
  import opened Text

  /** The four built-in commands. */
  datatype Command = CommandsCommand | HelpCommand | ManCommand | FireballCommand

  /** `COMMAND_LIST`: the listed command names, in listing order. */
  const COMMAND_LIST: seq<string> := ["commands", "help", "man", "fireball"]

  /** The name under which a command is listed. */
  function CommandName(c: Command): string
  {
    match c
    case CommandsCommand => "commands"
    case HelpCommand => "help"
    case ManCommand => "man"
    case FireballCommand => "fireball"
  }

  /** `synopsis()` of each command. */
  function Synopsis(c: Command): string
  {
    match c
    case CommandsCommand => "commands [-v]"
    case HelpCommand => "help <command_name>"
    case ManCommand => "man <command_name>"
    case FireballCommand => "fireball [damage]"
  }

  /** `man_page()` of each command. */
  function ManPage(c: Command): string
  {
    match c
    case CommandsCommand =>
      "commands - Show " + "available commands\n" +
        "\n" +
        "SYNOPSIS\n" +
        "    commands [-v]\n" +
        "\n" +
        "DESCRIPTION\n" +
        "    Show a list " + "of commands.\n" +
        "\n" +
        "    -v\n" +
        "        Also show " + "the synopses of " + "commands.\n"
    case HelpCommand =>
      "help - Display " + "help about a command\n" +
        "\n" +
        "SYNOPSIS\n" +
        "    help <command_name>\n" +
        "\n" +
        "DESCRIPTION\n" +
        "    Display a " + "brief help about " + "the command given.\n" +
        "    For a more " + "detailed description, " + "use the \"man\" " +
        "command.\n" +
        "\n" +
        "EXAMPLES\n" +
        "    help attack\n" +
        "        Show help " + "about the command " + "\"attack\".\n"
    case ManCommand =>
      "man - Display " + "a command's manual\n" +
        "\n" +
        "SYNOPSIS\n" +
        "    man <command_name>\n" +
        "    manual <command_name>\n" +
        "\n" +
        "DESCRIPTION\n" +
        "    Show detailed " + "help about the " + "command given.\n" +
        "    For a brief " + "description, use " + "the \"help\" command.\n" +
        "\n" +
        "EXAMPLES\n" +
        "    man attack\n" +
        "        Show the " + "manual of the " + "command \"attack\".\n"
    case FireballCommand =>
      "fireball - Summon " + "a fireball\n" +
        "\n" +
        "SYNOPSIS\n" +
        "    fireball [damage]\n" +
        "\n" +
        "DESCRIPTION\n" +
        "    Throw a fireball " + "at your enemy " + "that deals the " +
        "damage amount " + "specified.\n" +
        "    The number " + "must be an positive " + "integer not larger " +
        "than your ATK " + "stat.\n" +
        "    If `damage' " + "is omitted, deal " + "damage equal to " +
        "your ATK.\n" +
        "\n" +
        "EXAMPLES\n" +
        "    fireball 10\n" +
        "        Summon " + "a fireball that " + "deals 10 damage " +
        "to the enemy.\n"
  }

  /** The refusal `help` and `man` give for a command above the player's level. */
  const TARGET_FORBIDDEN := "You don't have access to that command"

  /** `required_level()`: everything is open except `fireball`, which needs level 2. */
  function RequiredLevel(c: Command): int32
  {
    if c == FireballCommand then 2 else INT32_MIN
  }

  /** `get_command_by_name`: trimmed, lower-cased, with `manual` an alias of `man`. */
  function GetCommandByName(name: string): (r: Option<Command>)
    ensures r.Some? ==> Normalize(name) == CommandName(r.value) || (r.value == ManCommand && Normalize(name) == "manual")
  {
    var key := Normalize(name);
    if key == "commands" then Some(CommandsCommand)
    else if key == "help" then Some(HelpCommand)
    else if key == "man" || key == "manual" then Some(ManCommand)
    else if key == "fireball" then Some(FireballCommand)
    else None
  }

  /** A name resolves to a command exactly when, trimmed and lower-cased, it
      is that command's listed name, or `manual` for the manual command. */
  lemma LookupExactly(name: string, c: Command)
    ensures GetCommandByName(name) == Some(c) <==>
      Normalize(name) == CommandName(c) || (c == ManCommand && Normalize(name) == "manual")
  {
  }

  /** Exactly five keys resolve; every other name finds nothing. */
  lemma LookupMisses(name: string)
    ensures GetCommandByName(name) == None <==>
      Normalize(name) !in {"commands", "help", "man", "manual", "fireball"}
  {
  }

  /** Surrounding whitespace and upper case make no difference to the lookup. */
  lemma LookupIgnoresCaseAndPadding(a: string, name: string, b: string)
    requires AllWhitespace(a) && AllWhitespace(b)
    ensures GetCommandByName(a + Upper(name) + b) == GetCommandByName(name)
  {
    NormalizeOfPadded(a, Upper(name), b);
    NormalizeOfUpper(name);
  }

  /** The five keys, written as they are, resolve as the table says. */
  lemma CommandsLookup() ensures GetCommandByName("commands") == Some(CommandsCommand) { NormalizeOfCanonical("commands"); }
  lemma HelpLookup() ensures GetCommandByName("help") == Some(HelpCommand) { NormalizeOfCanonical("help"); }
  lemma ManLookup() ensures GetCommandByName("man") == Some(ManCommand) { NormalizeOfCanonical("man"); }
  lemma ManualLookup() ensures GetCommandByName("manual") == Some(ManCommand) { NormalizeOfCanonical("manual"); }
  lemma FireballLookup() ensures GetCommandByName("fireball") == Some(FireballCommand) { NormalizeOfCanonical("fireball"); }

  lemma CanonicalLookups()
    ensures GetCommandByName("commands") == Some(CommandsCommand)
    ensures GetCommandByName("help") == Some(HelpCommand)
    ensures GetCommandByName("man") == Some(ManCommand)
    ensures GetCommandByName("manual") == Some(ManCommand)
    ensures GetCommandByName("fireball") == Some(FireballCommand)
  {
    CommandsLookup();
    HelpLookup();
    ManLookup();
    ManualLookup();
    FireballLookup();
  }

  /** The commands behind `COMMAND_LIST`, in the same order. */
  const LISTED: seq<Command> := [CommandsCommand, HelpCommand, ManCommand, FireballCommand]

  /** Every listed name is the name of the command at the same position, and
      resolves to it, so the lookups `list_commands` unwraps never fail. */
  lemma ListedNamesResolve()
    ensures |COMMAND_LIST| == |LISTED|
    ensures forall i :: 0 <= i < |LISTED| ==>
      COMMAND_LIST[i] == CommandName(LISTED[i]) && GetCommandByName(COMMAND_LIST[i]) == Some(LISTED[i])
  {
    forall i | 0 <= i < |LISTED|
      ensures COMMAND_LIST[i] == CommandName(LISTED[i]) && GetCommandByName(COMMAND_LIST[i]) == Some(LISTED[i])
    {
      if i == 0 {
        CommandsLookup();
      } else if i == 1 {
        HelpLookup();
      } else if i == 2 {
        ManLookup();
      } else {
        FireballLookup();
      }
    }
  }

  /** Every synopsis starts with the command's listed name. */
  lemma SynopsisNamesItsCommand(c: Command)
    ensures CommandName(c) <= Synopsis(c)
  {
  }

  // ---------------------------------------------------------------- listing

  /** The filter `list_commands` applies: the name starts with the
      (case-sensitive) prefix and the player meets the command's level. */
  predicate Admitted(c: Command, prefix: string, level: int32)
  {
    prefix <= CommandName(c) && RequiredLevel(c) <= level
  }

  /** The commands of `cs` that pass the filter, in their order. */
  function FilterCommands(cs: seq<Command>, prefix: string, level: int32): (r: seq<Command>)
    ensures forall c :: c in r <==> c in cs && Admitted(c, prefix, level)
    decreases |cs|
  {
    if cs == [] then []
    else
      var rest := FilterCommands(cs[1..], prefix, level);
      assert cs == [cs[0]] + cs[1..];
      if Admitted(cs[0], prefix, level) then [cs[0]] + rest else rest
  }

  /** The filter keeps the order: its result is a subsequence of its input. */
  lemma {:induction false} FilterKeepsOrder(cs: seq<Command>, prefix: string, level: int32)
    ensures IsSubsequence(FilterCommands(cs, prefix, level), cs)
    decreases |cs|
  {
    if cs != [] {
      var rest := FilterCommands(cs[1..], prefix, level);
      FilterKeepsOrder(cs[1..], prefix, level);
      if Admitted(cs[0], prefix, level) {
        assert ([cs[0]] + rest)[1..] == rest;
      } else {
        SubsequenceCons(rest, cs[0], cs[1..]);
        assert [cs[0]] + cs[1..] == cs;
      }
    }
  }

  /** The commands `list_commands` keeps, in listing order. */
  function ListedCommands(prefix: string, level: int32): (r: seq<Command>)
    ensures forall c :: c in r <==> Admitted(c, prefix, level)
  {
    FilterCommands(LISTED, prefix, level)
  }

  /** The listing keeps the order of `COMMAND_LIST`. */
  lemma ListKeepsOrder(prefix: string, level: int32)
    ensures IsSubsequence(ListedCommands(prefix, level), LISTED)
  {
    FilterKeepsOrder(LISTED, prefix, level);
  }

  function Names(cs: seq<Command>): seq<string>
  {
    seq(|cs|, i requires 0 <= i < |cs| => CommandName(cs[i]))
  }

  /** `list_commands`: the names of the kept commands. */
  function ListCommands(prefix: string, level: int32): (r: seq<string>)
    ensures forall c :: CommandName(c) in r <==> Admitted(c, prefix, level)
    ensures forall x :: x in r ==> x in COMMAND_LIST
  {
    var cs := ListedCommands(prefix, level);
    NamesMembership(cs);
    Names(cs)
  }

  /** A command's name is among the names of `cs` exactly when the command
      is in `cs`, and every such name is in `COMMAND_LIST`. */
  lemma NamesMembership(cs: seq<Command>)
    ensures forall c :: CommandName(c) in Names(cs) <==> c in cs
    ensures forall x :: x in Names(cs) ==> x in COMMAND_LIST
  {
    var r := Names(cs);
    forall c ensures CommandName(c) in r <==> c in cs {
      if c in cs {
        var i :| 0 <= i < |cs| && cs[i] == c;
        assert r[i] == CommandName(c);
      }
      if CommandName(c) in r {
        var i :| 0 <= i < |r| && r[i] == CommandName(c);
        NamesDistinct(c, cs[i]);
      }
    }
    forall x | x in r ensures x in COMMAND_LIST {
      var i :| 0 <= i < |r| && r[i] == x;
      NameListed(cs[i]);
    }
  }

  /** Every command's name is in `COMMAND_LIST`. */
  lemma NameListed(c: Command)
    ensures CommandName(c) in COMMAND_LIST
  {
  }

  /** Different commands are listed under different names. */
  lemma NamesDistinct(c: Command, d: Command)
    ensures CommandName(c) == CommandName(d) <==> c == d
  {
  }

  /** `c` of `low` ⊑ `c` of `high`: filtering at a higher level keeps more. */
  lemma {:induction false} FilterMonotone(cs: seq<Command>, prefix: string, low: int32, high: int32)
    requires low <= high
    ensures IsSubsequence(FilterCommands(cs, prefix, low), FilterCommands(cs, prefix, high))
    decreases |cs|
  {
    if cs != [] {
      FilterMonotone(cs[1..], prefix, low, high);
      var lo := FilterCommands(cs[1..], prefix, low);
      var hi := FilterCommands(cs[1..], prefix, high);
      if Admitted(cs[0], prefix, low) {
        assert ([cs[0]] + lo)[1..] == lo;
      } else if Admitted(cs[0], prefix, high) {
        SubsequenceCons(lo, cs[0], hi);
      }
    }
  }

  /** Raising the level only adds commands to the listing, keeping the order. */
  lemma ListMonotone(prefix: string, low: int32, high: int32)
    requires low <= high
    ensures IsSubsequence(ListedCommands(prefix, low), ListedCommands(prefix, high))
    ensures forall x :: x in ListCommands(prefix, low) ==> x in ListCommands(prefix, high)
  {
    FilterMonotone(LISTED, prefix, low, high);
    forall x | x in ListCommands(prefix, low) ensures x in ListCommands(prefix, high) {
      var i :| 0 <= i < |ListCommands(prefix, low)| && ListCommands(prefix, low)[i] == x;
      var c := ListedCommands(prefix, low)[i];
      assert CommandName(c) == x;
    }
  }

  /** The alias `manual` is never listed. */
  lemma ManualNeverListed(prefix: string, level: int32)
    ensures "manual" !in ListCommands(prefix, level)
  {
  }

  /** With no prefix, the listing is the first three commands below level 2
      and all four from level 2 on. */
  lemma ListedAll(level: int32)
    ensures ListedCommands("", level) == if level < 2 then LISTED[..3] else LISTED
  {
    var n := LISTED;
    var last := if level < 2 then [] else [FireballCommand];
    ListedFromHelp(level);
    assert FilterCommands(n, "", level) == [CommandsCommand] + FilterCommands(n[1..], "", level);
    if level < 2 {
      assert n[..3] == [CommandsCommand] + [HelpCommand, ManCommand];
    } else {
      assert n == [CommandsCommand] + [HelpCommand, ManCommand, FireballCommand];
    }
  }

  lemma ListedFromHelp(level: int32)
    ensures FilterCommands(LISTED[1..], "", level) == [HelpCommand, ManCommand] + if level < 2 then [] else [FireballCommand]
  {
    var n := LISTED;
    ListedTail(level);
    assert n[1..][1..] == n[2..];
    assert FilterCommands(n[1..], "", level) == [HelpCommand] + FilterCommands(n[2..], "", level);
  }

  lemma ListedTail(level: int32)
    ensures FilterCommands(LISTED[2..], "", level) == [ManCommand] + if level < 2 then [] else [FireballCommand]
  {
    var n := LISTED;
    assert FilterCommands(n[3..], "", level) == if level < 2 then [] else [FireballCommand] by {
      assert n[3..][1..] == [];
    }
    assert n[2..][1..] == n[3..];
  }

  /** The same listing, by name. */
  lemma ListAll(level: int32)
    ensures ListCommands("", level) == if level < 2 then ["commands", "help", "man"] else COMMAND_LIST
  {
    ListedAll(level);
  }

  /** `fireball` is listed exactly from level 2 on. */
  lemma FireballListedFromLevelTwo(level: int32)
    ensures "fireball" in ListCommands("", level) <==> level >= 2
  {
    ListAll(level);
  }
}
