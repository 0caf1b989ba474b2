/** The `commands` command (src/commands/commands.rs): the names of the
    commands open at the player's level, or with `-v` their synopses. It
    always succeeds and changes nothing. */
module Listing {
  import opened Wrappers
  import opened Text
  import opened CommandRegistry

  function Synopses(cs: seq<Command>): seq<string>
  {
    seq(|cs|, i requires 0 <= i < |cs| => Synopsis(cs[i]))
  }

  /** `CommandsCommand::execute`: names joined by spaces, or, when any
      argument is `-v`, synopses joined by newlines. */
  function Execute(level: int32, argv: seq<string>): (r: Result<string, string>)
    ensures r.Ok?
  {
    if "-v" in argv then Ok(Join(Synopses(ListedCommands("", level)), "\n"))
    else Ok(Join(ListCommands("", level), " "))
  }

  /** Every listed name is a single token and every synopsis a single line. */
  lemma NameIsToken(c: Command)
    ensures CommandName(c) != [] && NoWhitespace(CommandName(c))
    ensures '\n' !in Synopsis(c)
  {
  }

  /** The short listing reads back, word by word, as `list_commands` at the
      player's level, so it shows `fireball` exactly from level 2 on. */
  lemma ShortListingReadsBack(level: int32, argv: seq<string>)
    requires "-v" !in argv
    ensures Execute(level, argv).Ok?
    ensures SplitWhitespace(Execute(level, argv).value) == ListCommands("", level)
    ensures "fireball" in SplitWhitespace(Execute(level, argv).value) <==> level >= 2
  {
    var names := ListCommands("", level);
    forall k | 0 <= k < |names| ensures names[k] != [] && NoWhitespace(names[k]) {
      NameIsToken(ListedCommands("", level)[k]);
    }
    SplitWhitespaceOfJoin(names);
    FireballListedFromLevelTwo(level);
  }

  /** The verbose listing reads back, line by line, as the synopses of the
      same commands in the same order. */
  lemma VerboseListingReadsBack(level: int32, argv: seq<string>)
    requires "-v" in argv
    ensures Execute(level, argv).Ok?
    ensures SplitOn(Execute(level, argv).value, '\n') == Synopses(ListedCommands("", level))
  {
    var cs := ListedCommands("", level);
    ListedAll(level);
    forall k | 0 <= k < |Synopses(cs)| ensures '\n' !in Synopses(cs)[k] {
      NameIsToken(cs[k]);
    }
    SplitOnOfJoin(Synopses(cs), '\n');
  }

  /** At level 0 the listing is `commands help man`. */
  lemma AtLevelZero()
    ensures Execute(0, ["commands"]) == Ok("commands help man")
  {
    ListAll(0);
    assert "-v" !in ["commands"];
    JoinThreeNames();
  }

  lemma JoinThreeNames()
    ensures Join(["commands", "help", "man"], " ") == "commands help man"
  {
    var names := ["commands", "help", "man"];
    assert names[1..] == ["help", "man"] && names[1..][1..] == ["man"];
    assert Join(names, " ") == "commands" + " " + ("help" + " " + "man");
  }

  /** At level 0 the verbose listing is the three synopses, one per line. */
  lemma VerboseAtLevelZero()
    ensures Execute(0, ["commands", "-v"]) ==
      Ok("commands [-v]" + "\n" + "help <command_name>" + "\n" + "man <command_name>")
  {
    ListedAll(0);
    assert Synopses(ListedCommands("", 0)) == ["commands [-v]", "help <command_name>", "man <command_name>"];
    assert "-v" in ["commands", "-v"];
    JoinThree("commands [-v]", "help <command_name>", "man <command_name>", "\n");
  }
}
