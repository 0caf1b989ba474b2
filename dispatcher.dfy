/** Running one console line (`execute_command` in src/commands/mod.rs):
    split the line into words, resolve the first as a command or fall back to
    the `InvalidCommand` sentinel, apply the access gate, then run it. */
module Dispatcher {
  import opened Wrappers
  import opened Text
  import opened NpcTypes
  import opened BackendState
  import opened CommandRegistry
  import Help
  import Manual
  import Listing
  import Fireball

  const ACCESS_DENIED :=
    "You do not have access to run " +
      "that command.\n" +
      "This incident will be reported."

  /** What a line's first word resolves to. */
  datatype Handler = Builtin(command: Command) | InvalidCommand

  /** The command named by `argv[0]`; an empty line names `""`, which resolves to nothing. */
  function Resolve(argv: seq<string>): Handler
  {
    var name := if argv == [] then "" else argv[0];
    match GetCommandByName(name)
    case Some(c) => Builtin(c)
    case None => InvalidCommand
  }

  /** `required_level()`; the sentinel's is the lowest 32-bit value, so it is never gated. */
  function HandlerLevel(h: Handler): int32
  {
    match h
    case Builtin(c) => RequiredLevel(c)
    case InvalidCommand => INT32_MIN
  }

  /** A built-in's `execute`: its console result and the actions it queues. */
  function Run(c: Command, level: int32, inBattle: bool, atk: int32, argv: seq<string>): (Result<string, string>, seq<PlayerAction>)
  {
    match c
    case CommandsCommand => (Listing.Execute(level, argv), [])
    case HelpCommand => (Help.Execute(level, argv), [])
    case ManCommand => (Manual.Execute(level, argv), [])
    case FireballCommand =>
      var o := Fireball.Outcome(atk, inBattle, argv);
      (Fireball.Report(o), Fireball.Queued(o))
  }

  /** The effect of one line, for a player with the given level, battle flag
      and ATK: the console result and the actions appended to the queue. A
      blank line would make the sentinel index an empty `argv`, so the line
      must hold a word. */
  function Dispatch(level: int32, inBattle: bool, atk: int32, line: string): (r: (Result<string, string>, seq<PlayerAction>))
    requires SplitWhitespace(line) != []
    ensures r.1 != [] ==> r.0.Ok? && |r.1| == 1 && r.1[0].Attack? && inBattle
  {
    var argv := SplitWhitespace(line);
    var h := Resolve(argv);
    if level < HandlerLevel(h) then (Err(ACCESS_DENIED), [])
    else match h
      case InvalidCommand => (Err("Invalid command: " + argv[0]), [])
      case Builtin(c) => Run(c, level, inBattle, atk, argv)
  }

  /** `execute_command`: only the action queue can change, and only by what
      the line queues. */
  method ExecuteCommand(gs: GameState, line: string) returns (r: Result<string, string>)
    requires SplitWhitespace(line) != []
    modifies gs`actionQueue
    ensures r == Dispatch(gs.playerLevel, gs.inBattle, gs.playerAtk, line).0
    ensures gs.actionQueue == old(gs.actionQueue) + Dispatch(gs.playerLevel, gs.inBattle, gs.playerAtk, line).1
  {
    var argv := SplitWhitespace(line);
    var h := Resolve(argv);
    if gs.playerLevel < HandlerLevel(h) {
      r := Err(ACCESS_DENIED);
    } else {
      match h {
        case InvalidCommand =>
          r := Err("Invalid command: " + argv[0]);
        case Builtin(c) =>
          match c {
            case CommandsCommand => r := Listing.Execute(gs.playerLevel, argv);
            case HelpCommand => r := Help.Execute(gs.playerLevel, argv);
            case ManCommand => r := Manual.Execute(gs.playerLevel, argv);
            case FireballCommand => r := Fireball.Execute(gs, argv);
          }
      }
    }
  }

  // ---------------------------------------------------------------- properties

  /** A line below the command's level is refused with the fixed text and
      queues nothing; the command is not run. */
  lemma Gated(level: int32, inBattle: bool, atk: int32, line: string)
    requires SplitWhitespace(line) != []
    requires level < HandlerLevel(Resolve(SplitWhitespace(line)))
    ensures Dispatch(level, inBattle, atk, line) == (Err(ACCESS_DENIED), [])
  {
  }

  /** Only `fireball` is ever gated, and only below level 2. */
  lemma OnlyFireballGated(level: int32, line: string)
    requires SplitWhitespace(line) != []
    ensures level < HandlerLevel(Resolve(SplitWhitespace(line))) <==>
      Resolve(SplitWhitespace(line)) == Builtin(FireballCommand) && level < 2
  {
  }

  /** An unknown first word is never gated: the result names it and nothing is queued. */
  lemma UnknownCommand(level: int32, inBattle: bool, atk: int32, line: string)
    requires SplitWhitespace(line) != []
    requires GetCommandByName(SplitWhitespace(line)[0]).None?
    ensures Dispatch(level, inBattle, atk, line) == (Err("Invalid command: " + SplitWhitespace(line)[0]), [])
  {
  }

  /** A permitted command's own result is returned as it is, and it sees
      the whole word list, its own name first. */
  lemma RunsResolvedCommand(level: int32, inBattle: bool, atk: int32, line: string, c: Command)
    requires SplitWhitespace(line) != []
    requires GetCommandByName(SplitWhitespace(line)[0]) == Some(c) && RequiredLevel(c) <= level
    ensures Dispatch(level, inBattle, atk, line) == Run(c, level, inBattle, atk, SplitWhitespace(line))
  {
  }

  /** What `fireball` queues, when it queues anything, is one attack, in
      battle; its damage is positive when an amount was given (without one
      it is the player's ATK, which nothing bounds). */
  lemma FireballQueue(atk: int32, inBattle: bool, argv: seq<string>)
    ensures var queued := Fireball.Queued(Fireball.Outcome(atk, inBattle, argv));
      queued != [] ==>
        && inBattle && |queued| == 1 && queued[0].Attack?
        && queued[0].damage == (if |argv| > 1 then ParseInt32(argv[1]).value else atk)
        && (|argv| > 1 ==> 0 < queued[0].damage)
  {
    Fireball.ArgumentErrorsFirst(atk, inBattle, argv);
    if |argv| > 1 {
      Fireball.DamageArgument(atk, argv);
    }
  }

  /** Only a permitted `fireball` in battle queues anything, and then exactly one attack. */
  lemma OnlyFireballQueues(level: int32, inBattle: bool, atk: int32, line: string)
    requires SplitWhitespace(line) != []
    ensures var queued := Dispatch(level, inBattle, atk, line).1;
      queued != [] ==>
        && Resolve(SplitWhitespace(line)) == Builtin(FireballCommand)
        && 2 <= level && inBattle
        && |queued| == 1 && queued[0].Attack?
  {
    var argv := SplitWhitespace(line);
    FireballQueue(atk, inBattle, argv);
  }

  /** At level 0, `help fireball` (with any spacing) reports the missing
      access, not a missing command. */
  lemma HelpFireballAtLevelZero(inBattle: bool, atk: int32, line: string)
    requires SplitWhitespace(line) == ["help", "fireball"]
    ensures Dispatch(0, inBattle, atk, line) == (Err(TARGET_FORBIDDEN), [])
  {
    HelpLookup();
    Help.FireballAtLevelZero();
    assert Resolve(["help", "fireball"]) == Builtin(HelpCommand);
  }

  /** From level 2, in battle, `fireball 10` (with any spacing) deals 10 and
      queues `Attack(10)`, even with an ATK below 10. */
  lemma FireballTenInBattle(level: int32, atk: int32, line: string)
    requires 2 <= level
    requires SplitWhitespace(line) == ["fireball", "10"]
    ensures Dispatch(level, true, atk, line) == (Ok("Dealt 10 damage"), [Attack(10)])
  {
    FireballLookup();
    Fireball.DealsTen(atk);
    assert Resolve(["fireball", "10"]) == Builtin(FireballCommand);
  }

  /** The two example lines split into the words the lemmas above expect. */
  lemma ExampleLines()
    ensures SplitWhitespace("help fireball") == ["help", "fireball"]
    ensures SplitWhitespace("fireball 10") == ["fireball", "10"]
  {
    assert Join(["help", "fireball"], " ") == "help fireball";
    SplitWhitespaceOfJoin(["help", "fireball"]);
    assert Join(["fireball", "10"], " ") == "fireball 10";
    SplitWhitespaceOfJoin(["fireball", "10"]);
  }
}
