/** The `fireball` command (src/commands/fireball.rs): the one command that
    changes the game state, by queueing an attack on the active NPC. */
module Fireball {
  import opened Wrappers
  import opened Text
  import opened NpcTypes
  import opened BackendState

  const DAMAGE_NOT_POSITIVE := "Damage should be positive and not larger than your ATK"
  const NOT_IN_BATTLE := "Not in battle"

  /** The damage the arguments ask for: `argv[1]` read as a positive 32-bit
      number, or the player's ATK when there is no `argv[1]`. */
  function Damage(atk: int32, argv: seq<string>): (r: Result<int32, string>)
    ensures |argv| > 1 && r.Ok? ==> 0 < r.value
    ensures |argv| <= 1 ==> r == Ok(atk)
  {
    if |argv| > 1 then
      match ParseInt32(argv[1])
      case Some(d) => if 0 < d then Ok(d) else Err(DAMAGE_NOT_POSITIVE)
      case None => Err("`" + argv[1] + "' is not a valid number")
    else Ok(atk)
  }

  /** The damage dealt, or why none is: argument errors come first, then the
      battle check. */
  function Outcome(atk: int32, inBattle: bool, argv: seq<string>): (r: Result<int32, string>)
    ensures r.Ok? ==> inBattle && r == Damage(atk, argv)
    ensures Damage(atk, argv).Err? ==> r == Damage(atk, argv)
  {
    match Damage(atk, argv)
    case Err(e) => Err(e)
    case Ok(d) => if inBattle then Ok(d) else Err(NOT_IN_BATTLE)
  }

  /** The console text of an outcome. */
  function Report(o: Result<int32, string>): Result<string, string>
  {
    match o
    case Ok(d) => Ok("Dealt " + IntToString(d) + " damage")
    case Err(e) => Err(e)
  }

  /** The actions an outcome leaves for the NPC. */
  function Queued(o: Result<int32, string>): seq<PlayerAction>
  {
    match o
    case Ok(d) => [Attack(d)]
    case Err(_) => []
  }

  /** `FireballCommand::execute`: appends at most one attack to the action
      queue and touches nothing else. */
  method Execute(gs: GameState, argv: seq<string>) returns (r: Result<string, string>)
    modifies gs`actionQueue
    ensures r == Report(Outcome(gs.playerAtk, gs.inBattle, argv))
    ensures gs.actionQueue == old(gs.actionQueue) + Queued(Outcome(gs.playerAtk, gs.inBattle, argv))
  {
    var damage: int32;
    if |argv| > 1 {
      match ParseInt32(argv[1]) {
        case Some(d) =>
          if 0 < d {
            damage := d;
          } else {
            return Err(DAMAGE_NOT_POSITIVE);
          }
        case None =>
          return Err("`" + argv[1] + "' is not a valid number");
      }
    } else {
      damage := gs.playerAtk;
    }
    if gs.inBattle {
      gs.actionQueue := gs.actionQueue + [Attack(damage)];
      r := Ok("Dealt " + IntToString(damage) + " damage");
    } else {
      r := Err(NOT_IN_BATTLE);
    }
  }

  /** Without an argument the damage is the player's ATK. */
  lemma DefaultDamage(atk: int32, inBattle: bool, argv: seq<string>)
    requires |argv| <= 1
    ensures Outcome(atk, inBattle, argv) == if inBattle then Ok(atk) else Err(NOT_IN_BATTLE)
  {
  }

  /** The argument is accepted exactly when it reads as a positive 32-bit
      number, which is then the damage; otherwise the error names the
      problem, quoting an unreadable argument literally. */
  lemma DamageArgument(atk: int32, argv: seq<string>)
    requires |argv| > 1
    ensures Damage(atk, argv).Ok? <==> ParseInt32(argv[1]).Some? && 0 < ParseInt32(argv[1]).value
    ensures Damage(atk, argv).Ok? ==> Damage(atk, argv).value == ParseInt32(argv[1]).value
    ensures ParseInt32(argv[1]).Some? && ParseInt32(argv[1]).value <= 0 ==> Damage(atk, argv) == Err(DAMAGE_NOT_POSITIVE)
    ensures ParseInt32(argv[1]).None? ==> Damage(atk, argv) == Err("`" + argv[1] + "' is not a valid number")
  {
  }

  /** Argument errors are reported whether or not a battle is on, and
      outside a battle nothing is queued. */
  lemma ArgumentErrorsFirst(atk: int32, inBattle: bool, argv: seq<string>)
    ensures Damage(atk, argv).Err? ==> Outcome(atk, inBattle, argv) == Damage(atk, argv)
    ensures Damage(atk, argv).Ok? && !inBattle ==> Outcome(atk, inBattle, argv) == Err(NOT_IN_BATTLE)
    ensures Queued(Outcome(atk, inBattle, argv)) != [] <==> Damage(atk, argv).Ok? && inBattle
  {
  }

  /** Any positive damage is accepted in battle, however far above the
      player's ATK, and arguments after it are ignored. */
  lemma AnyPositiveDamage(atk: int32, d: int32, extra: seq<string>)
    requires 0 < d
    ensures Outcome(atk, true, ["fireball", IntToString(d)] + extra) == Ok(d)
  {
    ParseOfIntToString(d);
    assert (["fireball", IntToString(d)] + extra)[1] == IntToString(d);
  }

  /** The number in the report reads back as the damage dealt. */
  lemma ReportReadsBack(d: int32)
    ensures Report(Ok(d)).Ok?
    ensures var m := Report(Ok(d)).value;
      |m| == 6 + |IntToString(d)| + 7 && ParseInt32(m[6..|m| - 7]) == Some(d)
  {
    var m := Report(Ok(d)).value;
    assert m[6..|m| - 7] == IntToString(d);
    ParseOfIntToString(d);
  }

  /** `fireball 10` in battle deals 10 damage and queues `Attack(10)`. */
  lemma DealsTen(atk: int32)
    ensures Report(Outcome(atk, true, ["fireball", "10"])) == Ok("Dealt 10 damage")
    ensures Queued(Outcome(atk, true, ["fireball", "10"])) == [Attack(10)]
  {
    assert IntToString(10) == "10";
    ParseOfIntToString(10);
    assert "Dealt " + "10" + " damage" == "Dealt 10 damage";
  }

  /** `fireball -5` is refused as not positive, in battle or not. */
  lemma RefusesMinusFive(atk: int32, inBattle: bool)
    ensures Outcome(atk, inBattle, ["fireball", "-5"]) == Err(DAMAGE_NOT_POSITIVE)
  {
    assert IntToString(-5) == "-5";
    ParseOfIntToString(-5);
  }

  /** `fireball abc` is refused as not a number, quoting it, in battle or not. */
  lemma RefusesAbc(atk: int32, inBattle: bool)
    ensures Outcome(atk, inBattle, ["fireball", "abc"]) == Err("`" + "abc" + "' is not a valid number")
  {
    assert !AllDigits("abc") by {
      assert !IsDigit("abc"[0]);
    }
    assert ParseInt32("abc") == None;
  }
}
