/** The shared game state of src/game_backend.rs: the story gate, the player's
    statistics and position, the battle flag and the queue of actions that
    console commands leave for the active NPC. */
module BackendState {
  import opened Wrappers
  import opened Text
  import opened NpcTypes

  /** The global story gate. */
  datatype GameProgress = Intro | Tutorial | HasPanel | HasTerminal

  /** The one mutable game-state record every command and NPC works on. */
  class GameState {
    var gameProgress: GameProgress
    var isShowingCg: bool
    var playerLevel: int32
    var playerHitpoints: int32
    var playerMaxHp: int32
    var playerAtk: int32
    var playerDef: int32
    var playerX: nat
    var playerY: nat
    var inBattle: bool
    var actionQueue: seq<PlayerAction>

    /** `GameState::default()`. */
    constructor ()
      ensures gameProgress == Intro && !isShowingCg
      ensures playerLevel == 0 && playerHitpoints == 20 && playerMaxHp == 20
      ensures playerAtk == 5 && playerDef == 2
      ensures playerX == 0 && playerY == 0
      ensures !inBattle && actionQueue == []
    {
      gameProgress := Intro;
      isShowingCg := false;
      playerLevel := 0;
      playerHitpoints := 20;
      playerMaxHp := 20;
      playerAtk := 5;
      playerDef := 2;
      playerX := 0;
      playerY := 0;
      inBattle := false;
      actionQueue := [];
    }

    /** `player_details`: four lines with the access level and the combat statistics. */
    function PlayerDetails(): (r: string)
      reads this
      ensures "Your access level: " + IntToString(playerLevel) + "\n" <= r
    {
      ("Your access level: " + IntToString(playerLevel) + "\n")
      + ("HP: " + IntToString(playerHitpoints) + " / " + IntToString(playerMaxHp) + "\n")
      + ("ATK: " + IntToString(playerAtk) + "\n")
      + ("DEF: " + IntToString(playerDef))
    }
  }

  lemma FourLines(l0: string, l1: string, l2: string, l3: string)
    requires '\n' !in l0 && '\n' !in l1 && '\n' !in l2 && '\n' !in l3
    ensures SplitOn(l0 + ['\n'] + (l1 + ['\n'] + (l2 + ['\n'] + l3)), '\n') == [l0, l1, l2, l3]
  {
    Three(l1, l2, l3);
    SplitOnField(l0, '\n', l1 + ['\n'] + (l2 + ['\n'] + l3));
  }
  lemma Three(l1: string, l2: string, l3: string)
    requires '\n' !in l1 && '\n' !in l2 && '\n' !in l3
    ensures SplitOn(l1 + ['\n'] + (l2 + ['\n'] + l3), '\n') == [l1, l2, l3]
  {
    var t3 := l2 + ['\n'] + l3;
    SplitOnLast(l3, '\n');
    SplitOnField(l2, '\n', l3);
    SplitOnField(l1, '\n', t3);
  }

  lemma Regroup(l0: string, l1: string, l2: string, l3: string)
    ensures (l0 + "\n") + (l1 + "\n") + (l2 + "\n") + l3 == l0 + ['\n'] + (l1 + ['\n'] + (l2 + ['\n'] + l3))
  {
  }

  lemma NoNewline(caption: string, n: int, tail: string)
    requires '\n' !in caption && '\n' !in tail
    ensures '\n' !in caption + IntToString(n) + tail
  {
    var s := caption + IntToString(n) + tail;
    forall i | 0 <= i < |s| ensures s[i] != '\n' {
      if i < |caption| {
        assert s[i] == caption[i];
      } else if i < |caption| + |IntToString(n)| {
        assert s[i] == IntToString(n)[i - |caption|];
      } else {
        assert s[i] == tail[i - |caption| - |IntToString(n)|];
      }
    }
  }

  lemma LabelledNumber(caption: string, n: int32)
    ensures ParseInt32((caption + IntToString(n))[|caption|..]) == Some(n)
  {
    assert (caption + IntToString(n))[|caption|..] == IntToString(n);
    ParseOfIntToString(n);
  }

  /** The details text is exactly four lines, one per caption, and the number
      after each single-number caption reads back as the field it shows. */
  lemma PlayerDetailsLines(gs: GameState)
    ensures var lines := SplitOn(gs.PlayerDetails(), '\n');
      && lines == ["Your access level: " + IntToString(gs.playerLevel),
                   "HP: " + IntToString(gs.playerHitpoints) + " / " + IntToString(gs.playerMaxHp),
                   "ATK: " + IntToString(gs.playerAtk),
                   "DEF: " + IntToString(gs.playerDef)]
      && ParseInt32(lines[0][19..]) == Some(gs.playerLevel)
      && ParseInt32(lines[2][5..]) == Some(gs.playerAtk)
      && ParseInt32(lines[3][5..]) == Some(gs.playerDef)
  {
    var l0 := "Your access level: " + IntToString(gs.playerLevel);
    var l1 := "HP: " + IntToString(gs.playerHitpoints) + " / " + IntToString(gs.playerMaxHp);
    var l2 := "ATK: " + IntToString(gs.playerAtk);
    var l3 := "DEF: " + IntToString(gs.playerDef);
    NoNewline("Your access level: ", gs.playerLevel, "");
    assert "Your access level: " + IntToString(gs.playerLevel) + "" == l0;
    NoNewline("HP: " + IntToString(gs.playerHitpoints) + " / ", gs.playerMaxHp, "");
    NoNewline("HP: ", gs.playerHitpoints, " / ");
    assert "HP: " + IntToString(gs.playerHitpoints) + " / " + IntToString(gs.playerMaxHp) + "" == l1;
    NoNewline("ATK: ", gs.playerAtk, "");
    assert "ATK: " + IntToString(gs.playerAtk) + "" == l2;
    NoNewline("DEF: ", gs.playerDef, "");
    assert "DEF: " + IntToString(gs.playerDef) + "" == l3;
    FourLines(l0, l1, l2, l3);
    Regroup(l0, l1, l2, l3);
    assert gs.PlayerDetails() == (l0 + "\n") + (l1 + "\n") + (l2 + "\n") + l3;
    LabelledNumber("Your access level: ", gs.playerLevel);
    LabelledNumber("ATK: ", gs.playerAtk);
    LabelledNumber("DEF: ", gs.playerDef);
  }
}
