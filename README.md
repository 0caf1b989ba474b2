# Inferno Engineer: the game's core, modelled in Dafny

Inferno Engineer is a small Bevy game written in Rust. The player walks a tile
map and meets an NPC. The player talks to the NPC and, once the story allows
it, fights it from an in-game terminal. This project models the game's logic,
without the rendering:

- **The command console** (`src/commands/`). A typed line is split into
  words. Its first word is looked up among the built-in commands `commands`,
  `help`, `man` (alias `manual`) and `fireball`. The lookup ignores case and
  padding. An access gate then checks the player's level, and the command
  runs. `fireball` is the only command that changes the game state: in
  battle, it queues an attack for the NPC. Modules: `CommandRegistry`,
  `Dispatcher`, `Listing`, `Help`, `Manual`, `Fireball`.
- **The NPC** (`src/npcs/`). This covers the player's actions, the NPC's
  responses, the four forms of the response macro and the lookup by id.
  Modules: `NpcTypes`, `NpcRegistry`. The four forms `Say`, `SayAs`, `Ask`
  and `AskAs` are data constructors by definition. The macro's `+`
  repetition of choices is their precondition `|choices| > 0`. Alice, the only NPC, is modelled in
  module `Alice`:
  - her script runs 25 steps;
  - she remembers the player's last choice, and a non-zero answer at step 5
    skips step 6;
  - her name is hidden until step 17;
  - steps 0 and 20 open the story gates `HasPanel` and `HasTerminal`;
  - responses leave her outbox first in, first out.

  The NPC is a class whose methods are proved to move its fields as the
  functions `Handled`, `GateAfter` and `PopResponse` say.
- **The per-frame loop** (`src/game_backend.rs`). Module `BackendState` holds
  the `GameState` record and `player_details`. Module `GameLoop` holds one
  frame of `game_loop`, which does three things in order:
  1. It runs the console lines typed since the last frame. In the program
     the terminal UI calls `execute_command` itself, on the trimmed input
     and only when that is not blank (`src/game_ui.rs`, lines 42-48), and
     nothing sends the command event that `game_loop` reads. `Tick`'s
     `lines` stand for those UI calls, which is why `Runnable` holds.
  2. Out of an encounter, it engages an NPC standing on the player's tile.
  3. In an encounter, the NPC handles the frame's actions and then the
     queued attacks. At most one response goes out, and a finished NPC
     has its id removed from the NPC table, as the code does (see
     "Findings").

  `Tick` is proved to keep the frame invariant `Consistent`:
  - the battle flag holds exactly when an NPC is engaged;
  - the engaged NPC has not finished;
  - the action queue is empty between frames;
  - every key of the NPC table is an id the NPC lookup accepts.
- **The map** (`src/game_map.rs`, module `GameMap`). The map file's text rows
  are read bottom-up and turned into one tile per cell.
  - A tile's type is the bit set of its road neighbours.
  - A tile's neighbour flags are bounds-checked and symmetric between
    adjacent cells.
  - `is_valid` tells whether a point inside a tile lies on its road.

`Text` models the pieces of the Rust standard library the core relies on,
restricted to ASCII: `trim`, `to_lowercase`, `split_whitespace`, `join`,
decimal formatting and `str::parse::<i32>`. The core never splits on a
character. `Text.SplitOn` exists only so that the lemmas can read joined
and multi-line output back. `Wrappers` holds `Option` and `Result`.

Where the code and its documentation disagree, the model follows the code.
Two such places:
- The manual page of `fireball` and its error text promise a cap at the
  player's ATK, but `execute` only checks that the damage is positive.
  `Fireball.AnyPositiveDamage` states the code's behaviour.
- `help.rs`, `man.rs` and `commands.rs` name a stub `gameplay::GameState`
  and a trait `commands::Command`. They are modelled against the real
  `game_backend::GameState` and the one command interface `GameCommand`.

Integers: the model uses
- `int32` (`Text.int32`) for the `i32` fields and parses, so `i32::MIN` is
  the lowest level and parsing checks the 32-bit range;
- `nat` for `usize`;
- unbounded `int` for the NPC's hitpoints (see "Left out").

## Model

| member | source | states |
|---|---|---|
| Text.IntToString | src/game_backend.rs:233-236 | the decimal text of a number is non-empty and has no whitespace or newline |
| Text.ParseInt32 | src/commands/fireball.rs:34 | a successful parse came from a non-empty, whitespace-free word |
| Text.ParseOfIntToString | src/commands/fireball.rs:34 | printing a 32-bit number and parsing it back gives the number |
| Text.Trim | src/commands/mod.rs:43 | trimming never lengthens a name; `TrimEnds` states what is left at its ends |
| Text.Normalize | src/commands/mod.rs:43-44 | the lookup key is as long as the trimmed name and holds no upper-case letter |
| Text.SplitWhitespace | src/commands/mod.rs:57-60 | a line splits into at most as many words as it has characters; `SplitWhitespaceTokens` states what the words are |
| Text.Join | src/commands/commands.rs:37-39 | a join starts with its first part |
| Text.TrimEnds | src/commands/mod.rs:43 | a trimmed name is no longer than the original and has no whitespace at either end |
| Text.NormalizeOfPadded | src/commands/mod.rs:43-44 | surrounding whitespace does not change the lookup key |
| Text.NormalizeOfUpper | src/commands/mod.rs:44 | upper-casing a name does not change the lookup key |
| Text.NormalizeOfCanonical | src/commands/mod.rs:43-44 | a lower-case name with no padding is its own lookup key |
| Text.SplitWhitespaceTokens | src/commands/mod.rs:57-60 | every word of a split line is non-empty and has no whitespace, as the filter there demands |
| Text.SplitWhitespaceEmpty | src/commands/mod.rs:57-61 | a line splits into no words exactly when it is blank |
| Text.SplitWhitespaceOfJoin | src/commands/commands.rs:39 | words joined by single spaces split back into the same words |
| Text.SplitWhitespaceAround | src/commands/mod.rs:57-58 | a whitespace character splits a line into the words of its two sides |
| Text.SplitOnOfJoin | src/commands/commands.rs:33-37 | newline-free parts joined by newlines split back into the same parts |
| Text.JoinThree | src/commands/commands.rs:37-39 | three parts joined are the parts with the separator between each two |
| NpcRegistry.GetNpcById | src/npcs/mod.rs:18-24 | an NPC is built exactly for the id "alice" (trimmed, lower-cased), in its starting state |
| NpcRegistry.NpcIdIgnoresCaseAndPadding | src/npcs/mod.rs:19-20 | case and surrounding whitespace make no difference to the NPC lookup |
| NpcRegistry.IsNpcId | src/npcs/mod.rs:19-21 | an id the NPC lookup accepts is five letters once its padding is trimmed |
| NpcRegistry.UpperCaseIdIsKnown | src/npcs/mod.rs:19-21 | the lookup accepts the id written in capitals, "ALICE" |
| CommandRegistry.GetCommandByName | src/commands/mod.rs:42-51 | a name finds a command only when its trimmed, lower-cased form is that command's name, or "manual" for `man` |
| CommandRegistry.LookupExactly | src/commands/mod.rs:42-51 | a name resolves to a command exactly when its trimmed, lower-cased form is that command's name, or "manual" for `man` |
| CommandRegistry.LookupMisses | src/commands/mod.rs:44-49 | exactly five keys resolve; every other name finds nothing |
| CommandRegistry.LookupIgnoresCaseAndPadding | src/commands/mod.rs:43-44 | surrounding whitespace and upper case do not change the lookup |
| CommandRegistry.CanonicalLookups | src/commands/mod.rs:45-48 | each of the five keys, written as it is, resolves to its command |
| CommandRegistry.ListedNamesResolve | src/commands/mod.rs:40-51 | every name in `COMMAND_LIST` resolves to the command at its position, so the `unwrap` in `list_commands` never fails |
| CommandRegistry.SynopsisNamesItsCommand | src/commands/fireball.rs:6-8 | every synopsis starts with its command's listed name |
| CommandRegistry.FilterCommands | src/commands/mod.rs:76-78 | a command is kept exactly when it is in the input and passes the prefix and level test |
| CommandRegistry.FilterKeepsOrder | src/commands/mod.rs:74-79 | the filter's result is a subsequence of its input |
| CommandRegistry.ListedCommands | src/commands/mod.rs:73-80 | the listing holds exactly the commands whose name starts with the prefix and whose level the player meets |
| CommandRegistry.ListCommands | src/commands/mod.rs:73-80 | a command's name is listed exactly when it passes the filter, and only names from `COMMAND_LIST` appear |
| CommandRegistry.ListKeepsOrder | src/commands/mod.rs:74-79 | the listing keeps the order of `COMMAND_LIST` |
| CommandRegistry.NamesMembership | src/commands/mod.rs:40 | a command's name is among the listed names exactly when the command is listed |
| CommandRegistry.NamesDistinct | src/commands/mod.rs:40 | different commands are listed under different names |
| CommandRegistry.FilterMonotone | src/commands/mod.rs:77 | filtering at a higher level keeps a supersequence |
| CommandRegistry.ListMonotone | src/commands/mod.rs:73-80 | raising the level only adds commands to the listing, keeping the order |
| CommandRegistry.ManualNeverListed | src/commands/mod.rs:40 | the alias `manual` is never listed |
| CommandRegistry.ListedAll | src/commands/mod.rs:73-80 | with no prefix, the listing is the first three commands below level 2 and all four from level 2 on |
| CommandRegistry.ListAll | src/commands/mod.rs:73-80 | the same listing, by name |
| CommandRegistry.FireballListedFromLevelTwo | src/commands/fireball.rs:25-27 | `fireball` is listed exactly from level 2 on |
| Listing.Execute | src/commands/commands.rs:31-40 | the listing command never fails, with or without `-v` |
| Listing.NameIsToken | src/commands/mod.rs:40 | every listed name is one non-empty word and every synopsis one line |
| Listing.ShortListingReadsBack | src/commands/commands.rs:31-39 | without `-v`, the output splits back into the names `list_commands` gives at the player's level, so it shows `fireball` exactly from level 2 on |
| Listing.VerboseListingReadsBack | src/commands/commands.rs:31-37 | with `-v` anywhere in the arguments, the output splits by lines into the synopses of the same commands in the same order |
| Listing.AtLevelZero | src/commands/commands.rs:39 | at level 0 the listing is `commands help man` |
| Listing.VerboseAtLevelZero | src/commands/commands.rs:32-37 | at level 0 the verbose listing is the three synopses, one per line |
| Help.Execute | src/commands/help.rs:33-45 | help succeeds exactly when a target is given, it names a command, and the player's level meets that command's level |
| Help.Usage | src/commands/help.rs:43-45 | without a target, the result is the usage error |
| Help.ExtraArgumentsIgnored | src/commands/help.rs:33 | arguments after the target make no difference |
| Help.SucceedsForListed | src/commands/help.rs:33-42 | help succeeds exactly for a target the listing shows at the player's level, giving its synopsis; a known target above the level is refused and an unknown one reported missing |
| Help.TargetCaseIgnored | src/commands/help.rs:34 | the target's case makes no difference |
| Help.TargetManualAlias | src/commands/help.rs:34 | `manual` as a target gives the same result as `man` |
| Help.FireballAtLevelZero | src/commands/help.rs:35-36 | at level 0, `help fireball` is refused rather than reported missing |
| Manual.Execute | src/commands/man.rs:34-46 | the manual opens exactly when a target is given, it names a command, and the player's level meets that command's level |
| Manual.Usage | src/commands/man.rs:44-46 | without a target, the result is the usage error |
| Manual.ExtraArgumentsIgnored | src/commands/man.rs:34 | arguments after the target make no difference |
| Manual.SucceedsForListed | src/commands/man.rs:34-43 | the manual opens exactly for a target the listing shows at the player's level, giving its page; a known target above the level is refused and an unknown one reported missing |
| Manual.OwnPageAlwaysAvailable | src/commands/man.rs:26-28 | `man` needs no level, so its own page opens at any level, under either name |
| Fireball.Damage | src/commands/fireball.rs:33-45 | damage read from the argument is positive; with no argument the damage is the player's ATK |
| Fireball.Outcome | src/commands/fireball.rs:33-53 | damage is dealt only in battle and is the damage the arguments ask for; an argument error is reported whatever the battle state |
| Fireball.Execute | src/commands/fireball.rs:28-54 | the result is the report of the outcome, and the queue grows by exactly the outcome's queued actions |
| Fireball.DefaultDamage | src/commands/fireball.rs:43-45 | without an argument the damage is the player's ATK, or the battle error |
| Fireball.DamageArgument | src/commands/fireball.rs:33-42 | the argument is accepted exactly when it parses as a positive 32-bit number, which is the damage; otherwise the error is "not positive" or quotes the argument |
| Fireball.ArgumentErrorsFirst | src/commands/fireball.rs:33-53 | argument errors come before the battle check, and something is queued exactly when the damage is good and a battle is on |
| Fireball.AnyPositiveDamage | src/commands/fireball.rs:35 | any positive damage is accepted, however far above ATK, and later arguments are ignored |
| Fireball.ReportReadsBack | src/commands/fireball.rs:50 | the number in "Dealt N damage" parses back to the damage dealt |
| Fireball.DealsTen | src/commands/fireball.rs:20-22 | `fireball 10` in battle reports "Dealt 10 damage" and queues `Attack(10)` |
| Fireball.RefusesMinusFive | src/commands/fireball.rs:36-39 | `fireball -5` is refused as not positive |
| Fireball.RefusesAbc | src/commands/fireball.rs:41 | `fireball abc` is refused as not a valid number, quoting it |
| Dispatcher.Dispatch | src/commands/mod.rs:53-71 | a line queues something only when it succeeds in battle, and then exactly one attack |
| Dispatcher.ExecuteCommand | src/commands/mod.rs:53-71 | the console result is the dispatch result, and the action queue grows by exactly what the line queues |
| Dispatcher.Gated | src/commands/mod.rs:63-67 | a line below the command's level gets the fixed refusal and queues nothing |
| Dispatcher.OnlyFireballGated | src/commands/mod.rs:28-30 | only `fireball` is ever gated, and only below level 2; the unknown-command sentinel never is |
| Dispatcher.UnknownCommand | src/commands/mod.rs:31-37 | an unknown first word gives "Invalid command: " and that word, and queues nothing |
| Dispatcher.RunsResolvedCommand | src/commands/mod.rs:62-69 | a permitted command runs on the whole word list and its result is returned as it is |
| Dispatcher.FireballQueue | src/commands/fireball.rs:46-50 | what `fireball` queues is one attack, in battle, whose damage is the argument (positive) or ATK |
| Dispatcher.OnlyFireballQueues | src/commands/mod.rs:53-71 | only a permitted `fireball` in battle queues anything, and then exactly one attack |
| Dispatcher.HelpFireballAtLevelZero | src/commands/help.rs:33-36 | at level 0, `help fireball` with any spacing reports the missing access |
| Dispatcher.FireballTenInBattle | src/commands/fireball.rs:20-22 | from level 2, in battle, `fireball 10` with any spacing deals 10 and queues `Attack(10)` |
| Dispatcher.ExampleLines | src/commands/mod.rs:57-60 | the two example lines split into the expected words |
| BackendState.GameState.constructor | src/game_backend.rs:212-228 | the default game state: intro, level 0, 20 of 20 HP, ATK 5, DEF 2, at the origin, out of battle, nothing queued |
| BackendState.GameState.PlayerDetails | src/game_backend.rs:231-238 | the details begin with the access-level line |
| BackendState.PlayerDetailsLines | src/game_backend.rs:231-238 | the details text is exactly four lines, one per caption, and the level, ATK and DEF parse back from their lines |
| Alice.NameAt | src/npcs/alice.rs:28-34 | the NPC goes by "BreeDFS" exactly from step 17 on |
| Alice.InfoAt | src/npcs/alice.rs:35-46 | the info text opens with the NPC's name, and is "???" exactly before step 17 |
| Alice.JobDone | src/npcs/alice.rs:67-69 | the job is done exactly when the script takes no more pings or responses |
| Alice.StepGate | src/npcs/alice.rs:79-231 | only steps 0 and 20 set a story gate, and step 20's gate is the terminal |
| Alice.Interacted | src/npcs/alice.rs:73-272 | a ping or response always moves the script forward and never past its end, keeps the hitpoints, and only appends to the outbox |
| Alice.Handled | src/npcs/alice.rs:47-59 | the script stays where it is exactly on an attack, and the outbox is only appended to |
| Alice.GateAfter | src/npcs/alice.rs:79-231 | the story gate changes only on a ping or response at a step that sets a gate, and then to that step's gate |
| Alice.StepMessages | src/npcs/alice.rs:78-270 | every step queues a response except step 6 after a non-zero choice, and every named response carries the NPC's name at that step |
| Alice.Step0 | src/npcs/alice.rs:79-85 | step 0 queues at least one response, each named one spoken by the NPC |
| Alice.Step1 | src/npcs/alice.rs:86-91 | step 1 queues at least one response, each named one spoken by the NPC |
| Alice.Step2 | src/npcs/alice.rs:92-98 | step 2 queues at least one response, each named one spoken by the NPC |
| Alice.Step3 | src/npcs/alice.rs:99-104 | step 3 queues at least one response, each named one spoken by the NPC |
| Alice.Step4 | src/npcs/alice.rs:105-110 | step 4 queues at least one response, each named one spoken by the NPC |
| Alice.Step5 | src/npcs/alice.rs:111-124 | step 5 queues at least one response for either choice, each named one spoken by the NPC |
| Alice.Step6 | src/npcs/alice.rs:125-131 | step 6 queues nothing exactly when the remembered choice is non-zero |
| Alice.Step7 | src/npcs/alice.rs:132-134 | step 7 queues at least one response, each named one spoken by the NPC |
| Alice.Step8 | src/npcs/alice.rs:135-139 | step 8 queues at least one response, each named one spoken by the NPC |
| Alice.Step9 | src/npcs/alice.rs:140-150 | step 9 queues at least one response, each named one spoken by the NPC |
| Alice.Step10 | src/npcs/alice.rs:151-156 | step 10 queues at least one response, each named one spoken by the NPC |
| Alice.Step11 | src/npcs/alice.rs:157-165 | step 11 queues at least one response for either choice, each named one spoken by the NPC |
| Alice.Step12 | src/npcs/alice.rs:166-174 | step 12 queues at least one response, each named one spoken by the NPC |
| Alice.Step13 | src/npcs/alice.rs:175-181 | step 13 queues at least one response, each named one spoken by the NPC |
| Alice.Step14 | src/npcs/alice.rs:182-191 | step 14 queues at least one response, each named one spoken by the NPC |
| Alice.Step15 | src/npcs/alice.rs:192-198 | step 15 queues at least one response, each named one spoken by the NPC |
| Alice.Step16 | src/npcs/alice.rs:199-206 | step 16 queues at least one response, each named one spoken by the NPC |
| Alice.Step17 | src/npcs/alice.rs:207-213 | step 17 queues at least one response, each named one spoken by the NPC |
| Alice.Step18 | src/npcs/alice.rs:214-217 | step 18 queues at least one response, each named one spoken by the NPC |
| Alice.Step19 | src/npcs/alice.rs:218-222 | step 19 queues at least one response, each named one spoken by the NPC |
| Alice.Step20 | src/npcs/alice.rs:223-231 | step 20 queues at least one response, each named one spoken by the NPC |
| Alice.Step21 | src/npcs/alice.rs:232-245 | step 21 queues at least one response, each named one spoken by the NPC |
| Alice.Step22 | src/npcs/alice.rs:246-254 | step 22 queues at least one response, each named one spoken by the NPC |
| Alice.Step23 | src/npcs/alice.rs:255-263 | step 23 queues at least one response, each named one spoken by the NPC |
| Alice.Step24 | src/npcs/alice.rs:264-268 | step 24 queues at least one response, each named one spoken by the NPC |
| Alice.HandledEffect | src/npcs/alice.rs:47-59 | an attack only lowers hitpoints; a ping keeps the remembered choice and a response replaces it; either moves the script one step, or two exactly when step 5 is answered with a non-zero choice, never past the end, and only appends to the outbox |
| Alice.GateAfterEffect | src/npcs/alice.rs:79-231 | only steps 0 and 20 move the story gate, to `HasPanel` and `HasTerminal` (lines 84 and 230); attacks never do |
| Alice.StepSpeakerRevealed | src/npcs/alice.rs:28-34 | a named response names "BreeDFS" exactly from step 17 on |
| Alice.FeedAppend | src/game_backend.rs:119-128 | handling two batches one after the other is handling their concatenation |
| Alice.CanFeedSplit | src/game_backend.rs:119-128 | a concatenation that can be handled splits into two batches that can be handled in turn |
| Alice.CanFeedAttacks | src/npcs/alice.rs:54-56 | attacks can always be handled, at any progress |
| Alice.CanFeedPrefix | src/game_backend.rs:120-122 | a batch that can be handled can be handled up to any point |
| Alice.PingsAdvance | src/npcs/alice.rs:271 | each ping moves the script one step, keeping choice and hitpoints, outside the step-5 skip |
| Alice.PingsKeepGate | src/npcs/alice.rs:78-270 | pings over steps other than 0 and 20 leave the story gate alone |
| Alice.PingsFinishScript | src/npcs/alice.rs:67-69 | a fresh NPC given only pings finishes its job on the 25th ping and not before |
| Alice.PingsOpenPanel | src/npcs/alice.rs:79-85 | the first ping opens the panel, and it stays open through the 20th |
| Alice.TwentyFirstPingOpensTerminal | src/npcs/alice.rs:223-231 | the 21st ping opens the terminal |
| Alice.PingsOpenTerminal | src/npcs/alice.rs:223-268 | once opened, the terminal stays open to the end of the script |
| Alice.RememberingSkipsStep | src/npcs/alice.rs:111-131 | answering step 5 with choice 1 skips step 6, so 24 actions finish the job |
| Alice.DrainInOrder | src/npcs/alice.rs:60-66 | the outbox is first in, first out, and is empty when drained |
| Alice.DrainEmpty | src/npcs/alice.rs:63-65 | an empty outbox gives nothing, however often it is asked |
| Alice.AliceNpc.constructor | src/npcs/alice.rs:13-22 | a new NPC: step 0, choice 0, hitpoints `i32::MAX`, empty outbox |
| Alice.AliceNpc.Interact | src/npcs/alice.rs:73-272 | the fields move as `Interacted` says and the story gate as `GateAfter` says |
| Alice.AliceNpc.HandleAction | src/npcs/alice.rs:47-59 | the fields move as `Handled` says and the story gate as `GateAfter` says |
| Alice.AliceNpc.Info | src/npcs/alice.rs:35-46 | the info text opens with the name the NPC currently goes by |
| Alice.AliceNpc.GetResponse | src/npcs/alice.rs:60-66 | returns and removes the front of the outbox, or nothing when it is empty |
| GameLoop.ActiveNpc.constructor | src/game_backend.rs:157-158 | no NPC is engaged at the start |
| GameLoop.Npcs.constructor | src/game_backend.rs:166-171 | the NPC table holds the loaded locations |
| GameLoop.MapLinesAt | src/game_backend.rs:95-102 | there is one image per line, and image `j` is that of line `j` alone |
| GameLoop.ResultAt | src/game_backend.rs:95-102 | there is one result per console line, and result `j` is what line `j` alone answers, with "Error: " before a failure |
| GameLoop.FlattenAttacks | src/game_backend.rs:95-102 | batches of at most one attack each flatten to attacks only, no more than there are batches |
| GameLoop.QueuedAttacks | src/game_backend.rs:95-102 | the console lines queue only attacks, at most one per line, and none out of battle or below level 2 |
| GameLoop.OneMoreLine | src/game_backend.rs:95-102 | one line more answers and queues one line more |
| GameLoop.RunLine | src/game_backend.rs:96-101 | a line's result text and the actions it appends to the queue |
| GameLoop.RunNextLine | src/game_backend.rs:95-102 | running line `i` extends the answers and the queue from those of the lines before it |
| GameLoop.RunCommands | src/game_backend.rs:95-102 | every line is run and answered in order; the queue grows by what they queue |
| GameLoop.ApplyActions | src/game_backend.rs:120-128 | the NPC handles the actions one by one, as `Feed` and `FeedGate` say |
| GameLoop.StartConsistent | src/game_backend.rs:212-228 | a new game with its NPC table loaded satisfies the frame invariant |
| GameLoop.FirstPing | src/game_backend.rs:108-114 | meeting the NPC is its first step: the greeting is queued and the panel opens |
| GameLoop.Encounter | src/game_backend.rs:105-117 | out of an encounter, an NPC is engaged exactly when one stands on the player's tile; it is fresh, pinged once, and the battle flag follows |
| GameLoop.RemoveAsWritten | src/game_backend.rs:135 | the removal as written drops the one key equal to the id, keeps every other key with its tile, and adds no key |
| GameLoop.RetriggersAsWritten | src/game_backend.rs:134-138 | with the table key "ALICE", which the lookup accepts, the removal as written leaves the finished NPC on its tile, and meeting it again sets the gate back to the panel |
| GameLoop.Retire | src/game_backend.rs:134-138 | no key left looks up to the id, and every other key is kept with its tile |
| GameLoop.RetireAsWrittenOnExactKeys | src/game_backend.rs:135 | for a canonical id that no other key spells differently, the corrected removal is the removal as written |
| GameLoop.RetiredNeverRetriggers | src/game_backend.rs:134-138 | after retiring "alice" from a table the lookup accepts in full, "alice" is gone and no tile holds an NPC, so no later scan engages it again |
| GameLoop.CanonicalTableNeverRetriggers | src/game_backend.rs:134-138 | on a table whose every key is exactly "alice", the removal as written leaves no tile holding the finished NPC |
| GameLoop.Engage | src/game_backend.rs:118-139 | the frame's actions and then the queued ones are handled in order, the queue is emptied, at most the front response goes out, and a finished NPC ends the battle and the one key equal to its id "alice" is removed from the table |
| GameLoop.Tick | src/game_backend.rs:85-140 | one frame keeps `Consistent`, answers every line, sends at most one response and none in a frame that starts an encounter, and removes the id of a finished NPC, and nothing else, from the table |
| GameMap.MapRows | src/game_map.rs:41-46 | the rows are as many as the text lines |
| GameMap.RowsReversed | src/game_map.rs:41-46 | row `y` is text line `len - 1 - y`, so row 0 is the last line |
| GameMap.BuildColumn | src/game_map.rs:52-64 | the inner loop builds column `x`, the tiles of cells (x, 0) to (x, height - 1) |
| GameMap.Map.constructor | src/game_map.rs:77-84 | an empty, unloaded map |
| GameMap.Map.PrepareMap | src/game_map.rs:31-69 | when loaded, or with no file yet, nothing changes; otherwise size and start are copied, one column per x is appended and the map is marked loaded |
| GameMap.PrepareTwice | src/game_map.rs:36-38 | preparing a new map twice gives exactly the file's grid: the second call changes nothing |
| GameMap.FromNeighbors | src/game_map.rs:113-121 | the tile type fits in four bits |
| GameMap.FromNeighborsType | src/game_map.rs:113-121 | the type is right + 2·up + 4·left + 8·down, in 0 to 15, and the flags are kept as (left, right, up, down) |
| GameMap.TypeBitsAreNeighbors | src/game_map.rs:114-117 | the four low bits of the type give the four flags back |
| GameMap.TypeZeroIffIsolated | src/game_map.rs:114-117 | the type is 0 exactly when no neighbour is road |
| GameMap.IsValid | src/game_map.rs:124-139 | only a tile of non-zero type has a point on the road |
| GameMap.TypeZeroIsNeverValid | src/game_map.rs:125-127 | no point of a type-0 tile is on the road |
| GameMap.CentreIsValid | src/game_map.rs:128-134 | any other tile holds its centre square, borders included |
| GameMap.ArmNeedsNeighbor | src/game_map.rs:128-138 | outside the centre square, a point is on the road only on the arm towards a road neighbour |
| GameMap.TileAt | src/game_map.rs:54-61 | every cell's tile type fits in four bits, and a cell that is not road gets the empty tile |
| GameMap.NonRoadIsEmpty | src/game_map.rs:54-55 | a cell that is not `'.'` becomes the empty tile: type 0, no flags |
| GameMap.FlagsAreRoadNeighbors | src/game_map.rs:54-61 | a flag holds exactly when the cell and that neighbour are both road and the neighbour is inside the grid |
| GameMap.EdgeFlags | src/game_map.rs:57-60 | no flag points out of the grid |
| GameMap.HorizontalSymmetry | src/game_map.rs:57-59 | the right flag of (x, y) equals the left flag of (x + 1, y) |
| GameMap.VerticalSymmetry | src/game_map.rs:58-60 | the up flag of (x, y) equals the down flag of (x, y + 1) |
| GameMap.IsolatedRoadIsBlocked | src/game_map.rs:54-61 | a cell with no road neighbour gets type 0, so nothing on it is walkable |
| GameMap.Grid | src/game_map.rs:51-66 | the grid has `width` columns of `height` tiles each |
| GameMap.GridShape | src/game_map.rs:51-66 | the grid has `width` columns of `height` tiles, and `grid[x][y]` is the tile of cell (x, y) |

## Left out

- Rendering, input, the egui terminal, the camera and the browser canvas
  (`src/game_frontend.rs`, `src/game_ui.rs`, `src/canvas.rs`, `src/lib.rs`,
  `src/main.rs`). These are I/O, and Bevy's scheduling is not modelled.
- Asset loading (`load_files`, `prepare_npcs`, `prepare_cgs`, the RON files,
  image handles, the tileset and the CG list). The NPC table and the map
  file are taken as inputs: `GameLoop.Npcs.constructor` and the
  `Option<MapFile>` argument of `GameMap.Map.PrepareMap`.
- Bevy events are sequences. Console lines and player actions come into
  `GameLoop.Tick`; results and responses go out. Player actions not read in
  a frame that scans for an encounter are dropped, because the model does
  not keep an event buffer across frames.
- GameLoop.Encounter: which NPC is engaged when several stand on the
  player's tile is left open (any one of them). `HashMap` iteration order is
  unspecified.
- GameLoop.Npcs.constructor: the animation frames, the frame counter and
  the load flag of `Npcs` are not modelled, only each NPC's location.
- Alice.AliceNpc.HandleAction: hitpoints are unbounded integers, so the model
  does not capture the `i32` overflow of `self.hitpoints -= damage`
  (`src/npcs/alice.rs`, line 55). A large enough total of positive damage
  reaches it: `fireball` accepts any positive `i32`, and three attacks of
  2147483647 go below `i32::MIN`. That is a panic in a debug build and a
  wrap-around in a release build. It is latent, because `fireball` needs
  level 2 and nothing in these sources raises the player's level from 0.
- Alice.AliceNpc.HandleAction, Dispatcher.ExecuteCommand, GameLoop.Tick: the
  source's panics are modelled as preconditions.
  - An action after the script's end reaches `unreachable!()`; the model
    requires `CanHandle`.
  - A blank console line makes the sentinel index an empty `argv`; the model
    requires a line with a word.
  - A key of the NPC table that `get_npc_by_id` does not know makes the
    `unwrap` of the encounter scan panic (`src/game_backend.rs`, line 108).
    `GameLoop.StartConsistent`, `GameLoop.Encounter` and `GameLoop.Tick`
    (through `Consistent`) require every key to satisfy `IsNpcId`.
  - The `unwrap` calls on command lookups (`src/commands/mod.rs`, line 77,
    and `src/commands/commands.rs`, line 35) are proved never to fail by
    `ListedNamesResolve`.
- Text: characters are Dafny `char`s, and whitespace and case are the ASCII
  ones. Unicode whitespace and Unicode case mapping in `trim`,
  `split_whitespace` and `to_lowercase` are not modelled.
- Text.ParseInt32: this is the decimal grammar of `str::parse::<i32>`
  (optional sign, ASCII digits, 32-bit range). Its error kinds are not
  distinguished, since `fireball` reports them all alike.
- Alice.StepMessages: the dialogue texts are kept verbatim. Their contracts
  speak of which steps say something and who speaks, not of the wording.
- GameMap.IsValid: the offsets are `real`. The `f32` constants are exact and
  every comparison is against an exact constant, but NaN and the infinities
  are not modelled.
- GameMap.Map.PrepareMap: it requires the file to have `height` lines, each
  at least `width` characters long. Otherwise the Rust code panics on an
  out-of-range index.
- GameMap: `Tile::WIDTH`, `Tile::HEIGHT` and `Z_LAYER` are used only by the
  renderer, apart from their use in `is_valid`.
- `src/gameplay.rs` is a stub and is not part of this model. The commands
  use the real game state.

## Findings

| source | as written | input that shows it | evidently intended | confidence | as-written member | corrected member |
|---|---|---|---|---|---|---|
| src/game_backend.rs:135 | a finished NPC is removed from the table by `npcs.remove(current_npc.id())`, the key equal to its id "alice" | an NPC table whose key is "ALICE": the lookup trims and lower-cases it and builds the NPC, but the removal leaves the key, so the next frame meets a fresh NPC on that tile and step 0 sets the gate back to `HasPanel` | a finished NPC leaves the map, together with every key that builds it | not executed | GameLoop.RetriggersAsWritten | GameLoop.Retire |

`GameLoop.Engage` and `GameLoop.Tick` follow the code: they use the removal
as written. `GameLoop.Retire` is the corrected removal, and
`GameLoop.RetiredNeverRetriggers` states the intended property for it: once
the NPC has finished, nothing engages it again.
`GameLoop.RetireAsWrittenOnExactKeys` shows that the two removals agree when
every key is spelt exactly "alice". `GameLoop.CanonicalTableNeverRetriggers`
concludes that the frame as written has the intended property on such a
table.
