/** One frame of `game_loop` (src/game_backend.rs): run the console lines
    typed since the last frame, then either start an encounter with an NPC on
    the player's tile or let the NPC already met handle the player's actions,
    forward at most one of its responses, and end the encounter when its job
    is done. Events are sequences: the lines and actions read this frame come
    in, the console results and NPC responses sent this frame go out. */
module GameLoop {
  import opened Wrappers
  import opened Text
  import opened NpcTypes
  import opened BackendState
  import opened Alice
  import opened NpcRegistry
  import opened Dispatcher

  /** `ActiveNpc`: the NPC in the current encounter, if any. */
  class ActiveNpc {
    var npc: AliceNpc?

    constructor ()
      ensures npc == null
    {
      npc := null;
    }
  }

  /** `Npcs`: the tile of every NPC not yet dealt with, by id. The animation
      frames and the load flag are not modelled. */
  class Npcs {
    var npcs: map<string, (nat, nat)>

    /** The table once `prepare_npcs` has loaded the NPC file. */
    constructor (locations: map<string, (nat, nat)>)
      ensures npcs == locations
    {
      npcs := locations;
    }
  }

  // ---------------------------------------------------------------- console lines

  /** The text a command result is shown as. */
  function ResultMessage(r: Result<string, string>): string
  {
    match r
    case Ok(m) => m
    case Err(m) => "Error: " + m
  }

  /** No line is blank, so none reaches the sentinel with an empty `argv`. */
  predicate Runnable(lines: seq<string>)
  {
    forall i :: 0 <= i < |lines| ==> !AllWhitespace(lines[i])
  }

  /** `f` applied to each line, in order. */
  function MapLines<T>(f: string --> T, lines: seq<string>): seq<T>
    requires forall i :: 0 <= i < |lines| ==> f.requires(lines[i])
    decreases |lines|
  {
    if lines == [] then [] else MapLines(f, lines[..|lines| - 1]) + [f(lines[|lines| - 1])]
  }

  /** The batches one after the other. */
  function Flatten<T>(qs: seq<seq<T>>): seq<T>
  {
    if qs == [] then [] else Flatten(qs[..|qs| - 1]) + qs[|qs| - 1]
  }

  /** One image per line, and image `j` is `f` of line `j` alone. */
  lemma {:induction false} MapLinesAt<T>(f: string --> T, lines: seq<string>, j: nat)
    requires forall i :: 0 <= i < |lines| ==> f.requires(lines[i])
    requires j < |lines|
    ensures |MapLines(f, lines)| == |lines|
    ensures MapLines(f, lines)[j] == f(lines[j])
    decreases |lines|
  {
    var last := |lines| - 1;
    if last > 0 {
      MapLinesAt(f, lines[..last], if j < last then j else 0);
    }
    if j < last {
      assert lines[..last][j] == lines[j];
    }
  }

  /** Mapping one line more appends its image. */
  lemma MapLinesNext<T>(f: string --> T, lines: seq<string>, i: nat)
    requires forall k :: 0 <= k < |lines| ==> f.requires(lines[k])
    requires i < |lines|
    ensures MapLines(f, lines[..i + 1]) == MapLines(f, lines[..i]) + [f(lines[i])]
  {
    assert lines[..i + 1][..i] == lines[..i];
  }

  /** Flattening one batch more appends it. */
  lemma FlattenSnoc<T>(qs: seq<seq<T>>, q: seq<T>)
    ensures Flatten(qs + [q]) == Flatten(qs) + q
  {
    assert (qs + [q])[..|qs|] == qs;
  }

  /** The console answer to one line. */
  function LineMessage(level: int32, inBattle: bool, atk: int32, line: string): string
    requires !AllWhitespace(line)
  {
    SplitWhitespaceEmpty(line);
    ResultMessage(Dispatch(level, inBattle, atk, line).0)
  }

  /** The actions one line queues. */
  function LineQueue(level: int32, inBattle: bool, atk: int32, line: string): seq<PlayerAction>
    requires !AllWhitespace(line)
  {
    SplitWhitespaceEmpty(line);
    Dispatch(level, inBattle, atk, line).1
  }

  /** `LineMessage` for a fixed player. */
  function Answer(level: int32, inBattle: bool, atk: int32): string --> string
  {
    line requires !AllWhitespace(line) => LineMessage(level, inBattle, atk, line)
  }

  /** `LineQueue` for a fixed player. */
  function Enqueue(level: int32, inBattle: bool, atk: int32): string --> seq<PlayerAction>
  {
    line requires !AllWhitespace(line) => LineQueue(level, inBattle, atk, line)
  }

  /** The result line for each console line, in order. The level, battle
      flag and ATK stay the same across the batch, since commands only ever
      change the action queue. */
  function Results(level: int32, inBattle: bool, atk: int32, lines: seq<string>): seq<string>
    requires Runnable(lines)
  {
    MapLines(Answer(level, inBattle, atk), lines)
  }

  /** Everything the console lines queue, in order. */
  function QueuedBy(level: int32, inBattle: bool, atk: int32, lines: seq<string>): seq<PlayerAction>
    requires Runnable(lines)
  {
    Flatten(MapLines(Enqueue(level, inBattle, atk), lines))
  }

  /** There is one result per line, and result `j` is what line `j` alone
      answers: no line sees another's effect. */
  lemma ResultAt(level: int32, inBattle: bool, atk: int32, lines: seq<string>, j: nat)
    requires Runnable(lines) && j < |lines|
    ensures |Results(level, inBattle, atk, lines)| == |lines|
    ensures Results(level, inBattle, atk, lines)[j] == LineMessage(level, inBattle, atk, lines[j])
  {
    MapLinesAt(Answer(level, inBattle, atk), lines, j);
  }

  /** The batches of queued actions flatten to attacks only, at most one
      per batch, and to nothing when every batch is empty. */
  lemma {:induction false} FlattenAttacks(qs: seq<seq<PlayerAction>>)
    requires forall k :: 0 <= k < |qs| ==> |qs[k]| <= 1 && (qs[k] != [] ==> qs[k][0].Attack?)
    ensures |Flatten(qs)| <= |qs|
    ensures forall j :: 0 <= j < |Flatten(qs)| ==> Flatten(qs)[j].Attack?
    ensures (forall k :: 0 <= k < |qs| ==> qs[k] == []) ==> Flatten(qs) == []
    decreases |qs|
  {
    if qs != [] {
      FlattenAttacks(qs[..|qs| - 1]);
    }
  }

  /** The console lines queue only attacks, at most one per line, and none at
      all out of battle or below level 2. */
  lemma QueuedAttacks(level: int32, inBattle: bool, atk: int32, lines: seq<string>)
    requires Runnable(lines)
    ensures var q := QueuedBy(level, inBattle, atk, lines);
      && |q| <= |lines|
      && (forall j :: 0 <= j < |q| ==> q[j].Attack?)
      && (q != [] ==> inBattle && 2 <= level)
  {
    var f := Enqueue(level, inBattle, atk);
    var qs: seq<seq<PlayerAction>> := MapLines(f, lines);
    forall k | 0 <= k < |lines|
      ensures k < |qs| && |qs[k]| <= 1 && (qs[k] != [] ==> qs[k][0].Attack?)
      ensures qs[k] != [] ==> inBattle && 2 <= level
    {
      MapLinesAt(f, lines, k);
      SplitWhitespaceEmpty(lines[k]);
      OnlyFireballQueues(level, inBattle, atk, lines[k]);
    }
    if lines != [] {
      MapLinesAt(f, lines, 0);
    }
    FlattenAttacks(qs);
  }

  /** A prefix one line longer answers and queues one line more. */
  lemma OneMoreLine(level: int32, inBattle: bool, atk: int32, lines: seq<string>, i: nat)
    requires Runnable(lines) && i < |lines|
    ensures Runnable(lines[..i]) && Runnable(lines[..i + 1])
    ensures Results(level, inBattle, atk, lines[..i + 1]) ==
      Results(level, inBattle, atk, lines[..i]) + [LineMessage(level, inBattle, atk, lines[i])]
    ensures QueuedBy(level, inBattle, atk, lines[..i + 1]) ==
      QueuedBy(level, inBattle, atk, lines[..i]) + LineQueue(level, inBattle, atk, lines[i])
  {
    MapLinesNext(Answer(level, inBattle, atk), lines, i);
    var f := Enqueue(level, inBattle, atk);
    MapLinesNext(f, lines, i);
    FlattenSnoc(MapLines(f, lines[..i]), f(lines[i]));
  }

  /** One console line, run for a player whose level, battle flag and ATK
      are the given ones: its result text and what it queues. */
  method RunLine(gs: GameState, line: string, ghost level: int32, ghost inBattle: bool, ghost atk: int32)
    returns (m: string)
    requires !AllWhitespace(line)
    requires gs.playerLevel == level && gs.inBattle == inBattle && gs.playerAtk == atk
    modifies gs`actionQueue
    ensures m == LineMessage(level, inBattle, atk, line)
    ensures gs.actionQueue == old(gs.actionQueue) + LineQueue(level, inBattle, atk, line)
  {
    SplitWhitespaceEmpty(line);
    var r := ExecuteCommand(gs, line);
    m := ResultMessage(r);
  }

  /** Line `i` of the batch, run after the lines before it: the answers and
      the queue grow from those of `lines[..i]` to those of `lines[..i + 1]`. */
  method RunNextLine(gs: GameState, lines: seq<string>, i: nat, results: seq<string>,
                     ghost q0: seq<PlayerAction>, ghost level: int32, ghost inBattle: bool, ghost atk: int32)
    returns (results': seq<string>)
    requires Runnable(lines) && i < |lines| && Runnable(lines[..i])
    requires gs.playerLevel == level && gs.inBattle == inBattle && gs.playerAtk == atk
    requires results == Results(level, inBattle, atk, lines[..i])
    requires gs.actionQueue == q0 + QueuedBy(level, inBattle, atk, lines[..i])
    modifies gs`actionQueue
    ensures Runnable(lines[..i + 1])
    ensures results' == Results(level, inBattle, atk, lines[..i + 1])
    ensures gs.actionQueue == q0 + QueuedBy(level, inBattle, atk, lines[..i + 1])
  {
    OneMoreLine(level, inBattle, atk, lines, i);
    AppendAssoc(q0, QueuedBy(level, inBattle, atk, lines[..i]), LineQueue(level, inBattle, atk, lines[i]));
    var m := RunLine(gs, lines[i], level, inBattle, atk);
    results' := results + [m];
  }

  /** The first loop of `game_loop`: every line is executed and answered in order. */
  method RunCommands(gs: GameState, lines: seq<string>) returns (results: seq<string>)
    requires Runnable(lines)
    modifies gs`actionQueue
    ensures results == Results(gs.playerLevel, gs.inBattle, gs.playerAtk, lines)
    ensures gs.actionQueue == old(gs.actionQueue) + QueuedBy(gs.playerLevel, gs.inBattle, gs.playerAtk, lines)
  {
    var level, inBattle, atk := gs.playerLevel, gs.inBattle, gs.playerAtk;
    ghost var q0 := gs.actionQueue;
    results := [];
    var i := 0;
    while i < |lines|
      invariant 0 <= i <= |lines| && Runnable(lines[..i])
      invariant results == Results(level, inBattle, atk, lines[..i])
      invariant gs.actionQueue == q0 + QueuedBy(level, inBattle, atk, lines[..i])
    {
      results := RunNextLine(gs, lines, i, results, q0, level, inBattle, atk);
      i := i + 1;
    }
    assert lines[..|lines|] == lines;
  }

  // ---------------------------------------------------------------- the encounter

  /** The NPC handles the actions one by one. */
  method ApplyActions(npc: AliceNpc, gs: GameState, acts: seq<PlayerAction>)
    requires npc.Valid() && CanFeed(npc.Snapshot(), acts)
    modifies npc, gs`gameProgress
    ensures npc.Valid()
    ensures npc.Snapshot() == Feed(old(npc.Snapshot()), acts)
    ensures gs.gameProgress == FeedGate(old(npc.Snapshot()), old(gs.gameProgress), acts)
  {
    ghost var s0 := npc.Snapshot();
    ghost var g0 := gs.gameProgress;
    var i := 0;
    while i < |acts|
      invariant 0 <= i <= |acts|
      invariant npc.Valid()
      invariant CanFeed(s0, acts[..i])
      invariant npc.Snapshot() == Feed(s0, acts[..i])
      invariant gs.gameProgress == FeedGate(s0, g0, acts[..i])
    {
      FeedNext(s0, g0, acts, i);
      npc.HandleAction(acts[i], gs);
      i := i + 1;
    }
    assert acts[..|acts|] == acts;
  }

  /** Some NPC stands on the tile. */
  predicate Occupied(npcs: map<string, (nat, nat)>, x: nat, y: nat)
  {
    exists id :: id in npcs && npcs[id] == (x, y)
  }

  /** What holds between frames: the battle flag says whether an NPC is
      engaged, the engaged NPC has not finished, every command's queued
      action has been handled, and every NPC on the map is one the lookup knows. */
  ghost predicate Consistent(gs: GameState, active: ActiveNpc, world: Npcs)
    reads gs, active, world, active.npc
  {
    && (gs.inBattle <==> active.npc != null)
    && (active.npc != null ==> active.npc.Valid() && !active.npc.JobCompleted())
    && gs.actionQueue == []
    && (forall id :: id in world.npcs ==> IsNpcId(id))
  }

  /** A new game, with the NPC table loaded, is consistent. */
  lemma StartConsistent(gs: GameState, active: ActiveNpc, world: Npcs)
    requires !gs.inBattle && gs.actionQueue == [] && active.npc == null
    requires forall id :: id in world.npcs ==> IsNpcId(id)
    ensures Consistent(gs, active, world)
  {
  }

  /** Meeting the NPC is its first step: it opens the panel and has its greeting queued. */
  lemma FirstPing(gp: GameProgress)
    ensures CanHandle(Fresh(), Ping)
    ensures var s := Handled(Fresh(), Ping);
      s.progress == 1 && s.queue == StepMessages(0, 0) && s.queue != [] && !JobDone(s)
    ensures GateAfter(Fresh(), Ping, gp) == HasPanel
  {
  }

  /** The encounter scan: out of an encounter, an NPC on the player's tile
      (any one, if several, as the map's order is unspecified) is built by its
      id, pinged and engaged. */
  method Encounter(gs: GameState, active: ActiveNpc, world: Npcs)
    requires active.npc == null && !gs.inBattle
    requires forall id :: id in world.npcs ==> IsNpcId(id)
    modifies gs`gameProgress, gs`inBattle, active
    ensures active.npc != null <==> Occupied(world.npcs, gs.playerX, gs.playerY)
    ensures gs.inBattle <==> active.npc != null
    ensures active.npc != null ==>
      && fresh(active.npc) && active.npc.Valid() && !active.npc.JobCompleted()
      && active.npc.Snapshot() == Handled(Fresh(), Ping) && gs.gameProgress == HasPanel
    ensures active.npc == null ==> gs.gameProgress == old(gs.gameProgress)
  {
    if exists id :: id in world.npcs && world.npcs[id] == (gs.playerX, gs.playerY) {
      var id :| id in world.npcs && world.npcs[id] == (gs.playerX, gs.playerY);
      var npc := GetNpcById(id);
      FirstPing(gs.gameProgress);
      npc.HandleAction(Ping, gs);
      gs.inBattle := true;
      active.npc := npc;
    }
  }

  // ---------------------------------------------------------------- retiring a finished NPC

  /** `npcs.remove(id)` as written: it drops the one key equal to `id`. The
      lookup trims and lower-cases a key, so a key spelt "ALICE" builds an NPC
      whose id is "alice", and this removal leaves that key in the table. */
  function RemoveAsWritten(npcs: map<string, (nat, nat)>, id: string): (r: map<string, (nat, nat)>)
    ensures id !in r
    ensures forall k :: k in r ==> k in npcs
    ensures forall k :: k in npcs && k != id ==> k in r && r[k] == npcs[k]
  {
    npcs - {id}
  }

  /** As written, a finished NPC met through the key "ALICE" stays on its
      tile: the next scan builds a fresh NPC there, and its first step turns
      the progress back to the panel stage. */
  lemma RetriggersAsWritten(x: nat, y: nat, gp: GameProgress)
    ensures var table := map["ALICE" := (x, y)];
      && (forall id :: id in table ==> IsNpcId(id))
      && Occupied(RemoveAsWritten(table, "alice"), x, y)
      && GateAfter(Fresh(), Ping, gp) == HasPanel
  {
    UpperCaseIdIsKnown();
    var left := RemoveAsWritten(map["ALICE" := (x, y)], "alice");
    assert "ALICE" in left && left["ALICE"] == (x, y);
    FirstPing(gp);
  }

  /** The removal intended: every key that looks up to the NPC `id` is dropped,
      and the rest of the table is kept. */
  function Retire(npcs: map<string, (nat, nat)>, id: string): (r: map<string, (nat, nat)>)
    ensures forall k :: k in r ==> k in npcs && Normalize(k) != id
    ensures forall k :: k in npcs && Normalize(k) != id ==> k in r && r[k] == npcs[k]
  {
    map k | k in npcs && Normalize(k) != id :: npcs[k]
  }

  /** For an id in its canonical spelling, when no other key spells it
      differently, the intended removal is the source's. */
  lemma RetireAsWrittenOnExactKeys(npcs: map<string, (nat, nat)>, id: string)
    requires Normalize(id) == id
    requires forall k :: k in npcs && Normalize(k) == id ==> k == id
    ensures Retire(npcs, id) == RemoveAsWritten(npcs, id)
  {
    var r := Retire(npcs, id);
    var w := RemoveAsWritten(npcs, id);
    forall k | k in w
      ensures k in r && r[k] == w[k]
    {
      assert Normalize(k) != id;
    }
    assert r.Keys == w.Keys;
    assert r == w;
  }

  /** After the intended removal of "alice", from a table the lookup accepts
      in full, no key is left that builds the NPC, so no tile still holds it
      and no later scan engages it again. */
  lemma RetiredNeverRetriggers(npcs: map<string, (nat, nat)>)
    requires forall id :: id in npcs ==> IsNpcId(id)
    ensures "alice" !in Retire(npcs, "alice")
    ensures forall x: nat, y: nat :: !Occupied(Retire(npcs, "alice"), x, y)
  {
    NormalizeOfCanonical("alice");
  }

  /** On a table whose every key is the NPC's id spelt exactly "alice", the
      removal as written already leaves no tile holding the finished NPC. */
  lemma CanonicalTableNeverRetriggers(npcs: map<string, (nat, nat)>)
    requires forall id :: id in npcs ==> id == "alice"
    ensures forall x: nat, y: nat :: !Occupied(RemoveAsWritten(npcs, "alice"), x, y)
  {
    NormalizeOfCanonical("alice");
    RetireAsWrittenOnExactKeys(npcs, "alice");
    RetiredNeverRetriggers(npcs);
  }

  /** The engaged branch: the NPC handles the actions read this frame and then
      the queued ones, in order; the queue is emptied; the front of the
      outbox goes out; and a finished NPC's id is removed from the table and
      the battle ends. */
  method Engage(gs: GameState, active: ActiveNpc, world: Npcs, actions: seq<PlayerAction>)
    returns (responses: seq<NpcResponse>)
    requires active.npc != null && active.npc.Valid()
    requires CanFeed(active.npc.Snapshot(), actions + gs.actionQueue)
    modifies gs`actionQueue, gs`gameProgress, gs`inBattle, active, world`npcs, active.npc
    ensures gs.actionQueue == []
    ensures var npc := old(active.npc);
      var fed := actions + old(gs.actionQueue);
      var (front, after) := PopResponse(Feed(old(npc.Snapshot()), fed));
      && npc.Valid() && npc.Snapshot() == after
      && gs.gameProgress == FeedGate(old(npc.Snapshot()), old(gs.gameProgress), fed)
      && responses == (if front.Some? then [front.value] else [])
      && (JobDone(after) ==> active.npc == null && !gs.inBattle && world.npcs == RemoveAsWritten(old(world.npcs), npc.Id()))
      && (!JobDone(after) ==> active.npc == npc && gs.inBattle == old(gs.inBattle) && world.npcs == old(world.npcs))
  {
    var npc := active.npc;
    responses := [];
    var queue := gs.actionQueue;
    CanFeedSplit(npc.Snapshot(), actions, queue);
    FeedAppend(npc.Snapshot(), gs.gameProgress, actions, queue);
    ApplyActions(npc, gs, actions);
    gs.actionQueue := [];
    ApplyActions(npc, gs, queue);
    var front := npc.GetResponse();
    if front.Some? {
      responses := [front.value];
    }
    if npc.JobCompleted() {
      world.npcs := RemoveAsWritten(world.npcs, npc.Id());
      gs.inBattle := false;
      active.npc := null;
    }
  }

  /** `game_loop`: the console lines first, then the encounter scan when no
      NPC is engaged, or the engaged NPC's turn; no response goes out in a
      frame that starts an encounter. The frame keeps the state consistent. */
  method Tick(gs: GameState, active: ActiveNpc, world: Npcs, lines: seq<string>, actions: seq<PlayerAction>)
    returns (results: seq<string>, responses: seq<NpcResponse>)
    requires Consistent(gs, active, world)
    requires Runnable(lines)
    requires active.npc != null ==> CanFeed(active.npc.Snapshot(), actions)
    modifies gs`actionQueue, gs`gameProgress, gs`inBattle, active, world`npcs, active.npc
    ensures Consistent(gs, active, world)
    ensures results == Results(gs.playerLevel, old(gs.inBattle), gs.playerAtk, lines)
    ensures |responses| <= 1
    ensures old(active.npc) == null ==>
      && responses == [] && world.npcs == old(world.npcs)
      && (active.npc != null <==> Occupied(world.npcs, gs.playerX, gs.playerY))
      && (active.npc != null ==>
            fresh(active.npc) && active.npc.Snapshot() == Handled(Fresh(), Ping) && gs.gameProgress == HasPanel)
      && (active.npc == null ==> gs.gameProgress == old(gs.gameProgress))
    ensures old(active.npc) != null ==>
      var npc := old(active.npc);
      var fed := actions + QueuedBy(gs.playerLevel, true, gs.playerAtk, lines);
      && CanFeed(old(npc.Snapshot()), fed)
      && var (front, after) := PopResponse(Feed(old(npc.Snapshot()), fed));
      && npc.Snapshot() == after
      && gs.gameProgress == FeedGate(old(npc.Snapshot()), old(gs.gameProgress), fed)
      && responses == (if front.Some? then [front.value] else [])
      && (JobDone(after) ==> active.npc == null && world.npcs == RemoveAsWritten(old(world.npcs), npc.Id()))
      && (!JobDone(after) ==> active.npc == npc && world.npcs == old(world.npcs))
  {
    results := RunCommands(gs, lines);
    if active.npc == null {
      QueuedAttacks(gs.playerLevel, gs.inBattle, gs.playerAtk, lines);
      Encounter(gs, active, world);
      responses := [];
    } else {
      ghost var queued := QueuedBy(gs.playerLevel, gs.inBattle, gs.playerAtk, lines);
      QueuedAttacks(gs.playerLevel, gs.inBattle, gs.playerAtk, lines);
      assert gs.actionQueue == queued;
      CanFeedAttacks(active.npc.Snapshot(), actions, queued);
      responses := Engage(gs, active, world, actions);
    }
  }
}
