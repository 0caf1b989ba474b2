/** The data the NPCs exchange with the rest of the game (src/npcs/mod.rs):
    the action a player sends and the response an NPC queues, with the four
    forms of the `npc_response!` constructor. */
module NpcTypes {
  import opened Wrappers

  /** What the player does to the active NPC. `Ping` is the default action. */
  datatype PlayerAction = Ping | Respond(choice: nat) | Attack(damage: int)

  /** One message from an NPC: its text, the speaker (absent for the
      narrator) and the choice labels (empty for a plain "continue"). */
  datatype NpcResponse = NpcResponse(message: string, name: Option<string>, choices: seq<string>)

  /** `npc_response!(msg)`: narrator text without choices. */
  function Say(message: string): (r: NpcResponse)
    ensures r.message == message && r.name == None && r.choices == []
  {
    NpcResponse(message, None, [])
  }

  /** `npc_response!(msg, name)`: spoken text without choices. */
  function SayAs(message: string, name: string): (r: NpcResponse)
    ensures r.message == message && r.name == Some(name) && r.choices == []
  {
    NpcResponse(message, Some(name), [])
  }

  /** `npc_response!(msg; c1, c2, ...)`: narrator text offering the choices in
      order; the macro takes at least one choice. */
  function Ask(message: string, choices: seq<string>): (r: NpcResponse)
    requires |choices| > 0
    ensures r.message == message && r.name == None && r.choices == choices && r.choices != []
  {
    NpcResponse(message, None, choices)
  }

  /** `npc_response!(msg, name; c1, c2, ...)`: spoken text offering the choices. */
  function AskAs(message: string, name: string, choices: seq<string>): (r: NpcResponse)
    requires |choices| > 0
    ensures r.message == message && r.name == Some(name) && r.choices == choices && r.choices != []
  {
    NpcResponse(message, Some(name), choices)
  }
}
