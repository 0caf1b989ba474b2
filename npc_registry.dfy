/** Looking up an NPC by its id (`get_npc_by_id` in src/npcs/mod.rs): the id
    is trimmed and lower-cased, and "alice" is the only one known. */
module NpcRegistry {
  import opened Text
  import opened Alice

  /** The ids the lookup accepts: "alice" once padding and case are dropped,
      so five letters between the padding. */
  predicate IsNpcId(id: string)
    ensures IsNpcId(id) ==> |Trim(id)| == 5
  {
    Normalize(id) == "alice"
  }

  /** `get_npc_by_id`: a new NPC in its starting state for a known id, and
      nothing otherwise. */
  method GetNpcById(id: string) returns (npc: AliceNpc?)
    ensures npc != null <==> IsNpcId(id)
    ensures npc != null ==> fresh(npc) && npc.Valid() && npc.Snapshot() == Fresh()
  {
    if Normalize(id) == "alice" {
      npc := new AliceNpc();
    } else {
      npc := null;
    }
  }

  /** Surrounding whitespace and upper case make no difference to the lookup. */
  lemma NpcIdIgnoresCaseAndPadding(a: string, id: string, b: string)
    requires AllWhitespace(a) && AllWhitespace(b)
    ensures IsNpcId(a + Upper(id) + b) <==> IsNpcId(id)
  {
    NormalizeOfPadded(a, Upper(id), b);
    NormalizeOfUpper(id);
  }

  /** The lookup accepts the id in capitals. */
  lemma UpperCaseIdIsKnown()
    ensures IsNpcId("ALICE")
  {
    NormalizeOfCanonical("alice");
    NpcIdIgnoresCaseAndPadding("", "alice", "");
    assert Upper("alice") == "ALICE";
    assert "" + "ALICE" + "" == "ALICE";
  }
}
