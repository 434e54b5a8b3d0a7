/**
 * PlayerPanelCache, as both trees define it: for each guild, the player
 * panel's message, the last status text, the bar head index last drawn and
 * the time of the last edit, in four maps. The src tree keys the maps by a
 * numeric guild id, the backend by a string one; the class is generic in
 * the key. Concurrent access is not modelled.
 */
module PanelCache {
  import opened Wrappers

  /** MessageRef: where a guild's panel message lives. */
  datatype MessageRef<G> = MessageRef(guildId: G, channelId: G, messageId: int)

  /** The index getBarIdx reports for a guild with no bar drawn. */
  const NoBarIdx: int := -1

  class PlayerPanelCache<G(==)> {
    var messages: map<G, MessageRef<G>>
    var lastStatus: map<G, string>
    var lastBarIdx: map<G, int>
    var lastEditTs: map<G, int>

    constructor()
      ensures messages == map[] && lastStatus == map[] && lastBarIdx == map[] && lastEditTs == map[]
    {
      messages := map[];
      lastStatus := map[];
      lastBarIdx := map[];
      lastEditTs := map[];
    }

    /** getMessage: the guild's panel message, empty when none is stored. */
    method GetMessage(guild: G) returns (r: Option<MessageRef<G>>)
      ensures r.Some? <==> guild in messages
      ensures r.Some? ==> r.value == messages[guild]
    {
      if guild in messages {
        return Some(messages[guild]);
      }
      return None;
    }

    /** putMessage: store the guild's panel message, replacing any earlier one; nothing else changes. */
    method PutMessage(guild: G, ref: MessageRef<G>)
      modifies this
      ensures messages == old(messages)[guild := ref]
      ensures lastStatus == old(lastStatus) && lastBarIdx == old(lastBarIdx) && lastEditTs == old(lastEditTs)
    {
      messages := messages[guild := ref];
    }

    /** removeMessage: forget the guild's panel message; its status and bar bookkeeping stay. */
    method RemoveMessage(guild: G)
      modifies this
      ensures messages == old(messages) - {guild}
      ensures lastStatus == old(lastStatus) && lastBarIdx == old(lastBarIdx) && lastEditTs == old(lastEditTs)
    {
      messages := messages - {guild};
    }

    /** setStatus: store the guild's last status text; nothing else changes. */
    method SetStatus(guild: G, text: string)
      modifies this
      ensures lastStatus == old(lastStatus)[guild := text]
      ensures messages == old(messages) && lastBarIdx == old(lastBarIdx) && lastEditTs == old(lastEditTs)
    {
      lastStatus := lastStatus[guild := text];
    }

    /** getStatus: the guild's last status text, or null (None) when none was set. */
    method GetStatus(guild: G) returns (r: Option<string>)
      ensures r.Some? <==> guild in lastStatus
      ensures r.Some? ==> r.value == lastStatus[guild]
    {
      if guild in lastStatus {
        return Some(lastStatus[guild]);
      }
      return None;
    }

    /** getBarIdx: the head index last drawn, -1 when none was recorded. */
    method GetBarIdx(guild: G) returns (idx: int)
      ensures guild in lastBarIdx ==> idx == lastBarIdx[guild]
      ensures guild !in lastBarIdx ==> idx == NoBarIdx
    {
      idx := if guild in lastBarIdx then lastBarIdx[guild] else NoBarIdx;
    }

    /** setBarIdx: record the head index drawn; nothing else changes. */
    method SetBarIdx(guild: G, idx: int)
      modifies this
      ensures lastBarIdx == old(lastBarIdx)[guild := idx]
      ensures messages == old(messages) && lastStatus == old(lastStatus) && lastEditTs == old(lastEditTs)
    {
      lastBarIdx := lastBarIdx[guild := idx];
    }

    /** getEditTs: the time of the last edit, 0 when none was recorded. */
    method GetEditTs(guild: G) returns (ts: int)
      ensures guild in lastEditTs ==> ts == lastEditTs[guild]
      ensures guild !in lastEditTs ==> ts == 0
    {
      ts := if guild in lastEditTs then lastEditTs[guild] else 0;
    }

    /** setEditTs: record the time of an edit; nothing else changes. */
    method SetEditTs(guild: G, ts: int)
      modifies this
      ensures lastEditTs == old(lastEditTs)[guild := ts]
      ensures messages == old(messages) && lastStatus == old(lastStatus) && lastBarIdx == old(lastBarIdx)
    {
      lastEditTs := lastEditTs[guild := ts];
    }

    /** guildIds: exactly the guilds that have a panel message. */
    method GuildIds() returns (ids: set<G>)
      ensures ids == messages.Keys
    {
      ids := messages.Keys;
    }
  }
}
