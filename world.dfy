/** The part of the game world the agent loop queries: the client's table of
    known players, each with the entity it currently sees for them, if any. */
module World {
  import opened Wrappers
  import opened Protocol

  datatype Entity = Entity(position: Position)

  /** A player entry; `entity` is absent when the player is out of view. */
  datatype Player = Player(entity: Option<Entity>)

  /** The client's `players` table, keyed by username. */
  type Players = map<string, Player>

  /** The position of `username`'s entity, or None when the player is unknown
      or has no entity in view. */
  function GetPlayerLocation(players: Players, username: string): (loc: Option<Position>)
    ensures loc.Some? <==> username in players && players[username].entity.Some?
    ensures loc.Some? ==> loc.value == players[username].entity.value.position
  {
    if username in players && players[username].entity.Some? then
      Some(players[username].entity.value.position)
    else
      None
  }
}
