/** The player record of namespace GameServer.Server.Game. */
module Game {
  import opened Int64

  datatype Player = Player(id: long, name: string, color: string)
}

/**
 * The later copy of the domain layer (namespace
 * GameServer.Server.Core.Domain): an id generator with separate player and
 * entity counters, and a player registry whose lookup returns the player
 * or nothing.
 */
module CoreDomain {
  import opened Wrappers
  import opened Int64
  import opened ConcurrentMaps
  import Game

  /** Two independent counters, each handing out 1, 2, 3, … */
  class IdGen {
    var playerId: long
    var entityId: long

    constructor()
      ensures playerId == 0 && entityId == 0
    {
      playerId := 0;
      entityId := 0;
    }

    /** NextEntitye: the next entity id; its nullable result always holds a value. */
    method NextEntity() returns (r: Option<long>)
      modifies this
      ensures entityId == Incremented(old(entityId)) && playerId == old(playerId)
      ensures r == Some(entityId)
    {
      entityId := Incremented(entityId);
      r := Some(entityId);
    }

    /** NextPlayer: the next player id. */
    method NextPlayer() returns (r: long)
      modifies this
      ensures playerId == Incremented(old(playerId)) && entityId == old(entityId)
      ensures r == playerId
    {
      playerId := Incremented(playerId);
      r := playerId;
    }
  }

  class PlayerRegistry {
    var players: map<long, Game.Player>

    constructor()
      ensures players == map[]
    {
      players := map[];
    }

    /** Add: false, and nothing changes, when the id is taken. */
    method Add(p: Game.Player) returns (added: bool)
      modifies this
      ensures added <==> p.id !in old(players)
      ensures (added, players) == TryAdd(old(players), p.id, p)
    {
      added, players := TryAdd(players, p.id, p).0, TryAdd(players, p.id, p).1;
    }

    /** Remove: true when a player with that id was there. */
    method Remove(id: long) returns (removed: bool)
      modifies this
      ensures removed <==> id in old(players)
      ensures players == TryRemove(old(players), id).1
    {
      removed := id in players;
      players := players - {id};
    }

    /** Get: the registered player, or null. */
    method Get(id: long) returns (player: Option<Game.Player>)
      ensures player.Some? <==> id in players
      ensures player.Some? ==> player.value == players[id]
    {
      if id in players {
        return Some(players[id]);
      }
      return None;
    }

    /** Count: the number of registered players. */
    function Count(): (n: int)
      reads this
      ensures n == |players.Keys|
    {
      |players|
    }

    /** Snapshot: a copy of the registry's contents, unaffected by later changes. */
    method Snapshot() returns (snap: map<long, Game.Player>)
      ensures snap == players
    {
      snap := players;
    }
  }

  /** The entity counter does not disturb the player counter: ids 1, 1, 2. */
  method IdScenario() returns (player1: long, entity1: Option<long>, player2: long)
    ensures player1 == 1 && entity1 == Some(1) && player2 == 2
  {
    var g := new IdGen();
    player1 := g.NextPlayer();
    entity1 := g.NextEntity();
    player2 := g.NextPlayer();
  }

  /** After a removal Get finds nothing and Count drops back. */
  method RegistryScenario() returns (before: Option<Game.Player>, after: Option<Game.Player>, count: int)
    ensures before == Some(Game.Player(5, "ann", "red")) && after == None && count == 0
  {
    var r := new PlayerRegistry();
    var _ := r.Add(Game.Player(5, "ann", "red"));
    before := r.Get(5);
    var _ := r.Remove(5);
    after := r.Get(5);
    count := r.Count();
  }
}
