/**
 * The server's domain layer (namespace GameServer.Server.Domain): the
 * player id generator, the player record and the registry of the players
 * currently in the game, keyed by player id.
 */
module Domain {
  import opened Wrappers
  import opened Int64
  import opened ConcurrentMaps

  /** Hands out 1, 2, 3, … (wrapping after long.MaxValue), one per call. */
  class IdGen {
    var id: long

    constructor()
      ensures id == 0
    {
      id := 0;
    }

    /** Next: increments the counter and returns the new value. */
    method Next() returns (r: long)
      modifies this
      ensures id == Incremented(old(id))
      ensures r == id
    {
      id := Incremented(id);
      r := id;
    }
  }

  /** A player: server id, the nickname and the colour given on join. */
  datatype Player = Player(id: long, name: string, color: string)

  /** The single record of who is in the game. */
  class PlayerRegistry {
    var players: map<long, Player>

    constructor()
      ensures players == map[]
    {
      players := map[];
    }

    /** Add: false, and nothing changes, when the id is taken. */
    method Add(p: Player) returns (added: bool)
      modifies this
      ensures added <==> p.id !in old(players)
      ensures (added, players) == TryAdd(old(players), p.id, p)
    {
      added, players := TryAdd(players, p.id, p).0, TryAdd(players, p.id, p).1;
    }

    /** Remove: true when a player with that id was there. */
    method Remove(id: long) returns (removed: bool)
      modifies this
      ensures removed <==> id in old(players)
      ensures players == TryRemove(old(players), id).1
    {
      removed := id in players;
      players := players - {id};
    }

    /** TryGet: whether the id is registered, and the player when it is. */
    method TryGet(id: long) returns (found: bool, player: Option<Player>)
      ensures found <==> id in players
      ensures found ==> player == Some(players[id])
      ensures !found ==> player == None
    {
      if id in players {
        return true, Some(players[id]);
      }
      return false, None;
    }

    /** Count: the number of registered players. */
    function Count(): (n: int)
      reads this
      ensures n == |players.Keys|
    {
      |players|
    }

    /** Snapshot: a copy of the registry's contents, unaffected by later changes. */
    method Snapshot() returns (snap: map<long, Player>)
      ensures snap == players
    {
      snap := players;
    }
  }

  /** Two calls on a fresh generator return 1 and then 2. */
  method IdScenario() returns (first: long, second: long)
    ensures first == 1 && second == 2
  {
    var g := new IdGen();
    first := g.Next();
    second := g.Next();
  }

  /**
   * Adding a player twice fails the second time; a snapshot taken before a
   * removal still holds the player, while the registry no longer finds it.
   */
  method RegistryScenario() returns (again: bool, inSnapshot: bool, found: bool, count: int)
    ensures !again && inSnapshot && !found && count == 0
  {
    var r := new PlayerRegistry();
    var p := Player(1, "ann", "#22aa66");
    var _ := r.Add(p);
    again := r.Add(Player(1, "bob", "#000000"));
    var snap := r.Snapshot();
    var _ := r.Remove(1);
    inSnapshot := 1 in snap && snap[1] == p;
    var f, _ := r.TryGet(1);
    found := f;
    count := r.Count();
  }
}
