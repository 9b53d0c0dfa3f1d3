/**
 * The older client entity (wwwroot/data/entry.js): the same operations over
 * nine stored fields, without speed and the selectable flag.
 */
module LegacyEntities {
  import opened Wrappers
  import Entities

  type Vec2 = Entities.Vec2

  /** The constructor's argument; color None stands for undefined. */
  datatype LegacyData = LegacyData(
    id: string, kind: string, x: real, y: real, w: real, h: real, hp: int, owner: string,
    color: Option<string>)

  /** Every field of an entity, which is also exactly what toJSON returns. */
  datatype LegacyState = LegacyState(
    id: string, kind: string, x: real, y: real, w: real, h: real, hp: int, owner: string, color: string)

  /** The entity the constructor builds: fields copied, color defaulting to "red". */
  function Initial(d: LegacyData): (s: LegacyState)
    ensures s.id == d.id && s.kind == d.kind && s.owner == d.owner && s.hp == d.hp
    ensures s.x == d.x && s.y == d.y && s.w == d.w && s.h == d.h
    ensures s.color == Entities.ColorOr(d.color) && s.color != ""
  {
    LegacyState(d.id, d.kind, d.x, d.y, d.w, d.h, d.hp, d.owner, Entities.ColorOr(d.color))
  }

  function Damage(s: LegacyState, dmg: int): LegacyState {
    s.(hp := Entities.Damaged(s.hp, dmg))
  }

  function Moved(s: LegacyState, delta: Vec2): LegacyState {
    s.(x := s.x + delta.x, y := s.y + delta.y)
  }

  function WithPos(s: LegacyState, p: Vec2): LegacyState {
    s.(x := p.x, y := p.y)
  }

  /** The constructor's argument read back from a serialised entity. */
  function FromJson(j: LegacyState): LegacyData {
    LegacyData(j.id, j.kind, j.x, j.y, j.w, j.h, j.hp, j.owner, Some(j.color))
  }

  /** toJSON then the constructor rebuilds an equal entity: all nine fields round-trip. */
  lemma JsonRoundTrip(s: LegacyState)
    requires s.color != ""
    ensures Initial(FromJson(s)) == s
  {
  }

  /** Damage never leaves negative hit points, and later hits add up. */
  lemma DamageClamps(s: LegacyState, a: int, b: int)
    requires b >= 0
    ensures Damage(s, a).hp >= 0
    ensures Damage(Damage(s, a), b) == Damage(s, a + b)
  {
  }

  class Entity {
    var id: string
    var kind: string
    var x: real
    var y: real
    var w: real
    var h: real
    var hp: int
    var owner: string
    var color: string

    function State(): LegacyState
      reads this
    {
      LegacyState(id, kind, x, y, w, h, hp, owner, color)
    }

    constructor(data: LegacyData)
      ensures State() == Initial(data)
    {
      id := data.id;
      kind := data.kind;
      x := data.x;
      y := data.y;
      w := data.w;
      h := data.h;
      hp := data.hp;
      owner := data.owner;
      color := Entities.ColorOr(data.color);
    }

    function Pos(): (p: Vec2)
      reads this
      ensures p.x == x && p.y == y
    {
      Entities.Vec2(x, y)
    }

    method SetPos(p: Vec2)
      modifies this
      ensures State() == WithPos(old(State()), p)
      ensures Pos() == p
    {
      x := p.x;
      y := p.y;
    }

    predicate IsAlive()
      reads this
      ensures IsAlive() <==> hp >= 1
    {
      hp > 0
    }

    method ApplyDamage(dmg: int)
      modifies this
      ensures State() == Damage(old(State()), dmg)
      ensures hp >= 0 && (IsAlive() <==> dmg < old(hp))
    {
      hp := Entities.Damaged(hp, dmg);
    }

    method MoveBy(delta: Vec2)
      modifies this
      ensures State() == Moved(old(State()), delta)
    {
      x := x + delta.x;
      y := y + delta.y;
    }

    /** toJSON: id, type, x, y, w, h, hp, owner and color, read off the fields. */
    function ToJSON(): (j: LegacyState)
      reads this
      ensures j.id == id && j.kind == kind && j.owner == owner && j.hp == hp && j.color == color
      ensures j.x == x && j.y == y && j.w == w && j.h == h
    {
      State()
    }
  }
}
