/**
 * A unit, building or resource on the client (wwwroot/data/entity.js):
 * constructor defaults, the selectable flag derived from the type prefix,
 * position, damage and the fields it serialises.
 * Coordinates and sizes are reals, hit points and damage integers.
 */
module Entities {
  import opened Wrappers

  datatype Vec2 = Vec2(x: real, y: real)

  /** The constructor's argument; optional properties are Options, None standing for undefined. */
  datatype EntityData = EntityData(
    id: string, kind: string, x: real, y: real, w: real, h: real, hp: int, owner: string,
    speed: Option<real>, color: Option<string>, selectable: Option<bool>)

  /** Every field of an entity; the `type` property is called `kind`, `type` being a Dafny keyword. */
  datatype EntityState = EntityState(
    id: string, kind: string, x: real, y: real, w: real, h: real, hp: int, owner: string,
    speed: real, color: string, selectable: bool)

  /** What toJSON returns: nine fields, without speed and selectable. */
  datatype EntityJson = EntityJson(
    id: string, kind: string, x: real, y: real, w: real, h: real, hp: int, owner: string, color: string)

  const DefaultColor: string := "red"

  predicate StartsWith(s: string, prefix: string) {
    |prefix| <= |s| && s[..|prefix|] == prefix
  }

  /** Types that are selectable whatever the data says. */
  predicate SelectableType(t: string) {
    StartsWith(t, "unit") || StartsWith(t, "building") || StartsWith(t, "resource")
  }

  /** `data.color || "red"`. */
  function ColorOr(c: Option<string>): (r: string)
    ensures r != ""
    ensures c.Some? && c.value != "" ==> r == c.value
    ensures c.None? || c.value == "" ==> r == DefaultColor
  {
    if c.Some? && c.value != "" then c.value else DefaultColor
  }

  /** `Math.max(0, hp - dmg)`. */
  function Damaged(hp: int, dmg: int): (r: int)
    ensures r >= 0
    ensures r == 0 <==> hp <= dmg
    ensures r > 0 ==> r == hp - dmg
    ensures hp >= 0 && dmg >= 0 ==> r <= hp
  {
    if hp - dmg > 0 then hp - dmg else 0
  }

  /** The entity the constructor builds from data. */
  function Initial(d: EntityData): (s: EntityState)
    ensures s.id == d.id && s.kind == d.kind && s.owner == d.owner && s.hp == d.hp
    ensures s.x == d.x && s.y == d.y && s.w == d.w && s.h == d.h
    ensures s.speed == (if d.speed.Some? then d.speed.value else 0.0)
    ensures s.color == ColorOr(d.color)
    ensures s.selectable <==> d.selectable == Some(true) || SelectableType(d.kind)
  {
    EntityState(d.id, d.kind, d.x, d.y, d.w, d.h, d.hp, d.owner,
                if d.speed.Some? then d.speed.value else 0.0,
                ColorOr(d.color),
                d.selectable == Some(true) || SelectableType(d.kind))
  }

  predicate Alive(s: EntityState) {
    s.hp > 0
  }

  function PosOf(s: EntityState): Vec2 {
    Vec2(s.x, s.y)
  }

  /** The `pos` setter. */
  function WithPos(s: EntityState, p: Vec2): EntityState {
    s.(x := p.x, y := p.y)
  }

  /** moveBy(delta). */
  function Moved(s: EntityState, delta: Vec2): EntityState {
    s.(x := s.x + delta.x, y := s.y + delta.y)
  }

  /** applyDamage(dmg). */
  function Damage(s: EntityState, dmg: int): EntityState {
    s.(hp := Damaged(s.hp, dmg))
  }

  function Json(s: EntityState): EntityJson {
    EntityJson(s.id, s.kind, s.x, s.y, s.w, s.h, s.hp, s.owner, s.color)
  }

  /** The constructor's argument read back from a serialised entity. */
  function FromJson(j: EntityJson): EntityData {
    EntityData(j.id, j.kind, j.x, j.y, j.w, j.h, j.hp, j.owner, None, Some(j.color), None)
  }

  /** Setting pos then reading it gives the position set; setting it to what it reads changes nothing. */
  lemma PosRoundTrip(s: EntityState, p: Vec2)
    ensures PosOf(WithPos(s, p)) == p
    ensures WithPos(s, PosOf(s)) == s
  {
  }

  /** Two hits of b ≥ 0 after a hit of a are one hit of a + b: the hp clamp at 0 loses nothing. */
  lemma DamageComposes(s: EntityState, a: int, b: int)
    requires b >= 0
    ensures Damage(Damage(s, a), b) == Damage(s, a + b)
  {
  }

  /** An entity survives a hit iff the damage is below its hit points. */
  lemma AliveAfterDamage(s: EntityState, dmg: int)
    ensures Alive(Damage(s, dmg)) <==> dmg < s.hp
    ensures !Alive(Damage(s, dmg)) ==> Damage(s, dmg).hp == 0
  {
  }

  /** Two moves are one move by the sum of the deltas, and only x and y change. */
  lemma MovesCompose(s: EntityState, a: Vec2, b: Vec2)
    ensures Moved(Moved(s, a), b) == Moved(s, Vec2(a.x + b.x, a.y + b.y))
    ensures Json(Moved(s, a)).(x := s.x, y := s.y) == Json(s)
  {
  }

  /** Any type named with one of the three prefixes is selectable without a flag. */
  lemma {:induction false} PrefixedTypesSelectable(suffix: string)
    ensures SelectableType("unit" + suffix)
    ensures SelectableType("building" + suffix)
    ensures SelectableType("resource" + suffix)
  {
    assert ("unit" + suffix)[..4] == "unit";
    assert ("building" + suffix)[..8] == "building";
    assert ("resource" + suffix)[..8] == "resource";
  }

  /**
   * Serialising and rebuilding an entity keeps the nine serialised fields
   * and loses the rest: speed becomes 0 and selectable is derived from the
   * type (`kind`) alone.
   */
  lemma JsonRoundTrip(s: EntityState)
    requires s.color != ""
    ensures Initial(FromJson(Json(s))) == s.(speed := 0.0, selectable := SelectableType(s.kind))
    ensures Json(Initial(FromJson(Json(s)))) == Json(s)
  {
  }

  class Entity {
    var id: string
    var kind: string
    var x: real
    var y: real
    var w: real
    var h: real
    var hp: int
    var owner: string
    var speed: real
    var color: string
    var selectable: bool

    function State(): EntityState
      reads this
    {
      EntityState(id, kind, x, y, w, h, hp, owner, speed, color, selectable)
    }

    constructor(data: EntityData)
      ensures State() == Initial(data)
    {
      id := data.id;
      kind := data.kind;
      x := data.x;
      y := data.y;
      w := data.w;
      h := data.h;
      hp := data.hp;
      owner := data.owner;
      speed := if data.speed.Some? then data.speed.value else 0.0;
      color := ColorOr(data.color);
      selectable := data.selectable == Some(true) || SelectableType(data.kind);
    }

    /** The `pos` getter. */
    function Pos(): (p: Vec2)
      reads this
      ensures p.x == x && p.y == y
    {
      PosOf(State())
    }

    /** The `pos` setter. */
    method SetPos(p: Vec2)
      modifies this
      ensures State() == WithPos(old(State()), p)
      ensures Pos() == p
    {
      x := p.x;
      y := p.y;
    }

    predicate IsAlive()
      reads this
      ensures IsAlive() <==> hp > 0
    {
      Alive(State())
    }

    method ApplyDamage(dmg: int)
      modifies this
      ensures State() == Damage(old(State()), dmg)
      ensures hp >= 0
    {
      hp := Damaged(hp, dmg);
    }

    method MoveBy(delta: Vec2)
      modifies this
      ensures State() == Moved(old(State()), delta)
    {
      x := x + delta.x;
      y := y + delta.y;
    }

    /** toJSON: id, type, x, y, w, h, hp, owner and color, read off the fields. */
    function ToJSON(): (j: EntityJson)
      reads this
      ensures j.id == id && j.kind == kind && j.owner == owner && j.hp == hp && j.color == color
      ensures j.x == x && j.y == y && j.w == w && j.h == h
    {
      Json(State())
    }
  }
}
