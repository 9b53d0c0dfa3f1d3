/**
 * The mouse and keyboard rules of the client (the closures set up by
 * `init` in wwwroot/ui/input.js): point hit-testing, rectangle and single
 * selection into the selection store, and the commands a right click or a
 * key press issues. Entities are given as the list `entities()` returns at
 * the moment of the event; screen coordinates come with their world
 * coordinates already converted; the command gateway is modelled by
 * returning the command it would be sent.
 */
module Input {
  import opened Wrappers
  import opened Seqs
  import opened Selection

  /** What the input rules read of one entity; z None stands for a missing or falsy z. */
  datatype Sprite = Sprite(
    id: string, kind: string, owner: string,
    x: real, y: real, w: real, h: real,
    selectable: bool, z: Option<real>)

  datatype Kind = Ally | Resource | Enemy | Ground

  /** `{ kind, id, entity }` of hitTestPoint; ground hits carry no entity. */
  datatype HitResult = HitResult(kind: Kind, target: Option<Sprite>) {
    function Id(): Option<string> {
      if target.Some? then Some(target.value.id) else None
    }
  }

  datatype Mode = Default | AttackMove

  datatype Point = Point(x: real, y: real)

  /** A cursor position on the canvas (sx, sy) and in the world (wx, wy). */
  datatype PointerPos = PointerPos(sx: real, sy: real, wx: real, wy: real)

  /** A world rectangle, bounds inclusive. */
  datatype Box = Box(minX: real, maxX: real, minY: real, maxY: real)

  /** A command handed to the gateway `issue`. */
  datatype Order =
    | Attack(ids: seq<string>, targetId: string)
    | Harvest(ids: seq<string>, targetId: string)
    | Move(ids: seq<string>, to: Point, attackMove: bool)
    | MoveLine(ids: seq<string>, to: Point)
    | Stop(ids: seq<string>)

  const LeftButton: int := 0
  const RightButton: int := 2
  /** Pixels the cursor must travel with the left button down before a press becomes a drag. */
  const DragThreshold: real := 4.0

  function Abs(r: real): real {
    if r < 0.0 then -r else r
  }

  function Min(a: real, b: real): real {
    if a <= b then a else b
  }

  function Max(a: real, b: real): real {
    if a <= b then b else a
  }

  /** `e.z || 0`. */
  function Depth(e: Sprite): real {
    if e.z.Some? then e.z.value else 0.0
  }

  /** The point lies inside the entity's box, edges included. */
  predicate Covers(e: Sprite, x: real, y: real) {
    Abs(x - e.x) <= e.w / 2.0 && Abs(y - e.y) <= e.h / 2.0
  }

  /** The hit classification of an entity for the local player `me`. */
  function Classify(e: Sprite, me: string): (k: Kind)
    ensures k != Ground
    ensures k == Ally <==> e.owner == me
    ensures k == Resource <==> e.owner != me && e.kind == "resource"
  {
    if e.owner == me then Ally else if e.kind == "resource" then Resource else Enemy
  }

  /** The entities under a point, in list order (the array `under`). */
  function Under(es: seq<Sprite>, x: real, y: real): (u: seq<Sprite>)
    ensures forall e :: e in u ==> e in es && Covers(e, x, y)
    ensures forall i :: 0 <= i < |es| && Covers(es[i], x, y) ==> es[i] in u
    decreases |es|
  {
    if es == [] then []
    else
      var n := |es| - 1;
      var u0 := Under(es[..n], x, y);
      assert forall i :: 0 <= i < n ==> es[..n][i] == es[i];
      if Covers(es[n], x, y) then u0 + [es[n]] else u0
  }

  /** The first entity of greatest depth: what `under` sorted stably by descending z has first. */
  function TopIndex(s: seq<Sprite>): (k: nat)
    requires |s| > 0
    ensures k < |s|
    ensures forall j :: 0 <= j < |s| ==> Depth(s[j]) <= Depth(s[k])
    ensures forall j :: 0 <= j < k ==> Depth(s[j]) < Depth(s[k])
    decreases |s|
  {
    if |s| == 1 then 0
    else
      var n := |s| - 1;
      var k := TopIndex(s[..n]);
      assert forall j :: 0 <= j < n ==> s[..n][j] == s[j];
      if Depth(s[n]) > Depth(s[k]) then n else k
  }

  /**
   * The entity hitTestPoint reports: one under the point, of greatest depth
   * among those under it, and the earliest in the list among equals; none
   * exactly when nothing is under the point.
   */
  function Topmost(es: seq<Sprite>, x: real, y: real): (r: Option<Sprite>)
    ensures r.None? <==> forall i :: 0 <= i < |es| ==> !Covers(es[i], x, y)
    ensures r.Some? ==> Covers(r.value, x, y)
    ensures r.Some? ==> forall j :: 0 <= j < |es| && Covers(es[j], x, y) ==> Depth(es[j]) <= Depth(r.value)
    ensures r.Some? ==> exists i :: 0 <= i < |es| && es[i] == r.value &&
                          forall j :: 0 <= j < i && Covers(es[j], x, y) ==> Depth(es[j]) < Depth(r.value)
    decreases |es|
  {
    if es == [] then None
    else
      var n := |es| - 1;
      var prev := Topmost(es[..n], x, y);
      assert forall i :: 0 <= i < n ==> es[..n][i] == es[i];
      if Covers(es[n], x, y) && (prev.None? || Depth(es[n]) > Depth(prev.value)) then
        assert forall j :: 0 <= j < n && Covers(es[j], x, y) ==> Depth(es[j]) < Depth(es[n]);
        Some(es[n])
      else
        prev
  }

  /** The result of hitTestPoint(x, y). */
  function HitAt(es: seq<Sprite>, me: string, x: real, y: real): (r: HitResult)
    ensures r.kind == Ground <==> r.target.None?
    ensures r.target.None? <==> forall i :: 0 <= i < |es| ==> !Covers(es[i], x, y)
    ensures r.target.Some? ==> r.target == Topmost(es, x, y) && r.kind == Classify(r.target.value, me)
  {
    match Topmost(es, x, y)
    case None => HitResult(Ground, None)
    case Some(e) => HitResult(Classify(e, me), Some(e))
  }

  /** Sorting `under` and taking the first element picks Topmost. */
  lemma {:induction false} TopOfUnder(es: seq<Sprite>, x: real, y: real)
    ensures Under(es, x, y) == [] <==> Topmost(es, x, y).None?
    ensures Under(es, x, y) != [] ==> Under(es, x, y)[TopIndex(Under(es, x, y))] == Topmost(es, x, y).value
    decreases |es|
  {
    if es != [] {
      var n := |es| - 1;
      TopOfUnder(es[..n], x, y);
      var u0 := Under(es[..n], x, y);
      if Covers(es[n], x, y) && u0 != [] {
        var u := u0 + [es[n]];
        assert u[..|u| - 1] == u0;
        assert u[TopIndex(u0)] == u0[TopIndex(u0)];
      }
    }
  }

  /** The first entity with this id belongs to `me` (isOwned). */
  predicate OwnsId(es: seq<Sprite>, me: string, id: string)
    decreases |es|
  {
    if es == [] then false
    else if es[0].id == id then es[0].owner == me
    else OwnsId(es[1..], me, id)
  }

  /** When ids are unique, owning an id means an entity with that id is owned by `me`. */
  lemma {:induction false} OwnsIdUnique(es: seq<Sprite>, me: string, id: string)
    requires forall i, j :: 0 <= i < j < |es| ==> es[i].id != es[j].id
    ensures OwnsId(es, me, id) <==> exists i :: 0 <= i < |es| && es[i].id == id && es[i].owner == me
    decreases |es|
  {
    if es != [] {
      assert forall i :: 0 <= i < |es| - 1 ==> es[1..][i] == es[i + 1];
      OwnsIdUnique(es[1..], me, id);
      if es[0].id != id && exists i :: 0 <= i < |es| && es[i].id == id && es[i].owner == me {
        var i :| 0 <= i < |es| && es[i].id == id && es[i].owner == me;
        assert es[1..][i - 1] == es[i];
      }
    }
  }

  /** `ids.filter(isOwned)`. */
  function OwnedIds(ids: seq<string>, es: seq<Sprite>, me: string): (r: seq<string>)
    ensures forall id :: id in r <==> id in ids && OwnsId(es, me, id)
    ensures |r| <= |ids|
    decreases |ids|
  {
    if ids == [] then []
    else
      var n := |ids| - 1;
      assert ids == ids[..n] + [ids[n]];
      OwnedIds(ids[..n], es, me) + (if OwnsId(es, me, ids[n]) then [ids[n]] else [])
  }

  /** The box test of selectInRect: the entity's box meets the rectangle, edges included. */
  predicate Overlaps(e: Sprite, b: Box) {
    e.x + e.w / 2.0 >= b.minX && e.x - e.w / 2.0 <= b.maxX &&
    e.y + e.h / 2.0 >= b.minY && e.y - e.h / 2.0 <= b.maxY
  }

  /** What a rectangle may pick: selectable, owned by `me`, overlapping. */
  predicate Eligible(e: Sprite, me: string, b: Box) {
    e.selectable && e.owner == me && Overlaps(e, b)
  }

  /** The ids selectInRect picks, in list order. */
  function Picked(es: seq<Sprite>, me: string, b: Box): (r: seq<string>)
    ensures forall i :: 0 <= i < |es| && Eligible(es[i], me, b) ==> es[i].id in r
    ensures forall id :: id in r ==> exists i :: 0 <= i < |es| && Eligible(es[i], me, b) && es[i].id == id
    decreases |es|
  {
    if es == [] then []
    else
      var n := |es| - 1;
      var r0 := Picked(es[..n], me, b);
      assert forall i :: 0 <= i < n ==> es[..n][i] == es[i];
      if Eligible(es[n], me, b) then r0 + [es[n].id] else r0
  }

  /** The rectangle spanned by the press and the last cursor position. */
  function DragBox(down: PointerPos, last: PointerPos): Box {
    Box(Min(last.wx, down.wx), Max(last.wx, down.wx), Min(last.wy, down.wy), Max(last.wy, down.wy))
  }

  /** The selection after a rectangle pick: the pick, or the old selection followed by the new ids. */
  function RectSelection(prev: seq<string>, pick: seq<string>, additive: bool): (r: seq<string>)
    ensures Distinct(prev) ==> Distinct(r)
    ensures !additive ==> forall id :: id in r <==> id in pick
    ensures additive ==> prev <= r && forall id :: id in r <==> id in prev || id in pick
  {
    if additive then InsertAll(prev, pick) else Dedup(pick)
  }

  /** Shift/ctrl-click on an id: selected ids leave, others join at the end. */
  function Toggle(prev: seq<string>, id: string): (r: seq<string>)
    ensures Distinct(prev) ==> Distinct(r)
    ensures id in r <==> id !in prev
    ensures forall x :: x != id ==> (x in r <==> x in prev)
  {
    if id in prev then Without(prev, id) else Insert(prev, id)
  }

  /** The selection after selectSingle with hit result `hit`. */
  function SingleSelection(prev: seq<string>, hit: HitResult, additive: bool): (r: seq<string>)
    ensures hit.target.None? ==> r == []
    ensures hit.target.Some? && !additive ==> r == [hit.target.value.id]
    ensures hit.target.Some? && additive ==> r == Toggle(prev, hit.target.value.id)
    ensures Distinct(prev) ==> Distinct(r)
  {
    if hit.target.None? then []
    else if additive then Toggle(prev, hit.target.value.id)
    else [hit.target.value.id]
  }

  /**
   * The right-click decision for the owned selected ids, once a move has
   * been seen: in attack-move mode, ground orders an attack-move and
   * anything else an attack, and the mode returns to default; in default
   * mode, an enemy is attacked, a resource harvested, and anything else
   * (an ally or the ground) ordered as a line move to the point.
   */
  function Decide(mode: Mode, target: HitResult, owned: seq<string>, at: Point): (r: (Option<Order>, Mode))
    ensures r.1 == Default
    ensures r.0.Some? ==> r.0.value.ids == owned
    ensures r.0.Some? && r.0.value.Attack? ==> target.Id() == Some(r.0.value.targetId) &&
                                                (mode == AttackMove || target.kind == Enemy)
    ensures r.0.Some? && r.0.value.Harvest? ==> mode == Default && target.kind == Resource &&
                                                 target.Id() == Some(r.0.value.targetId)
    ensures r.0.Some? && r.0.value.Move? ==> mode == AttackMove && target.kind == Ground &&
                                              r.0.value.attackMove && r.0.value.to == at
    ensures r.0.Some? && r.0.value.MoveLine? ==> mode == Default && r.0.value.to == at &&
                                                  !(target.kind == Enemy && target.target.Some?) &&
                                                  !(target.kind == Resource && target.target.Some?)
    ensures mode == Default ==> r.0.Some? && !r.0.value.Move? && !r.0.value.Stop?
    ensures mode == AttackMove ==> (r.0.None? <==> target.kind != Ground && target.target.None?)
    ensures mode == AttackMove && target.kind == Ground ==> r.0 == Some(Move(owned, at, true))
    ensures mode == AttackMove && target.kind != Ground && target.target.Some? ==>
              r.0 == Some(Attack(owned, target.target.value.id))
  {
    match mode
    case AttackMove =>
      if target.kind == Ground then (Some(Move(owned, at, true)), Default)
      else if target.target.Some? then (Some(Attack(owned, target.target.value.id)), Default)
      else (None, Default)
    case Default =>
      if target.kind == Enemy && target.target.Some? then (Some(Attack(owned, target.target.value.id)), Default)
      else if target.kind == Resource && target.target.Some? then (Some(Harvest(owned, target.target.value.id)), Default)
      else (Some(MoveLine(owned, at)), Default)
  }

  /** The outcome of a right click: nothing, and the mode kept, without owned selected ids or a known cursor position. */
  function RightClick(mode: Mode, owned: seq<string>, last: Option<PointerPos>, es: seq<Sprite>, me: string): (r: (Option<Order>, Mode))
    ensures |owned| == 0 || last.None? ==> r == (None, mode)
    ensures |owned| > 0 && last.Some? ==> r.1 == Default
    ensures r.0.Some? ==> |owned| > 0 && last.Some? && r.0.value.ids == owned
    ensures r.0.Some? && (r.0.value.Move? || r.0.value.MoveLine?) ==> r.0.value.to == Point(last.value.wx, last.value.wy)
    ensures r.0.Some? && (r.0.value.Attack? || r.0.value.Harvest?) ==>
              HitAt(es, me, last.value.wx, last.value.wy).Id() == Some(r.0.value.targetId)
  {
    if |owned| > 0 && last.Some? then
      Decide(mode, HitAt(es, me, last.value.wx, last.value.wy), owned, Point(last.value.wx, last.value.wy))
    else (None, mode)
  }

  /**
   * In default mode a right click never attacks an ally or harvests what is
   * not a resource: an attack targets the topmost entity under the cursor,
   * owned by another player and not a resource.
   */
  lemma DefaultRightClickTargets(es: seq<Sprite>, me: string, owned: seq<string>, x: real, y: real)
    requires |owned| > 0
    ensures var r := Decide(Default, HitAt(es, me, x, y), owned, Point(x, y)).0;
            && r.Some?
            && (r.value.Attack? ==> Topmost(es, x, y).Some? && Topmost(es, x, y).value.id == r.value.targetId &&
                                    Topmost(es, x, y).value.owner != me && Topmost(es, x, y).value.kind != "resource")
            && (r.value.Harvest? ==> Topmost(es, x, y).Some? && Topmost(es, x, y).value.id == r.value.targetId &&
                                     Topmost(es, x, y).value.owner != me && Topmost(es, x, y).value.kind == "resource")
            && (r.value.MoveLine? <==> Topmost(es, x, y).None? || Topmost(es, x, y).value.owner == me)
  {
  }

  /**
   * In attack-move mode a right click always issues an order and disarms the
   * mode: an attack-move to the point over the ground, otherwise an attack on
   * the topmost entity under the cursor, whoever owns it.
   */
  lemma AttackMoveRightClick(es: seq<Sprite>, me: string, owned: seq<string>, x: real, y: real)
    ensures var (r, mode) := Decide(AttackMove, HitAt(es, me, x, y), owned, Point(x, y));
            && mode == Default
            && (Topmost(es, x, y).None? ==> r == Some(Move(owned, Point(x, y), true)))
            && (Topmost(es, x, y).Some? ==> r == Some(Attack(owned, Topmost(es, x, y).value.id)))
  {
  }

  /** The mode after a key press: 'a' arms attack-move, Escape disarms it. */
  function KeyMode(mode: Mode, key: string): (r: Mode)
    ensures key == "Escape" ==> r == Default
    ensures key == "a" || key == "A" ==> r == AttackMove
    ensures key != "Escape" && key != "a" && key != "A" ==> r == mode
  {
    if key == "Escape" then Default
    else if key == "a" || key == "A" then AttackMove
    else mode
  }

  /** hitTestPoint(x, y). */
  method HitTestPoint(es: seq<Sprite>, me: string, x: real, y: real) returns (r: HitResult)
    ensures r == HitAt(es, me, x, y)
  {
    var under: seq<Sprite> := [];
    for i := 0 to |es|
      invariant under == Under(es[..i], x, y)
    {
      assert es[..i + 1][..i] == es[..i];
      var e := es[i];
      if Abs(x - e.x) <= e.w / 2.0 && Abs(y - e.y) <= e.h / 2.0 {
        under := under + [e];
      }
    }
    assert es[..|es|] == es;
    TopOfUnder(es, x, y);
    if under == [] {
      return HitResult(Ground, None);
    }
    var top := under[TopIndex(under)];
    var kind := if top.owner == me then Ally else if top.kind == "resource" then Resource else Enemy;
    r := HitResult(kind, Some(top));
  }

  /** isOwned(id): the first entity with that id decides; false when there is none. */
  method IsOwned(es: seq<Sprite>, me: string, id: string) returns (r: bool)
    ensures r == OwnsId(es, me, id)
  {
    for i := 0 to |es|
      invariant OwnsId(es, me, id) == OwnsId(es[i..], me, id)
    {
      assert es[i..][1..] == es[i + 1..];
      if es[i].id == id {
        return es[i].owner == me;
      }
    }
    r := false;
  }

  /** `ids.filter(isOwned)`. */
  method FilterOwned(es: seq<Sprite>, me: string, ids: seq<string>) returns (owned: seq<string>)
    ensures owned == OwnedIds(ids, es, me)
  {
    owned := [];
    for i := 0 to |ids|
      invariant owned == OwnedIds(ids[..i], es, me)
    {
      assert ids[..i + 1][..i] == ids[..i];
      var mine := IsOwned(es, me, ids[i]);
      if mine {
        owned := owned + [ids[i]];
      }
    }
    assert ids[..|ids|] == ids;
  }

  /**
   * The state `init` sets up. The local player's id `owner.id` is read
   * afresh at every event, so each event method takes its current value `me`.
   */
  class Input {
    const store: SelectionStore<HitResult>
    var mode: Mode
    var downPt: Option<PointerPos>
    var lastMove: Option<PointerPos>
    var dragging: bool
    var isDown: bool

    ghost predicate Valid()
      reads this, store
    {
      store.Valid()
    }

    constructor(store: SelectionStore<HitResult>)
      requires store.Valid()
      ensures Valid() && this.store == store
      ensures mode == Default && downPt == None && lastMove == None && !dragging && !isDown
    {
      this.store := store;
      mode := Default;
      downPt := None;
      lastMove := None;
      dragging := false;
      isDown := false;
    }

    /** selectInRect: pick the eligible ids, then replace the selection or add to it. */
    method SelectInRect(me: string, es: seq<Sprite>, b: Box, additive: bool)
      requires Valid()
      modifies store
      ensures Valid()
      ensures store.ids == RectSelection(old(store.ids), Picked(es, me, b), additive)
      ensures store.hover == old(store.hover) && store.subscribers == old(store.subscribers)
    {
      var pick: seq<string> := [];
      for i := 0 to |es|
        invariant pick == Picked(es[..i], me, b)
      {
        assert es[..i + 1][..i] == es[..i];
        var e := es[i];
        if !e.selectable {
          continue;
        }
        if e.owner != me {
          continue;
        }
        var x1, x2 := e.x - e.w / 2.0, e.x + e.w / 2.0;
        var y1, y2 := e.y - e.h / 2.0, e.y + e.h / 2.0;
        if x2 >= b.minX && x1 <= b.maxX && y2 >= b.minY && y1 <= b.maxY {
          pick := pick + [e.id];
        }
      }
      assert es[..|es|] == es;
      if additive {
        var current, _ := store.Get();
        var acc := current;
        for i := 0 to |pick|
          invariant acc == InsertAll(current, pick[..i])
        {
          assert pick[..i + 1][..i] == pick[..i];
          acc := Insert(acc, pick[i]);
        }
        assert pick[..|pick|] == pick;
        DedupOfDistinct(acc);
        store.Set(acc);
      } else {
        store.Set(pick);
      }
    }

    /** selectSingle: toggle (additive) or select the hit id; a miss clears the selection. */
    method SelectSingle(me: string, es: seq<Sprite>, x: real, y: real, additive: bool)
      requires Valid()
      modifies store
      ensures Valid()
      ensures store.ids == SingleSelection(old(store.ids), HitAt(es, me, x, y), additive)
      ensures store.hover == old(store.hover) && store.subscribers == old(store.subscribers)
    {
      var hit := HitTestPoint(es, me, x, y);
      if hit.target.Some? {
        var id := hit.target.value.id;
        if additive {
          var current, _ := store.Get();
          if id in current {
            store.Delete(id);
          } else {
            store.Add(id);
          }
        } else {
          store.Set([id]);
          DedupOfDistinct([id]);
        }
      } else {
        store.Clear();
      }
    }

    /** A left-button press starts a possible drag at pos. */
    method OnPointerDown(button: int, pos: PointerPos)
      modifies this
      ensures button == LeftButton ==> isDown && downPt == Some(pos) && !dragging
      ensures button != LeftButton ==> isDown == old(isDown) && downPt == old(downPt) && dragging == old(dragging)
      ensures mode == old(mode) && lastMove == old(lastMove)
    {
      if button == LeftButton {
        isDown := true;
        downPt := Some(pos);
        dragging := false;
      }
    }

    /**
     * Cursor movement: remember the position, refresh the hover value when
     * the thing under the cursor changed kind or id, and turn a press into a
     * drag once the cursor is DragThreshold pixels away from where it went down.
     */
    method OnPointerMove(me: string, es: seq<Sprite>, pos: PointerPos)
      requires Valid()
      modifies this, store
      ensures Valid()
      ensures lastMove == Some(pos)
      ensures store.ids == old(store.ids) && store.subscribers == old(store.subscribers)
      ensures var hit := HitAt(es, me, pos.wx, pos.wy);
              if old(store.hover).None? || old(store.hover).value.kind != hit.kind || old(store.hover).value.Id() != hit.Id()
              then store.hover == Some(hit) else store.hover == old(store.hover)
      ensures dragging == (old(dragging) ||
                (isDown && downPt.Some? &&
                 (pos.sx - downPt.value.sx) * (pos.sx - downPt.value.sx) +
                 (pos.sy - downPt.value.sy) * (pos.sy - downPt.value.sy) >= DragThreshold * DragThreshold))
      ensures mode == old(mode) && downPt == old(downPt) && isDown == old(isDown)
    {
      lastMove := Some(pos);
      var hit := HitTestPoint(es, me, pos.wx, pos.wy);
      var _, hovered := store.Get();
      if hovered.None? || hit.kind != hovered.value.kind || hit.Id() != hovered.value.Id() {
        store.SetHover(hit);
      }
      if isDown && downPt.Some? && !dragging {
        var dx, dy := pos.sx - downPt.value.sx, pos.sy - downPt.value.sy;
        if dx * dx + dy * dy >= DragThreshold * DragThreshold {
          dragging := true;
        }
      }
    }

    /**
     * Button release. Left: a drag selects the rectangle, otherwise the press
     * point selects (shift or ctrl adds). Right: the owned selected ids get
     * the command Decide picks. Either way the press state is reset.
     */
    method OnPointerUp(me: string, es: seq<Sprite>, button: int, shift: bool, ctrl: bool) returns (issued: Option<Order>)
      requires Valid()
      modifies this, store
      ensures Valid()
      ensures button == LeftButton && old(downPt).Some? && old(dragging) && old(lastMove).Some? ==>
                store.ids == RectSelection(old(store.ids), Picked(es, me, DragBox(old(downPt).value, old(lastMove).value)), shift || ctrl)
      ensures button == LeftButton && old(downPt).Some? && !(old(dragging) && old(lastMove).Some?) ==>
                store.ids == SingleSelection(old(store.ids), HitAt(es, me, old(downPt).value.wx, old(downPt).value.wy), shift || ctrl)
      ensures !(button == LeftButton && old(downPt).Some?) ==> store.ids == old(store.ids)
      ensures button == RightButton ==> (issued, mode) == RightClick(old(mode), OwnedIds(old(store.ids), es, me), old(lastMove), es, me)
      ensures button != RightButton ==> issued == None && mode == old(mode)
      ensures store.hover == old(store.hover) && store.subscribers == old(store.subscribers)
      ensures !isDown && !dragging && downPt == None && lastMove == old(lastMove)
    {
      issued := None;
      if button == LeftButton && downPt.Some? {
        var additive := shift || ctrl;
        if dragging && lastMove.Some? {
          SelectInRect(me, es, DragBox(downPt.value, lastMove.value), additive);
        } else {
          SelectSingle(me, es, downPt.value.wx, downPt.value.wy, additive);
        }
      }
      if button == RightButton {
        var ids, _ := store.Get();
        var owned := FilterOwned(es, me, ids);
        if |owned| > 0 && lastMove.Some? {
          var target := HitTestPoint(es, me, lastMove.value.wx, lastMove.value.wy);
          var at := Point(lastMove.value.wx, lastMove.value.wy);
          if mode == AttackMove {
            if target.kind == Ground {
              issued := Some(Move(owned, at, true));
            } else if target.target.Some? {
              issued := Some(Attack(owned, target.target.value.id));
            }
            mode := Default;
          } else {
            if target.kind == Enemy && target.target.Some? {
              issued := Some(Attack(owned, target.target.value.id));
            } else if target.kind == Resource && target.target.Some? {
              issued := Some(Harvest(owned, target.target.value.id));
            } else {
              issued := Some(MoveLine(owned, at));
            }
          }
        }
      }
      isDown := false;
      dragging := false;
      downPt := None;
    }

    /** Key press: 'a' arms attack-move; Escape clears the selection and disarms it; 's' stops the owned selected ids. */
    method OnKeyDown(me: string, es: seq<Sprite>, key: string) returns (issued: Option<Order>)
      requires Valid()
      modifies this, store
      ensures Valid()
      ensures mode == KeyMode(old(mode), key)
      ensures key == "Escape" ==> store.ids == []
      ensures key != "Escape" ==> store.ids == old(store.ids)
      ensures (key == "s" || key == "S") && |OwnedIds(old(store.ids), es, me)| > 0 ==>
                issued == Some(Stop(OwnedIds(old(store.ids), es, me)))
      ensures !((key == "s" || key == "S") && |OwnedIds(old(store.ids), es, me)| > 0) ==> issued == None
      ensures store.hover == old(store.hover) && store.subscribers == old(store.subscribers)
      ensures downPt == old(downPt) && lastMove == old(lastMove) && dragging == old(dragging) && isDown == old(isDown)
    {
      issued := None;
      if key == "a" || key == "A" {
        mode := AttackMove;
      }
      if key == "Escape" {
        store.Clear();
        mode := Default;
      }
      if key == "s" || key == "S" {
        var ids, _ := store.Get();
        var owned := FilterOwned(es, me, ids);
        if |owned| > 0 {
          issued := Some(Stop(owned));
        }
      }
    }
  }

  /**
   * The owner id is read at each event: a rectangle drawn before the local
   * player's id is known picks nothing, the same rectangle afterwards picks
   * the player's unit; selections leave the store's subscribers registered.
   */
  method OwnerChangeScenario() returns (before: seq<string>, after: seq<string>, subscribed: bool)
    ensures before == [] && after == ["u1"] && subscribed
  {
    var store := new SelectionStore<HitResult>();
    store.OnChange(7);
    var input := new Input(store);
    var u := Sprite("u1", "unit", "p1", 10.0, 10.0, 4.0, 4.0, true, None);
    var box := Box(0.0, 20.0, 0.0, 20.0);
    input.SelectInRect("", [u], box, false);
    assert Picked([u], "", box) == [];
    DedupOfDistinct<string>([]);
    before := store.ids;
    input.SelectInRect("p1", [u], box, false);
    assert Picked([u], "p1", box) == ["u1"] by { assert [u][..0] == []; }
    DedupOfDistinct(["u1"]);
    after := store.ids;
    subscribed := 7 in store.subscribers;
  }
}
