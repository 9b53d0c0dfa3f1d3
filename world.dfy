/**
 * The client's shadow world (wwwroot/data/world.js): players and entities
 * kept in two insertion-ordered maps keyed by string id, the server time and
 * the local player's id. Snapshots are merged into it partially: only the
 * entries a snapshot carries are touched, and only the fields they carry are
 * overwritten.
 */
module ClientWorld {
  import opened Wrappers
  import opened JsValues
  import opened Tables

  /** A stored player or entity: its properties, id and owner already strings. */
  type Record = map<string, Value>

  /** Which of the two maps of a snapshot is being merged. */
  datatype Section = Players | Entities

  /** `record.f`, undefined when absent. */
  function FieldOf(r: Record, f: string): Value {
    if f in r then r[f] else Undefined
  }

  /** The key applySnapshot stores an entry under; None for an entry it skips. */
  function EntryKey(v: Value): Option<string> {
    if !Truthy(v) || IsNullish(Field(v, "id")) then None
    else
      var k := ToJsString(Field(v, "id"));
      if k == "" then None else Some(k)
  }

  /** The key upsertEntity stores an entity under: unlike EntryKey it keeps the empty string. */
  function UpsertKey(v: Value): Option<string> {
    if !Truthy(v) || IsNullish(Field(v, "id")) then None else Some(ToJsString(Field(v, "id")))
  }

  /** `map.get(key) || { id: key }`. */
  function Base(prev: Option<Record>, key: string): Record {
    if prev.Some? then prev.value else map["id" := Str(key)]
  }

  /** The owner an entity is stored with: `String(v.owner)`, or the previous owner when `v.owner == null`. */
  function OwnerAfter(prev: Option<Record>, v: Value, key: string): Value {
    var o := Field(v, "owner");
    if IsNullish(o) then FieldOf(Base(prev, key), "owner") else Str(ToJsString(o))
  }

  /** Fields the merge writes itself instead of copying them from the entry. */
  predicate Forced(sec: Section, f: string) {
    f == "id" || (sec == Entities && f == "owner")
  }

  /** An entity owner as the world keeps it: a string, or undefined when none was ever given. */
  predicate OwnerNormal(r: Record) {
    "owner" in r && (r["owner"].Str? || r["owner"].Undefined?)
  }

  /**
   * The record stored for entry v under key, given the previous record:
   * `{ ...prev, ...v, id: key }` for a player and `{ ...prev, ...v, id: key, owner }` for an entity.
   */
  function Merged(sec: Section, prev: Option<Record>, v: Value, key: string): (r: Record)
    ensures "id" in r && r["id"] == Str(key)
    ensures forall f :: f in r <==> Forced(sec, f) || f in Spread(v) || (prev.Some? && f in prev.value)
    ensures forall f :: !Forced(sec, f) && f in Spread(v) ==> r[f] == Field(v, f)
    ensures forall f :: !Forced(sec, f) && f !in Spread(v) && prev.Some? && f in prev.value ==> r[f] == prev.value[f]
    ensures sec == Entities ==> "owner" in r && r["owner"] == OwnerAfter(prev, v, key)
    ensures sec == Entities && (prev.None? || OwnerNormal(prev.value)) ==> OwnerNormal(r)
  {
    var spread := Base(prev, key) + Spread(v) + map["id" := Str(key)];
    if sec == Players then spread else spread["owner" := OwnerAfter(prev, v, key)]
  }

  /** A table of a section as the world keeps it: keyed by each record's own id, owners normalised. */
  ghost predicate WellFormed(sec: Section, t: Table<Record>) {
    && t.Valid()
    && (forall k :: k in t.rows ==> FieldOf(t.rows[k], "id") == Str(k))
    && (sec == Entities ==> forall k :: k in t.rows ==> OwnerNormal(t.rows[k]))
  }

  /** One iteration of the merge loop of applySnapshot. */
  function MergeEntry(sec: Section, t: Table<Record>, v: Value): Table<Record> {
    match EntryKey(v)
    case None => t
    case Some(k) => t.Put(k, Merged(sec, t.Get(k), v, k))
  }

  /** The merge loop of applySnapshot over a whole list of entries. */
  function MergeAll(sec: Section, t: Table<Record>, list: seq<Value>): Table<Record>
    decreases |list|
  {
    if list == [] then t
    else MergeEntry(sec, MergeAll(sec, t, list[..|list| - 1]), list[|list| - 1])
  }

  /** upsertEntity's effect on the entity table. */
  function Upserted(t: Table<Record>, v: Value): Table<Record> {
    match UpsertKey(v)
    case None => t
    case Some(k) => t.Put(k, Merged(Entities, t.Get(k), v, k))
  }

  /** The entries of `snap[name]`: the array itself, Object.values of an object, nothing when falsy. */
  function Collection(snap: Value, name: string): seq<Value> {
    var c := Field(snap, name);
    if Truthy(c) then ListOf(c) else []
  }

  function SectionName(sec: Section): string {
    if sec == Players then "players" else "entities"
  }

  /** A table after applySnapshot(snap). */
  function SnapTable(sec: Section, t: Table<Record>, snap: Value): Table<Record> {
    if IsObject(snap) then MergeAll(sec, t, Collection(snap, SectionName(sec))) else t
  }

  /** `time` after applySnapshot(snap). */
  function SnapTime(time: int, snap: Value): int {
    if IsObject(snap) && Field(snap, "time").Num? then Field(snap, "time").n else time
  }

  /** `myId` after applySnapshot(snap). */
  function SnapMyId(myId: Option<string>, snap: Value): Option<string> {
    var m := Field(snap, "myId");
    if IsObject(snap) && (m.Str? || m.Num?) then Some(ToJsString(m)) else myId
  }

  /** The entities of `keys` (in that order) whose owner is the string `owner`. */
  function OwnedBy(keys: seq<string>, rows: map<string, Record>, owner: string): (r: seq<Record>)
    requires forall k :: k in keys ==> k in rows
    ensures forall x :: x in r ==> FieldOf(x, "owner") == Str(owner)
    ensures forall k :: k in keys && FieldOf(rows[k], "owner") == Str(owner) ==> rows[k] in r
    ensures |r| <= |keys|
  {
    if keys == [] then []
    else
      var init := OwnedBy(keys[..|keys| - 1], rows, owner);
      var last := rows[keys[|keys| - 1]];
      assert forall k :: k in keys ==> k in keys[..|keys| - 1] || k == keys[|keys| - 1] by {
        assert keys == keys[..|keys| - 1] + [keys[|keys| - 1]];
      }
      if FieldOf(last, "owner") == Str(owner) then init + [last] else init
  }

  // ---- Properties of the merge

  /** Merging keeps a table well formed, and keys already present keep their place in the order. */
  lemma {:induction false} MergeAllWellFormed(sec: Section, t: Table<Record>, list: seq<Value>)
    requires WellFormed(sec, t)
    ensures WellFormed(sec, MergeAll(sec, t, list))
    ensures t.keys <= MergeAll(sec, t, list).keys
    decreases |list|
  {
    if list != [] {
      var n := |list| - 1;
      MergeAllWellFormed(sec, t, list[..n]);
      var t0 := MergeAll(sec, t, list[..n]);
      match EntryKey(list[n])
      case None =>
      case Some(k) =>
        var r := Merged(sec, t0.Get(k), list[n], k);
        assert t0.Put(k, r).rows == t0.rows[k := r];
    }
  }

  /** Merging a concatenation is merging its parts one after the other. */
  lemma {:induction false} MergeAllAppend(sec: Section, t: Table<Record>, a: seq<Value>, b: seq<Value>)
    ensures MergeAll(sec, t, a + b) == MergeAll(sec, MergeAll(sec, t, a), b)
    decreases |b|
  {
    if b == [] {
      assert a + b == a;
    } else {
      var n := |b| - 1;
      assert (a + b)[..|a + b| - 1] == a + b[..n];
      assert (a + b)[|a + b| - 1] == b[n];
      MergeAllAppend(sec, t, a, b[..n]);
    }
  }

  /** An entry that is falsy, has a null id or an id that stringifies to "" changes nothing. */
  lemma {:induction false} MergeAllSkips(sec: Section, t: Table<Record>, a: seq<Value>, v: Value, b: seq<Value>)
    requires EntryKey(v).None?
    ensures MergeAll(sec, t, a + [v] + b) == MergeAll(sec, t, a + b)
  {
    MergeAllAppend(sec, t, a + [v], b);
    MergeAllAppend(sec, t, a, [v]);
    assert [v][..0] == [];
    MergeAllAppend(sec, t, a, b);
  }

  /** A key that no entry of the list is stored under keeps its previous record, or stays absent. */
  lemma {:induction false} MergeAllUntouched(sec: Section, t: Table<Record>, list: seq<Value>, k: string)
    requires forall i :: 0 <= i < |list| ==> EntryKey(list[i]) != Some(k)
    ensures MergeAll(sec, t, list).Get(k) == t.Get(k)
    decreases |list|
  {
    if list != [] {
      var n := |list| - 1;
      MergeAllUntouched(sec, t, list[..n], k);
    }
  }

  /** After a merge a key is present iff it was before or some entry of the list is stored under it. */
  lemma {:induction false} MergeAllKeys(sec: Section, t: Table<Record>, list: seq<Value>, k: string)
    ensures k in MergeAll(sec, t, list).rows <==>
            k in t.rows || exists i :: 0 <= i < |list| && EntryKey(list[i]) == Some(k)
    decreases |list|
  {
    if list != [] {
      var n := |list| - 1;
      MergeAllKeys(sec, t, list[..n], k);
      if exists i :: 0 <= i < |list| && EntryKey(list[i]) == Some(k) {
        var i :| 0 <= i < |list| && EntryKey(list[i]) == Some(k);
        if i < n { assert list[..n][i] == list[i]; }
      }
      if exists i :: 0 <= i < n && EntryKey(list[..n][i]) == Some(k) {
        var i :| 0 <= i < n && EntryKey(list[..n][i]) == Some(k);
        assert list[i] == list[..n][i];
      }
    }
  }

  /**
   * The record stored under a key is the last entry for that key merged over
   * what the earlier entries left: with Merged's contract, the fields that
   * entry carries win and every other earlier field is kept.
   */
  lemma {:induction false} MergeAllLastEntry(sec: Section, t: Table<Record>, list: seq<Value>, i: nat, k: string)
    requires i < |list| && EntryKey(list[i]) == Some(k)
    requires forall j :: i < j < |list| ==> EntryKey(list[j]) != Some(k)
    ensures MergeAll(sec, t, list).Get(k) == Some(Merged(sec, MergeAll(sec, t, list[..i]).Get(k), list[i], k))
  {
    var head, rest := list[..i + 1], list[i + 1..];
    assert list == head + rest;
    MergeAllAppend(sec, t, head, rest);
    assert head[..i] == list[..i];
    forall j | 0 <= j < |rest| ensures EntryKey(rest[j]) != Some(k) {
      assert rest[j] == list[i + 1 + j];
    }
    MergeAllUntouched(sec, MergeAll(sec, t, head), rest, k);
  }

  /** A snapshot without the section leaves that whole table unchanged. */
  lemma AbsentSectionUnchanged(sec: Section, t: Table<Record>, snap: Value)
    requires !Truthy(Field(snap, SectionName(sec)))
    ensures SnapTable(sec, t, snap) == t
  {
  }

  /** applySnapshot keeps an entry whose id is "" out, upsertEntity stores it under "". */
  lemma EmptyIdDiffers()
    ensures EntryKey(Obj([("id", Str(""))])) == None
    ensures UpsertKey(Obj([("id", Str(""))])) == Some("")
  {
  }

  /** An entry with a numeric id is never skipped. */
  lemma NumericIdKept(v: Value)
    requires v.Obj? && Field(v, "id").Num?
    ensures EntryKey(v) == Some(IntToString(Field(v, "id").n))
  {
  }

  /**
   * The loop of applySnapshot over one section's entries: falsy entries,
   * null ids and ids that stringify to "" are skipped, every other entry is
   * merged over the record stored under its string id.
   */
  method MergeLoop(sec: Section, t: Table<Record>, list: seq<Value>) returns (r: Table<Record>)
    ensures r == MergeAll(sec, t, list)
  {
    r := t;
    for i := 0 to |list|
      invariant r == MergeAll(sec, t, list[..i])
    {
      assert list[..i + 1][..i] == list[..i];
      var v := list[i];
      if !Truthy(v) {
        continue;
      }
      var id := Field(v, "id");
      if IsNullish(id) {
        continue;
      }
      var key := ToJsString(id);
      if key == "" {
        continue;
      }
      var prev := r.Get(key);
      r := r.Put(key, Merged(sec, prev, v, key));
    }
    assert list[..|list|] == list;
  }

  class World {
    var time: int
    var players: Table<Record>
    var entities: Table<Record>
    var myId: Option<string>

    ghost predicate Valid()
      reads this
    {
      WellFormed(Players, players) && WellFormed(Entities, entities)
    }

    /** `new World(seed)`: empty, then seeded with applySnapshot when seed is truthy. */
    constructor(seed: Value)
      ensures Valid()
      ensures Truthy(seed) ==> time == SnapTime(0, seed) && myId == SnapMyId(None, seed)
      ensures Truthy(seed) ==> players == SnapTable(Players, EmptyTable(), seed)
      ensures Truthy(seed) ==> entities == SnapTable(Entities, EmptyTable(), seed)
      ensures !Truthy(seed) ==> time == 0 && myId == None && players == EmptyTable() && entities == EmptyTable()
    {
      time := 0;
      players := EmptyTable();
      entities := EmptyTable();
      myId := None;
      new;
      if Truthy(seed) {
        ApplySnapshot(seed);
      }
    }

    /** applySnapshot: a partial merge of snap into the world. */
    method ApplySnapshot(snap: Value)
      requires Valid()
      modifies this
      ensures Valid()
      ensures time == SnapTime(old(time), snap)
      ensures myId == SnapMyId(old(myId), snap)
      ensures players == SnapTable(Players, old(players), snap)
      ensures entities == SnapTable(Entities, old(entities), snap)
    {
      if !Truthy(snap) || !IsObject(snap) {
        return;
      }
      var t := Field(snap, "time");
      if t.Num? {
        time := t.n;
      }
      var m := Field(snap, "myId");
      if m.Str? || m.Num? {
        myId := Some(ToJsString(m));
      }

      var ps := Field(snap, "players");
      if Truthy(ps) {
        MergeAllWellFormed(Players, players, ListOf(ps));
        players := MergeLoop(Players, players, ListOf(ps));
      }
      var es := Field(snap, "entities");
      if Truthy(es) {
        MergeAllWellFormed(Entities, entities, ListOf(es));
        entities := MergeLoop(Entities, entities, ListOf(es));
      }
    }

    /** getMyPlayer: the record of the local player, None when myId is unset or unknown. */
    function GetMyPlayer(): (r: Option<Record>)
      requires Valid()
      reads this
      ensures r.Some? <==> myId.Some? && myId.value != "" && myId.value in players.rows
      ensures r.Some? ==> r.value == players.rows[myId.value] && FieldOf(r.value, "id") == Str(myId.value)
    {
      if myId.None? || myId.value == "" then None else players.Get(myId.value)
    }

    /** getEntitiesByOwner: the entities owned by `owner`, in map order; nothing for "". */
    method GetEntitiesByOwner(owner: string) returns (out: seq<Record>)
      requires Valid()
      ensures owner == "" ==> out == []
      ensures owner != "" ==> out == OwnedBy(entities.keys, entities.rows, owner)
      ensures forall x :: x in out ==> FieldOf(x, "owner") == Str(owner)
      ensures owner != "" ==> forall k :: k in entities.rows && FieldOf(entities.rows[k], "owner") == Str(owner) ==> entities.rows[k] in out
    {
      if owner == "" {
        return [];
      }
      out := [];
      var values := entities.Values();
      for i := 0 to |values|
        invariant out == OwnedBy(entities.keys[..i], entities.rows, owner)
      {
        assert entities.keys[..i + 1][..i] == entities.keys[..i];
        var e := values[i];
        if FieldOf(e, "owner") == Str(owner) {
          out := out + [e];
        }
      }
      assert entities.keys[..|values|] == entities.keys;
    }

    /** getEntity: the entity stored under id, or None. */
    function GetEntity(id: string): (r: Option<Record>)
      requires Valid()
      reads this
      ensures r.Some? <==> id in entities.rows
      ensures r.Some? ==> r.value == entities.rows[id] && FieldOf(r.value, "id") == Str(id) && OwnerNormal(r.value)
    {
      entities.Get(id)
    }

    /** upsertEntity: merge one entity, keyed by String(e.id). */
    method UpsertEntity(e: Value)
      requires Valid()
      modifies this
      ensures Valid()
      ensures entities == Upserted(old(entities), e)
      ensures time == old(time) && myId == old(myId) && players == old(players)
    {
      if !Truthy(e) || IsNullish(Field(e, "id")) {
        return;
      }
      var id := ToJsString(Field(e, "id"));
      var prev := entities.Get(id);
      entities := entities.Put(id, Merged(Entities, prev, e, id));
    }

    /** removeEntity: deletes that key and nothing else. */
    method RemoveEntity(id: string)
      requires Valid()
      modifies this
      ensures Valid()
      ensures entities == old(entities).Delete(id)
      ensures entities.rows == old(entities.rows) - {id}
      ensures time == old(time) && myId == old(myId) && players == old(players)
    {
      entities := entities.Delete(id);
    }

    /** clear: both maps emptied, time 0, no local player. */
    method Clear()
      modifies this
      ensures Valid()
      ensures players == EmptyTable() && entities == EmptyTable() && time == 0 && myId == None
    {
      players := EmptyTable();
      entities := EmptyTable();
      time := 0;
      myId := None;
    }
  }
}
