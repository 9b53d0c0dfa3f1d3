/**
 * The selection store (wwwroot/ui/selectionStore.js): the selected entity
 * ids as an insertion-ordered set, the current hover value and the set of
 * change subscribers. Subscribers are named by handles; the asynchronous
 * notification they receive is not part of this model.
 */
module Selection {
  import opened Wrappers
  import opened Seqs

  /** A subscriber function, identified as JavaScript identifies functions in a Set. */
  type Subscriber = nat

  class SelectionStore<H> {
    var ids: seq<string>
    var hover: Option<H>
    var subscribers: set<Subscriber>

    ghost predicate Valid()
      reads this
    {
      Distinct(ids)
    }

    constructor()
      ensures Valid() && ids == [] && hover == None && subscribers == {}
    {
      ids, hover, subscribers := [], None, {};
    }

    /** get(): a fresh array of the selected ids, in insertion order, and the hover value. */
    method Get() returns (selected: seq<string>, hovered: Option<H>)
      requires Valid()
      ensures selected == ids && hovered == hover
      ensures Distinct(selected)
    {
      selected, hovered := ids, hover;
    }

    /** set(list): the selection becomes the distinct elements of list, first occurrences in order. */
    method Set(list: seq<string>)
      modifies this
      ensures Valid()
      ensures ids == Dedup(list)
      ensures forall id :: id in ids <==> id in list
      ensures hover == old(hover) && subscribers == old(subscribers)
    {
      ids := Dedup(list);
    }

    /** add(id): id joins the selection; an id already selected changes nothing. */
    method Add(id: string)
      requires Valid()
      modifies this
      ensures Valid()
      ensures ids == Insert(old(ids), id)
      ensures id in old(ids) ==> ids == old(ids)
      ensures forall x :: x in ids <==> x in old(ids) || x == id
      ensures hover == old(hover) && subscribers == old(subscribers)
    {
      if id !in ids {
        ids := ids + [id];
      }
    }

    /** del(id): id leaves the selection; every other id stays, in order. */
    method Delete(id: string)
      requires Valid()
      modifies this
      ensures Valid()
      ensures ids == Without(old(ids), id)
      ensures forall x :: x in ids <==> x in old(ids) && x != id
      ensures hover == old(hover) && subscribers == old(subscribers)
    {
      ids := Without(ids, id);
    }

    /** clear(): nothing selected; the hover value is kept. */
    method Clear()
      modifies this
      ensures Valid()
      ensures ids == []
      ensures hover == old(hover) && subscribers == old(subscribers)
    {
      ids := [];
    }

    /** setHovel(h): only the hover value changes. */
    method SetHover(h: H)
      modifies this
      ensures hover == Some(h)
      ensures ids == old(ids) && subscribers == old(subscribers)
    {
      hover := Some(h);
    }

    /** onChange(fn): registers fn once, however often it is passed. */
    method OnChange(fn: Subscriber)
      modifies this
      ensures subscribers == old(subscribers) + {fn}
      ensures ids == old(ids) && hover == old(hover)
    {
      subscribers := subscribers + {fn};
    }

    /** The function onChange(fn) returns: removes exactly fn. */
    method Unsubscribe(fn: Subscriber) returns (removed: bool)
      modifies this
      ensures removed == (fn in old(subscribers))
      ensures subscribers == old(subscribers) - {fn}
      ensures ids == old(ids) && hover == old(hover)
    {
      removed := fn in subscribers;
      subscribers := subscribers - {fn};
    }
  }

  /** Selecting a list, then adding and deleting one id, as a caller sees it. */
  method StoreScenario() returns (first: seq<string>, second: seq<string>, third: seq<string>)
    ensures first == ["u1", "u2"]
    ensures second == ["u1", "u2", "u3"]
    ensures third == ["u2", "u3"]
  {
    var store := new SelectionStore<string>();
    store.Set(["u1", "u2", "u1"]);
    assert store.ids == ["u1", "u2"] by {
      var l := ["u1", "u2", "u1"];
      assert l[..2][..1][..0] == [];
      assert InsertAll([], l[..2][..1]) == ["u1"];
      assert InsertAll([], l[..2]) == ["u1", "u2"];
      assert InsertAll([], l) == Insert(["u1", "u2"], "u1");
    }
    var hovered;
    first, hovered := store.Get();
    store.Add("u3");
    store.Add("u1");
    second, hovered := store.Get();
    store.Delete("u1");
    third, hovered := store.Get();
  }
}
