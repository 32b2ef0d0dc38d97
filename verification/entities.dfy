/** Server records held in the catalogue, category, order and wishlist
    slices, and the two list updates their reducers share: replace the
    first record with a given `_id`, and drop every record with an `_id`. */
module Entities {
  import opened Js
  import Lists

  /** A record: its `_id` and the rest of its fields. */
  datatype Entity = Entity(id: string, fields: map<string, Val>)

  /** `items.findIndex(p => p._id === id)` */
  function IndexOfId(items: seq<Entity>, id: string): int {
    Lists.FindIndex(items, (e: Entity) => e.id == id)
  }

  /** `const index = items.findIndex(...); if (index !== -1) items[index] = e` */
  function ReplaceFirstById(items: seq<Entity>, e: Entity): seq<Entity> {
    var k := IndexOfId(items, e.id);
    if k != -1 then items[k := e] else items
  }

  /** `items.filter(p => p._id !== id)` */
  function RemoveById(items: seq<Entity>, id: string): seq<Entity> {
    Lists.Filter(items, (e: Entity) => e.id != id)
  }

  /** The replacement takes the place of the first record with its `_id`;
      the length and every other position are unchanged, and with no such
      record nothing changes. */
  lemma ReplaceFirstByIdSpec(items: seq<Entity>, e: Entity)
    ensures var r := ReplaceFirstById(items, e);
            var k := IndexOfId(items, e.id);
            && |r| == |items|
            && (k == -1 <==> forall i :: 0 <= i < |items| ==> items[i].id != e.id)
            && (k == -1 ==> r == items)
            && (k != -1 ==> items[k].id == e.id && r[k] == e && forall i :: 0 <= i < k ==> items[i].id != e.id)
            && forall i :: 0 <= i < |items| && i != k ==> r[i] == items[i]
  {
  }

  /** Replacing twice with the same record is replacing once. */
  lemma ReplaceFirstByIdIdempotent(items: seq<Entity>, e: Entity)
    ensures ReplaceFirstById(ReplaceFirstById(items, e), e) == ReplaceFirstById(items, e)
  {
    var k := IndexOfId(items, e.id);
    if k != -1 {
      var r := ReplaceFirstById(items, e);
      assert IndexOfId(r, e.id) == k by {
        assert r[k].id == e.id;
        forall i | 0 <= i < k ensures r[i].id != e.id {
          assert r[i] == items[i];
        }
      }
    }
  }

  /** Removal drops every record with the id, keeps the others in order,
      and does nothing when the id is absent. */
  lemma RemoveByIdSpec(items: seq<Entity>, id: string, more: seq<Entity>)
    ensures forall i :: 0 <= i < |RemoveById(items, id)| ==> RemoveById(items, id)[i].id != id
    ensures forall i :: 0 <= i < |items| && items[i].id != id ==> items[i] in RemoveById(items, id)
    ensures RemoveById(items + more, id) == RemoveById(items, id) + RemoveById(more, id)
    ensures (forall i :: 0 <= i < |items| ==> items[i].id != id) ==> RemoveById(items, id) == items
  {
    Lists.FilterConcat(items, more, (e: Entity) => e.id != id);
    if forall i :: 0 <= i < |items| ==> items[i].id != id {
      Lists.FilterKeepsAll(items, (e: Entity) => e.id != id);
    }
  }

  /** Removing a record just appended with a fresh id gives back the list. */
  lemma RemoveUndoesAppend(items: seq<Entity>, e: Entity)
    requires forall i :: 0 <= i < |items| ==> items[i].id != e.id
    ensures RemoveById(items + [e], e.id) == items
  {
    RemoveByIdSpec(items, e.id, [e]);
  }
}
