/**
 * Content objects shared by every block and unit: item kinds and the registry that
 * resolves an item id read from a save back to an item.
 */
module Content {
  import opened Wrappers

  /** An item kind. `id` is its index in the content registry. */
  datatype Item = Item(id: nat, explosiveness: real)

  /** The loaded item kinds, each stored at the index equal to its id. */
  ghost predicate WellFormed(registry: seq<Item>)
  {
    forall i :: 0 <= i < |registry| ==> registry[i].id == i
  }

  /** True when `item` is the registered item with its id. */
  ghost predicate Registered(registry: seq<Item>, item: Item)
  {
    item.id < |registry| && registry[item.id] == item
  }

  /** The content loader's item lookup: the item with that id, or None (null) for an id out of range. */
  function ItemById(registry: seq<Item>, id: int): (r: Option<Item>)
    requires WellFormed(registry)
    ensures r.Some? <==> 0 <= id < |registry|
    ensures r.Some? ==> r.value.id == id && Registered(registry, r.value)
  {
    if 0 <= id < |registry| then Some(registry[id]) else None
  }
}
