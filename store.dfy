/** The crawlers' module-level `items` dict: item id to `{name, owners}`. Items are
    registered (or re-registered, which resets their owners) and their owner lists
    grow by find-or-append; nothing is ever removed. */
module Store {
  import opened Records
  import opened OwnerMerge

  /** Every item's owner names are unique and its counts positive. */
  ghost predicate AllValid(items: map<ItemId, Item>) {
    forall id :: id in items ==> Unique(items[id].owners) && Positive(items[id].owners)
  }

  /** Counting `names` into an item whose owners are `owners0` merged with `done`
      leaves them merged with `done + names`, and every other item as it was. */
  lemma CountedAfter(items0: map<ItemId, Item>, id: ItemId, owners0: seq<Owner>, done: seq<string>, names: seq<string>,
                     before: map<ItemId, Item>, after: map<ItemId, Item>)
    requires id in items0
    requires before == items0[id := items0[id].(owners := MergeAll(owners0, done))]
    requires after == before[id := before[id].(owners := MergeAll(before[id].owners, names))]
    ensures after == items0[id := items0[id].(owners := MergeAll(owners0, done + names))]
  {
    MergeAllAppend(owners0, done, names);
  }

  /** Registering `id` and then counting `names` into it leaves it with exactly
      those names merged, whatever owners it had before. */
  lemma RegisteredThenCounted(before: map<ItemId, Item>, id: ItemId, name: string, names: seq<string>,
                              registered: map<ItemId, Item>, after: map<ItemId, Item>)
    requires registered == before[id := Item(name, [])]
    requires after == registered[id := registered[id].(owners := MergeAll(registered[id].owners, names))]
    ensures after == before[id := Item(name, MergeAll([], names))]
  {
    assert registered[id].(owners := MergeAll([], names)) == Item(name, MergeAll([], names));
  }

  class Snapshot {
    var items: map<ItemId, Item>

    ghost predicate Valid()
      reads this
    {
      AllValid(items)
    }

    /** `items = {}` */
    constructor ()
      ensures items == map[]
      ensures Valid()
    {
      items := map[];
    }

    /** `items[item_id] = {"name": name, "owners": []}`: last write wins. */
    method Register(id: ItemId, name: string)
      modifies this
      ensures items == old(items)[id := Item(name, [])]
      ensures old(Valid()) ==> Valid()
    {
      items := items[id := Item(name, [])];
    }

    /** The for-else over `items[item_id]["owners"]`: add 1 to the first entry named
        `username`, or append `{name: username, count: 1}`. */
    method CountOwner(id: ItemId, username: string)
      requires id in items
      modifies this
      ensures items == old(items)[id := old(items)[id].(owners := Merge(old(items)[id].owners, username))]
      ensures old(Valid()) ==> Valid()
    {
      var owners := items[id].owners;
      MergeFacts(owners, username);
      var k := FindOwner(owners, username);
      if k < |owners| {
        MergeIncrementsFirstMatch(owners, username, k);
        owners := owners[k := owners[k].(count := owners[k].count + 1)];
      } else {
        InNamesIndexOf(owners, username);
        MergeAppendsNewName(owners, username);
        owners := owners + [Owner(username, 1)];
      }
      items := items[id := items[id].(owners := owners)];
    }

    /** The `for inv in inventories` loop of both owners loops: count each username,
        in order. */
    method CountOwners(id: ItemId, names: seq<string>)
      requires id in items
      modifies this
      ensures items == old(items)[id := old(items)[id].(owners := MergeAll(old(items)[id].owners, names))]
      ensures old(Valid()) ==> Valid()
    {
      ghost var items0 := items;
      var j := 0;
      while j < |names|
        invariant j <= |names|
        invariant items == items0[id := items0[id].(owners := MergeAll(items0[id].owners, names[..j]))]
        invariant old(Valid()) ==> Valid()
      {
        assert names[..j + 1][..j] == names[..j];
        CountOwner(id, names[j]);
        j := j + 1;
      }
      assert names[..j] == names;
    }
  }
}
