/** The `for entry in ...` loop both crawlers run over a listed items page: each
    entry's id is registered as `{name, owners: []}` and its owners loop runs to
    the end before the next entry is looked at. */
module Registration {
  import opened Records
  import opened OwnerMerge
  import opened Store

  /** What the items loop learns from one item's owners loop: the owners requests
      sent by its end, the usernames it merged, in order, and whether it finished
      (one that did not is still running, so the items loop never resumes). */
  datatype OwnersOutcome = OwnersOutcome(sent: nat, merged: seq<string>, finished: bool)

  /** The snapshot after a page's entries, the owners requests sent, and whether an
      owners loop failed to finish. */
  datatype Registered = Registered(items: map<ItemId, Item>, ownersSent: nat, stopped: bool)

  /** Register each entry's item with no owners (overwriting any earlier one with
      that id), then run its owners loop with the items loop's remaining fuel; the
      item's owner list is then the merge of that loop's usernames. No item is
      dropped (RegisterAllKeys says which are added). */
  function RegisterAll(ownersLoop: (nat, nat) -> OwnersOutcome, fuel: nat, items: map<ItemId, Item>, entries: seq<Entry>, ownersSent: nat): (r: Registered)
    ensures items.Keys <= r.items.Keys
    decreases |entries|
  {
    if entries == [] then Registered(items, ownersSent, false)
    else
      var e := entries[0];
      var w := ownersLoop(ownersSent, fuel);
      var items' := items[e.id := Item(ItemName(e), MergeAll([], w.merged))];
      if !w.finished then Registered(items', w.sent, true)
      else
        RegisterAll(ownersLoop, fuel, items', entries[1..], w.sent)
  }

  /** Registration of a non-empty list, one entry at a time. */
  lemma RegisterAllFirst(ownersLoop: (nat, nat) -> OwnersOutcome, fuel: nat, items: map<ItemId, Item>, entries: seq<Entry>, ownersSent: nat,
                         w: OwnersOutcome, items': map<ItemId, Item>)
    requires entries != [] && w == ownersLoop(ownersSent, fuel)
    requires items' == items[entries[0].id := Item(ItemName(entries[0]), MergeAll([], w.merged))]
    ensures RegisterAll(ownersLoop, fuel, items, entries, ownersSent)
      == if !w.finished then Registered(items', w.sent, true) else RegisterAll(ownersLoop, fuel, items', entries[1..], w.sent)
  {
  }

  /** The ids a list of entries registers. */
  function Ids(entries: seq<Entry>): set<ItemId> {
    set e | e in entries :: e.id
  }

  /** Registration only writes: the result is the old map overridden by what the
      entries alone produce, so earlier owners of a re-registered id are lost. */
  lemma {:induction false} RegisterAllOverrides(ownersLoop: (nat, nat) -> OwnersOutcome, fuel: nat, items: map<ItemId, Item>, entries: seq<Entry>, ownersSent: nat)
    ensures var base := RegisterAll(ownersLoop, fuel, map[], entries, ownersSent);
      RegisterAll(ownersLoop, fuel, items, entries, ownersSent) == base.(items := items + base.items)
    decreases |entries|
  {
    if entries != [] {
      var e := entries[0];
      var w := ownersLoop(ownersSent, fuel);
      var it := Item(ItemName(e), MergeAll([], w.merged));
      if w.finished {
        RegisterAllOverrides(ownersLoop, fuel, items[e.id := it], entries[1..], w.sent);
        RegisterAllOverrides(ownersLoop, fuel, map[e.id := it], entries[1..], w.sent);
        var rest := RegisterAll(ownersLoop, fuel, map[], entries[1..], w.sent);
        assert items[e.id := it] + rest.items == items + (map[e.id := it] + rest.items);
      } else {
        assert items[e.id := it] == items + map[][e.id := it];
      }
    }
  }

  /** Registration leaves every id the entries do not carry alone; when it
      completes, it adds exactly the entries' ids. */
  lemma {:induction false} RegisterAllKeys(ownersLoop: (nat, nat) -> OwnersOutcome, fuel: nat, items: map<ItemId, Item>, entries: seq<Entry>, ownersSent: nat)
    ensures var r := RegisterAll(ownersLoop, fuel, items, entries, ownersSent);
      && (forall id :: id in items && id !in Ids(entries) ==> r.items[id] == items[id])
      && (!r.stopped ==> r.items.Keys == items.Keys + Ids(entries))
    decreases |entries|
  {
    if entries != [] {
      var e := entries[0];
      var w := ownersLoop(ownersSent, fuel);
      var items' := items[e.id := Item(ItemName(e), MergeAll([], w.merged))];
      assert Ids(entries) == {e.id} + Ids(entries[1..]) by {
        assert forall x :: x in entries <==> x == e || x in entries[1..] by {
          assert entries == [e] + entries[1..];
        }
      }
      if w.finished {
        RegisterAllKeys(ownersLoop, fuel, items', entries[1..], w.sent);
      }
    }
  }

  /** After a completed registration each id is named after the last entry that
      carries it, and its owners are those of that entry's own owners loop alone:
      whatever an earlier entry with the same id collected is gone. */
  lemma {:induction false} RegisterAllLastWins(ownersLoop: (nat, nat) -> OwnersOutcome, fuel: nat, items: map<ItemId, Item>, entries: seq<Entry>, ownersSent: nat, k: nat)
    requires k < |entries| && entries[k].id !in Ids(entries[k + 1..])
    requires !RegisterAll(ownersLoop, fuel, items, entries, ownersSent).stopped
    ensures var r := RegisterAll(ownersLoop, fuel, items, entries, ownersSent);
      && entries[k].id in r.items
      && r.items[entries[k].id].name == ItemName(entries[k])
      && exists s: nat :: r.items[entries[k].id].owners == MergeAll([], ownersLoop(s, fuel).merged)
    decreases |entries|
  {
    var e := entries[0];
    var w := ownersLoop(ownersSent, fuel);
    var items' := items[e.id := Item(ItemName(e), MergeAll([], w.merged))];
    if k > 0 {
      assert entries[1..][k - 1] == entries[k] && entries[1..][k..] == entries[k + 1..];
      RegisterAllLastWins(ownersLoop, fuel, items', entries[1..], w.sent, k - 1);
    } else {
      RegisterAllKeys(ownersLoop, fuel, items', entries[1..], w.sent);
      assert e.id in items' && e.id !in Ids(entries[1..]);
      var r := RegisterAll(ownersLoop, fuel, items, entries, ownersSent);
      assert r.items[e.id].owners == MergeAll([], ownersLoop(ownersSent, fuel).merged);
    }
  }

  /** When every owners loop run with this fuel finishes, so does the registration
      of a whole page. */
  lemma {:induction false} RegisterAllCompletes(ownersLoop: (nat, nat) -> OwnersOutcome, fuel: nat, items: map<ItemId, Item>, entries: seq<Entry>, ownersSent: nat)
    requires forall s: nat :: ownersLoop(s, fuel).finished
    ensures !RegisterAll(ownersLoop, fuel, items, entries, ownersSent).stopped
    decreases |entries|
  {
    if entries != [] {
      var e := entries[0];
      var w := ownersLoop(ownersSent, fuel);
      var items' := items[e.id := Item(ItemName(e), MergeAll([], w.merged))];
      RegisterAllCompletes(ownersLoop, fuel, items', entries[1..], w.sent);
    }
  }

  /** Registration keeps every item's owner names unique and its counts positive. */
  lemma {:induction false} RegisterAllValid(ownersLoop: (nat, nat) -> OwnersOutcome, fuel: nat, items: map<ItemId, Item>, entries: seq<Entry>, ownersSent: nat)
    requires AllValid(items)
    ensures AllValid(RegisterAll(ownersLoop, fuel, items, entries, ownersSent).items)
    decreases |entries|
  {
    if entries != [] {
      var e := entries[0];
      var w := ownersLoop(ownersSent, fuel);
      MergeAllFromEmpty(w.merged);
      var items' := items[e.id := Item(ItemName(e), MergeAll([], w.merged))];
      assert AllValid(items');
      if w.finished {
        RegisterAllValid(ownersLoop, fuel, items', entries[1..], w.sent);
      }
    }
  }
}
