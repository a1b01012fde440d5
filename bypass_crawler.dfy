/** `process_all_items` and `process_owners` of the crawler that goes through the
    local bypass proxy. Both are `while True` loops over a `page` counter; here each
    loop is cut after `fuel` iterations, and running out is an explicit outcome
    (the program would still be looping). The loops are specified over a `Source`
    (see BypassFetch); `ItemsSource` and `OwnersSource` tie it to the proxy and the
    retry budgets. */
module BypassCrawler {
  import opened Records
  import opened OwnerMerge
  import opened Markup
  import opened BypassFetch
  import opened Store
  import opened Registration

  /** What the crawler sees of the world: the proxy's answer to the n-th items
      request and to the n-th owners request, and `json.loads` on a cleaned body
      (None stands for a JSONDecodeError). */
  datatype Net = Net(
    itemsProxy: nat -> Attempt,
    ownersProxy: nat -> Attempt,
    loadItems: string -> Option<ItemsPage>,
    loadOwners: string -> Option<OwnersPage>)

  /** `fetch_items` then `json.loads`, five attempts per page. */
  function ItemsSource(net: Net): Source<ItemsPage> {
    SourceOf(net.itemsProxy, ITEMS_MAX_RETRIES, net.loadItems)
  }

  /** `fetch_owners` then `json.loads`, seven attempts per page. */
  function OwnersSource(net: Net): Source<OwnersPage> {
    SourceOf(net.ownersProxy, OWNERS_MAX_RETRIES, net.loadOwners)
  }

  /** Why the owners loop stopped: `fetch_owners` gave None, the page had no
      inventories, the page was the last one, or the fuel ran out. */
  datatype OwnersEnd = Skipped | NoInventories | LastPage | OwnersOutOfFuel

  /** The owners requests sent so far, why the loop stopped, the page number of each
      iteration, and the usernames merged, in order. The loop never reads the item's
      owner list, so the list it leaves is `MergeAll(owners, merged)`. */
  datatype OwnersRun = OwnersRun(sent: nat, end: OwnersEnd, visited: seq<nat>, merged: seq<string>)

  /** What one iteration of the owners loop does: fetch again on the same page after
      a decode failure, go on to the next page after merging this one's usernames,
      or stop (with the usernames merged on this page, if any). */
  datatype OwnersStep =
    | Retry(sent: nat)
    | Advance(sent: nat, names: seq<string>)
    | Halt(sent: nat, end: OwnersEnd, names: seq<string>)

  /** What a decoded owners page makes the loop do: stop when it has no inventories
      (whatever `pages` says), merge its usernames and stop once `page >= pages`
      (0 when missing), or merge them and go on. */
  function OwnersDecide(p: OwnersPage, page: nat, sent: nat): (step: OwnersStep)
    ensures !step.Retry? && step.sent == sent
    ensures step.names == Usernames(InventoriesOf(p))
    ensures step.Halt? <==> InventoriesOf(p) == [] || page >= PageCount(p)
    ensures step.Halt? ==> step.end == (if InventoriesOf(p) == [] then NoInventories else LastPage)
  {
    if InventoriesOf(p) == [] then Halt(sent, NoInventories, [])
    else if page >= PageCount(p) then Halt(sent, LastPage, Usernames(InventoriesOf(p)))
    else Advance(sent, Usernames(InventoriesOf(p)))
  }

  /** One iteration of the owners loop on `page`, with `sent` owners requests made so
      far: stop if the fetch gave up, fetch again if the body does not decode, and
      otherwise decide on the decoded page. */
  function OwnersIteration(src: Source<OwnersPage>, page: nat, sent: nat): (step: OwnersStep)
    ensures step.sent == sent + src.fetch(sent).attempts
    ensures step.Halt? && step.end == Skipped <==> src.fetch(sent).body.None?
    ensures step.Retry? <==> src.fetch(sent).body.Some? && src.load(src.fetch(sent).body.value).None?
    ensures step.Halt? ==> step.end != OwnersOutOfFuel
  {
    var f := src.fetch(sent);
    var sent' := sent + f.attempts;
    match f.body
    case None => Halt(sent', Skipped, [])
    case Some(text) =>
      match src.load(text)
      case None => Retry(sent')
      case Some(p) => OwnersDecide(p, page, sent')
  }

  /** The owners loop from `page` on, with `sent` owners requests already made: it
      makes at most `fuel` iterations, runs out of fuel only after all of them, and
      never takes back a request. */
  function OwnersWalk(src: Source<OwnersPage>, page: nat, sent: nat, fuel: nat): (r: OwnersRun)
    ensures |r.visited| <= fuel
    ensures r.end == OwnersOutOfFuel ==> |r.visited| == fuel
    ensures sent <= r.sent
    decreases fuel
  {
    if fuel == 0 then OwnersRun(sent, OwnersOutOfFuel, [], [])
    else
      match OwnersIteration(src, page, sent)
      case Retry(sent') =>
        var r := OwnersWalk(src, page, sent', fuel - 1);
        r.(visited := [page] + r.visited)
      case Advance(sent', names) =>
        var r := OwnersWalk(src, page + 1, sent', fuel - 1);
        r.(visited := [page] + r.visited, merged := names + r.merged)
      case Halt(sent', end, names) =>
        OwnersRun(sent', end, [page], names)
  }

  /** The owners loop after its first iteration. */
  lemma OwnersWalkStep(src: Source<OwnersPage>, page: nat, sent: nat, fuel: nat)
    requires fuel > 0
    ensures var step := OwnersIteration(src, page, sent);
      var r := OwnersWalk(src, page, sent, fuel);
      && (step.Retry? ==>
            var q := OwnersWalk(src, page, step.sent, fuel - 1); r == q.(visited := [page] + q.visited))
      && (step.Advance? ==>
            var q := OwnersWalk(src, page + 1, step.sent, fuel - 1); r == q.(visited := [page] + q.visited, merged := step.names + q.merged))
      && (step.Halt? ==> r == OwnersRun(step.sent, step.end, [page], step.names))
  {
  }

  /** The owners loop that has merged `done` so far and now stands at `page`, with
      `sent` requests made and `fuel` iterations left, ends as `run` does. */
  ghost predicate OwnersTracks(src: Source<OwnersPage>, page: nat, sent: nat, fuel: nat, run: OwnersRun, done: seq<string>) {
    var r := OwnersWalk(src, page, sent, fuel);
    r.sent == run.sent && r.end == run.end && run.merged == done + r.merged
  }

  /** One iteration of the owners loop keeps it on track towards `run`. */
  lemma OwnersTrackStep(src: Source<OwnersPage>, page: nat, sent: nat, fuel: nat, run: OwnersRun, done: seq<string>, step: OwnersStep, next: nat, left: nat, done': seq<string>)
    requires fuel > 0 && OwnersTracks(src, page, sent, fuel, run, done)
    requires step == OwnersIteration(src, page, sent) && next == page + 1 && left == fuel - 1
    requires !step.Retry? ==> done' == done + step.names
    ensures step.Retry? ==> OwnersTracks(src, page, step.sent, left, run, done)
    ensures step.Advance? ==> OwnersTracks(src, next, step.sent, left, run, done')
    ensures step.Halt? ==> run.sent == step.sent && run.end == step.end && run.merged == done'
  {
    OwnersWalkStep(src, page, sent, fuel);
    if step.Advance? {
      var r := OwnersWalk(src, next, step.sent, left);
      assert done + (step.names + r.merged) == done' + r.merged;
    }
  }

  /** Pages are visited from `page` on, each iteration on the same page (after a
      decode failure) or the next one. */
  lemma {:induction false} OwnersWalkPages(src: Source<OwnersPage>, page: nat, sent: nat, fuel: nat)
    ensures var r := OwnersWalk(src, page, sent, fuel);
      && (fuel > 0 ==> |r.visited| > 0 && r.visited[0] == page)
      && Consecutive(r.visited)
    decreases fuel
  {
    if fuel > 0 {
      var left: nat := fuel - 1;
      var step := OwnersIteration(src, page, sent);
      OwnersWalkStep(src, page, sent, fuel);
      if step.Retry? {
        OwnersWalkPages(src, page, step.sent, left);
        ConsecutiveCons(page, OwnersWalk(src, page, step.sent, left).visited);
      } else if step.Advance? {
        var next: nat := page + 1;
        OwnersWalkPages(src, next, step.sent, left);
        ConsecutiveCons(page, OwnersWalk(src, next, step.sent, left).visited);
      }
    }
  }

  /** Every iteration of the owners loop costs one to seven requests, and a Skipped
      end comes from a fetch that gave up after all seven. */
  lemma {:induction false} OwnersWalkCost(src: Source<OwnersPage>, page: nat, sent: nat, fuel: nat)
    requires Bounded(src, OWNERS_MAX_RETRIES)
    ensures var r := OwnersWalk(src, page, sent, fuel);
      && sent + |r.visited| <= r.sent <= sent + OWNERS_MAX_RETRIES * |r.visited|
      && (r.end == Skipped ==> sent + OWNERS_MAX_RETRIES <= r.sent && GaveUpBefore(src, r.sent, OWNERS_MAX_RETRIES))
    decreases fuel
  {
    if fuel > 0 {
      var left: nat := fuel - 1;
      var step := OwnersIteration(src, page, sent);
      assert 1 <= step.sent - sent <= OWNERS_MAX_RETRIES;
      var r := OwnersWalk(src, page, sent, fuel);
      if step.Retry? {
        var q := OwnersWalk(src, page, step.sent, left);
        assert r.sent == q.sent && r.end == q.end && |r.visited| == |q.visited| + 1 by { OwnersWalkStep(src, page, sent, fuel); }
        OwnersWalkCost(src, page, step.sent, left);
      } else if step.Advance? {
        var next: nat := page + 1;
        var q := OwnersWalk(src, next, step.sent, left);
        assert r.sent == q.sent && r.end == q.end && |r.visited| == |q.visited| + 1 by { OwnersWalkStep(src, page, sent, fuel); }
        OwnersWalkCost(src, next, step.sent, left);
      } else {
        assert r == OwnersRun(step.sent, step.end, [page], step.names) by { OwnersWalkStep(src, page, sent, fuel); }
      }
    }
  }

  /** On the proxy, a Skipped end means the last seven owners requests all failed. */
  lemma OwnersSkipAfterFailures(net: Net, page: nat, sent: nat, fuel: nat)
    ensures var r := OwnersWalk(OwnersSource(net), page, sent, fuel);
      r.end == Skipped ==>
        sent + OWNERS_MAX_RETRIES <= r.sent
        && forall i :: r.sent - OWNERS_MAX_RETRIES <= i < r.sent ==> net.ownersProxy(i).BadEnvelope?
  {
    var src := OwnersSource(net);
    SourceOfBounded(net.ownersProxy, OWNERS_MAX_RETRIES, net.loadOwners);
    OwnersWalkCost(src, page, sent, fuel);
    var r := OwnersWalk(src, page, sent, fuel);
    if r.end == Skipped {
      SourceOfGaveUp(net.ownersProxy, OWNERS_MAX_RETRIES, net.loadOwners, r.sent);
    }
  }

  /** The page an iteration starting at request `n` works on: the text the fetch
      delivers at whatever attempt, decoded (None when the fetch gave up or the text
      does not decode). */
  function Delivered<P>(src: Source<P>, n: nat): Option<P> {
    match src.fetch(n).body
    case None => None
    case Some(text) => src.load(text)
  }

  /** The request at which a loop stands `count` iterations after one starting at
      request `from`, each iteration costing all the attempts of its fetch. */
  function After<P>(src: Source<P>, from: nat, count: nat): nat
    decreases count
  {
    if count == 0 then from else After(src, from + src.fetch(from).attempts, count - 1)
  }

  /** A fetch bounded by `maxRetries` attempts puts the loop at least one request
      and at most `maxRetries` requests further on per iteration. */
  lemma {:induction false} AfterBounds<P>(src: Source<P>, maxRetries: nat, from: nat, count: nat)
    requires Bounded(src, maxRetries)
    ensures from + count <= After(src, from, count) <= from + maxRetries * count
    decreases count
  {
    if count > 0 {
      AfterBounds(src, maxRetries, from + src.fetch(from).attempts, count - 1);
    }
  }

  /** The usernames on the pages delivered to `count` iterations in a row, the
      first starting at request `from`, in order. */
  function DeliveredNames(src: Source<OwnersPage>, from: nat, count: nat): seq<string>
    decreases count
  {
    if count == 0 then []
    else
      var here := match Delivered(src, from) case None => [] case Some(p) => Usernames(InventoriesOf(p));
      here + DeliveredNames(src, After(src, from, 1), count - 1)
  }

  /** One iteration of the owners loop whose fetch delivers, at whatever attempt,
      text that decodes to `p`: stop on a page without inventories or at the last
      page, and otherwise merge its usernames and go on to the next page. */
  lemma OwnersAnsweredStep(src: Source<OwnersPage>, page: nat, sent: nat, fuel: nat, p: OwnersPage, next: nat, sent': nat, left: nat)
    requires fuel > 0 && Delivered(src, sent) == Some(p)
    requires next == page + 1 && sent' == After(src, sent, 1) && left == fuel - 1
    ensures var r := OwnersWalk(src, page, sent, fuel);
      if InventoriesOf(p) == [] then r == OwnersRun(sent', NoInventories, [page], [])
      else if page >= PageCount(p) then r == OwnersRun(sent', LastPage, [page], Usernames(InventoriesOf(p)))
      else
        var q := OwnersWalk(src, next, sent', left);
        r == q.(visited := [page] + q.visited, merged := Usernames(InventoriesOf(p)) + q.merged)
  {
    assert OwnersIteration(src, page, sent) == OwnersDecide(p, page, sent');
    OwnersWalkStep(src, page, sent, fuel);
  }

  /** When every owners fetch from request `sent` on delivers, at whatever attempt,
      text that decodes, pages page, page + 1, ... are fetched one after another,
      and the loop stops at the first page that has no inventories, even when the
      declared page count is larger, or else at the first page whose number reaches
      `pages` (0 when missing); every username on those pages is merged, in order.
      Iteration i starts at request `After(src, sent, i)`. */
  lemma {:induction false} OwnersStopRule(src: Source<OwnersPage>, page: nat, sent: nat, fuel: nat, k: nat)
    requires k < fuel
    requires forall i: nat :: i <= k ==> Delivered(src, After(src, sent, i)).Some?
    requires forall i: nat :: i < k ==>
      InventoriesOf(Delivered(src, After(src, sent, i)).value) != [] && page + i < PageCount(Delivered(src, After(src, sent, i)).value)
    requires InventoriesOf(Delivered(src, After(src, sent, k)).value) == [] || page + k >= PageCount(Delivered(src, After(src, sent, k)).value)
    ensures var r := OwnersWalk(src, page, sent, fuel);
      && r.visited == Range(page, page + k + 1)
      && r.sent == After(src, sent, k + 1)
      && r.end == (if InventoriesOf(Delivered(src, After(src, sent, k)).value) == [] then NoInventories else LastPage)
      && r.merged == DeliveredNames(src, sent, k + 1)
    decreases k
  {
    assert After(src, sent, 0) == sent;
    var p := Delivered(src, sent).value;
    var names := Usernames(InventoriesOf(p));
    var sent': nat := After(src, sent, 1);
    var left: nat := fuel - 1;
    var next: nat := page + 1;
    var r := OwnersWalk(src, page, sent, fuel);
    if k > 0 {
      var k': nat := k - 1;
      var q := OwnersWalk(src, next, sent', left);
      assert r == q.(visited := [page] + q.visited, merged := names + q.merged) by {
        OwnersAnsweredStep(src, page, sent, fuel, p, next, sent', left);
      }
      forall i: nat | i <= k'
        ensures After(src, sent', i) == After(src, sent, i + 1)
      {
      }
      OwnersStopRule(src, next, sent', left, k');
      assert Range(page, page + k + 1) == [page] + Range(next, next + k' + 1);
      assert DeliveredNames(src, sent, k + 1) == names + DeliveredNames(src, sent', k' + 1);
    } else {
      assert r == OwnersRun(sent', if InventoriesOf(p) == [] then NoInventories else LastPage, [page], names) by {
        OwnersAnsweredStep(src, page, sent, fuel, p, next, sent', left);
      }
      assert Range(page, page + 1) == [page];
      assert DeliveredNames(src, sent, 1) == names + DeliveredNames(src, sent', 0);
    }
  }

  /** An owners loop that stops before its fuel runs out stops in the same way,
      with the same pages, requests and usernames, when given more fuel. */
  lemma {:induction false} OwnersWalkMoreFuel(src: Source<OwnersPage>, page: nat, sent: nat, fuel: nat, more: nat)
    requires fuel <= more && OwnersWalk(src, page, sent, fuel).end != OwnersOutOfFuel
    ensures OwnersWalk(src, page, sent, more) == OwnersWalk(src, page, sent, fuel)
    decreases fuel
  {
    var step := OwnersIteration(src, page, sent);
    var left: nat := fuel - 1;
    var more': nat := more - 1;
    OwnersWalkStep(src, page, sent, fuel);
    OwnersWalkStep(src, page, sent, more);
    if step.Retry? {
      OwnersWalkMoreFuel(src, page, step.sent, left, more');
    } else if step.Advance? {
      OwnersWalkMoreFuel(src, page + 1, step.sent, left, more');
    }
  }

  /** The owners loop of a freshly registered item, from page 1, given the owners
      requests sent so far and its fuel. */
  function OwnersLoop(src: Source<OwnersPage>): (nat, nat) -> OwnersOutcome {
    (sent: nat, fuel: nat) =>
      var r := OwnersWalk(src, 1, sent, fuel);
      OwnersOutcome(r.sent, r.merged, r.end != OwnersOutOfFuel)
  }

  datatype ItemsEnd = Finished | ItemsOutOfFuel

  /** The final snapshot, the items and owners requests sent, why the loop stopped,
      and the page number of each iteration. */
  datatype ItemsRun = ItemsRun(items: map<ItemId, Item>, itemsSent: nat, ownersSent: nat, end: ItemsEnd, visited: seq<nat>)

  /** What one iteration of the items loop does before its entries are processed:
      fetch again on the same page after a decode failure, skip to the next page, or
      process a list of entries with the page's `lastPage` (the page itself when missing). */
  datatype ItemsStep =
    | Refetch(sent: nat)
    | SkipPage(sent: nat)
    | Listed(sent: nat, entries: seq<Entry>, lastPage: int)

  /** A decoded items page whose `data` is not a list is skipped. */
  function ItemsDecide(p: ItemsPage, page: nat, sent: nat): (step: ItemsStep)
    ensures !step.Refetch? && step.sent == sent
    ensures step.SkipPage? <==> p.data.None?
    ensures step.Listed? ==> step.entries == p.data.value && (p.lastPage.None? ==> step.lastPage == page)
  {
    match p.data
    case None => SkipPage(sent)
    case Some(entries) => Listed(sent, entries, LastPageOr(p, page))
  }

  /** One iteration of the items loop on `page`, up to its entries: a page the fetch
      gave up on is skipped, one that does not decode is fetched again. */
  function ItemsIteration(src: Source<ItemsPage>, page: nat, sent: nat): (step: ItemsStep)
    ensures step.sent == sent + src.fetch(sent).attempts
    ensures src.fetch(sent).body.None? ==> step.SkipPage?
    ensures step.Refetch? <==> src.fetch(sent).body.Some? && src.load(src.fetch(sent).body.value).None?
  {
    var f := src.fetch(sent);
    var sent' := sent + f.attempts;
    match f.body
    case None => SkipPage(sent')
    case Some(text) =>
      match src.load(text)
      case None => Refetch(sent')
      case Some(p) => ItemsDecide(p, page, sent')
  }

  /** `ItemsIteration` on `src`, in the form the items walk takes it: the walk and
      the lemmas about its shape hold for any iteration function, and only the
      lemmas about particular fetches look inside this one. */
  function Iterate(src: Source<ItemsPage>): (nat, nat) -> ItemsStep {
    (page: nat, sent: nat) => ItemsIteration(src, page, sent)
  }

  /** The items loop from `page` on, where `iterate(page, sent)` is one iteration
      on `page` after `sent` items requests and `ownersLoop` is each item's owners
      loop; it ends once `page >= lastPage`. It makes at most `fuel` iterations and
      visits a page in each of them. */
  function ItemsWalk(ownersLoop: (nat, nat) -> OwnersOutcome, iterate: (nat, nat) -> ItemsStep, items: map<ItemId, Item>, page: nat, itemsSent: nat, ownersSent: nat, fuel: nat): (r: ItemsRun)
    ensures |r.visited| <= fuel
    ensures fuel > 0 ==> |r.visited| > 0
    decreases fuel
  {
    if fuel == 0 then ItemsRun(items, itemsSent, ownersSent, ItemsOutOfFuel, [])
    else
      match iterate(page, itemsSent)
      case Refetch(sent') =>
        var r := ItemsWalk(ownersLoop, iterate, items, page, sent', ownersSent, fuel - 1);
        r.(visited := [page] + r.visited)
      case SkipPage(sent') =>
        var r := ItemsWalk(ownersLoop, iterate, items, page + 1, sent', ownersSent, fuel - 1);
        r.(visited := [page] + r.visited)
      case Listed(sent', entries, last) =>
        var reg := RegisterAll(ownersLoop, fuel, items, entries, ownersSent);
        if reg.stopped then ItemsRun(reg.items, sent', reg.ownersSent, ItemsOutOfFuel, [page])
        else if page >= last then ItemsRun(reg.items, sent', reg.ownersSent, Finished, [page])
        else
          var r := ItemsWalk(ownersLoop, iterate, reg.items, page + 1, sent', reg.ownersSent, fuel - 1);
          r.(visited := [page] + r.visited)
  }

  /** The items loop after its first iteration. */
  lemma ItemsWalkStep(ownersLoop: (nat, nat) -> OwnersOutcome, iterate: (nat, nat) -> ItemsStep, items: map<ItemId, Item>, page: nat, itemsSent: nat, ownersSent: nat, fuel: nat)
    requires fuel > 0
    ensures var step := iterate(page, itemsSent);
      var r := ItemsWalk(ownersLoop, iterate, items, page, itemsSent, ownersSent, fuel);
      && (step.Refetch? ==>
            var q := ItemsWalk(ownersLoop, iterate, items, page, step.sent, ownersSent, fuel - 1); r == q.(visited := [page] + q.visited))
      && (step.SkipPage? ==>
            var q := ItemsWalk(ownersLoop, iterate, items, page + 1, step.sent, ownersSent, fuel - 1); r == q.(visited := [page] + q.visited))
      && (step.Listed? ==>
            var reg := RegisterAll(ownersLoop, fuel, items, step.entries, ownersSent);
            if reg.stopped then r == ItemsRun(reg.items, step.sent, reg.ownersSent, ItemsOutOfFuel, [page])
            else if page >= step.lastPage then r == ItemsRun(reg.items, step.sent, reg.ownersSent, Finished, [page])
            else
              var q := ItemsWalk(ownersLoop, iterate, reg.items, page + 1, step.sent, reg.ownersSent, fuel - 1);
              r == q.(visited := [page] + q.visited))
  {
  }

  /** The whole crawl never drops an item and keeps every item's owner names unique
      and counts positive. */
  lemma {:induction false} ItemsWalkValid(ownersLoop: (nat, nat) -> OwnersOutcome, iterate: (nat, nat) -> ItemsStep, items: map<ItemId, Item>, page: nat, itemsSent: nat, ownersSent: nat, fuel: nat)
    requires AllValid(items)
    ensures var r := ItemsWalk(ownersLoop, iterate, items, page, itemsSent, ownersSent, fuel);
      AllValid(r.items) && items.Keys <= r.items.Keys
    decreases fuel
  {
    if fuel > 0 {
      var left: nat := fuel - 1;
      var next: nat := page + 1;
      var step := iterate(page, itemsSent);
      ItemsWalkStep(ownersLoop, iterate, items, page, itemsSent, ownersSent, fuel);
      if step.Refetch? {
        ItemsWalkValid(ownersLoop, iterate, items, page, step.sent, ownersSent, left);
      } else if step.SkipPage? {
        ItemsWalkValid(ownersLoop, iterate, items, next, step.sent, ownersSent, left);
      } else {
        var reg := RegisterAll(ownersLoop, fuel, items, step.entries, ownersSent);
        RegisterAllValid(ownersLoop, fuel, items, step.entries, ownersSent);
        if !reg.stopped && page < step.lastPage {
          ItemsWalkValid(ownersLoop, iterate, reg.items, next, step.sent, reg.ownersSent, left);
        }
      }
    }
  }

  /** Items pages are visited from `page` on, each iteration on the same page (after
      a decode failure) or the next one. */
  lemma {:induction false} ItemsWalkPages(ownersLoop: (nat, nat) -> OwnersOutcome, iterate: (nat, nat) -> ItemsStep, items: map<ItemId, Item>, page: nat, itemsSent: nat, ownersSent: nat, fuel: nat)
    ensures var r := ItemsWalk(ownersLoop, iterate, items, page, itemsSent, ownersSent, fuel);
      && (fuel > 0 ==> r.visited[0] == page)
      && Consecutive(r.visited)
    decreases fuel
  {
    if fuel > 0 {
      var left: nat := fuel - 1;
      var next: nat := page + 1;
      var step := iterate(page, itemsSent);
      var r := ItemsWalk(ownersLoop, iterate, items, page, itemsSent, ownersSent, fuel);
      if step.Refetch? {
        var q := ItemsWalk(ownersLoop, iterate, items, page, step.sent, ownersSent, left);
        assert r.visited == [page] + q.visited by { ItemsWalkStep(ownersLoop, iterate, items, page, itemsSent, ownersSent, fuel); }
        ItemsWalkPages(ownersLoop, iterate, items, page, step.sent, ownersSent, left);
        ConsecutiveCons(page, q.visited);
      } else if step.SkipPage? {
        var q := ItemsWalk(ownersLoop, iterate, items, next, step.sent, ownersSent, left);
        assert r.visited == [page] + q.visited by { ItemsWalkStep(ownersLoop, iterate, items, page, itemsSent, ownersSent, fuel); }
        ItemsWalkPages(ownersLoop, iterate, items, next, step.sent, ownersSent, left);
        ConsecutiveCons(page, q.visited);
      } else {
        var reg := RegisterAll(ownersLoop, fuel, items, step.entries, ownersSent);
        if !reg.stopped && page < step.lastPage {
          var q := ItemsWalk(ownersLoop, iterate, reg.items, next, step.sent, reg.ownersSent, left);
          assert r.visited == [page] + q.visited by { ItemsWalkStep(ownersLoop, iterate, items, page, itemsSent, ownersSent, fuel); }
          ItemsWalkPages(ownersLoop, iterate, reg.items, next, step.sent, reg.ownersSent, left);
          ConsecutiveCons(page, q.visited);
        } else {
          assert r.visited == [page] by { ItemsWalkStep(ownersLoop, iterate, items, page, itemsSent, ownersSent, fuel); }
        }
      }
    }
  }

  /** Every iteration costs one to `maxRetries` requests. */
  ghost predicate CostsWithin(iterate: (nat, nat) -> ItemsStep, maxRetries: nat) {
    forall p: nat, n: nat :: n + 1 <= iterate(p, n).sent <= n + maxRetries
  }

  /** With every iteration costing one to five requests, so does every iteration of
      the whole loop. */
  lemma {:induction false} ItemsStepsCost(ownersLoop: (nat, nat) -> OwnersOutcome, iterate: (nat, nat) -> ItemsStep, items: map<ItemId, Item>, page: nat, itemsSent: nat, ownersSent: nat, fuel: nat)
    requires CostsWithin(iterate, ITEMS_MAX_RETRIES)
    ensures var r := ItemsWalk(ownersLoop, iterate, items, page, itemsSent, ownersSent, fuel);
      itemsSent + |r.visited| <= r.itemsSent <= itemsSent + ITEMS_MAX_RETRIES * |r.visited|
    decreases fuel
  {
    if fuel > 0 {
      var left: nat := fuel - 1;
      var next: nat := page + 1;
      var step := iterate(page, itemsSent);
      assert 1 <= step.sent - itemsSent <= ITEMS_MAX_RETRIES;
      ItemsWalkStep(ownersLoop, iterate, items, page, itemsSent, ownersSent, fuel);
      if step.Refetch? {
        ItemsStepsCost(ownersLoop, iterate, items, page, step.sent, ownersSent, left);
      } else if step.SkipPage? {
        ItemsStepsCost(ownersLoop, iterate, items, next, step.sent, ownersSent, left);
      } else {
        var reg := RegisterAll(ownersLoop, fuel, items, step.entries, ownersSent);
        if !reg.stopped && page < step.lastPage {
          ItemsStepsCost(ownersLoop, iterate, reg.items, next, step.sent, reg.ownersSent, left);
        }
      }
    }
  }

  /** An iteration costs what its fetch costs. */
  lemma BoundedCosts(src: Source<ItemsPage>)
    requires Bounded(src, ITEMS_MAX_RETRIES)
    ensures CostsWithin(Iterate(src), ITEMS_MAX_RETRIES)
  {
    forall p: nat, n: nat ensures n + 1 <= Iterate(src)(p, n).sent <= n + ITEMS_MAX_RETRIES {
      assert Iterate(src)(p, n).sent == n + src.fetch(n).attempts;
    }
  }

  /** Every iteration of the items loop costs one to five requests, so the loop never
      takes back an items request. */
  lemma ItemsWalkCost(ownersLoop: (nat, nat) -> OwnersOutcome, src: Source<ItemsPage>, items: map<ItemId, Item>, page: nat, itemsSent: nat, ownersSent: nat, fuel: nat)
    requires Bounded(src, ITEMS_MAX_RETRIES)
    ensures var r := ItemsWalk(ownersLoop, Iterate(src), items, page, itemsSent, ownersSent, fuel);
      itemsSent + |r.visited| <= r.itemsSent <= itemsSent + ITEMS_MAX_RETRIES * |r.visited|
  {
    BoundedCosts(src);
    ItemsStepsCost(ownersLoop, Iterate(src), items, page, itemsSent, ownersSent, fuel);
  }

  /** Every iteration from request `itemsSent` on gives up on its page after five
      requests. */
  ghost predicate SkipsFrom(iterate: (nat, nat) -> ItemsStep, itemsSent: nat) {
    forall p: nat, n: nat :: n >= itemsSent ==> iterate(p, n) == SkipPage(n + ITEMS_MAX_RETRIES)
  }

  /** When every iteration skips its page, the loop goes from page to page without
      ever consulting `lastPage`: it never finishes and writes nothing. */
  lemma {:induction false} ItemsSkipping(ownersLoop: (nat, nat) -> OwnersOutcome, iterate: (nat, nat) -> ItemsStep, items: map<ItemId, Item>, page: nat, itemsSent: nat, ownersSent: nat, fuel: nat)
    requires SkipsFrom(iterate, itemsSent)
    ensures var r := ItemsWalk(ownersLoop, iterate, items, page, itemsSent, ownersSent, fuel);
      && r.end == ItemsOutOfFuel
      && r.visited == Range(page, page + fuel)
      && r.items == items
      && r.itemsSent == itemsSent + ITEMS_MAX_RETRIES * fuel
      && r.ownersSent == ownersSent
    decreases fuel
  {
    if fuel > 0 {
      var left: nat := fuel - 1;
      var next: nat := page + 1;
      var sent': nat := itemsSent + ITEMS_MAX_RETRIES;
      assert iterate(page, itemsSent) == SkipPage(sent');
      ItemsWalkStep(ownersLoop, iterate, items, page, itemsSent, ownersSent, fuel);
      ItemsSkipping(ownersLoop, iterate, items, next, sent', ownersSent, left);
      assert Range(page, page + fuel) == [page] + Range(next, next + left);
    }
  }

  /** When the proxy never delivers an items page, the loop skips page after page
      without ever consulting `lastPage`: it never finishes, spends five requests
      per page, and writes nothing. */
  lemma ItemsSpinWhenProxyFails(ownersLoop: (nat, nat) -> OwnersOutcome, net: Net, items: map<ItemId, Item>, page: nat, itemsSent: nat, ownersSent: nat, fuel: nat)
    requires forall n :: n >= itemsSent ==> net.itemsProxy(n).BadEnvelope?
    ensures var r := ItemsWalk(ownersLoop, Iterate(ItemsSource(net)), items, page, itemsSent, ownersSent, fuel);
      && r.end == ItemsOutOfFuel
      && r.visited == Range(page, page + fuel)
      && r.items == items
      && r.itemsSent == itemsSent + ITEMS_MAX_RETRIES * fuel
      && r.ownersSent == ownersSent
  {
    var src := ItemsSource(net);
    forall p: nat, n: nat | n >= itemsSent ensures Iterate(src)(p, n) == SkipPage(n + ITEMS_MAX_RETRIES) {
      FetchFailures(net.itemsProxy, n, ITEMS_MAX_RETRIES);
      assert src.fetch(n) == Fetched(None, ITEMS_MAX_RETRIES);
    }
    ItemsSkipping(ownersLoop, Iterate(src), items, page, itemsSent, ownersSent, fuel);
  }

  /** Every iteration from request `itemsSent` on lists a page of entries, naming
      `last` as the last page, after at least one request. */
  ghost predicate ListsUpTo(iterate: (nat, nat) -> ItemsStep, itemsSent: nat, last: nat) {
    forall p: nat, n: nat :: n >= itemsSent ==>
      iterate(p, n).Listed? && iterate(p, n).sent > n && iterate(p, n).lastPage == last
  }

  /** One iteration of the items loop on a listed page that names `last` as the
      last page. */
  lemma ItemsListedStep(ownersLoop: (nat, nat) -> OwnersOutcome, iterate: (nat, nat) -> ItemsStep, items: map<ItemId, Item>, page: nat, itemsSent: nat, ownersSent: nat, fuel: nat, last: nat, reg: Registered, next: nat, sent': nat, left: nat)
    requires fuel > 0 && page <= last
    requires next == page + 1 && left == fuel - 1
    requires iterate(page, itemsSent).Listed? && iterate(page, itemsSent).sent == sent' && iterate(page, itemsSent).lastPage == last
    requires reg == RegisterAll(ownersLoop, fuel, items, iterate(page, itemsSent).entries, ownersSent)
    ensures var r := ItemsWalk(ownersLoop, iterate, items, page, itemsSent, ownersSent, fuel);
      if !reg.stopped && page < last then
        var q := ItemsWalk(ownersLoop, iterate, reg.items, next, sent', reg.ownersSent, left);
        r.visited == [page] + q.visited && r.end == q.end
      else
        && r.visited == [page]
        && r.end == (if reg.stopped then ItemsOutOfFuel else Finished)
        && (r.end == Finished ==> page == last)
  {
    ItemsWalkStep(ownersLoop, iterate, items, page, itemsSent, ownersSent, fuel);
  }

  /** When every iteration lists a page naming `last` as the last page, the pages
      fetched are page, page + 1, ... in order, never beyond `last`; a crawl that
      finishes has fetched exactly page .. last. */
  lemma {:induction false} ItemsListedInOrder(ownersLoop: (nat, nat) -> OwnersOutcome, iterate: (nat, nat) -> ItemsStep, items: map<ItemId, Item>, page: nat, itemsSent: nat, ownersSent: nat, fuel: nat, last: nat)
    requires page <= last && ListsUpTo(iterate, itemsSent, last)
    ensures var r := ItemsWalk(ownersLoop, iterate, items, page, itemsSent, ownersSent, fuel);
      && r.visited == Range(page, page + |r.visited|)
      && page + |r.visited| <= last + 1
      && (r.end == Finished ==> r.visited == Range(page, last + 1))
    decreases fuel
  {
    if fuel > 0 {
      var left: nat := fuel - 1;
      var sent': nat := iterate(page, itemsSent).sent;
      var reg := RegisterAll(ownersLoop, fuel, items, iterate(page, itemsSent).entries, ownersSent);
      var next: nat := page + 1;
      ItemsListedStep(ownersLoop, iterate, items, page, itemsSent, ownersSent, fuel, last, reg, next, sent', left);
      if !reg.stopped && page < last {
        ItemsListedInOrder(ownersLoop, iterate, reg.items, next, sent', reg.ownersSent, left, last);
        var q := ItemsWalk(ownersLoop, iterate, reg.items, next, sent', reg.ownersSent, left);
        RangeCons(page, next, q.visited, last);
      } else {
        assert Range(page, page + 1) == [page];
      }
    }
  }

  /** When, in addition, every owners loop finishes once it is given `ownersFuel`
      iterations or more, and the fuel covers pages page .. last with `ownersFuel`
      still left on page `last` (a page's owners loops get the fuel the items loop
      has left), the crawl finishes. */
  lemma {:induction false} ItemsListedFinish(ownersLoop: (nat, nat) -> OwnersOutcome, iterate: (nat, nat) -> ItemsStep, items: map<ItemId, Item>, page: nat, itemsSent: nat, ownersSent: nat, fuel: nat, last: nat, ownersFuel: nat)
    requires page <= last && ListsUpTo(iterate, itemsSent, last)
    requires ownersFuel > 0 && forall s: nat, f: nat :: f >= ownersFuel ==> ownersLoop(s, f).finished
    requires fuel >= last - page + ownersFuel
    ensures ItemsWalk(ownersLoop, iterate, items, page, itemsSent, ownersSent, fuel).end == Finished
    decreases fuel
  {
    var left: nat := fuel - 1;
    var sent': nat := iterate(page, itemsSent).sent;
    var entries := iterate(page, itemsSent).entries;
    var reg := RegisterAll(ownersLoop, fuel, items, entries, ownersSent);
    var next: nat := page + 1;
    RegisterAllCompletes(ownersLoop, fuel, items, entries, ownersSent);
    ItemsListedStep(ownersLoop, iterate, items, page, itemsSent, ownersSent, fuel, last, reg, next, sent', left);
    if page < last {
      ItemsListedFinish(ownersLoop, iterate, reg.items, next, sent', reg.ownersSent, left, last, ownersFuel);
    }
  }

  /** The fetch that starts at items request `n` delivers a body, at whichever
      attempt, and it decodes to a page with a list of entries that names `last`
      as the last page. */
  ghost predicate ListsAt(src: Source<ItemsPage>, n: nat, last: nat) {
    var f := src.fetch(n);
    && f.body.Some?
    && src.load(f.body.value).Some?
    && src.load(f.body.value).value.data.Some?
    && src.load(f.body.value).value.lastPage == Some(last)
  }

  /** Such fetches make every iteration list a page naming `last`. */
  lemma AnsweredLists(src: Source<ItemsPage>, itemsSent: nat, last: nat)
    requires Bounded(src, ITEMS_MAX_RETRIES)
    requires forall n :: n >= itemsSent ==> ListsAt(src, n, last)
    ensures ListsUpTo(Iterate(src), itemsSent, last)
  {
    forall p: nat, n: nat | n >= itemsSent
      ensures Iterate(src)(p, n).Listed? && Iterate(src)(p, n).sent > n && Iterate(src)(p, n).lastPage == last
    {
      var f := src.fetch(n);
      assert ListsAt(src, n, last);
      assert Iterate(src)(p, n) == ItemsDecide(src.load(f.body.value).value, p, n + f.attempts);
    }
  }

  /** When every items fetch from request `itemsSent` on delivers a page with a
      list of entries and `lastPage` = `last`, after however many proxy retries,
      the pages fetched are page, page + 1, ... in order, never beyond `last`; a
      crawl that finishes has fetched exactly page .. last. */
  lemma ItemsPagesInOrder(ownersLoop: (nat, nat) -> OwnersOutcome, src: Source<ItemsPage>, items: map<ItemId, Item>, page: nat, itemsSent: nat, ownersSent: nat, fuel: nat, last: nat)
    requires page <= last && Bounded(src, ITEMS_MAX_RETRIES)
    requires forall n :: n >= itemsSent ==> ListsAt(src, n, last)
    ensures var r := ItemsWalk(ownersLoop, Iterate(src), items, page, itemsSent, ownersSent, fuel);
      && r.visited == Range(page, page + |r.visited|)
      && page + |r.visited| <= last + 1
      && (r.end == Finished ==> r.visited == Range(page, last + 1))
  {
    AnsweredLists(src, itemsSent, last);
    ItemsListedInOrder(ownersLoop, Iterate(src), items, page, itemsSent, ownersSent, fuel, last);
  }

  /** When, in addition, every owners loop finishes once it is given `ownersFuel`
      iterations or more, and the fuel covers pages page .. last with `ownersFuel`
      still left on page `last`, the crawl finishes, having fetched exactly
      page .. last. */
  lemma ItemsFinishes(ownersLoop: (nat, nat) -> OwnersOutcome, src: Source<ItemsPage>, items: map<ItemId, Item>, page: nat, itemsSent: nat, ownersSent: nat, fuel: nat, last: nat, ownersFuel: nat)
    requires page <= last && Bounded(src, ITEMS_MAX_RETRIES)
    requires forall n :: n >= itemsSent ==> ListsAt(src, n, last)
    requires ownersFuel > 0 && forall s: nat, f: nat :: f >= ownersFuel ==> ownersLoop(s, f).finished
    requires fuel >= last - page + ownersFuel
    ensures var r := ItemsWalk(ownersLoop, Iterate(src), items, page, itemsSent, ownersSent, fuel);
      r.end == Finished && r.visited == Range(page, last + 1)
  {
    AnsweredLists(src, itemsSent, last);
    ItemsListedFinish(ownersLoop, Iterate(src), items, page, itemsSent, ownersSent, fuel, last, ownersFuel);
    ItemsListedInOrder(ownersLoop, Iterate(src), items, page, itemsSent, ownersSent, fuel, last);
  }

  /** `process_all_items()` from page 1 on the proxy finishes, having fetched exactly
      pages 1 .. last, when every items fetch delivers a page with a list of
      entries and `lastPage` = `last`, every item's owners loop stops within
      `ownersFuel` iterations, and the fuel covers the pages with that much left. */
  lemma CrawlFinishes(net: Net, items: map<ItemId, Item>, last: nat, fuel: nat, ownersFuel: nat)
    requires 1 <= last && forall n: nat :: ListsAt(ItemsSource(net), n, last)
    requires ownersFuel > 0 && forall s: nat :: OwnersLoop(OwnersSource(net))(s, ownersFuel).finished
    requires fuel >= last - 1 + ownersFuel
    ensures var r := ItemsWalk(OwnersLoop(OwnersSource(net)), Iterate(ItemsSource(net)), items, 1, 0, 0, fuel);
      r.end == Finished && r.visited == Range(1, last + 1)
  {
    var owners := OwnersSource(net);
    forall s: nat, f: nat | f >= ownersFuel ensures OwnersLoop(owners)(s, f).finished {
      assert OwnersLoop(owners)(s, ownersFuel).finished;
      assert OwnersWalk(owners, 1, s, ownersFuel).end != OwnersOutOfFuel;
      OwnersWalkMoreFuel(owners, 1, s, ownersFuel, f);
    }
    SourceOfBounded(net.itemsProxy, ITEMS_MAX_RETRIES, net.loadItems);
    ItemsFinishes(OwnersLoop(owners), ItemsSource(net), items, 1, 0, 0, fuel, last, ownersFuel);
  }

  /** The top of the owners loop's body: `fetch_owners`, `json.loads`, and the
      checks on `inventories` and `pages`. */
  method FetchOwnersPage(net: Net, page: nat, sent: nat) returns (step: OwnersStep)
    ensures step == OwnersIteration(OwnersSource(net), page, sent)
  {
    var response, attempts := FetchOwners(net.ownersProxy, sent);
    assert OwnersSource(net).fetch(sent) == Fetched(response, attempts);
    var sent' := sent + attempts;
    if response.None? {
      return Halt(sent', Skipped, []);
    }
    var data := net.loadOwners(response.value);
    if data.None? {
      return Retry(sent');
    }
    var inventories := InventoriesOf(data.value);
    if inventories == [] {
      step := Halt(sent', NoInventories, []);
    } else if page >= PageCount(data.value) {
      step := Halt(sent', LastPage, Usernames(inventories));
    } else {
      step := Advance(sent', Usernames(inventories));
    }
  }

  /** `process_owners(item_id)`, from page 1 on the item's current owner list: the
      item's owners become the old list with the walk's usernames merged in, and
      no other item changes. */
  method ProcessOwners(store: Snapshot, net: Net, id: ItemId, sent: nat, fuel: nat) returns (sent': nat, end: OwnersEnd)
    requires id in store.items
    modifies store
    ensures var r := OwnersWalk(OwnersSource(net), 1, sent, fuel);
      && store.items == old(store.items)[id := old(store.items[id]).(owners := MergeAll(old(store.items[id].owners), r.merged))]
      && sent' == r.sent
      && end == r.end
  {
    ghost var src := OwnersSource(net);
    ghost var items0 := store.items;
    ghost var owners0 := items0[id].owners;
    ghost var run := OwnersWalk(src, 1, sent, fuel);
    ghost var done: seq<string> := [];
    var page: nat := 1;
    var left := fuel;
    sent' := sent;
    assert [] + run.merged == run.merged;
    while left > 0
      invariant id in store.items
      invariant store.items == items0[id := items0[id].(owners := MergeAll(owners0, done))]
      invariant OwnersTracks(src, page, sent', left, run, done)
    {
      var step := FetchOwnersPage(net, page, sent');
      var next: nat := page + 1;
      var left': nat := left - 1;
      ghost var done' := if step.Retry? then done else done + step.names;
      OwnersTrackStep(src, page, sent', left, run, done, step, next, left', done');
      sent' := step.sent;
      left := left';
      if step.Retry? {
        continue;
      }
      ghost var before := store.items;
      store.CountOwners(id, step.names);
      CountedAfter(items0, id, owners0, done, step.names, before, store.items);
      if step.Halt? {
        assert done + [] == done;
        end := step.end;
        return;
      }
      done := done';
      page := next;
    }
    assert done + [] == done;
    end := OwnersOutOfFuel;
  }

  /** The items loop that now stands at `page`, with the snapshot `items`, the
      requests sent and `fuel` iterations left, ends as `run` does. */
  ghost predicate ItemsTracks(ownersLoop: (nat, nat) -> OwnersOutcome, iterate: (nat, nat) -> ItemsStep, items: map<ItemId, Item>, page: nat, itemsSent: nat, ownersSent: nat, fuel: nat, run: ItemsRun) {
    var r := ItemsWalk(ownersLoop, iterate, items, page, itemsSent, ownersSent, fuel);
    r.items == run.items && r.itemsSent == run.itemsSent && r.ownersSent == run.ownersSent && r.end == run.end
  }

  /** One iteration of the items loop keeps it on track towards `run`. */
  lemma ItemsTrackStep(ownersLoop: (nat, nat) -> OwnersOutcome, iterate: (nat, nat) -> ItemsStep, items: map<ItemId, Item>, page: nat, itemsSent: nat, ownersSent: nat, fuel: nat, run: ItemsRun, step: ItemsStep, next: nat, left: nat)
    requires fuel > 0 && ItemsTracks(ownersLoop, iterate, items, page, itemsSent, ownersSent, fuel, run)
    requires step == iterate(page, itemsSent) && next == page + 1 && left == fuel - 1
    ensures step.Refetch? ==> ItemsTracks(ownersLoop, iterate, items, page, step.sent, ownersSent, left, run)
    ensures step.SkipPage? ==> ItemsTracks(ownersLoop, iterate, items, next, step.sent, ownersSent, left, run)
    ensures step.Listed? ==>
      var reg := RegisterAll(ownersLoop, fuel, items, step.entries, ownersSent);
      if reg.stopped || page >= step.lastPage then
        run.items == reg.items && run.itemsSent == step.sent && run.ownersSent == reg.ownersSent
        && run.end == (if reg.stopped then ItemsOutOfFuel else Finished)
      else ItemsTracks(ownersLoop, iterate, reg.items, next, step.sent, reg.ownersSent, left, run)
  {
    ItemsWalkStep(ownersLoop, iterate, items, page, itemsSent, ownersSent, fuel);
  }

  /** The `for entry in data` loop of one listed page: register each entry and run
      its owners loop, stopping at the first owners loop that runs out of fuel. */
  method RegisterPage(store: Snapshot, net: Net, entries: seq<Entry>, sent: nat, fuel: nat)
    returns (ownersSent: nat, stopped: bool)
    modifies store
    ensures Registered(store.items, ownersSent, stopped) == RegisterAll(OwnersLoop(OwnersSource(net)), fuel, old(store.items), entries, sent)
  {
    ghost var owners := OwnersSource(net);
    ghost var loop := OwnersLoop(owners);
    ghost var reg := RegisterAll(loop, fuel, store.items, entries, sent);
    ownersSent := sent;
    var j := 0;
    while j < |entries|
      invariant j <= |entries|
      invariant RegisterAll(loop, fuel, store.items, entries[j..], ownersSent) == reg
    {
      var e := entries[j];
      assert entries[j..][0] == e && entries[j..][1..] == entries[j + 1..];
      ghost var before := store.items;
      ghost var run := OwnersWalk(owners, 1, ownersSent, fuel);
      ghost var w := loop(ownersSent, fuel);
      assert w == OwnersOutcome(run.sent, run.merged, run.end != OwnersOutOfFuel);
      ghost var items' := before[e.id := Item(ItemName(e), MergeAll([], run.merged))];
      RegisterAllFirst(loop, fuel, before, entries[j..], ownersSent, w, items');
      store.Register(e.id, ItemName(e));
      ghost var registered := store.items;
      var ownersEnd;
      ownersSent, ownersEnd := ProcessOwners(store, net, e.id, ownersSent, fuel);
      RegisteredThenCounted(before, e.id, ItemName(e), run.merged, registered, store.items);
      if ownersEnd == OwnersOutOfFuel {
        stopped := true;
        return;
      }
      j := j + 1;
    }
    stopped := false;
  }

  /** The top of the items loop's body: `fetch_items`, `json.loads`, and the `data`
      and `lastPage` lookups. */
  method FetchItemsPage(net: Net, page: nat, sent: nat) returns (step: ItemsStep)
    ensures step == ItemsIteration(ItemsSource(net), page, sent)
  {
    var response, attempts := FetchItems(net.itemsProxy, sent);
    assert ItemsSource(net).fetch(sent) == Fetched(response, attempts);
    var sent' := sent + attempts;
    if response.None? {
      return SkipPage(sent');
    }
    var data := net.loadItems(response.value);
    if data.None? {
      return Refetch(sent');
    }
    match data.value.data
    case None =>
      step := SkipPage(sent');
    case Some(entries) =>
      step := Listed(sent', entries, LastPageOr(data.value, page));
  }

  /** `process_all_items()` from page 1, with no requests sent yet, on the proxy. */
  method ProcessAllItems(store: Snapshot, net: Net, fuel: nat) returns (itemsSent: nat, ownersSent: nat, end: ItemsEnd)
    modifies store
    ensures var r := ItemsWalk(OwnersLoop(OwnersSource(net)), Iterate(ItemsSource(net)), old(store.items), 1, 0, 0, fuel);
      && store.items == r.items
      && itemsSent == r.itemsSent
      && ownersSent == r.ownersSent
      && end == r.end
  {
    ghost var loop := OwnersLoop(OwnersSource(net));
    ghost var iterate := Iterate(ItemsSource(net));
    ghost var run := ItemsWalk(loop, iterate, store.items, 1, 0, 0, fuel);
    var page: nat := 1;
    var left := fuel;
    itemsSent, ownersSent := 0, 0;
    while left > 0
      invariant ItemsTracks(loop, iterate, store.items, page, itemsSent, ownersSent, left, run)
    {
      var step := FetchItemsPage(net, page, itemsSent);
      var next: nat := page + 1;
      var left': nat := left - 1;
      ItemsTrackStep(loop, iterate, store.items, page, itemsSent, ownersSent, left, run, step, next, left');
      itemsSent := step.sent;
      if step.Refetch? {
        left := left';
        continue;
      }
      if step.SkipPage? {
        page, left := next, left';
        continue;
      }
      var stopped;
      ownersSent, stopped := RegisterPage(store, net, step.entries, ownersSent, left);
      if stopped {
        end := ItemsOutOfFuel;
        return;
      }
      if page >= step.lastPage {
        end := Finished;
        return;
      }
      page, left := next, left';
    }
    end := ItemsOutOfFuel;
  }
}
