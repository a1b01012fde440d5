/** `process_all_items` and `process_owners` of the crawler that calls the API
    directly. Each request is followed by `handle_rate_limit`; a body that does not
    decode is fetched again at the same page, with no cap. As in the other crawler,
    each `while True` loop is cut after `fuel` iterations and each rate-limit wait
    after `patience` retries, and being cut is an explicit outcome (the program
    would still be running). */
module DirectCrawler {
  import opened Records
  import opened OwnerMerge
  import opened Store
  import opened Registration
  import opened RateLimit

  /** What one crawl loop sees: the server's response to the loop's n-th request,
      the number of 429s in a row a rate-limit wait is followed for, and
      `response.json()` on a body (None stands for a JSONDecodeError). */
  datatype Source<P> = Source(server: nat -> Response, patience: nat, load: string -> Option<P>)

  /** The items endpoint and the owners endpoint. */
  datatype Api = Api(items: Source<ItemsPage>, owners: Source<OwnersPage>)

  /** `fetch_*` as request `sent`, then `handle_rate_limit` on its response: the
      response handed on is never a 429, a first response that is not a 429 is
      handed on as it is, and a wait that is cut has used all its retries. */
  function Get<P>(src: Source<P>, sent: nat): (g: Served)
    ensures g.retries <= src.patience
    ensures g.response.Some? ==> g.response.value.status != TOO_MANY_REQUESTS
    ensures src.server(sent).status != TOO_MANY_REQUESTS ==> g == Served(Some(src.server(sent)), 0)
    ensures g.response.None? ==> g.retries == src.patience
  {
    Settle(src.server(sent), src.server, sent + 1, src.patience)
  }

  /** The page an iteration starting at request `n` works on: the response handed
      on after any 429 waits, decoded (None when the wait is cut or the body does
      not decode). */
  function Delivered<P>(src: Source<P>, n: nat): Option<P> {
    match Get(src, n).response
    case None => None
    case Some(response) => src.load(response.body)
  }

  /** The request at which a loop stands `count` iterations after one starting at
      request `from`, each iteration costing its request and its rate-limit
      retries. */
  function After<P>(src: Source<P>, from: nat, count: nat): (n: nat)
    ensures from + count <= n
    decreases count
  {
    if count == 0 then from else After(src, from + 1 + Get(src, from).retries, count - 1)
  }

  /** Why the owners loop stopped: the page had no inventories, the page was the
      last one, or the loop was cut (out of fuel or still rate limited). */
  datatype OwnersEnd = NoInventories | LastPage | OwnersUnfinished

  /** The owners requests sent so far, why the loop stopped, the page number of each
      iteration, and the usernames merged, in order. */
  datatype OwnersRun = OwnersRun(sent: nat, end: OwnersEnd, visited: seq<nat>, merged: seq<string>)

  datatype OwnersStep =
    | Retry(sent: nat)
    | Advance(sent: nat, names: seq<string>)
    | Halt(sent: nat, end: OwnersEnd, names: seq<string>)

  /** What a decoded owners page makes the loop do: stop when it has no inventories
      (whatever `pages` says), merge its usernames and stop once `page >= pages`
      (0 when missing), or merge them and go on. */
  function OwnersDecide(p: OwnersPage, page: nat, sent: nat): (step: OwnersStep)
    ensures !step.Retry? && step.sent == sent
    ensures step.names == Usernames(InventoriesOf(p))
    ensures step.Halt? <==> InventoriesOf(p) == [] || page >= PageCount(p)
    ensures step.Halt? ==> step.end == (if InventoriesOf(p) == [] then NoInventories else LastPage)
  {
    if InventoriesOf(p) == [] then Halt(sent, NoInventories, [])
    else if page >= PageCount(p) then Halt(sent, LastPage, Usernames(InventoriesOf(p)))
    else Advance(sent, Usernames(InventoriesOf(p)))
  }

  /** One iteration of the owners loop on `page`, with `sent` owners requests made so
      far: wait out 429s, fetch again if the body does not decode, and otherwise
      decide on the decoded page. */
  function OwnersIteration(src: Source<OwnersPage>, page: nat, sent: nat): (step: OwnersStep)
    ensures step.sent == sent + 1 + Get(src, sent).retries
    ensures step.Halt? && step.end == OwnersUnfinished <==> Get(src, sent).response.None?
    ensures step.Retry? <==> Get(src, sent).response.Some? && src.load(Get(src, sent).response.value.body).None?
  {
    var g := Get(src, sent);
    var sent' := sent + 1 + g.retries;
    match g.response
    case None => Halt(sent', OwnersUnfinished, [])
    case Some(response) =>
      match src.load(response.body)
      case None => Retry(sent')
      case Some(p) => OwnersDecide(p, page, sent')
  }

  /** The owners loop from `page` on, with `sent` owners requests already made: it
      makes at most `fuel` iterations, each of them at least one request. */
  function OwnersWalk(src: Source<OwnersPage>, page: nat, sent: nat, fuel: nat): (r: OwnersRun)
    ensures |r.visited| <= fuel
    ensures sent + |r.visited| <= r.sent
    decreases fuel
  {
    if fuel == 0 then OwnersRun(sent, OwnersUnfinished, [], [])
    else
      match OwnersIteration(src, page, sent)
      case Retry(sent') =>
        var r := OwnersWalk(src, page, sent', fuel - 1);
        r.(visited := [page] + r.visited)
      case Advance(sent', names) =>
        var r := OwnersWalk(src, page + 1, sent', fuel - 1);
        r.(visited := [page] + r.visited, merged := names + r.merged)
      case Halt(sent', end, names) =>
        OwnersRun(sent', end, [page], names)
  }

  /** The owners loop after its first iteration. */
  lemma OwnersWalkStep(src: Source<OwnersPage>, page: nat, sent: nat, fuel: nat)
    requires fuel > 0
    ensures var step := OwnersIteration(src, page, sent);
      var r := OwnersWalk(src, page, sent, fuel);
      && (step.Retry? ==>
            var q := OwnersWalk(src, page, step.sent, fuel - 1); r == q.(visited := [page] + q.visited))
      && (step.Advance? ==>
            var q := OwnersWalk(src, page + 1, step.sent, fuel - 1); r == q.(visited := [page] + q.visited, merged := step.names + q.merged))
      && (step.Halt? ==> r == OwnersRun(step.sent, step.end, [page], step.names))
  {
  }

  /** The owners loop that has merged `done` so far and now stands at `page`, with
      `sent` requests made and `fuel` iterations left, ends as `run` does. */
  ghost predicate OwnersTracks(src: Source<OwnersPage>, page: nat, sent: nat, fuel: nat, run: OwnersRun, done: seq<string>) {
    var r := OwnersWalk(src, page, sent, fuel);
    r.sent == run.sent && r.end == run.end && run.merged == done + r.merged
  }

  /** One iteration `step` of the owners loop keeps it on track towards `run`, with
      `left` iterations left, on the same page or, having merged `done'`, on page
      `next`. */
  lemma OwnersTrackStep(src: Source<OwnersPage>, page: nat, sent: nat, fuel: nat, run: OwnersRun, done: seq<string>, step: OwnersStep, next: nat, left: nat, done': seq<string>)
    requires fuel > 0 && OwnersTracks(src, page, sent, fuel, run, done)
    requires step == OwnersIteration(src, page, sent) && next == page + 1 && left == fuel - 1
    requires !step.Retry? ==> done' == done + step.names
    ensures step.Retry? ==> OwnersTracks(src, page, step.sent, left, run, done)
    ensures step.Advance? ==> OwnersTracks(src, next, step.sent, left, run, done')
    ensures step.Halt? ==> run.sent == step.sent && run.end == step.end && run.merged == done'
  {
    OwnersWalkStep(src, page, sent, fuel);
    if step.Advance? {
      var r := OwnersWalk(src, next, step.sent, left);
      assert done + (step.names + r.merged) == done' + r.merged;
    }
  }

  /** An owners iteration whose response, after any 429 waits, decodes is decided
      on that page alone. */
  lemma OwnersAnswered(src: Source<OwnersPage>, page: nat, n: nat)
    requires Delivered(src, n).Some?
    ensures OwnersIteration(src, page, n) == OwnersDecide(Delivered(src, n).value, page, After(src, n, 1))
  {
  }

  /** Pages are visited from `page` on, each iteration on the same page (after a
      decode failure) or the next one. */
  lemma {:induction false} OwnersWalkPages(src: Source<OwnersPage>, page: nat, sent: nat, fuel: nat)
    ensures var r := OwnersWalk(src, page, sent, fuel);
      && (fuel > 0 ==> |r.visited| > 0 && r.visited[0] == page)
      && Consecutive(r.visited)
    decreases fuel
  {
    if fuel > 0 {
      var left: nat := fuel - 1;
      var step := OwnersIteration(src, page, sent);
      OwnersWalkStep(src, page, sent, fuel);
      if step.Retry? {
        OwnersWalkPages(src, page, step.sent, left);
        ConsecutiveCons(page, OwnersWalk(src, page, step.sent, left).visited);
      } else if step.Advance? {
        var next: nat := page + 1;
        OwnersWalkPages(src, next, step.sent, left);
        ConsecutiveCons(page, OwnersWalk(src, next, step.sent, left).visited);
      }
    }
  }

  /** The usernames on the pages delivered to `count` iterations in a row, the
      first starting at request `from`, in order. */
  function DeliveredNames(src: Source<OwnersPage>, from: nat, count: nat): seq<string>
    decreases count
  {
    if count == 0 then []
    else
      var here := match Delivered(src, from) case None => [] case Some(p) => Usernames(InventoriesOf(p));
      here + DeliveredNames(src, After(src, from, 1), count - 1)
  }

  /** One iteration of the owners loop whose response, after any 429 waits,
      decodes to `p`: stop on a page without inventories or at the last page, and
      otherwise merge its usernames and go on to the next page. */
  lemma OwnersAnsweredStep(src: Source<OwnersPage>, page: nat, sent: nat, fuel: nat, p: OwnersPage, next: nat, sent': nat, left: nat)
    requires fuel > 0 && Delivered(src, sent) == Some(p)
    requires next == page + 1 && sent' == After(src, sent, 1) && left == fuel - 1
    ensures var r := OwnersWalk(src, page, sent, fuel);
      if InventoriesOf(p) == [] then r == OwnersRun(sent', NoInventories, [page], [])
      else if page >= PageCount(p) then r == OwnersRun(sent', LastPage, [page], Usernames(InventoriesOf(p)))
      else
        var q := OwnersWalk(src, next, sent', left);
        r == q.(visited := [page] + q.visited, merged := Usernames(InventoriesOf(p)) + q.merged)
  {
    OwnersAnswered(src, page, sent);
    OwnersWalkStep(src, page, sent, fuel);
  }

  /** When every owners iteration from request `sent` on gets, after whatever 429
      waits, a body that decodes, pages page, page + 1, ... are fetched one after
      another, and the loop stops at the first page that has no inventories, even
      when the declared page count is larger, or else at the first page whose number
      reaches `pages` (0 when missing); every username on those pages is merged, in
      order. Iteration i starts at request `After(src, sent, i)`. */
  lemma {:induction false} OwnersStopRule(src: Source<OwnersPage>, page: nat, sent: nat, fuel: nat, k: nat)
    requires k < fuel
    requires forall i: nat :: i <= k ==> Delivered(src, After(src, sent, i)).Some?
    requires forall i: nat :: i < k ==>
      InventoriesOf(Delivered(src, After(src, sent, i)).value) != [] && page + i < PageCount(Delivered(src, After(src, sent, i)).value)
    requires InventoriesOf(Delivered(src, After(src, sent, k)).value) == [] || page + k >= PageCount(Delivered(src, After(src, sent, k)).value)
    ensures var r := OwnersWalk(src, page, sent, fuel);
      && r.visited == Range(page, page + k + 1)
      && r.sent == After(src, sent, k + 1)
      && r.end == (if InventoriesOf(Delivered(src, After(src, sent, k)).value) == [] then NoInventories else LastPage)
      && r.merged == DeliveredNames(src, sent, k + 1)
    decreases k
  {
    assert After(src, sent, 0) == sent;
    var p := Delivered(src, sent).value;
    var names := Usernames(InventoriesOf(p));
    var sent': nat := After(src, sent, 1);
    var left: nat := fuel - 1;
    var next: nat := page + 1;
    var r := OwnersWalk(src, page, sent, fuel);
    if k > 0 {
      var k': nat := k - 1;
      var q := OwnersWalk(src, next, sent', left);
      assert r == q.(visited := [page] + q.visited, merged := names + q.merged) by {
        OwnersAnsweredStep(src, page, sent, fuel, p, next, sent', left);
      }
      forall i: nat | i <= k'
        ensures After(src, sent', i) == After(src, sent, i + 1)
      {
      }
      OwnersStopRule(src, next, sent', left, k');
      assert Range(page, page + k + 1) == [page] + Range(next, next + k' + 1);
      assert DeliveredNames(src, sent, k + 1) == names + DeliveredNames(src, sent', k' + 1);
    } else {
      assert r == OwnersRun(sent', if InventoriesOf(p) == [] then NoInventories else LastPage, [page], names) by {
        OwnersAnsweredStep(src, page, sent, fuel, p, next, sent', left);
      }
      assert Range(page, page + 1) == [page];
      assert DeliveredNames(src, sent, 1) == names + DeliveredNames(src, sent', 0);
    }
  }

  /** While the server answers every owners request with a 429, the loop never gets
      past its first wait: it merges nothing, and it is cut after the first request
      and `patience` retries. */
  lemma OwnersWaitWhileRateLimited(src: Source<OwnersPage>, page: nat, sent: nat, fuel: nat)
    requires fuel > 0
    requires forall n :: n >= sent ==> src.server(n).status == TOO_MANY_REQUESTS
    ensures var r := OwnersWalk(src, page, sent, fuel);
      r == OwnersRun(sent + 1 + src.patience, OwnersUnfinished, [page], [])
  {
    var first := src.server(sent);
    SettleFirstServed(first, src.server, sent + 1, src.patience);
    OwnersWalkStep(src, page, sent, fuel);
  }

  /** An owners page that is rate limited once and then arrives without
      inventories still ends the loop on that page: after two requests and one
      visit, with `NoInventories` and nothing merged. */
  lemma OwnersStopAfterWait(src: Source<OwnersPage>, page: nat, sent: nat, fuel: nat)
    requires fuel > 0 && src.patience > 0
    requires src.server(sent).status == TOO_MANY_REQUESTS && src.server(sent + 1).status != TOO_MANY_REQUESTS
    requires src.load(src.server(sent + 1).body).Some? && InventoriesOf(src.load(src.server(sent + 1).body).value) == []
    ensures OwnersWalk(src, page, sent, fuel) == OwnersRun(sent + 2, NoInventories, [page], [])
  {
    var fewer: nat := src.patience - 1;
    assert Settle(src.server(sent + 1), src.server, sent + 2, fewer) == Served(Some(src.server(sent + 1)), 0);
    assert Get(src, sent) == Served(Some(src.server(sent + 1)), 1);
    assert After(src, sent, 0) == sent;
    OwnersStopRule(src, page, sent, fuel, 0);
    assert Range(page, page + 1) == [page];
  }

  /** An owners loop that stops before it is cut stops in the same way, with the
      same pages, requests and usernames, when given more fuel. */
  lemma {:induction false} OwnersWalkMoreFuel(src: Source<OwnersPage>, page: nat, sent: nat, fuel: nat, more: nat)
    requires fuel <= more && OwnersWalk(src, page, sent, fuel).end != OwnersUnfinished
    ensures OwnersWalk(src, page, sent, more) == OwnersWalk(src, page, sent, fuel)
    decreases fuel
  {
    var step := OwnersIteration(src, page, sent);
    var left: nat := fuel - 1;
    var more': nat := more - 1;
    OwnersWalkStep(src, page, sent, fuel);
    OwnersWalkStep(src, page, sent, more);
    if step.Retry? {
      OwnersWalkMoreFuel(src, page, step.sent, left, more');
    } else if step.Advance? {
      OwnersWalkMoreFuel(src, page + 1, step.sent, left, more');
    }
  }

  /** The owners loop of a freshly registered item, from page 1, given the owners
      requests sent so far and its fuel; it finishes unless it was cut. */
  function OwnersLoop(src: Source<OwnersPage>): (nat, nat) -> OwnersOutcome {
    (sent: nat, fuel: nat) =>
      var r := OwnersWalk(src, 1, sent, fuel);
      OwnersOutcome(r.sent, r.merged, r.end != OwnersUnfinished)
  }

  /** `Finished`: `page >= lastPage`; `ItemsUnfinished`: cut, or stuck in an owners
      loop that was cut. */
  datatype ItemsEnd = Finished | ItemsUnfinished

  /** The final snapshot, the items and owners requests sent, why the loop stopped,
      and the page number of each iteration. */
  datatype ItemsRun = ItemsRun(items: map<ItemId, Item>, itemsSent: nat, ownersSent: nat, end: ItemsEnd, visited: seq<nat>)

  /** What one iteration of the items loop does before its entries are processed:
      fetch again on the same page after a decode failure, stay stuck in a
      rate-limit wait, or process a list of entries with the page's `lastPage` (the
      page itself when missing). */
  datatype ItemsStep =
    | Refetch(sent: nat)
    | Waiting(sent: nat)
    | Listed(sent: nat, entries: seq<Entry>, lastPage: int)

  /** A decoded items page is always listed: its `data`, none when missing, and its
      `lastPage`, the page itself when missing. */
  function ItemsDecide(p: ItemsPage, page: nat, sent: nat): (step: ItemsStep)
    ensures step.Listed? && step.sent == sent
    ensures step.entries == (if p.data.Some? then p.data.value else [])
    ensures p.lastPage.None? ==> step.lastPage == page
  {
    Listed(sent, p.data.GetOr([]), LastPageOr(p, page))
  }

  /** One iteration of the items loop on `page`, up to its entries. */
  function ItemsIteration(src: Source<ItemsPage>, page: nat, sent: nat): (step: ItemsStep)
    ensures step.sent == sent + 1 + Get(src, sent).retries
    ensures step.Waiting? <==> Get(src, sent).response.None?
    ensures step.Refetch? <==> Get(src, sent).response.Some? && src.load(Get(src, sent).response.value.body).None?
  {
    var g := Get(src, sent);
    var sent' := sent + 1 + g.retries;
    match g.response
    case None => Waiting(sent')
    case Some(response) =>
      match src.load(response.body)
      case None => Refetch(sent')
      case Some(p) => ItemsDecide(p, page, sent')
  }

  /** `ItemsIteration` on `src`, in the form the items walk takes it: the walk and
      the lemmas about its shape hold for any iteration function, and only the
      lemmas about particular answers look inside this one. */
  function Iterate(src: Source<ItemsPage>): (nat, nat) -> ItemsStep {
    (page: nat, sent: nat) => ItemsIteration(src, page, sent)
  }

  /** The items loop from `page` on, where `iterate(page, sent)` is one iteration
      on `page` after `sent` items requests and `ownersLoop` is each item's owners
      loop; it ends once `page >= lastPage`. It makes at most `fuel` iterations and
      visits a page in each of them. */
  function ItemsWalk(ownersLoop: (nat, nat) -> OwnersOutcome, iterate: (nat, nat) -> ItemsStep, items: map<ItemId, Item>, page: nat, itemsSent: nat, ownersSent: nat, fuel: nat): (r: ItemsRun)
    ensures |r.visited| <= fuel
    ensures fuel > 0 ==> |r.visited| > 0
    decreases fuel
  {
    if fuel == 0 then ItemsRun(items, itemsSent, ownersSent, ItemsUnfinished, [])
    else
      match iterate(page, itemsSent)
      case Refetch(sent') =>
        var r := ItemsWalk(ownersLoop, iterate, items, page, sent', ownersSent, fuel - 1);
        r.(visited := [page] + r.visited)
      case Waiting(sent') =>
        ItemsRun(items, sent', ownersSent, ItemsUnfinished, [page])
      case Listed(sent', entries, last) =>
        var reg := RegisterAll(ownersLoop, fuel, items, entries, ownersSent);
        if reg.stopped then ItemsRun(reg.items, sent', reg.ownersSent, ItemsUnfinished, [page])
        else if page >= last then ItemsRun(reg.items, sent', reg.ownersSent, Finished, [page])
        else
          var r := ItemsWalk(ownersLoop, iterate, reg.items, page + 1, sent', reg.ownersSent, fuel - 1);
          r.(visited := [page] + r.visited)
  }

  /** The items loop after its first iteration. */
  lemma ItemsWalkStep(ownersLoop: (nat, nat) -> OwnersOutcome, iterate: (nat, nat) -> ItemsStep, items: map<ItemId, Item>, page: nat, itemsSent: nat, ownersSent: nat, fuel: nat)
    requires fuel > 0
    ensures var step := iterate(page, itemsSent);
      var r := ItemsWalk(ownersLoop, iterate, items, page, itemsSent, ownersSent, fuel);
      && (step.Refetch? ==>
            var q := ItemsWalk(ownersLoop, iterate, items, page, step.sent, ownersSent, fuel - 1); r == q.(visited := [page] + q.visited))
      && (step.Waiting? ==> r == ItemsRun(items, step.sent, ownersSent, ItemsUnfinished, [page]))
      && (step.Listed? ==>
            var reg := RegisterAll(ownersLoop, fuel, items, step.entries, ownersSent);
            if reg.stopped then r == ItemsRun(reg.items, step.sent, reg.ownersSent, ItemsUnfinished, [page])
            else if page >= step.lastPage then r == ItemsRun(reg.items, step.sent, reg.ownersSent, Finished, [page])
            else
              var q := ItemsWalk(ownersLoop, iterate, reg.items, page + 1, step.sent, reg.ownersSent, fuel - 1);
              r == q.(visited := [page] + q.visited))
  {
  }

  /** An items iteration whose response, after any 429 waits, decodes lists that
      page's entries. */
  lemma ItemsAnswered(src: Source<ItemsPage>, page: nat, n: nat)
    requires Delivered(src, n).Some?
    ensures Iterate(src)(page, n) == ItemsDecide(Delivered(src, n).value, page, After(src, n, 1))
  {
  }

  /** `k` copies of `page`. */
  function Repeat(page: nat, k: nat): seq<nat> {
    if k == 0 then [] else [page] + Repeat(page, k - 1)
  }

  lemma RepeatCons(page: nat, k: nat, rest: seq<nat>)
    ensures [page] + (Repeat(page, k) + rest) == Repeat(page, k + 1) + rest
  {
    assert Repeat(page, k + 1) == [page] + Repeat(page, k);
  }

  lemma RepeatVisits(r: ItemsRun, r': ItemsRun, q: ItemsRun, page: nat, k: nat, k': nat)
    requires k == k' + 1
    requires r == r'.(visited := [page] + r'.visited)
    requires r' == q.(visited := Repeat(page, k') + q.visited)
    ensures r == q.(visited := Repeat(page, k) + q.visited)
  {
    RepeatCons(page, k', q.visited);
  }

  /** An iteration that only asks for `page` again adds one visit to it. */
  lemma ItemsRefetchOnce(ownersLoop: (nat, nat) -> OwnersOutcome, iterate: (nat, nat) -> ItemsStep, items: map<ItemId, Item>, page: nat, itemsSent: nat, ownersSent: nat, fuel: nat, n: nat, left: nat)
    requires fuel > 0 && left == fuel - 1 && iterate(page, itemsSent) == Refetch(n)
    ensures var r' := ItemsWalk(ownersLoop, iterate, items, page, n, ownersSent, left);
      ItemsWalk(ownersLoop, iterate, items, page, itemsSent, ownersSent, fuel) == r'.(visited := [page] + r'.visited)
  {
    ItemsWalkStep(ownersLoop, iterate, items, page, itemsSent, ownersSent, fuel);
  }

  /** The `k` iterations on `page` from request `from` on each only ask for the
      page again, whatever each costs, and leave the loop at request `to`. */
  ghost predicate RefetchesTo(iterate: (nat, nat) -> ItemsStep, page: nat, from: nat, k: nat, to: nat)
    decreases k
  {
    if k == 0 then to == from
    else iterate(page, from).Refetch? && RefetchesTo(iterate, page, iterate(page, from).sent, k - 1, to)
  }

  /** When the first `k` iterations, from request `itemsSent` to request `to`, each
      only ask for `page` again, the loop spends them on `page` and then goes on
      from there as if they had not happened. */
  lemma {:induction false} ItemsRefetches(ownersLoop: (nat, nat) -> OwnersOutcome, iterate: (nat, nat) -> ItemsStep, items: map<ItemId, Item>, page: nat, itemsSent: nat, ownersSent: nat, fuel: nat, k: nat, to: nat)
    requires k <= fuel
    requires RefetchesTo(iterate, page, itemsSent, k, to)
    ensures var r := ItemsWalk(ownersLoop, iterate, items, page, itemsSent, ownersSent, fuel);
      var q := ItemsWalk(ownersLoop, iterate, items, page, to, ownersSent, fuel - k);
      r == q.(visited := Repeat(page, k) + q.visited)
    decreases k
  {
    if k > 0 {
      var n: nat := iterate(page, itemsSent).sent;
      var left: nat := fuel - 1;
      var k': nat := k - 1;
      var r := ItemsWalk(ownersLoop, iterate, items, page, itemsSent, ownersSent, fuel);
      var r' := ItemsWalk(ownersLoop, iterate, items, page, n, ownersSent, left);
      assert iterate(page, itemsSent) == Refetch(n);
      ItemsRefetchOnce(ownersLoop, iterate, items, page, itemsSent, ownersSent, fuel, n, left);
      var q := ItemsWalk(ownersLoop, iterate, items, page, to, ownersSent, fuel - k);
      assert r' == q.(visited := Repeat(page, k') + q.visited) by {
        ItemsRefetches(ownersLoop, iterate, items, page, n, ownersSent, left, k', to);
        assert left - k' == fuel - k;
      }
      RepeatVisits(r, r', q, page, k, k');
    } else {
      var r := ItemsWalk(ownersLoop, iterate, items, page, itemsSent, ownersSent, fuel);
      assert Repeat(page, 0) + r.visited == r.visited;
      assert r == r.(visited := Repeat(page, 0) + r.visited);
    }
  }

  /** The iteration starting at request `n` gets a response, after any 429 waits,
      whose body does not decode. */
  predicate Undecodable<P>(src: Source<P>, n: nat) {
    Get(src, n).response.Some? && Delivered(src, n).None?
  }

  /** Iterations whose bodies do not decode, each after its own 429 waits, each
      only ask for the page again. */
  lemma {:induction false} UndecodableRefetches(src: Source<ItemsPage>, page: nat, from: nat, k: nat)
    requires forall i: nat :: i < k ==> Undecodable(src, After(src, from, i))
    ensures RefetchesTo(Iterate(src), page, from, k, After(src, from, k))
    decreases k
  {
    if k > 0 {
      var next: nat := After(src, from, 1);
      assert Undecodable(src, After(src, from, 0));
      assert Iterate(src)(page, from) == Refetch(next);
      forall i: nat | i < k - 1
        ensures Undecodable(src, After(src, next, i))
      {
        assert After(src, next, i) == After(src, from, i + 1);
      }
      UndecodableRefetches(src, page, next, k - 1);
      assert After(src, next, k - 1) == After(src, from, k);
    }
  }

  /** A body that does not decode is fetched again for the same page with the
      snapshot untouched, however often it happens and however many 429 waits come
      before it: when the first `k` iterations from request `itemsSent` on all get
      bodies that do not decode, the loop spends them on `page` and then goes on
      from there as if they had not happened. */
  lemma ItemsDecodeRetries(ownersLoop: (nat, nat) -> OwnersOutcome, src: Source<ItemsPage>, items: map<ItemId, Item>, page: nat, itemsSent: nat, ownersSent: nat, fuel: nat, k: nat)
    requires k <= fuel
    requires forall i: nat :: i < k ==> Undecodable(src, After(src, itemsSent, i))
    ensures var r := ItemsWalk(ownersLoop, Iterate(src), items, page, itemsSent, ownersSent, fuel);
      var q := ItemsWalk(ownersLoop, Iterate(src), items, page, After(src, itemsSent, k), ownersSent, fuel - k);
      r == q.(visited := Repeat(page, k) + q.visited)
  {
    UndecodableRefetches(src, page, itemsSent, k);
    ItemsRefetches(ownersLoop, Iterate(src), items, page, itemsSent, ownersSent, fuel, k, After(src, itemsSent, k));
  }

  /** The whole crawl never drops an item and keeps every item's owner names unique
      and counts positive. */
  lemma {:induction false} ItemsWalkValid(ownersLoop: (nat, nat) -> OwnersOutcome, iterate: (nat, nat) -> ItemsStep, items: map<ItemId, Item>, page: nat, itemsSent: nat, ownersSent: nat, fuel: nat)
    requires AllValid(items)
    ensures var r := ItemsWalk(ownersLoop, iterate, items, page, itemsSent, ownersSent, fuel);
      AllValid(r.items) && items.Keys <= r.items.Keys
    decreases fuel
  {
    if fuel > 0 {
      var left: nat := fuel - 1;
      var next: nat := page + 1;
      var step := iterate(page, itemsSent);
      ItemsWalkStep(ownersLoop, iterate, items, page, itemsSent, ownersSent, fuel);
      if step.Refetch? {
        ItemsWalkValid(ownersLoop, iterate, items, page, step.sent, ownersSent, left);
      } else if step.Listed? {
        var reg := RegisterAll(ownersLoop, fuel, items, step.entries, ownersSent);
        RegisterAllValid(ownersLoop, fuel, items, step.entries, ownersSent);
        if !reg.stopped && page < step.lastPage {
          ItemsWalkValid(ownersLoop, iterate, reg.items, next, step.sent, reg.ownersSent, left);
        }
      }
    }
  }

  /** Items pages are visited from `page` on, each iteration on the same page (after
      a decode failure) or the next one. */
  lemma {:induction false} ItemsWalkPages(ownersLoop: (nat, nat) -> OwnersOutcome, iterate: (nat, nat) -> ItemsStep, items: map<ItemId, Item>, page: nat, itemsSent: nat, ownersSent: nat, fuel: nat)
    ensures var r := ItemsWalk(ownersLoop, iterate, items, page, itemsSent, ownersSent, fuel);
      && (fuel > 0 ==> r.visited[0] == page)
      && Consecutive(r.visited)
    decreases fuel
  {
    if fuel > 0 {
      var left: nat := fuel - 1;
      var next: nat := page + 1;
      var step := iterate(page, itemsSent);
      var r := ItemsWalk(ownersLoop, iterate, items, page, itemsSent, ownersSent, fuel);
      if step.Refetch? {
        var q := ItemsWalk(ownersLoop, iterate, items, page, step.sent, ownersSent, left);
        assert r.visited == [page] + q.visited by { ItemsWalkStep(ownersLoop, iterate, items, page, itemsSent, ownersSent, fuel); }
        ItemsWalkPages(ownersLoop, iterate, items, page, step.sent, ownersSent, left);
        ConsecutiveCons(page, q.visited);
      } else if step.Waiting? {
        assert r.visited == [page] by { ItemsWalkStep(ownersLoop, iterate, items, page, itemsSent, ownersSent, fuel); }
      } else {
        var reg := RegisterAll(ownersLoop, fuel, items, step.entries, ownersSent);
        if !reg.stopped && page < step.lastPage {
          var q := ItemsWalk(ownersLoop, iterate, reg.items, next, step.sent, reg.ownersSent, left);
          assert r.visited == [page] + q.visited by { ItemsWalkStep(ownersLoop, iterate, items, page, itemsSent, ownersSent, fuel); }
          ItemsWalkPages(ownersLoop, iterate, reg.items, next, step.sent, reg.ownersSent, left);
          ConsecutiveCons(page, q.visited);
        } else {
          assert r.visited == [page] by { ItemsWalkStep(ownersLoop, iterate, items, page, itemsSent, ownersSent, fuel); }
        }
      }
    }
  }

  /** Every iteration from request `itemsSent` on lists a page of entries, naming
      `last` as the last page, after at least one request. */
  ghost predicate ListsUpTo(iterate: (nat, nat) -> ItemsStep, itemsSent: nat, last: nat) {
    forall p: nat, n: nat :: n >= itemsSent ==>
      iterate(p, n).Listed? && iterate(p, n).sent > n && iterate(p, n).lastPage == last
  }

  /** One iteration of the items loop on a listed page that names `last` as the
      last page. */
  lemma ItemsListedStep(ownersLoop: (nat, nat) -> OwnersOutcome, iterate: (nat, nat) -> ItemsStep, items: map<ItemId, Item>, page: nat, itemsSent: nat, ownersSent: nat, fuel: nat, last: nat, reg: Registered, next: nat, sent': nat, left: nat)
    requires fuel > 0 && page <= last
    requires next == page + 1 && left == fuel - 1
    requires iterate(page, itemsSent).Listed? && iterate(page, itemsSent).sent == sent' && iterate(page, itemsSent).lastPage == last
    requires reg == RegisterAll(ownersLoop, fuel, items, iterate(page, itemsSent).entries, ownersSent)
    ensures var r := ItemsWalk(ownersLoop, iterate, items, page, itemsSent, ownersSent, fuel);
      if !reg.stopped && page < last then
        var q := ItemsWalk(ownersLoop, iterate, reg.items, next, sent', reg.ownersSent, left);
        r.visited == [page] + q.visited && r.end == q.end
      else
        && r.visited == [page]
        && r.end == (if reg.stopped then ItemsUnfinished else Finished)
        && (r.end == Finished ==> page == last)
  {
    ItemsWalkStep(ownersLoop, iterate, items, page, itemsSent, ownersSent, fuel);
  }

  /** When every iteration lists a page naming `last` as the last page, the pages
      fetched are page, page + 1, ... in order, never beyond `last`; a crawl that
      finishes has fetched exactly page .. last. */
  lemma {:induction false} ItemsListedInOrder(ownersLoop: (nat, nat) -> OwnersOutcome, iterate: (nat, nat) -> ItemsStep, items: map<ItemId, Item>, page: nat, itemsSent: nat, ownersSent: nat, fuel: nat, last: nat)
    requires page <= last && ListsUpTo(iterate, itemsSent, last)
    ensures var r := ItemsWalk(ownersLoop, iterate, items, page, itemsSent, ownersSent, fuel);
      && r.visited == Range(page, page + |r.visited|)
      && page + |r.visited| <= last + 1
      && (r.end == Finished ==> r.visited == Range(page, last + 1))
    decreases fuel
  {
    if fuel > 0 {
      var left: nat := fuel - 1;
      var sent': nat := iterate(page, itemsSent).sent;
      var reg := RegisterAll(ownersLoop, fuel, items, iterate(page, itemsSent).entries, ownersSent);
      var next: nat := page + 1;
      ItemsListedStep(ownersLoop, iterate, items, page, itemsSent, ownersSent, fuel, last, reg, next, sent', left);
      var r := ItemsWalk(ownersLoop, iterate, items, page, itemsSent, ownersSent, fuel);
      if !reg.stopped && page < last {
        ItemsListedInOrder(ownersLoop, iterate, reg.items, next, sent', reg.ownersSent, left, last);
        var q := ItemsWalk(ownersLoop, iterate, reg.items, next, sent', reg.ownersSent, left);
        RangeCons(page, next, q.visited, last);
      } else {
        assert Range(page, page + 1) == [page];
      }
    }
  }

  /** When, in addition, every owners loop finishes once it is given `ownersFuel`
      iterations or more, and the fuel covers pages page .. last with `ownersFuel`
      still left on page `last` (a page's owners loops get the fuel the items loop
      has left), the crawl finishes. */
  lemma {:induction false} ItemsListedFinish(ownersLoop: (nat, nat) -> OwnersOutcome, iterate: (nat, nat) -> ItemsStep, items: map<ItemId, Item>, page: nat, itemsSent: nat, ownersSent: nat, fuel: nat, last: nat, ownersFuel: nat)
    requires page <= last && ListsUpTo(iterate, itemsSent, last)
    requires ownersFuel > 0 && forall s: nat, f: nat :: f >= ownersFuel ==> ownersLoop(s, f).finished
    requires fuel >= last - page + ownersFuel
    ensures ItemsWalk(ownersLoop, iterate, items, page, itemsSent, ownersSent, fuel).end == Finished
    decreases fuel
  {
    var left: nat := fuel - 1;
    var sent': nat := iterate(page, itemsSent).sent;
    var entries := iterate(page, itemsSent).entries;
    var reg := RegisterAll(ownersLoop, fuel, items, entries, ownersSent);
    var next: nat := page + 1;
    RegisterAllCompletes(ownersLoop, fuel, items, entries, ownersSent);
    ItemsListedStep(ownersLoop, iterate, items, page, itemsSent, ownersSent, fuel, last, reg, next, sent', left);
    if page < last {
      ItemsListedFinish(ownersLoop, iterate, reg.items, next, sent', reg.ownersSent, left, last, ownersFuel);
    }
  }

  /** Items request `n` is answered, after whatever 429 waits, with a body that
      decodes to a page naming `last` as the last page. */
  ghost predicate ListsAt(src: Source<ItemsPage>, n: nat, last: nat) {
    var g := Get(src, n);
    && g.response.Some?
    && src.load(g.response.value.body).Some?
    && src.load(g.response.value.body).value.lastPage == Some(last)
  }

  /** Such answers make every iteration list a page naming `last`. */
  lemma AnsweredLists(src: Source<ItemsPage>, itemsSent: nat, last: nat)
    requires forall n :: n >= itemsSent ==> ListsAt(src, n, last)
    ensures ListsUpTo(Iterate(src), itemsSent, last)
  {
    forall p: nat, n: nat | n >= itemsSent
      ensures Iterate(src)(p, n).Listed? && Iterate(src)(p, n).sent > n && Iterate(src)(p, n).lastPage == last
    {
      var g := Get(src, n);
      assert ListsAt(src, n, last);
      assert Iterate(src)(p, n) == ItemsDecide(src.load(g.response.value.body).value, p, n + 1 + g.retries);
    }
  }

  /** When every items request from `itemsSent` on is answered, after whatever 429
      waits, with a body that decodes and reports `lastPage` = `last`, the pages
      fetched are page, page + 1, ... in order, never beyond `last`; a crawl that
      finishes has fetched exactly page .. last. */
  lemma ItemsPagesInOrder(ownersLoop: (nat, nat) -> OwnersOutcome, src: Source<ItemsPage>, items: map<ItemId, Item>, page: nat, itemsSent: nat, ownersSent: nat, fuel: nat, last: nat)
    requires page <= last
    requires forall n :: n >= itemsSent ==> ListsAt(src, n, last)
    ensures var r := ItemsWalk(ownersLoop, Iterate(src), items, page, itemsSent, ownersSent, fuel);
      && r.visited == Range(page, page + |r.visited|)
      && page + |r.visited| <= last + 1
      && (r.end == Finished ==> r.visited == Range(page, last + 1))
  {
    AnsweredLists(src, itemsSent, last);
    ItemsListedInOrder(ownersLoop, Iterate(src), items, page, itemsSent, ownersSent, fuel, last);
  }

  /** When, in addition, every owners loop finishes once it is given `ownersFuel`
      iterations or more, and the fuel covers pages page .. last with `ownersFuel`
      still left on page `last`, the crawl finishes, having fetched exactly
      page .. last. */
  lemma ItemsFinishes(ownersLoop: (nat, nat) -> OwnersOutcome, src: Source<ItemsPage>, items: map<ItemId, Item>, page: nat, itemsSent: nat, ownersSent: nat, fuel: nat, last: nat, ownersFuel: nat)
    requires page <= last
    requires forall n :: n >= itemsSent ==> ListsAt(src, n, last)
    requires ownersFuel > 0 && forall s: nat, f: nat :: f >= ownersFuel ==> ownersLoop(s, f).finished
    requires fuel >= last - page + ownersFuel
    ensures var r := ItemsWalk(ownersLoop, Iterate(src), items, page, itemsSent, ownersSent, fuel);
      r.end == Finished && r.visited == Range(page, last + 1)
  {
    AnsweredLists(src, itemsSent, last);
    ItemsListedFinish(ownersLoop, Iterate(src), items, page, itemsSent, ownersSent, fuel, last, ownersFuel);
    ItemsListedInOrder(ownersLoop, Iterate(src), items, page, itemsSent, ownersSent, fuel, last);
  }

  /** `process_all_items()` from page 1 finishes, having fetched exactly pages
      1 .. last, when every items request is answered, after whatever 429 waits,
      with a page that reports `lastPage` = `last`, every item's owners loop stops
      within `ownersFuel` iterations, and the fuel covers the pages with that much
      left. */
  lemma CrawlFinishes(api: Api, items: map<ItemId, Item>, last: nat, fuel: nat, ownersFuel: nat)
    requires 1 <= last && forall n: nat :: ListsAt(api.items, n, last)
    requires ownersFuel > 0 && forall s: nat :: OwnersLoop(api.owners)(s, ownersFuel).finished
    requires fuel >= last - 1 + ownersFuel
    ensures var r := ItemsWalk(OwnersLoop(api.owners), Iterate(api.items), items, 1, 0, 0, fuel);
      r.end == Finished && r.visited == Range(1, last + 1)
  {
    forall s: nat, f: nat | f >= ownersFuel ensures OwnersLoop(api.owners)(s, f).finished {
      assert OwnersLoop(api.owners)(s, ownersFuel).finished;
      assert OwnersWalk(api.owners, 1, s, ownersFuel).end != OwnersUnfinished;
      OwnersWalkMoreFuel(api.owners, 1, s, ownersFuel, f);
    }
    ItemsFinishes(OwnersLoop(api.owners), api.items, items, 1, 0, 0, fuel, last, ownersFuel);
  }

  /** The top of the owners loop's body: `fetch_owners`, `handle_rate_limit`,
      `response.json()`, and the checks on `inventories` and `pages`. */
  method FetchOwnersPage(src: Source<OwnersPage>, page: nat, sent: nat) returns (step: OwnersStep)
    ensures step == OwnersIteration(src, page, sent)
  {
    var response, retries := HandleRateLimit(src.server(sent), src.server, sent + 1, src.patience);
    var sent' := sent + 1 + retries;
    if response.None? {
      return Halt(sent', OwnersUnfinished, []);
    }
    var data := src.load(response.value.body);
    if data.None? {
      return Retry(sent');
    }
    var inventories := InventoriesOf(data.value);
    if inventories == [] {
      step := Halt(sent', NoInventories, []);
    } else if page >= PageCount(data.value) {
      step := Halt(sent', LastPage, Usernames(inventories));
    } else {
      step := Advance(sent', Usernames(inventories));
    }
  }

  /** `process_owners(item_id)`, from page 1 on the item's current owner list: the
      item's owners become the old list with the walk's usernames merged in, and
      no other item changes. */
  method ProcessOwners(store: Snapshot, src: Source<OwnersPage>, id: ItemId, sent: nat, fuel: nat) returns (sent': nat, end: OwnersEnd)
    requires id in store.items
    modifies store
    ensures var r := OwnersWalk(src, 1, sent, fuel);
      && store.items == old(store.items)[id := old(store.items[id]).(owners := MergeAll(old(store.items[id].owners), r.merged))]
      && sent' == r.sent
      && end == r.end
  {
    ghost var items0 := store.items;
    ghost var owners0 := items0[id].owners;
    ghost var run := OwnersWalk(src, 1, sent, fuel);
    ghost var done: seq<string> := [];
    var page: nat := 1;
    var left := fuel;
    sent' := sent;
    assert [] + run.merged == run.merged;
    while left > 0
      invariant id in store.items
      invariant store.items == items0[id := items0[id].(owners := MergeAll(owners0, done))]
      invariant OwnersTracks(src, page, sent', left, run, done)
    {
      var step := FetchOwnersPage(src, page, sent');
      var next: nat := page + 1;
      var left': nat := left - 1;
      ghost var done' := if step.Retry? then done else done + step.names;
      OwnersTrackStep(src, page, sent', left, run, done, step, next, left', done');
      sent' := step.sent;
      left := left';
      if step.Retry? {
        continue;
      }
      ghost var before := store.items;
      store.CountOwners(id, step.names);
      CountedAfter(items0, id, owners0, done, step.names, before, store.items);
      if step.Halt? {
        assert done + [] == done;
        end := step.end;
        return;
      }
      done := done';
      page := next;
    }
    assert done + [] == done;
    end := OwnersUnfinished;
  }

  /** The `for entry in data.get("data", [])` loop of one page: register each entry
      and run its owners loop, stopping at the first owners loop that is cut. */
  method RegisterPage(store: Snapshot, owners: Source<OwnersPage>, entries: seq<Entry>, sent: nat, fuel: nat)
    returns (ownersSent: nat, stopped: bool)
    modifies store
    ensures Registered(store.items, ownersSent, stopped) == RegisterAll(OwnersLoop(owners), fuel, old(store.items), entries, sent)
  {
    ghost var loop := OwnersLoop(owners);
    ghost var reg := RegisterAll(loop, fuel, store.items, entries, sent);
    ownersSent := sent;
    var j := 0;
    while j < |entries|
      invariant j <= |entries|
      invariant RegisterAll(loop, fuel, store.items, entries[j..], ownersSent) == reg
    {
      var e := entries[j];
      assert entries[j..][0] == e && entries[j..][1..] == entries[j + 1..];
      ghost var before := store.items;
      ghost var run := OwnersWalk(owners, 1, ownersSent, fuel);
      ghost var w := loop(ownersSent, fuel);
      assert w == OwnersOutcome(run.sent, run.merged, run.end != OwnersUnfinished);
      ghost var items' := before[e.id := Item(ItemName(e), MergeAll([], run.merged))];
      RegisterAllFirst(loop, fuel, before, entries[j..], ownersSent, w, items');
      store.Register(e.id, ItemName(e));
      ghost var registered := store.items;
      var ownersEnd;
      ownersSent, ownersEnd := ProcessOwners(store, owners, e.id, ownersSent, fuel);
      RegisteredThenCounted(before, e.id, ItemName(e), run.merged, registered, store.items);
      if ownersEnd == OwnersUnfinished {
        stopped := true;
        return;
      }
      j := j + 1;
    }
    stopped := false;
  }

  /** The items loop that now stands at `page`, with the snapshot `items`, the
      requests sent and `fuel` iterations left, ends as `run` does. */
  ghost predicate ItemsTracks(ownersLoop: (nat, nat) -> OwnersOutcome, iterate: (nat, nat) -> ItemsStep, items: map<ItemId, Item>, page: nat, itemsSent: nat, ownersSent: nat, fuel: nat, run: ItemsRun) {
    var r := ItemsWalk(ownersLoop, iterate, items, page, itemsSent, ownersSent, fuel);
    r.items == run.items && r.itemsSent == run.itemsSent && r.ownersSent == run.ownersSent && r.end == run.end
  }

  /** One iteration `step` of the items loop keeps it on track towards `run`, with
      `left` iterations left, on the same page or on page `next`. */
  lemma ItemsTrackStep(ownersLoop: (nat, nat) -> OwnersOutcome, iterate: (nat, nat) -> ItemsStep, items: map<ItemId, Item>, page: nat, itemsSent: nat, ownersSent: nat, fuel: nat, run: ItemsRun, step: ItemsStep, next: nat, left: nat)
    requires fuel > 0 && ItemsTracks(ownersLoop, iterate, items, page, itemsSent, ownersSent, fuel, run)
    requires step == iterate(page, itemsSent) && next == page + 1 && left == fuel - 1
    ensures step.Refetch? ==> ItemsTracks(ownersLoop, iterate, items, page, step.sent, ownersSent, left, run)
    ensures step.Waiting? ==> run.items == items && run.itemsSent == step.sent && run.ownersSent == ownersSent && run.end == ItemsUnfinished
    ensures step.Listed? ==>
      var reg := RegisterAll(ownersLoop, fuel, items, step.entries, ownersSent);
      if reg.stopped || page >= step.lastPage then
        run.items == reg.items && run.itemsSent == step.sent && run.ownersSent == reg.ownersSent
        && run.end == (if reg.stopped then ItemsUnfinished else Finished)
      else ItemsTracks(ownersLoop, iterate, reg.items, next, step.sent, reg.ownersSent, left, run)
  {
    ItemsWalkStep(ownersLoop, iterate, items, page, itemsSent, ownersSent, fuel);
  }

  /** The top of the items loop's body: `fetch_items`, `handle_rate_limit`,
      `response.json()`, and the `data` and `lastPage` lookups. */
  method FetchItemsPage(src: Source<ItemsPage>, page: nat, sent: nat) returns (step: ItemsStep)
    ensures step == ItemsIteration(src, page, sent)
  {
    var response, retries := HandleRateLimit(src.server(sent), src.server, sent + 1, src.patience);
    var sent' := sent + 1 + retries;
    if response.None? {
      return Waiting(sent');
    }
    var data := src.load(response.value.body);
    if data.None? {
      return Refetch(sent');
    }
    step := Listed(sent', data.value.data.GetOr([]), LastPageOr(data.value, page));
  }

  /** `process_all_items()` on the snapshot as it is, from page 1. */
  method ProcessAllItems(store: Snapshot, api: Api, fuel: nat) returns (itemsSent: nat, ownersSent: nat, end: ItemsEnd)
    modifies store
    ensures var r := ItemsWalk(OwnersLoop(api.owners), Iterate(api.items), old(store.items), 1, 0, 0, fuel);
      && store.items == r.items
      && itemsSent == r.itemsSent
      && ownersSent == r.ownersSent
      && end == r.end
  {
    var src := api.items;
    ghost var loop := OwnersLoop(api.owners);
    ghost var iterate := Iterate(src);
    ghost var run := ItemsWalk(loop, iterate, store.items, 1, 0, 0, fuel);
    var page: nat := 1;
    var left := fuel;
    itemsSent, ownersSent := 0, 0;
    while left > 0
      invariant ItemsTracks(loop, iterate, store.items, page, itemsSent, ownersSent, left, run)
    {
      var step := FetchItemsPage(src, page, itemsSent);
      var next: nat := page + 1;
      var left': nat := left - 1;
      ItemsTrackStep(loop, iterate, store.items, page, itemsSent, ownersSent, left, run, step, next, left');
      itemsSent := step.sent;
      if step.Waiting? {
        end := ItemsUnfinished;
        return;
      }
      if step.Refetch? {
        left := left';
        continue;
      }
      var stopped;
      ownersSent, stopped := RegisterPage(store, api.owners, step.entries, ownersSent, left);
      if stopped {
        end := ItemsUnfinished;
        return;
      }
      if page >= step.lastPage {
        end := Finished;
        return;
      }
      page, left := next, left';
    }
    end := ItemsUnfinished;
  }
}
