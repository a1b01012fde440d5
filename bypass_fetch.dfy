/** `fetch_items` and `fetch_owners` of the bypass crawler: POST the request to the
    local proxy, read `solution.response` out of its envelope, and strip the markup.
    A KeyError or JSONDecodeError while reading the envelope costs one attempt; after
    the last allowed attempt the page is skipped (None). The proxy is an oracle: its
    answer to the n-th request of one endpoint family. */
module BypassFetch {
  import opened Records
  import opened Markup

  /** What one POST to the proxy gave: the envelope's `solution.response`, or a
      KeyError / JSONDecodeError while reading it. */
  datatype Attempt = Solved(response: string) | BadEnvelope

  const ITEMS_MAX_RETRIES: nat := 5
  const OWNERS_MAX_RETRIES: nat := 7

  /** The cleaned body (None: every attempt failed) and the number of attempts made. */
  datatype Fetched = Fetched(body: Option<string>, attempts: nat)

  /** Up to `maxRetries` attempts, starting with the proxy's answer to request `sent`:
      the first solved attempt's raw response, and the number of attempts made. */
  function FirstSolved(proxy: nat -> Attempt, sent: nat, maxRetries: nat): (f: Fetched)
    ensures f.attempts <= maxRetries
    ensures f.body.None? ==> f.attempts == maxRetries
    ensures f.body.Some? ==> 1 <= f.attempts && proxy(sent + f.attempts - 1) == Solved(f.body.value)
    decreases maxRetries
  {
    if maxRetries == 0 then Fetched(None, 0)
    else
      match proxy(sent)
      case Solved(text) => Fetched(Some(text), 1)
      case BadEnvelope =>
        var rest := FirstSolved(proxy, sent + 1, maxRetries - 1);
        Fetched(rest.body, rest.attempts + 1)
  }

  /** What the fetch function returns: the first solved response with its markup
      stripped (None once every attempt failed), and the attempts it cost. */
  function Fetch(proxy: nat -> Attempt, sent: nat, maxRetries: nat): (f: Fetched)
    ensures f.attempts <= maxRetries
    ensures f.body.None? ==> f.attempts == maxRetries
    ensures f.body.Some? ==>
      1 <= f.attempts && proxy(sent + f.attempts - 1).Solved?
      && f.body.value == StripTags(proxy(sent + f.attempts - 1).response)
  {
    var f := FirstSolved(proxy, sent, maxRetries);
    match f.body
    case None => f
    case Some(text) => Fetched(Some(StripTags(text)), f.attempts)
  }

  /** Every attempt before the one that succeeds failed, and the page is given up
      on exactly when all `maxRetries` attempts fail. */
  lemma {:induction false} FetchFailures(proxy: nat -> Attempt, sent: nat, maxRetries: nat)
    ensures var f := FirstSolved(proxy, sent, maxRetries);
      && (forall i :: sent <= i < sent + f.attempts - 1 ==> proxy(i).BadEnvelope?)
      && (f.body.None? <==> forall i :: sent <= i < sent + maxRetries ==> proxy(i).BadEnvelope?)
    decreases maxRetries
  {
    if maxRetries > 0 && proxy(sent).BadEnvelope? {
      var next: nat := sent + 1;
      var fewer: nat := maxRetries - 1;
      FetchFailures(proxy, next, fewer);
      var f := FirstSolved(proxy, sent, maxRetries);
      forall i | sent <= i < sent + f.attempts - 1 ensures proxy(i).BadEnvelope? {
        if i > sent { assert next <= i < next + FirstSolved(proxy, next, fewer).attempts - 1; }
      }
      if forall i :: next <= i < next + fewer ==> proxy(i).BadEnvelope? {
        forall i | sent <= i < sent + maxRetries ensures proxy(i).BadEnvelope? {
          if i > sent { assert next <= i < next + fewer; }
        }
      }
    }
  }

  /** The `for attempt in range(1, max_retries + 1)` loop with its early return. */
  method FetchWithRetry(proxy: nat -> Attempt, sent: nat, maxRetries: nat) returns (body: Option<string>, attempts: nat)
    ensures Fetched(body, attempts) == Fetch(proxy, sent, maxRetries)
  {
    attempts := 0;
    var left := maxRetries;
    while left > 0
      invariant attempts + left == maxRetries
      invariant FirstSolved(proxy, sent, maxRetries)
             == var rest := FirstSolved(proxy, sent + attempts, left);
                Fetched(rest.body, rest.attempts + attempts)
    {
      var outcome := proxy(sent + attempts);
      ghost var here := FirstSolved(proxy, sent + attempts, left);
      attempts := attempts + 1;
      left := left - 1;
      if outcome.Solved? {
        assert here == Fetched(Some(outcome.response), 1);
        body := Some(StripTags(outcome.response));
        return;
      }
      assert here == var rest := FirstSolved(proxy, sent + attempts, left); Fetched(rest.body, rest.attempts + 1);
    }
    body := None;
  }

  /** `fetch_items(page)`: at most five attempts. */
  method FetchItems(proxy: nat -> Attempt, sent: nat) returns (body: Option<string>, attempts: nat)
    ensures Fetched(body, attempts) == Fetch(proxy, sent, ITEMS_MAX_RETRIES)
    ensures 1 <= attempts <= 5
  {
    body, attempts := FetchWithRetry(proxy, sent, ITEMS_MAX_RETRIES);
  }

  /** `fetch_owners(item_id, page)`: at most seven attempts. */
  method FetchOwners(proxy: nat -> Attempt, sent: nat) returns (body: Option<string>, attempts: nat)
    ensures Fetched(body, attempts) == Fetch(proxy, sent, OWNERS_MAX_RETRIES)
    ensures 1 <= attempts <= 7
  {
    body, attempts := FetchWithRetry(proxy, sent, OWNERS_MAX_RETRIES);
  }

  /** What one crawl loop sees: `fetch(n)` is the fetch function's outcome when it
      starts at the loop's n-th proxy request, and `load` is `json.loads` on a cleaned
      body (None stands for a JSONDecodeError). */
  datatype Source<P> = Source(fetch: nat -> Fetched, load: string -> Option<P>)

  /** The source a proxy, a retry budget and a decoder make up. */
  function SourceOf<P>(proxy: nat -> Attempt, maxRetries: nat, load: string -> Option<P>): Source<P> {
    Source((sent: nat) => Fetch(proxy, sent, maxRetries), load)
  }

  /** Every fetch costs one to `maxRetries` requests, and one that gives up costs all of them. */
  ghost predicate Bounded<P>(src: Source<P>, maxRetries: nat) {
    forall sent :: 1 <= src.fetch(sent).attempts <= maxRetries
      && (src.fetch(sent).body.None? ==> src.fetch(sent).attempts == maxRetries)
  }

  /** The page request `n` yields when the fetch starting there succeeds at the first attempt. */
  function Answer<P>(src: Source<P>, n: nat): Option<P> {
    var f := src.fetch(n);
    if f.attempts == 1 && f.body.Some? then src.load(f.body.value) else None
  }

  lemma SourceOfBounded<P>(proxy: nat -> Attempt, maxRetries: nat, load: string -> Option<P>)
    requires maxRetries > 0
    ensures Bounded(SourceOf(proxy, maxRetries, load), maxRetries)
  {
    var src := SourceOf(proxy, maxRetries, load);
    forall sent ensures 1 <= src.fetch(sent).attempts <= maxRetries
      && (src.fetch(sent).body.None? ==> src.fetch(sent).attempts == maxRetries)
    {
      assert src.fetch(sent) == Fetch(proxy, sent, maxRetries);
    }
  }

  /** The last `maxRetries` requests before request `n` are one fetch that gave up. */
  ghost predicate GaveUpBefore<P>(src: Source<P>, n: nat, maxRetries: nat) {
    n >= maxRetries && src.fetch(n - maxRetries).body.None?
  }

  /** A fetch of the proxy that gives up met a bad envelope at every attempt. */
  lemma SourceOfGaveUp<P>(proxy: nat -> Attempt, maxRetries: nat, load: string -> Option<P>, n: nat)
    requires GaveUpBefore(SourceOf(proxy, maxRetries, load), n, maxRetries)
    ensures forall i :: n - maxRetries <= i < n ==> proxy(i).BadEnvelope?
  {
    var from: nat := n - maxRetries;
    assert SourceOf(proxy, maxRetries, load).fetch(from) == Fetch(proxy, from, maxRetries);
    FetchFailures(proxy, from, maxRetries);
  }

  /** A first-attempt answer is the decoded, stripped response the proxy solved. */
  lemma SourceOfAnswer<P>(proxy: nat -> Attempt, maxRetries: nat, load: string -> Option<P>, n: nat)
    requires maxRetries > 0
    ensures Answer(SourceOf(proxy, maxRetries, load), n)
         == match proxy(n) case Solved(text) => load(StripTags(text)) case BadEnvelope => None
  {
    var f := Fetch(proxy, n, maxRetries);
    assert SourceOf(proxy, maxRetries, load).fetch(n) == f;
    if proxy(n).BadEnvelope? {
      FetchFailures(proxy, n, maxRetries);
    }
  }
}
