/** `handle_rate_limit` of the direct crawler: while the response is an HTTP 429,
    wait and send the same GET again; return the first response that is not a 429.
    The server is an oracle: its response to the n-th request of one endpoint
    family. The loop has no bound in the program; here it waits out at most
    `patience` 429s in a row, and running out (None) means the program would still
    be waiting. */
module RateLimit {
  import opened Records

  const TOO_MANY_REQUESTS: int := 429

  /** An HTTP response: its status code and its body text. */
  datatype Response = Response(status: int, body: string)

  /** The response handed back (None: still rate limited once patience ran out)
      and the number of requests sent again. */
  datatype Served = Served(response: Option<Response>, retries: nat)

  /** `handle_rate_limit(first)`, where the retries are requests `next`, `next + 1`, ... */
  function Settle(first: Response, server: nat -> Response, next: nat, patience: nat): (s: Served)
    ensures s.retries <= patience
    ensures s.response.Some? ==> s.response.value.status != TOO_MANY_REQUESTS
    ensures s.response.None? ==> s.retries == patience
    decreases patience
  {
    if first.status != TOO_MANY_REQUESTS then Served(Some(first), 0)
    else if patience == 0 then Served(None, 0)
    else
      var rest := Settle(server(next), server, next + 1, patience - 1);
      Served(rest.response, rest.retries + 1)
  }

  /** The response handed back is the last one received, every one before it was a
      429, and the loop is still waiting exactly when the first response and all
      `patience` retries were 429s. */
  lemma {:induction false} SettleFirstServed(first: Response, server: nat -> Response, next: nat, patience: nat)
    ensures var s := Settle(first, server, next, patience);
      && (s.response.Some? ==> s.response.value == if s.retries == 0 then first else server(next + s.retries - 1))
      && (s.retries > 0 ==> first.status == TOO_MANY_REQUESTS)
      && (forall i :: next <= i < next + s.retries - 1 ==> server(i).status == TOO_MANY_REQUESTS)
      && (s.response.None? <==>
            first.status == TOO_MANY_REQUESTS && forall i :: next <= i < next + patience ==> server(i).status == TOO_MANY_REQUESTS)
    decreases patience
  {
    if first.status == TOO_MANY_REQUESTS && patience > 0 {
      var after: nat := next + 1;
      var fewer: nat := patience - 1;
      SettleFirstServed(server(next), server, after, fewer);
      var rest := Settle(server(next), server, after, fewer);
      forall i | next <= i < next + rest.retries ensures server(i).status == TOO_MANY_REQUESTS {
        if i > next { assert after <= i < after + rest.retries - 1; }
      }
      if server(next).status == TOO_MANY_REQUESTS && forall i :: after <= i < after + fewer ==> server(i).status == TOO_MANY_REQUESTS {
        forall i | next <= i < next + patience ensures server(i).status == TOO_MANY_REQUESTS {
          if i > next { assert after <= i < after + fewer; }
        }
      }
    }
  }

  /** Handing a response that is not a 429 back through the loop changes nothing. */
  lemma SettleIdempotent(first: Response, server: nat -> Response, next: nat, patience: nat, server': nat -> Response, next': nat, patience': nat)
    requires Settle(first, server, next, patience).response.Some?
    ensures var r := Settle(first, server, next, patience).response.value;
      Settle(r, server', next', patience') == Served(Some(r), 0)
  {
  }

  /** The `while response.status_code == 429` loop. */
  method HandleRateLimit(first: Response, server: nat -> Response, next: nat, patience: nat) returns (response: Option<Response>, retries: nat)
    ensures Served(response, retries) == Settle(first, server, next, patience)
    ensures response.Some? ==> response.value.status != TOO_MANY_REQUESTS
    ensures first.status != TOO_MANY_REQUESTS ==> response == Some(first) && retries == 0
  {
    var current := first;
    retries := 0;
    while current.status == TOO_MANY_REQUESTS && retries < patience
      invariant retries <= patience
      invariant Settle(first, server, next, patience)
             == var rest := Settle(current, server, next + retries, patience - retries);
                Served(rest.response, rest.retries + retries)
    {
      current := server(next + retries);
      retries := retries + 1;
    }
    if current.status == TOO_MANY_REQUESTS {
      response := None;
    } else {
      response := Some(current);
    }
  }
}
