# all-limiteds, modelled in Dafny

all-limiteds crawls the Polytoria store. It counts how many copies of each
collectible item every user owns, then summarises the counts. This project
models the core of that pipeline:

- **The two crawlers.**
  - `getjson_cfbypass.py` goes through a local bypass proxy.
  - `getjson.py` calls the API directly.
  - Both fill a module-level `items` map, from item id to `{name, owners}`. Two nested `while True` page loops do this: `process_all_items` and `process_owners`.
  - For every inventory record, the owner list gets a find-or-append merge.
- **The retry policies.**
  - The proxy fetchers make at most 5 attempts per items page and 7 per owners page.
  - The direct crawler's `handle_rate_limit` sends the request again while the status is 429.
  - The proxy answer is cleaned with `re.sub(r"<.*?>", "", ...)`.
- **The reporting in `main.py`.**
  - `process_data` computes per-user totals and the overall total.
  - The stable descending sort, the top-10 prefix, and `aggregate_others` build the top-N plus "Others" bucket.
  - One line of the project README is rewritten: the "fun fact" line.

The network is replaced by oracles. A crawl loop's n-th request gets the answer `proxy(n)` or `server(n)`. `json.loads` is a parameter from text to an optional, already-parsed page record. Every JSON field the code reads with `.get` is an `Option`.

The `while True` loops have no bound in the program. Here each one runs for at most `fuel` iterations. Each rate-limit wait follows at most `patience` 429s. Being cut off is an explicit end state (`OwnersOutOfFuel`, `ItemsOutOfFuel`, `OwnersUnfinished`, `ItemsUnfinished`), which means the program would still be running. The owners loops of an items page get the fuel the items loop has left on that page.

State that the source changes in place is imperative Dafny here:

- `Store.Snapshot` is a class holding the `items` map.
- The page walkers, the retry loops, the for-else owner search, `process_data`, and the in-place README line loop are methods with loop invariants.
- Each method is proved equal to a recursive specification function: `OwnersWalk`, `ItemsWalk`, `FirstSolved`, `Settle`, `Accumulate`, `UpdateFunFact`.
- `ItemsWalk` takes one iteration as a function parameter. The lemmas about the loop's shape (page order, cost, finishing) hold for every such function, and short lemmas apply them to the iteration of each crawler.
- The properties are lemmas about those functions.

Details the model follows from the code:

- In the direct crawler, `response.json()` is attempted whatever the non-429 status is. So an error page that decodes is treated as a page.
- In the direct crawler, `data` defaults to `[]`, while the proxy crawler skips a page whose `data` is not a list.
- In the proxy crawler, a `None` items page advances to the next page without any `lastPage` check. So persistent proxy failures make the loop walk pages forever (`ItemsSpinWhenProxyFails`).
- `aggregate_others` writes `"Others"` with a dict assignment. If one of the top-N keys is already `"Others"`, its count is overwritten in place rather than appended.

Files:

| file | module | contents |
|---|---|---|
| `records.dfy` | `Records` | `Option`, items, owners and page records with optional fields, `Range` |
| `owner_merge.dfy` | `OwnerMerge` | the find-or-append merge and its invariant |
| `store.dfy` | `Store` | the `items` map as a class |
| `markup.dfy` | `Markup` | the `<.*?>` strip |
| `bypass_fetch.dfy` | `BypassFetch` | the bounded retry of `fetch_items` / `fetch_owners` |
| `registration.dfy` | `Registration` | registering a page of entries (`items[id] = {name, owners: []}`, then `process_owners`) |
| `bypass_crawler.dfy` | `BypassCrawler` | the page walkers of `getjson_cfbypass.py` |
| `rate_limit.dfy` | `RateLimit` | `handle_rate_limit` |
| `direct_crawler.dfy` | `DirectCrawler` | the page walkers of `getjson.py` |
| `report.dfy` | `Report` | `process_data`, the sort, top 10, `aggregate_others`, the fun-fact line |

Some definitions look alike but stay separate on purpose:

- `Report.Find`/`Put` and `OwnerMerge.IndexOf`/`Merge` are different operations. The report's lookup is a Python dict assignment on `user_counts`: keys may be a missing name, and a value is set, not incremented. The crawlers' search is the for-else scan over a list of `{name, count}` records, which adds 1.
- Each crawler keeps its own `OwnersDecide`, walk and lemmas. The two programs stop their owners loops for different reasons: `Skipped` after the proxy gives up, against `OwnersUnfinished` after a rate-limit wait that does not end. So their step and end types differ, and each file models one program.

## Model

| member | source | states |
|---|---|---|
| OwnerMerge.IndexOf | getjson_cfbypass.py:174-177 | the position found is the first entry with the username, or the end of the list when no entry has it |
| OwnerMerge.Merge | getjson_cfbypass.py:174-179 | the find-or-append of one username: the first entry with that name gains 1 (count becomes its old count + 1), or a `{name, count: 1}` entry is appended; every other entry is unchanged and the list grows only when the name was absent |
| OwnerMerge.FindOwner | getjson_cfbypass.py:174-177 | the for-loop search stops at the first owner with the name, having passed only owners with other names; it reaches the end only when none matches |
| OwnerMerge.MergeIncrementsFirstMatch | getjson_cfbypass.py:174-177 | a name already present: exactly its first entry gains 1, and length, order and all other entries are unchanged |
| OwnerMerge.MergeAppendsNewName | getjson_cfbypass.py:178-179 | an unseen name is appended at the end as `{name, count: 1}` |
| OwnerMerge.MergeNames | getjson_cfbypass.py:171-179 | the names after a merge are the old names, plus the new name at the end when it was absent |
| OwnerMerge.MergeAll | getjson_cfbypass.py:171-179 | merging a run of usernames keeps the existing entries' names in place and adds at most one entry per record |
| OwnerMerge.MergeTotal | getjson_cfbypass.py:171-179 | one merge adds exactly 1 to the sum of counts |
| OwnerMerge.MergeCounts | getjson_cfbypass.py:171-179 | the merged name's count grows by 1 and every other name's count is unchanged |
| OwnerMerge.MergeKeepsValid | getjson_cfbypass.py:171-179 | a merge keeps names unique and counts positive |
| OwnerMerge.MergeFacts | getjson_cfbypass.py:171-179 | all of the above for one inventory record |
| OwnerMerge.MergeAllAppend | getjson_cfbypass.py:171-179 | merging two runs of records one after the other equals merging their concatenation |
| OwnerMerge.MergeAllCounts | getjson.py:122-130 | after any sequence of records: total = old total + number of records; each name's count = old count + its number of occurrences; names = old names ∪ merged names; uniqueness and positivity are preserved |
| OwnerMerge.MergeAllFromEmpty | getjson_cfbypass.py:171-179 | from the empty list an item is registered with: unique names, positive counts, counts summing to the number of records, and each count equal to that name's number of records |
| OwnerMerge.MergePageCountsEveryRecord | getjson_cfbypass.py:171-172 | every record of a page is counted, and a record with no `user` or no `username` adds to the count of the empty name |
| Store.Snapshot.constructor | getjson_cfbypass.py:11 | the snapshot starts empty and valid |
| Store.Snapshot.Register | getjson_cfbypass.py:135 | `items[id] = {name, owners: []}` overrides any earlier entry for the id and touches no other; validity is kept |
| Store.Snapshot.CountOwner | getjson_cfbypass.py:173-179 | only the item's owner list changes, and it becomes the merge of the username; validity is kept |
| Store.Snapshot.CountOwners | getjson_cfbypass.py:171-179 | the loop over a page's inventories leaves the item's owners merged with every username in order |
| Store.CountedAfter | getjson_cfbypass.py:171-179 | counting page after page equals counting all the pages' records at once |
| Markup.CloseAt | getjson_cfbypass.py:53 | a tag ends at the first `>` after its `<`, with no newline or `>` before it; there is no end when every `>` has a newline before it |
| Markup.StripTags | getjson_cfbypass.py:53 | the `<.*?>` substitution never lengthens its input |
| Markup.StripKeepsOpenBracket | getjson_cfbypass.py:53 | a `<` with no closing `>` on its line is kept, and stripping goes on after it |
| Markup.StripDropsFirstTag | getjson_cfbypass.py:53 | a `<` whose tag closes is dropped together with everything up to and including that first `>` |
| Markup.StripCases | getjson_cfbypass.py:53 | stripping text that continues with a `<` after a tag-free prefix: the prefix is kept, then either the `<` is kept (no close) or the shortest tag is removed |
| Markup.StripKeepsNewlines | getjson_cfbypass.py:53 | stripping keeps every newline |
| Markup.StripPlainPrefix | getjson_cfbypass.py:53 | text before the first `<` is kept unchanged and in order |
| Markup.StripDropsTag | getjson_cfbypass.py:53 | a `<…>` span with no `>` or newline inside is removed whole |
| Markup.StripLeavesNoTags | getjson_cfbypass.py:53 | the result contains no `<…>` span that would match again |
| Markup.StripNoTagsUnchanged | getjson_cfbypass.py:53 | text without tags comes back unchanged |
| Markup.StripShortensTagged | getjson_cfbypass.py:53 | stripping never lengthens a string, and strictly shortens one that has a tag |
| Markup.StripFixedPoints | getjson_cfbypass.py:53 | a string is left unchanged if and only if it has no tags |
| Markup.StripIdempotent | getjson_cfbypass.py:53 | stripping twice is the same as stripping once |
| Markup.StripUnwrapsPre | getjson_cfbypass.py:52-53 | tag-free JSON wrapped in `<pre>…</pre>` comes out bare |
| BypassFetch.FirstSolved | getjson_cfbypass.py:36-61 | at most `max_retries` attempts; a body is the solution of the last attempt made; None only after all attempts were made |
| BypassFetch.Fetch | getjson_cfbypass.py:36-61 | at most `max_retries` attempts; a body only from a solved attempt, the last one made, and it is that solution with tags stripped; None only after all `max_retries` attempts |
| BypassFetch.FetchFailures | getjson_cfbypass.py:37-61 | every attempt before the successful one failed; the result is None if and only if all attempts failed |
| BypassFetch.FetchWithRetry | getjson_cfbypass.py:36-61 | the `for attempt` loop with early return computes `FirstSolved`, including the stripping of the returned solution |
| BypassFetch.FetchItems | getjson_cfbypass.py:36-61 | `fetch_items` makes between 1 and 5 attempts |
| BypassFetch.FetchOwners | getjson_cfbypass.py:75-102 | `fetch_owners` makes between 1 and 7 attempts |
| BypassFetch.SourceOfBounded | getjson_cfbypass.py:36-61 | each fetch consumes between 1 and `max_retries` proxy answers |
| BypassFetch.SourceOfGaveUp | getjson_cfbypass.py:93-102 | a fetch that gave up was preceded by `max_retries` failed proxy answers in a row |
| BypassFetch.SourceOfAnswer | getjson_cfbypass.py:51-53 | a solved attempt yields `json.loads` of the stripped solution; a failed one yields nothing |
| Registration.RegisterAllOverrides | getjson_cfbypass.py:132-136 | registering a page gives the old map overridden by what registering into an empty map would give |
| Registration.RegisterAll | getjson_cfbypass.py:132-136 | registering a page's entries (each followed by its owners loop) never drops an item already in the map |
| Registration.RegisterAllKeys | getjson.py:88-91 | no item is dropped; items not on the page are untouched; a page that completes adds exactly its ids |
| Registration.RegisterAllLastWins | getjson_cfbypass.py:132-136 | in a page that completes, the last entry with an id decides that id's name, and its owners are exactly one owners loop's usernames merged into an empty list (a repeated id discards earlier owners) |
| Registration.RegisterAllValid | getjson_cfbypass.py:132-136 | registering and counting keep every owner list unique and positive |
| Registration.RegisterAllCompletes | getjson_cfbypass.py:132-136 | when every owners loop finishes, registering a whole page is never stopped part-way |
| BypassCrawler.OwnersDecide | getjson_cfbypass.py:167-184 | a decoded owners page never retries; its usernames are merged; the loop stops if and only if the page has no inventories or `page >= pages` (missing = 0), and says which |
| BypassCrawler.OwnersIteration | getjson_cfbypass.py:153-166 | one iteration costs exactly the fetch's attempts; it stops with `Skipped` if and only if the fetch gave up, and retries the page if and only if the fetched text does not decode |
| BypassCrawler.OwnersWalk | getjson_cfbypass.py:152-184 | the owners loop makes at most `fuel` iterations, is cut only after all of them, and never un-sends a request |
| BypassCrawler.OwnersAnsweredStep | getjson_cfbypass.py:154-184 | an iteration whose fetch delivers, at whatever attempt, text that decodes to page p costs exactly that fetch's attempts: no inventories ends the loop with nothing merged; `page >= pages` merges p's usernames and ends; otherwise it merges them and the loop carries on from page + 1 |
| BypassCrawler.OwnersWalkPages | getjson_cfbypass.py:152-184 | one page per iteration, starting at the walk's first page; each next page is the same page again (a retry) or the one after |
| BypassCrawler.OwnersWalkCost | getjson_cfbypass.py:154-157 | each iteration sends 1 to 7 owners requests; a skip comes after 7 failed attempts |
| BypassCrawler.OwnersSkipAfterFailures | getjson_cfbypass.py:154-157 | the loop stops for a `None` fetch only after seven bad proxy answers in a row |
| BypassCrawler.AfterBounds | getjson_cfbypass.py:154-157 | with fetches of 1 to `max_retries` attempts, k iterations move the owners request count on by between k and `max_retries`·k |
| BypassCrawler.OwnersStopRule | getjson_cfbypass.py:152-184 | when each iteration's fetch delivers decodable text at whatever proxy attempt (each iteration starting where the previous one's attempts left off), the loop visits pages consecutively and stops at the first page with no inventories (even page 1), or else at the first page with `page >= pages` (missing `pages` = 0), merging every username on the way in order |
| BypassCrawler.OwnersWalkMoreFuel | getjson_cfbypass.py:152-184 | an owners loop that stops before its fuel runs out does the same pages, requests and merges, and stops the same way, with any larger fuel |
| BypassCrawler.ItemsDecide | getjson_cfbypass.py:126-141 | a decoded items page never refetches; it is skipped if and only if `data` is not a list; otherwise its entries are listed with `lastPage` defaulting to the current page |
| BypassCrawler.ItemsIteration | getjson_cfbypass.py:113-124 | one iteration costs exactly the fetch's attempts; a fetch that gave up skips the page; the page is fetched again if and only if the text does not decode |
| BypassCrawler.ItemsWalk | getjson_cfbypass.py:112-142 | the items loop makes at most `fuel` iterations and visits a page in each one |
| BypassCrawler.ItemsWalkValid | getjson_cfbypass.py:132-136 | the crawl never drops an item and keeps every owner list unique and positive |
| BypassCrawler.ItemsWalkPages | getjson_cfbypass.py:112-142 | for any iteration function: the first iteration is on the walk's first page, and each next page is the same page again (a decode retry) or the one after |
| BypassCrawler.ItemsWalkCost | getjson_cfbypass.py:113-124 | with the proxy fetch of `fetch_items`, the crawl sends at least one and at most five items requests per iteration, so the count never goes back |
| BypassCrawler.ItemsSpinWhenProxyFails | getjson_cfbypass.py:113-118 | when the proxy always fails, the loop walks forward through pages, 5 requests each, and never finishes or touches `items` |
| BypassCrawler.ItemsStepsCost | getjson_cfbypass.py:113-124 | if every iteration costs 1 to 5 requests, the whole walk costs between its number of iterations and five times that |
| BypassCrawler.BoundedCosts | getjson_cfbypass.py:36-61 | a proxy bounded by `max_retries` makes every items iteration cost 1 to 5 requests |
| BypassCrawler.ItemsSkipping | getjson_cfbypass.py:113-118 | when every fetch gives up, the loop moves forward one page per iteration, 5 requests each, runs out of fuel, and leaves `items` and the owners requests untouched |
| BypassCrawler.ItemsListedStep | getjson_cfbypass.py:132-141 | a listed page whose `lastPage` is `last`, reached after any number of requests, either goes on to page + 1 or stops at that page, finishing only when it is `last` |
| BypassCrawler.ItemsListedInOrder | getjson_cfbypass.py:112-142 | when every iteration lists a page with `lastPage = N`, whatever it costs in requests, the pages visited are consecutive from the first, never beyond N, and all up to N when the loop finishes |
| BypassCrawler.ItemsListedFinish | getjson_cfbypass.py:138-141 | under the same conditions, when every owners loop finishes once given `ownersFuel` iterations and the fuel covers the pages with `ownersFuel` left on the last one, the loop finishes |
| BypassCrawler.AnsweredLists | getjson_cfbypass.py:119-138 | fetches that deliver, after however many attempts, a page with a `data` list and `lastPage = N` make every iteration list a page with `lastPage = N`, after at least one request |
| BypassCrawler.ItemsPagesInOrder | getjson_cfbypass.py:112-142 | when every items fetch delivers, after however many proxy attempts, a page with a `data` list and `lastPage = N`, the pages visited are consecutive from the first, never beyond N, and all up to N when the crawl finishes |
| BypassCrawler.ItemsFinishes | getjson_cfbypass.py:112-142 | when every items fetch delivers, after however many proxy attempts, a page with a `data` list and `lastPage = N`, every owners loop finishes once given `ownersFuel` iterations, and the fuel covers pages page..N with `ownersFuel` left, the crawl finishes having visited exactly page..N |
| BypassCrawler.CrawlFinishes | getjson_cfbypass.py:105-185 | the crawl of the proxy itself, from page 1 with its real owners loop: when every items fetch delivers a `data` list with `lastPage = N` and every owners loop stops within `ownersFuel` iterations, enough fuel makes it finish having visited exactly pages 1..N |
| BypassCrawler.FetchOwnersPage | getjson_cfbypass.py:154-182 | `fetch_owners` (the `for attempt` loop), `json.loads` and the checks on `inventories` and `pages` give the step `OwnersIteration` describes on the proxy |
| BypassCrawler.ProcessOwners | getjson_cfbypass.py:145-185 | the loop, fetching through the proxy, leaves the item's owners merged with exactly the walk's usernames, and reports its requests and end |
| BypassCrawler.RegisterPage | getjson_cfbypass.py:132-136 | the `for entry` loop registers and counts the page's entries as `RegisterAll` does |
| BypassCrawler.FetchItemsPage | getjson_cfbypass.py:114-138 | `fetch_items` (the `for attempt` loop), `json.loads` and the `data` and `lastPage` lookups give the step `ItemsIteration` describes on the proxy |
| BypassCrawler.ProcessAllItems | getjson_cfbypass.py:105-142 | the whole crawl through the proxy leaves the snapshot, request counts and end state that `ItemsWalk` gives from page 1 |
| RateLimit.Settle | getjson.py:67-70 | the response returned is never a 429; it is None only after `patience` retries |
| RateLimit.SettleFirstServed | getjson.py:67-70 | the response returned is the first non-429 one and every earlier one was a 429; a non-429 input is returned with no refetch; the loop still waits if and only if all responses were 429s |
| RateLimit.SettleIdempotent | getjson.py:67-70 | handing a returned response through the loop again changes nothing |
| RateLimit.HandleRateLimit | getjson.py:57-70 | the `while status == 429` loop computes `Settle`; it never returns a 429 and returns a non-429 input as is |
| DirectCrawler.Get | getjson.py:79-80 | a fetch followed by `handle_rate_limit` hands on no 429; a first non-429 response is handed on with no retry; a wait that is cut has used all `patience` retries |
| DirectCrawler.OwnersDecide | getjson.py:118-134 | a decoded owners page never retries; its usernames are merged; the loop stops if and only if `inventories` is empty or missing or `page >= pages` (missing = 0), and says which |
| DirectCrawler.OwnersIteration | getjson.py:108-116 | one iteration costs one request plus the rate-limit retries; it is cut if and only if the wait is cut, and retries the page if and only if the body does not decode |
| DirectCrawler.OwnersWalk | getjson.py:107-136 | the owners loop makes at most `fuel` iterations, each at least one request |
| DirectCrawler.OwnersAnswered | getjson.py:109-112 | a response that decodes after any 429 waits is decided by its page alone, the iteration costing its request and those waits |
| DirectCrawler.OwnersWalkPages | getjson.py:107-135 | one page per iteration, starting at the walk's first page; each next page is the same page again (a retry) or the one after |
| DirectCrawler.OwnersAnsweredStep | getjson.py:109-134 | an iteration whose response, after any 429 waits, decodes to page p: no inventories ends the loop with nothing merged; `page >= pages` merges p's usernames and ends; otherwise it merges them and carries on from page + 1 |
| DirectCrawler.OwnersStopRule | getjson.py:107-134 | when each iteration's response decodes after however many 429 waits (each iteration starting where the previous one's waits left off), the loop stops at the first page with empty or missing `inventories` (even page 1), or else at the first page with `page >= pages` (missing `pages` = 0), after merging every username in order |
| DirectCrawler.OwnersWaitWhileRateLimited | getjson.py:109-110 | a server that only answers 429 keeps the loop waiting on its first page, with nothing merged |
| DirectCrawler.OwnersStopAfterWait | getjson.py:108-119 | one 429 and then a page without inventories ends the loop on that page after two requests, with nothing merged |
| DirectCrawler.OwnersWalkMoreFuel | getjson.py:107-136 | an owners loop that stops before it is cut does the same pages, requests and merges, and stops the same way, with any larger fuel |
| DirectCrawler.ItemsDecide | getjson.py:88-97 | a decoded items page is always listed, with `data` defaulting to `[]` and `lastPage` to the current page |
| DirectCrawler.ItemsIteration | getjson.py:78-86 | one iteration costs one request plus the rate-limit retries; it waits (is cut) if and only if the wait is cut, and refetches the page if and only if the body does not decode |
| DirectCrawler.ItemsWalk | getjson.py:77-97 | the items loop makes at most `fuel` iterations and visits a page in each one |
| DirectCrawler.ItemsAnswered | getjson.py:79-82 | a response that decodes after any 429 waits lists its page's entries, the iteration costing its request and those waits |
| DirectCrawler.ItemsRefetches | getjson.py:78-86 | k refetches in a row on the same page, whatever each costs in requests, repeat that page k times and leave the rest of the loop as if they had not happened |
| DirectCrawler.UndecodableRefetches | getjson.py:79-86 | bodies that do not decode, each after its own 429 waits, make each iteration only ask for the page again |
| DirectCrawler.ItemsDecodeRetries | getjson.py:79-86 | k decode failures in a row, each after however many 429 waits, retry the same page k times with `items` untouched, then the crawl carries on as if they had not happened |
| DirectCrawler.ItemsWalkValid | getjson.py:88-91 | the crawl never drops an item and keeps every owner list unique and positive |
| DirectCrawler.ItemsWalkPages | getjson.py:77-97 | for any iteration function: the first iteration is on the walk's first page, and each next page is the same page again (a decode retry) or the one after |
| DirectCrawler.ItemsListedStep | getjson.py:88-96 | a listed page whose `lastPage` is `last`, reached after any number of requests, either goes on to page + 1 or stops at that page, finishing only when it is `last` |
| DirectCrawler.ItemsListedInOrder | getjson.py:77-97 | when every iteration lists a page with `lastPage = N`, whatever it costs in requests, the pages visited are consecutive from the first, never beyond N, and all up to N when the loop finishes |
| DirectCrawler.ItemsListedFinish | getjson.py:93-96 | under the same conditions, when every owners loop finishes once given `ownersFuel` iterations and the fuel covers the pages with `ownersFuel` left on the last one, the loop finishes |
| DirectCrawler.AnsweredLists | getjson.py:79-93 | responses that, after however many 429 waits, decode with `lastPage = N` make every iteration list a page with `lastPage = N`, after at least one request |
| DirectCrawler.ItemsPagesInOrder | getjson.py:77-97 | when every items request is answered, after however many 429 waits, with a body that decodes and reports `lastPage = N`, the pages visited are consecutive from the first, never beyond N, and all up to N when the crawl finishes |
| DirectCrawler.ItemsFinishes | getjson.py:77-97 | when every items request is answered, after however many 429 waits, with a body that decodes and reports `lastPage = N`, every owners loop finishes once given `ownersFuel` iterations, and the fuel covers pages page..N with `ownersFuel` left, the crawl finishes having visited exactly page..N |
| DirectCrawler.CrawlFinishes | getjson.py:73-136 | the crawl of the API itself, from page 1 with its real owners loop: when every items request is answered (after any 429 waits) with `lastPage = N` and every owners loop stops within `ownersFuel` iterations, enough fuel makes it finish having visited exactly pages 1..N |
| DirectCrawler.FetchOwnersPage | getjson.py:109-134 | fetch, rate-limit wait and decode of one owners page give the step `OwnersIteration` describes |
| DirectCrawler.ProcessOwners | getjson.py:100-136 | the loop leaves the item's owners merged with exactly the walk's usernames |
| DirectCrawler.RegisterPage | getjson.py:88-91 | each entry gets `items[id] = {name or "", owners: []}` and its owners are fully processed before the next entry |
| DirectCrawler.FetchItemsPage | getjson.py:79-93 | fetch, rate-limit wait and decode of one items page give the step `ItemsIteration` describes |
| DirectCrawler.ProcessAllItems | getjson.py:73-97 | the whole crawl leaves the snapshot, request counts and end state that `ItemsWalk` gives from page 1 |
| Report.Find | main.py:112 | the dict lookup finds the first entry with the key, or none |
| Report.Put | main.py:112 | `d[key] = v` keeps the length for a key already present and grows it by one for a new key, stores v under `key`, and leaves every other key's entry in place |
| Report.PutSum | main.py:112 | after `d[key] = v`, `d[key]` is v and the sum of values changes by v − old value |
| Report.PutOthers | main.py:112 | `d[key] = v` leaves other keys' values unchanged and keeps the keys unique |
| Report.KeysPut | main.py:112 | the keys after `d[key] = v` are the old keys plus `key` |
| Report.Accumulate | main.py:108-113 | `user_counts` has at most one entry per owner record |
| Report.AccumulateCounts | main.py:108-113 | `user_counts[name]` is the sum of that name's counts over all records (missing count = 0), and the values sum to the total |
| Report.AccumulateKeys | main.py:108-113 | the keys of `user_counts` are unique and are exactly the names that occur |
| Report.AccumulateFacts | main.py:108-113 | both of the above together |
| Report.ProcessData | main.py:103-115 | the nested loop yields `user_counts` with per-name sums and unique keys, and `total_lims` equal to the sum of all counts and to the sum of `user_counts` |
| Report.Insert | main.py:137 | insertion adds one entry, and that entry is in the result |
| Report.InsertPermutes | main.py:137 | inserting one entry adds exactly that entry to the multiset of entries |
| Report.InsertSum | main.py:137 | insertion adds the entry's count to the sum |
| Report.InsertSorted | main.py:137 | insertion into a non-increasing list keeps it non-increasing |
| Report.InsertStable | main.py:137 | among entries of equal count, the inserted one comes after the earlier ones |
| Report.SortDesc | main.py:137 | sorting keeps the number of entries |
| Report.SortDescFacts | main.py:137 | the sorted list is a permutation of the input with non-increasing counts and the same sum, and entries with equal counts keep their input order |
| Report.Top | main.py:138 | `top_10` has min(10, n) entries and they are the first entries of `sorted_counts`, in order |
| Report.TopDominates | main.py:137-138 | in a list sorted by descending count, no entry of `top_10` has a smaller count than any entry after it |
| Report.AggregateOthers | main.py:83-89 | at most N entries come back unchanged; otherwise the result has N or N + 1 entries, and each top-N entry not keyed `"Others"` is kept in place |
| Report.AggregateOthersSplit | main.py:87-89 | with more than N entries, the result is the first N entries with `"Others"` set to the sum of the rest |
| Report.AggregateOthersFacts | main.py:83-89 | at most N entries gives an equal copy; otherwise `"Others"` holds the sum of the rest; the sum of values is kept, less any overwritten top-N `"Others"` value |
| Report.AggregateOthersAppends | main.py:87-89 | when no top-N key is `"Others"`, the result is the top N in order plus `"Others"` = total − their sum, and the sum is preserved |
| Report.Summarize | main.py:137-139 | `sorted_counts` has all entries, `top_10` is its first min(10, n) entries, and `with_others` has at most one entry more than `top_10` |
| Report.SortExample | main.py:137 | counts alice 5, bob 3, carol 9, dave 1 sort to carol, alice, bob, dave |
| Report.OthersExample | main.py:83-89 | carol 9, alice 5, bob 3, dave 1 with N = 2 give carol, alice, Others 4 |
| Report.SummaryFacts | main.py:137-139 | `top_10` dominates the rest of `sorted_counts`; when no top key is `"Others"`, `with_others` starts with `top_10` and keeps the total |
| Report.IntToStringRoundTrip | main.py:130 | the decimal text of `total_lims` in the line reads back as the same integer |
| Report.FunFactLine | main.py:129-131 | the templated line itself starts with the fun-fact prefix (a rewritten README is rewritten the same way again) and ends with `** limited copies!` and a newline |
| Report.FunFactLineStatesTotal | main.py:130-131 | the templated line carries `total_lims` between `There are over **` and `** limited copies!`, and that text reads back as the same integer |
| Report.UpdateFunFact | main.py:128-131 | the rewrite keeps the number of lines and which lines are fun-fact lines |
| Report.UpdateFunFactFacts | main.py:128-131 | lines with the fun-fact prefix become the templated line; all other lines are kept as they are; rewriting twice is rewriting once |
| Report.RewriteFunFact | main.py:128-131 | the in-place `lines[idx] = …` loop leaves the array equal to `UpdateFunFact` of its old contents |

## Left out

- Network I/O: `requests.get`/`requests.post`, the proxy envelope, URLs and timeouts. They become oracle functions from a request number to an answer.
- Transport exceptions (`ConnectionError`, `Timeout`): the source does not catch them and the run aborts. The model has no such outcome.
- `time.sleep` pacing and back-off: these have no behavioural content.
- JSON text, `json.loads`/`json.dump`/`json.load`, `open`, and the ASCII README read and write. Parsing is a parameter giving an optional page record. The effect of dumping (int ids becoming string keys in `owners.json`) is not modelled.
- The charts (`generate_pie_chart`, `generate_bar_chart`, main.py:11-69): presentation built on matplotlib and floats.
- `print` logging, `save_owners`, and each crawler's `main`: file output and entry points.
- Item ids: `entry.get("id")` keeps whatever JSON value the API sends. Here an id is an integer or missing (`None`). The crawlers only use an id as a dict key, so only its equality matters, and other JSON types add no behaviour.
- Loops that do not terminate: each `while True` loop and each 429 wait is cut after `fuel` iterations or `patience` retries. What the program would do beyond that bound is the explicit unfinished end state only.
- JSON `null` fields: a field that is present but null is not distinguished from one that is missing. In the source, a null `username` would be counted under `None` and a null `count` would raise `TypeError`.
- DirectCrawler.ItemsDecide: a `data` value that is not a list would raise in the direct crawler. Here it counts as missing (`[]`).
- Report.AggregateOthersFacts: a negative `top_n` (Python slicing from the end) is not modelled, because `topN` is a `nat`. `main` calls it with 10.
- Report.SummaryFacts: states the prefix and total properties of `with_others` only when no top-ten key is `"Others"`, because the source overwrites that key's count in place (see `AggregateOthersFacts` for the general case).
