/** The reporting arithmetic of the summary script: per-user totals over the
    snapshot (`process_data`), the stable descending sort of those totals, the top
    ten, the top-N-plus-"Others" dict behind the pie chart (`aggregate_others`),
    and the README line that states the overall total. A Python dict keeps its
    keys in insertion order; it is modelled as a sequence of (key, count) pairs
    with distinct keys. */
module Report {
  import opened Records

  /** A key of `user_counts`: `owner.get("name")`, None when the name is missing. */
  type Label = Option<string>

  /** One element of an item's `owners` list as read back from the snapshot file. */
  datatype OwnerRecord = OwnerRecord(name: Label, count: Option<int>)

  /** One value of the snapshot file: `owners` may be missing. */
  datatype ItemRecord = ItemRecord(owners: Option<seq<OwnerRecord>>)

  /** One (key, value) pair of an insertion-ordered dict. */
  datatype Tally = Tally(key: Label, count: int)

  const OTHERS: Label := Some("Others")
  const TOP_N: nat := 10

  function Keys(d: seq<Tally>): seq<Label> {
    seq(|d|, i requires 0 <= i < |d| => d[i].key)
  }

  /** A dict's keys are distinct. */
  ghost predicate UniqueKeys(d: seq<Tally>) {
    forall i, j :: 0 <= i < j < |d| ==> d[i].key != d[j].key
  }

  /** `sum(d.values())` */
  function Sum(d: seq<Tally>): int {
    if d == [] then 0 else d[0].count + Sum(d[1..])
  }

  lemma {:induction false} SumAppend(a: seq<Tally>, b: seq<Tally>)
    ensures Sum(a + b) == Sum(a) + Sum(b)
  {
    if a != [] {
      assert (a + b)[1..] == a[1..] + b;
      SumAppend(a[1..], b);
    } else {
      assert a + b == b;
    }
  }

  /** The position of `key`, or |d| when it is not a key. */
  function Find(d: seq<Tally>, key: Label): (k: nat)
    ensures k <= |d|
    ensures k < |d| ==> d[k].key == key
    ensures forall j :: 0 <= j < k ==> d[j].key != key
  {
    if d == [] then 0
    else if d[0].key == key then 0
    else 1 + Find(d[1..], key)
  }

  /** `d.get(key, 0)` */
  function Get(d: seq<Tally>, key: Label): int {
    var k := Find(d, key);
    if k < |d| then d[k].count else 0
  }

  /** `d[key] = value`: a key already present keeps its place, a new one goes last;
      every entry with another key stays where it is. */
  function Put(d: seq<Tally>, key: Label, value: int): (r: seq<Tally>)
    ensures |r| == if Find(d, key) < |d| then |d| else |d| + 1
    ensures Find(d, key) < |r| && r[Find(d, key)] == Tally(key, value)
    ensures forall j :: 0 <= j < |d| && d[j].key != key ==> r[j] == d[j]
  {
    var k := Find(d, key);
    if k < |d| then d[k := Tally(key, value)] else d + [Tally(key, value)]
  }

  lemma FindIs(d: seq<Tally>, key: Label, k: nat)
    requires k < |d| && d[k].key == key
    requires forall j :: 0 <= j < k ==> d[j].key != key
    ensures Find(d, key) == k
  {
  }

  lemma {:induction false} SumUpdate(d: seq<Tally>, k: nat, t: Tally)
    requires k < |d|
    ensures Sum(d[k := t]) == Sum(d) - d[k].count + t.count
  {
    if k > 0 {
      assert d[k := t][1..] == d[1..][k - 1 := t];
      SumUpdate(d[1..], k - 1, t);
    }
  }

  /** `key in d` exactly when the search finds it. */
  lemma InKeysFind(d: seq<Tally>, key: Label)
    ensures key in Keys(d) <==> Find(d, key) < |d|
  {
    var k := Find(d, key);
    if k < |d| {
      assert Keys(d)[k] == key;
    }
    if key in Keys(d) {
      var i :| 0 <= i < |d| && Keys(d)[i] == key;
      assert d[i].key == key;
    }
  }

  /** A key present in `d` is found at its own place in `d` and in `d` extended. */
  lemma FindInPrefix(d: seq<Tally>, e: seq<Tally>, key: Label)
    requires Find(d, key) < |d|
    ensures Find(d + e, key) == Find(d, key)
  {
    FindIs(d + e, key, Find(d, key));
  }

  /** After `d[key] = value` the key holds `value` and the values' sum moves by the
      difference. */
  lemma PutSum(d: seq<Tally>, key: Label, value: int)
    ensures Get(Put(d, key, value), key) == value
    ensures Sum(Put(d, key, value)) == Sum(d) - Get(d, key) + value
  {
    var k := Find(d, key);
    if k < |d| {
      SumUpdate(d, k, Tally(key, value));
    } else {
      SumAppend(d, [Tally(key, value)]);
      FindIs(Put(d, key, value), key, |d|);
    }
  }

  /** After `d[key] = value` every other key keeps its value, and keys stay distinct. */
  lemma PutOthers(d: seq<Tally>, key: Label, value: int)
    ensures forall m :: m != key ==> Get(Put(d, key, value), m) == Get(d, m)
    ensures UniqueKeys(d) ==> UniqueKeys(Put(d, key, value))
  {
    var r := Put(d, key, value);
    var k := Find(d, key);
    if k < |d| {
      forall m ensures Find(r, m) == Find(d, m) {
        var a := Find(d, m);
        if a < |d| { FindIs(r, m, a); } else { assert forall j :: 0 <= j < |r| ==> r[j].key == d[j].key; }
      }
    } else {
      forall m | m != key ensures Get(r, m) == Get(d, m) {
        if Find(d, m) < |d| { FindInPrefix(d, [Tally(key, value)], m); }
      }
      if UniqueKeys(d) {
        forall i, j | 0 <= i < j < |r| ensures r[i].key != r[j].key {
          if j == |d| { assert r[i] == d[i]; }
        }
      }
    }
  }

  /** `record.get("owners", [])` */
  function OwnersOf(r: ItemRecord): seq<OwnerRecord> {
    r.owners.GetOr([])
  }

  /** `owner.get("count", 0)` */
  function CountOf(o: OwnerRecord): int {
    o.count.GetOr(0)
  }

  /** Every owner record of the snapshot, item after item. */
  function AllOwners(records: seq<ItemRecord>): seq<OwnerRecord> {
    if records == [] then [] else AllOwners(records[..|records| - 1]) + OwnersOf(records[|records| - 1])
  }

  /** The sum of all counts. */
  function TotalOf(os: seq<OwnerRecord>): int {
    if os == [] then 0 else TotalOf(os[..|os| - 1]) + CountOf(os[|os| - 1])
  }

  /** The sum of the counts of the records named `key`. */
  function SumFor(os: seq<OwnerRecord>, key: Label): int {
    if os == [] then 0
    else SumFor(os[..|os| - 1], key) + (if os[|os| - 1].name == key then CountOf(os[|os| - 1]) else 0)
  }

  /** `user_counts[name] = user_counts.get(name, 0) + count` for one record. */
  function AddRecord(d: seq<Tally>, o: OwnerRecord): seq<Tally> {
    Put(d, o.name, Get(d, o.name) + CountOf(o))
  }

  /** `user_counts` after the records `os`, one after another: at most one entry
      per record. */
  function Accumulate(os: seq<OwnerRecord>): (r: seq<Tally>)
    ensures |r| <= |os|
  {
    if os == [] then [] else AddRecord(Accumulate(os[..|os| - 1]), os[|os| - 1])
  }

  /** The last record: `Accumulate` and `SumFor` both step by it. */
  lemma AccumulateLast(os: seq<OwnerRecord>, l: Label)
    requires os != []
    ensures var init, o := os[..|os| - 1], os[|os| - 1];
      && Accumulate(os) == Put(Accumulate(init), o.name, Get(Accumulate(init), o.name) + CountOf(o))
      && SumFor(os, l) == SumFor(init, l) + (if o.name == l then CountOf(o) else 0)
  {
  }

  /** Each name's total is the sum of its records' counts (a missing count is 0), and
      the totals add up to the sum over all records. */
  lemma {:induction false} AccumulateCounts(os: seq<OwnerRecord>)
    ensures forall l :: Get(Accumulate(os), l) == SumFor(os, l)
    ensures Sum(Accumulate(os)) == TotalOf(os)
  {
    if os != [] {
      var init, o := os[..|os| - 1], os[|os| - 1];
      AccumulateCounts(init);
      var d := Accumulate(init);
      var v := Get(d, o.name) + CountOf(o);
      PutSum(d, o.name, v);
      PutOthers(d, o.name, v);
      forall l ensures Get(Accumulate(os), l) == SumFor(os, l) {
        AccumulateLast(os, l);
      }
    }
  }

  /** Each name appears once, and the names present are exactly those of the records. */
  lemma {:induction false} AccumulateKeys(os: seq<OwnerRecord>)
    ensures UniqueKeys(Accumulate(os))
    ensures forall l :: l in Keys(Accumulate(os)) <==> exists o :: o in os && o.name == l
  {
    if os != [] {
      var init, o := os[..|os| - 1], os[|os| - 1];
      AccumulateKeys(init);
      var d := Accumulate(init);
      var v := Get(d, o.name) + CountOf(o);
      PutOthers(d, o.name, v);
      assert os == init + [o];
      forall l ensures l in Keys(Accumulate(os)) <==> exists x :: x in os && x.name == l {
        KeysPut(d, o.name, v, l);
      }
    }
  }

  /** All of `process_data`'s totals at once. */
  lemma AccumulateFacts(os: seq<OwnerRecord>)
    ensures forall l :: Get(Accumulate(os), l) == SumFor(os, l)
    ensures Sum(Accumulate(os)) == TotalOf(os)
    ensures UniqueKeys(Accumulate(os))
    ensures forall l :: l in Keys(Accumulate(os)) <==> exists o :: o in os && o.name == l
  {
    AccumulateCounts(os);
    AccumulateKeys(os);
  }

  /** The keys after `d[key] = value` are the old ones and `key`. */
  lemma KeysPut(d: seq<Tally>, key: Label, value: int, l: Label)
    ensures l in Keys(Put(d, key, value)) <==> l in Keys(d) || l == key
  {
    var r := Put(d, key, value);
    var k := Find(d, key);
    if l in Keys(r) {
      var i :| 0 <= i < |r| && Keys(r)[i] == l;
      if i < |d| && r[i] == d[i] { assert Keys(d)[i] == l; }
    }
    if l in Keys(d) {
      var i :| 0 <= i < |d| && Keys(d)[i] == l;
      assert Keys(r)[i] == l;
    }
    if l == key {
      if k < |d| { assert Keys(r)[k] == l; } else { assert Keys(r)[|d|] == l; }
    }
  }

  /** One more record of the inner loop. */
  lemma AccumulateSnoc(seen: seq<OwnerRecord>, owners: seq<OwnerRecord>, j: nat)
    requires j < |owners|
    ensures Accumulate(seen + owners[..j + 1]) == AddRecord(Accumulate(seen + owners[..j]), owners[j])
    ensures TotalOf(seen + owners[..j + 1]) == TotalOf(seen + owners[..j]) + CountOf(owners[j])
  {
    var os := seen + owners[..j + 1];
    assert os[..|os| - 1] == seen + owners[..j];
  }

  lemma AllOwnersSnoc(records: seq<ItemRecord>, i: nat)
    requires i < |records|
    ensures AllOwners(records[..i + 1]) == AllOwners(records[..i]) + OwnersOf(records[i])
  {
    assert records[..i + 1][..i] == records[..i];
  }

  /** `process_data` after the file is read: the nested loop over the records and
      their owners. */
  method ProcessData(records: seq<ItemRecord>) returns (userCounts: seq<Tally>, totalLims: int)
    ensures userCounts == Accumulate(AllOwners(records))
    ensures totalLims == TotalOf(AllOwners(records)) == Sum(userCounts)
    ensures forall l :: Get(userCounts, l) == SumFor(AllOwners(records), l)
    ensures UniqueKeys(userCounts)
  {
    userCounts, totalLims := [], 0;
    var i := 0;
    while i < |records|
      invariant i <= |records|
      invariant userCounts == Accumulate(AllOwners(records[..i]))
      invariant totalLims == TotalOf(AllOwners(records[..i]))
    {
      var owners := OwnersOf(records[i]);
      ghost var seen := AllOwners(records[..i]);
      var j := 0;
      assert seen + owners[..0] == seen;
      while j < |owners|
        invariant j <= |owners|
        invariant userCounts == Accumulate(seen + owners[..j])
        invariant totalLims == TotalOf(seen + owners[..j])
      {
        var name := owners[j].name;
        var count := CountOf(owners[j]);
        AccumulateSnoc(seen, owners, j);
        userCounts := Put(userCounts, name, Get(userCounts, name) + count);
        totalLims := totalLims + count;
        j := j + 1;
      }
      assert owners[..j] == owners;
      AllOwnersSnoc(records, i);
      i := i + 1;
    }
    assert records[..i] == records;
    AccumulateFacts(AllOwners(records));
  }

  /** Counts never increase from one entry to the next. */
  ghost predicate NonIncreasing(d: seq<Tally>) {
    forall i, j :: 0 <= i < j < |d| ==> d[i].count >= d[j].count
  }

  /** The entries with count `c`, in order. */
  function WithCount(d: seq<Tally>, c: int): seq<Tally> {
    if d == [] then [] else (if d[0].count == c then [d[0]] else []) + WithCount(d[1..], c)
  }

  lemma {:induction false} WithCountAppend(a: seq<Tally>, b: seq<Tally>, c: int)
    ensures WithCount(a + b, c) == WithCount(a, c) + WithCount(b, c)
  {
    if a != [] {
      assert (a + b)[1..] == a[1..] + b;
      WithCountAppend(a[1..], b, c);
    } else {
      assert a + b == b;
    }
  }

  /** Insert `x` into the sorted `s` after every entry whose count is not smaller:
      one entry longer, and `x` is in it. */
  function Insert(s: seq<Tally>, x: Tally): (r: seq<Tally>)
    ensures |r| == |s| + 1 && x in r
  {
    if s == [] then [x]
    else if s[0].count >= x.count then [s[0]] + Insert(s[1..], x)
    else [x] + s
  }

  /** `sorted(d.items(), key=lambda x: x[1], reverse=True)`: Python's sort is stable,
      also in reverse, so this is an insertion sort that puts each entry after the
      earlier entries with the same count. */
  function SortDesc(d: seq<Tally>): (r: seq<Tally>)
    ensures |r| == |d|
  {
    if d == [] then [] else Insert(SortDesc(d[..|d| - 1]), d[|d| - 1])
  }

  lemma {:induction false} InsertPermutes(s: seq<Tally>, x: Tally)
    ensures multiset(Insert(s, x)) == multiset(s) + multiset{x}
  {
    if s != [] {
      assert s == [s[0]] + s[1..];
      if s[0].count >= x.count {
        InsertPermutes(s[1..], x);
      }
    }
  }

  lemma {:induction false} InsertSum(s: seq<Tally>, x: Tally)
    ensures Sum(Insert(s, x)) == Sum(s) + x.count
  {
    if s != [] && s[0].count >= x.count {
      InsertSum(s[1..], x);
    }
  }

  /** Inserting below a bound keeps every count below it. */
  lemma {:induction false} InsertBounded(s: seq<Tally>, x: Tally, c: int)
    requires forall i :: 0 <= i < |s| ==> s[i].count <= c
    requires x.count <= c
    ensures forall i :: 0 <= i < |Insert(s, x)| ==> Insert(s, x)[i].count <= c
  {
    if s != [] && s[0].count >= x.count {
      InsertBounded(s[1..], x, c);
      assert Insert(s, x) == [s[0]] + Insert(s[1..], x);
    }
  }

  lemma {:induction false} InsertSorted(s: seq<Tally>, x: Tally)
    requires NonIncreasing(s)
    ensures NonIncreasing(Insert(s, x))
  {
    if s != [] && s[0].count >= x.count {
      InsertSorted(s[1..], x);
      InsertBounded(s[1..], x, s[0].count);
      var r := Insert(s, x);
      var t := Insert(s[1..], x);
      assert r == [s[0]] + t;
      forall i, j | 0 <= i < j < |r| ensures r[i].count >= r[j].count {
        assert r[j] == t[j - 1];
        if i > 0 {
          assert r[i] == t[i - 1];
        }
      }
    }
  }

  lemma {:induction false} NoneWithLargerCount(s: seq<Tally>, c: int)
    requires NonIncreasing(s)
    requires s != [] ==> s[0].count < c
    ensures WithCount(s, c) == []
  {
    if s != [] {
      NoneWithLargerCount(s[1..], c);
    }
  }

  /** Inserting keeps the earlier entries of each count in front of `x`. */
  lemma {:induction false} InsertStable(s: seq<Tally>, x: Tally, c: int)
    requires NonIncreasing(s)
    ensures WithCount(Insert(s, x), c) == WithCount(s, c) + WithCount([x], c)
  {
    if s == [] {
    } else if s[0].count >= x.count {
      var t := Insert(s[1..], x);
      InsertStable(s[1..], x, c);
      assert Insert(s, x) == [s[0]] + t;
      WithCountAppend([s[0]], t, c);
      WithCountAppend([s[0]], s[1..], c);
      assert [s[0]] + s[1..] == s;
    } else {
      WithCountAppend([x], s, c);
      if x.count == c {
        NoneWithLargerCount(s, c);
      } else {
        assert WithCount([x], c) == [];
      }
    }
  }

  /** The sort leaves counts non-increasing, is a permutation of its input with the
      same sum, and keeps the entries of each count in their input order. */
  lemma {:induction false} SortDescFacts(d: seq<Tally>)
    ensures NonIncreasing(SortDesc(d))
    ensures multiset(SortDesc(d)) == multiset(d)
    ensures Sum(SortDesc(d)) == Sum(d)
    ensures forall c :: WithCount(SortDesc(d), c) == WithCount(d, c)
  {
    if d != [] {
      var init, x := d[..|d| - 1], d[|d| - 1];
      assert d == init + [x];
      SortDescFacts(init);
      InsertSorted(SortDesc(init), x);
      InsertPermutes(SortDesc(init), x);
      InsertSum(SortDesc(init), x);
      SumAppend(init, [x]);
      forall c ensures WithCount(SortDesc(d), c) == WithCount(d, c) {
        InsertStable(SortDesc(init), x, c);
        WithCountAppend(init, [x], c);
      }
    }
  }

  /** `dict(list(d.items())[:n])`: the first min(n, |d|) entries. */
  function Top(d: seq<Tally>, n: nat): (r: seq<Tally>)
    ensures |r| == if n < |d| then n else |d|
    ensures forall i :: 0 <= i < |r| ==> r[i] == d[i]
  {
    d[..if n < |d| then n else |d|]
  }

  /** No entry of a sorted dict outside its top has a larger count than one inside. */
  lemma TopDominates(d: seq<Tally>, n: nat)
    requires NonIncreasing(d)
    ensures forall i, j :: 0 <= i < |Top(d, n)| <= j < |d| ==> Top(d, n)[i].count >= d[j].count
  {
  }

  /** `aggregate_others(d, top_n)`: a dict of at most `topN` entries as it is;
      otherwise its first `topN` entries, in place unless keyed "Others", and at
      most one entry more. */
  function AggregateOthers(d: seq<Tally>, topN: nat): (r: seq<Tally>)
    ensures |d| <= topN ==> r == d
    ensures |d| > topN ==> topN <= |r| <= topN + 1
    ensures |d| > topN ==> forall i :: 0 <= i < topN && d[i].key != OTHERS ==> r[i] == d[i]
  {
    if |d| <= topN then d
    else
      var top := d[..topN];
      Put(top, OTHERS, Sum(d) - Sum(top))
  }

  /** Past `topN` entries, "Others" is set to the sum of the entries after the top. */
  lemma AggregateOthersSplit(d: seq<Tally>, topN: nat)
    requires |d| > topN
    ensures AggregateOthers(d, topN) == Put(d[..topN], OTHERS, Sum(d[topN..]))
  {
    var top, rest := d[..topN], d[topN..];
    assert d == top + rest;
    SumAppend(top, rest);
  }

  /** A dict of at most `topN` entries comes back as it is. Otherwise the result is
      its first `topN` entries with "Others" set to the sum of the rest; a top user
      literally named "Others" has its own count overwritten, so the values' sum
      drops by that count and is preserved otherwise. */
  lemma AggregateOthersFacts(d: seq<Tally>, topN: nat)
    ensures |d| <= topN ==> AggregateOthers(d, topN) == d
    ensures |d| > topN ==> Get(AggregateOthers(d, topN), OTHERS) == Sum(d[topN..])
    ensures Sum(AggregateOthers(d, topN)) == Sum(d) - (if |d| > topN then Get(d[..topN], OTHERS) else 0)
  {
    if |d| > topN {
      var top, rest := d[..topN], d[topN..];
      AggregateOthersSplit(d, topN);
      assert d == top + rest;
      SumAppend(top, rest);
      PutSum(top, OTHERS, Sum(rest));
    }
  }

  /** When no top key is "Others", the bucket is appended after the top entries. */
  lemma AggregateOthersAppends(d: seq<Tally>, topN: nat)
    requires |d| > topN
    requires forall i :: 0 <= i < topN ==> d[i].key != OTHERS
    ensures AggregateOthers(d, topN) == d[..topN] + [Tally(OTHERS, Sum(d[topN..]))]
    ensures Sum(AggregateOthers(d, topN)) == Sum(d)
  {
    var top := d[..topN];
    assert Find(top, OTHERS) == |top|;
    AggregateOthersSplit(d, topN);
    AggregateOthersFacts(d, topN);
  }

  /** What `main` derives from `user_counts` for the charts. */
  datatype Summary = Summary(sorted: seq<Tally>, top10: seq<Tally>, withOthers: seq<Tally>)

  /** The three views all hold one entry per user, the bar chart's entries are the
      first of the sorted ones, and the pie chart has at most one entry more. */
  function Summarize(userCounts: seq<Tally>): (s: Summary)
    ensures |s.sorted| == |userCounts|
    ensures |s.top10| == if |userCounts| < TOP_N then |userCounts| else TOP_N
    ensures s.top10 == s.sorted[..|s.top10|]
    ensures |s.withOthers| <= |s.top10| + 1
  {
    var sorted := SortDesc(userCounts);
    Summary(sorted, Top(sorted, TOP_N), AggregateOthers(sorted, TOP_N))
  }

  /** No user outside the bar chart's entries has a larger total than one inside;
      unless a top-ten user is literally named "Others", the pie chart begins with
      the bar chart's entries and accounts for every copy. */
  lemma SummaryFacts(userCounts: seq<Tally>)
    ensures var s := Summarize(userCounts);
      && (forall i, j :: 0 <= i < |s.top10| <= j < |s.sorted| ==> s.top10[i].count >= s.sorted[j].count)
      && ((forall i :: 0 <= i < |s.top10| ==> s.top10[i].key != OTHERS) ==>
            s.withOthers[..|s.top10|] == s.top10 && Sum(s.withOthers) == Sum(userCounts))
  {
    var s := Summarize(userCounts);
    SortDescFacts(userCounts);
    TopDominates(s.sorted, TOP_N);
    if forall i :: 0 <= i < |s.top10| ==> s.top10[i].key != OTHERS {
      if |s.sorted| > TOP_N {
        AggregateOthersAppends(s.sorted, TOP_N);
      }
    }
  }

  /** Four users with totals 5, 3, 9 and 1: the sort puts them in the order 9, 5, 3, 1. */
  lemma SortExample()
    ensures var d := [Tally(Some("alice"), 5), Tally(Some("bob"), 3), Tally(Some("carol"), 9), Tally(Some("dave"), 1)];
      SortDesc(d) == [d[2], d[0], d[1], d[3]]
  {
    var d := [Tally(Some("alice"), 5), Tally(Some("bob"), 3), Tally(Some("carol"), 9), Tally(Some("dave"), 1)];
    var alice, bob, carol, dave := d[0], d[1], d[2], d[3];
    var d1, d2, d3 := d[..1], d[..2], d[..3];
    assert d1[..0] == [] && d2[..1] == d1 && d3[..2] == d2 && d[..3] == d3;
    assert SortDesc(d1) == [alice];
    assert [alice][1..] == [];
    assert SortDesc(d2) == Insert([alice], bob) == [alice, bob];
    assert SortDesc(d3) == Insert([alice, bob], carol) == [carol, alice, bob];
    assert [carol, alice, bob][1..] == [alice, bob] && [alice, bob][1..] == [bob] && [bob][1..] == [];
    assert Insert([], dave) == [dave];
    assert Insert([bob], dave) == [bob, dave];
    assert Insert([alice, bob], dave) == [alice, bob, dave];
    assert SortDesc(d) == Insert([carol, alice, bob], dave);
  }

  /** The same four users, sorted, with a top two: the remaining 4 copies go to
      "Others". */
  lemma OthersExample()
    ensures var sorted := [Tally(Some("carol"), 9), Tally(Some("alice"), 5), Tally(Some("bob"), 3), Tally(Some("dave"), 1)];
      AggregateOthers(sorted, 2) == [sorted[0], sorted[1], Tally(OTHERS, 4)]
  {
    var sorted := [Tally(Some("carol"), 9), Tally(Some("alice"), 5), Tally(Some("bob"), 3), Tally(Some("dave"), 1)];
    var rest := sorted[2..];
    assert rest == [sorted[2], sorted[3]] && rest[1..] == [sorted[3]] && rest[1..][1..] == [];
    assert Sum(rest[1..]) == 1;
    assert Sum(rest) == 4;
    AggregateOthersAppends(sorted, 2);
    assert sorted[..2] == [sorted[0], sorted[1]];
  }

  const FUN_FACT_PREFIX: string := "**Fun fact:** There are over "
  const FUN_FACT_SUFFIX: string := "** limited copies!\n"

  /** `line.startswith("**Fun fact:** There are over ")` */
  predicate IsFunFact(line: string) {
    |FUN_FACT_PREFIX| <= |line| && line[..|FUN_FACT_PREFIX|] == FUN_FACT_PREFIX
  }

  function DigitChar(d: nat): char
    requires d < 10
  {
    "0123456789"[d]
  }

  function DigitValue(c: char): int {
    (c as int) - ('0' as int)
  }

  /** `str(n)` for a natural number: decimal, no leading zeros. */
  function NatToString(n: nat): string
    decreases n
  {
    if n < 10 then [DigitChar(n)] else NatToString(n / 10) + [DigitChar(n % 10)]
  }

  /** `str(i)` */
  function IntToString(i: int): string {
    if i < 0 then "-" + NatToString(-i) else NatToString(i)
  }

  /** The number a run of decimal digits spells. */
  function DigitsValue(s: string): int {
    if s == [] then 0 else DigitsValue(s[..|s| - 1]) * 10 + DigitValue(s[|s| - 1])
  }

  /** `int(s)` */
  function ParseInt(s: string): int {
    if s != [] && s[0] == '-' then -DigitsValue(s[1..]) else DigitsValue(s)
  }

  lemma {:induction false} NatToStringValue(n: nat)
    ensures DigitsValue(NatToString(n)) == n
    ensures NatToString(n) != [] && '0' <= NatToString(n)[0] <= '9'
    decreases n
  {
    if n >= 10 {
      NatToStringValue(n / 10);
      var s := NatToString(n);
      assert s[..|s| - 1] == NatToString(n / 10);
    }
  }

  /** `int(str(i)) == i` */
  lemma IntToStringRoundTrip(i: int)
    ensures ParseInt(IntToString(i)) == i
  {
    var s := IntToString(i);
    if i < 0 {
      var n: nat := -i;
      NatToStringValue(n);
      assert s == "-" + NatToString(n);
      assert s[0] == '-' && s[1..] == NatToString(n);
    } else {
      NatToStringValue(i);
      assert s == NatToString(i) && s[0] != '-';
    }
  }

  /** The fun-fact line for a total: a fun-fact line itself, ending in the suffix. */
  function FunFactLine(total: int): (line: string)
    ensures IsFunFact(line)
    ensures |line| >= |FUN_FACT_SUFFIX| && line[|line| - |FUN_FACT_SUFFIX|..] == FUN_FACT_SUFFIX
  {
    assert (FUN_FACT_PREFIX + "**" + IntToString(total) + FUN_FACT_SUFFIX)[..|FUN_FACT_PREFIX|] == FUN_FACT_PREFIX;
    FUN_FACT_PREFIX + "**" + IntToString(total) + FUN_FACT_SUFFIX
  }

  /** The new line gives the total back. */
  lemma FunFactLineStatesTotal(total: int)
    ensures var line := FunFactLine(total);
      |line| >= |FUN_FACT_PREFIX| + 2 + |FUN_FACT_SUFFIX|
      && ParseInt(line[|FUN_FACT_PREFIX| + 2..|line| - |FUN_FACT_SUFFIX|]) == total
  {
    var line := FunFactLine(total);
    assert line[|FUN_FACT_PREFIX| + 2..|line| - |FUN_FACT_SUFFIX|] == IntToString(total);
    IntToStringRoundTrip(total);
  }

  /** The README lines after the rewrite loop: as many as before, and the fun-fact
      lines are in the same places. */
  function UpdateFunFact(lines: seq<string>, total: int): (r: seq<string>)
    ensures |r| == |lines|
    ensures forall i :: 0 <= i < |r| ==> (IsFunFact(r[i]) <==> IsFunFact(lines[i]))
  {
    seq(|lines|, i requires 0 <= i < |lines| => if IsFunFact(lines[i]) then FunFactLine(total) else lines[i])
  }

  /** The rewrite keeps every other line, replaces every fun-fact line by the one
      stating `total`, and doing it again changes nothing. */
  lemma UpdateFunFactFacts(lines: seq<string>, total: int)
    ensures forall i :: 0 <= i < |lines| && !IsFunFact(lines[i]) ==> UpdateFunFact(lines, total)[i] == lines[i]
    ensures forall i :: 0 <= i < |lines| && IsFunFact(lines[i]) ==> UpdateFunFact(lines, total)[i] == FunFactLine(total)
    ensures UpdateFunFact(UpdateFunFact(lines, total), total) == UpdateFunFact(lines, total)
  {
    FunFactLineStatesTotal(total);
  }

  /** The `for idx, line in enumerate(lines)` loop, on the list in place. */
  method RewriteFunFact(lines: array<string>, total: int)
    modifies lines
    ensures lines[..] == UpdateFunFact(old(lines[..]), total)
  {
    var idx := 0;
    while idx < lines.Length
      invariant idx <= lines.Length
      invariant forall i :: 0 <= i < idx ==> lines[i] == UpdateFunFact(old(lines[..]), total)[i]
      invariant forall i :: idx <= i < lines.Length ==> lines[i] == old(lines[i])
    {
      if IsFunFact(lines[idx]) {
        lines[idx] := FunFactLine(total);
      }
      idx := idx + 1;
    }
  }
}
