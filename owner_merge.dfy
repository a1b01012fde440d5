/** The find-or-append step both crawlers run for every inventory record: look
    for the first owner entry with the record's username; if there is one, add 1
    to its count, otherwise append `{name, count: 1}` at the end. */
module OwnerMerge {
  import opened Records

  function Names(owners: seq<Owner>): seq<string> {
    seq(|owners|, i requires 0 <= i < |owners| => owners[i].name)
  }

  /** No two entries share a name. */
  ghost predicate Unique(owners: seq<Owner>) {
    forall i, j :: 0 <= i < j < |owners| ==> owners[i].name != owners[j].name
  }

  /** Every entry has been counted at least once. */
  ghost predicate Positive(owners: seq<Owner>) {
    forall i :: 0 <= i < |owners| ==> owners[i].count >= 1
  }

  /** The sum of all counts. */
  function Total(owners: seq<Owner>): int {
    if owners == [] then 0 else owners[0].count + Total(owners[1..])
  }

  /** The position of the first entry named `name`, or |owners| when there is none. */
  function IndexOf(owners: seq<Owner>, name: string): (k: nat)
    ensures k <= |owners|
    ensures k < |owners| ==> owners[k].name == name
    ensures forall j :: 0 <= j < k ==> owners[j].name != name
  {
    if owners == [] then 0
    else if owners[0].name == name then 0
    else 1 + IndexOf(owners[1..], name)
  }

  /** The count the list records for `name`: that of its first entry, or 0. */
  function CountOf(owners: seq<Owner>, name: string): int {
    var k := IndexOf(owners, name);
    if k < |owners| then owners[k].count else 0
  }

  lemma {:induction false} TotalUpdate(owners: seq<Owner>, k: nat, o: Owner)
    requires k < |owners|
    ensures Total(owners[k := o]) == Total(owners) - owners[k].count + o.count
  {
    if k > 0 {
      TotalUpdate(owners[1..], k - 1, o);
      assert owners[k := o][1..] == owners[1..][k - 1 := o];
    }
  }

  lemma {:induction false} TotalAppend(owners: seq<Owner>, o: Owner)
    ensures Total(owners + [o]) == Total(owners) + o.count
  {
    if owners != [] {
      TotalAppend(owners[1..], o);
      assert (owners + [o])[1..] == owners[1..] + [o];
    }
  }

  /** Two lists with the same names in the same places find every name at the same place. */
  lemma IndexOfSameNames(s: seq<Owner>, t: seq<Owner>, name: string)
    requires |s| == |t|
    requires forall i :: 0 <= i < |s| ==> s[i].name == t[i].name
    ensures IndexOf(s, name) == IndexOf(t, name)
  {
    var a, b := IndexOf(s, name), IndexOf(t, name);
    if a < |s| {
      assert t[a].name == name;
    }
    if b < |t| {
      assert s[b].name == name;
    }
  }

  /** The first entry named `name` is the one the search finds. */
  lemma IndexOfIs(owners: seq<Owner>, name: string, k: nat)
    requires k < |owners| && owners[k].name == name
    requires forall j :: 0 <= j < k ==> owners[j].name != name
    ensures IndexOf(owners, name) == k
  {
  }

  /** `name` is already present exactly when the search finds it. */
  lemma InNamesIndexOf(owners: seq<Owner>, name: string)
    ensures name in Names(owners) <==> IndexOf(owners, name) < |owners|
  {
    var k := IndexOf(owners, name);
    if k < |owners| {
      assert Names(owners)[k] == name;
    }
    if name in Names(owners) {
      var i :| 0 <= i < |owners| && Names(owners)[i] == name;
      assert owners[i].name == name;
    }
  }

  /** Record one more unit of `name`: the merge of one inventory record. The entry
      the search finds (or a new one at the end) holds `name` with its count plus
      one, and every other entry stays where and as it was. */
  function Merge(owners: seq<Owner>, name: string): (r: seq<Owner>)
    ensures |r| == |owners| + (if IndexOf(owners, name) < |owners| then 0 else 1)
    ensures r[IndexOf(owners, name)] == Owner(name, CountOf(owners, name) + 1)
    ensures forall j :: 0 <= j < |owners| && j != IndexOf(owners, name) ==> r[j] == owners[j]
  {
    var k := IndexOf(owners, name);
    if k < |owners| then owners[k := owners[k].(count := owners[k].count + 1)]
    else owners + [Owner(name, 1)]
  }

  /** `name` joins the names when it is new; the order of the others is kept. */
  lemma MergeNames(owners: seq<Owner>, name: string)
    ensures Names(Merge(owners, name)) == if name in Names(owners) then Names(owners) else Names(owners) + [name]
  {
    InNamesIndexOf(owners, name);
    var r := Merge(owners, name);
    if IndexOf(owners, name) < |owners| {
      assert Names(r) == Names(owners);
    } else {
      assert Names(r) == Names(owners) + [name];
    }
  }

  lemma MergeTotal(owners: seq<Owner>, name: string)
    ensures Total(Merge(owners, name)) == Total(owners) + 1
  {
    var k := IndexOf(owners, name);
    if k < |owners| {
      TotalUpdate(owners, k, Merge(owners, name)[k]);
    } else {
      TotalAppend(owners, Owner(name, 1));
    }
  }

  /** The count of `name` grows by one and every other count stays. */
  lemma MergeCounts(owners: seq<Owner>, name: string)
    ensures CountOf(Merge(owners, name), name) == CountOf(owners, name) + 1
    ensures forall n :: n != name ==> CountOf(Merge(owners, name), n) == CountOf(owners, n)
  {
    var r := Merge(owners, name);
    if IndexOf(owners, name) < |owners| {
      forall n ensures IndexOf(r, n) == IndexOf(owners, n) {
        IndexOfSameNames(r, owners, n);
      }
    } else {
      assert forall j :: 0 <= j < |owners| ==> r[j] == owners[j];
      IndexOfIs(r, name, |owners|);
      forall n | n != name ensures CountOf(r, n) == CountOf(owners, n) {
        var a := IndexOf(owners, n);
        if a < |owners| {
          IndexOfIs(r, n, a);
        } else {
          assert IndexOf(r, n) == |r|;
        }
      }
    }
  }

  lemma MergeKeepsValid(owners: seq<Owner>, name: string)
    ensures Unique(owners) ==> Unique(Merge(owners, name))
    ensures Positive(owners) ==> Positive(Merge(owners, name))
  {
    var r := Merge(owners, name);
    if IndexOf(owners, name) == |owners| && Unique(owners) {
      forall i, j | 0 <= i < j < |r| ensures r[i].name != r[j].name {
        if j == |owners| {
          assert r[i] == owners[i];
        } else {
          assert r[i] == owners[i] && r[j] == owners[j];
        }
      }
    }
  }

  /** One merge adds `name` to the names when it is new, adds one to its count and
      to the total, leaves every other count alone, and keeps names unique and
      counts positive. */
  lemma MergeFacts(owners: seq<Owner>, name: string)
    ensures var r := Merge(owners, name);
      && Names(r) == (if name in Names(owners) then Names(owners) else Names(owners) + [name])
      && Total(r) == Total(owners) + 1
      && CountOf(r, name) == CountOf(owners, name) + 1
      && (forall n :: n != name ==> CountOf(r, n) == CountOf(owners, n))
      && (Unique(owners) ==> Unique(r))
      && (Positive(owners) ==> Positive(r))
  {
    MergeNames(owners, name);
    MergeTotal(owners, name);
    MergeCounts(owners, name);
    MergeKeepsValid(owners, name);
  }

  /** A name that is present: exactly its first entry gains 1; length, order and
      every other entry stay as they were. */
  lemma MergeIncrementsFirstMatch(owners: seq<Owner>, name: string, k: nat)
    requires k < |owners| && owners[k].name == name
    requires forall j :: 0 <= j < k ==> owners[j].name != name
    ensures Merge(owners, name) == owners[k := Owner(name, owners[k].count + 1)]
  {
    assert IndexOf(owners, name) == k;
  }

  /** A name that is absent is appended at the end with count 1. */
  lemma MergeAppendsNewName(owners: seq<Owner>, name: string)
    requires name !in Names(owners)
    ensures Merge(owners, name) == owners + [Owner(name, 1)]
  {
    InNamesIndexOf(owners, name);
  }

  /** The merge of a whole sequence of usernames, one record after another: the
      existing entries keep their names and places, and at most one entry per
      record is added at the end. */
  function MergeAll(owners: seq<Owner>, names: seq<string>): (r: seq<Owner>)
    ensures |owners| <= |r| <= |owners| + |names|
    ensures forall j :: 0 <= j < |owners| ==> r[j].name == owners[j].name
    decreases |names|
  {
    if names == [] then owners
    else Merge(MergeAll(owners, names[..|names| - 1]), names[|names| - 1])
  }

  lemma {:induction false} MergeAllAppend(owners: seq<Owner>, a: seq<string>, b: seq<string>)
    ensures MergeAll(owners, a + b) == MergeAll(MergeAll(owners, a), b)
    decreases |b|
  {
    if b == [] {
      assert a + b == a;
    } else {
      var b' := b[..|b| - 1];
      assert (a + b)[..|a + b| - 1] == a + b';
      MergeAllAppend(owners, a, b');
    }
  }

  /** Merging a sequence of usernames adds one to the total per record, adds to each
      name's count the number of its records, keeps names unique and counts positive,
      and leaves exactly the old names and the merged ones in the list. */
  lemma {:induction false} MergeAllCounts(owners: seq<Owner>, names: seq<string>)
    ensures Total(MergeAll(owners, names)) == Total(owners) + |names|
    ensures forall n :: CountOf(MergeAll(owners, names), n) == CountOf(owners, n) + multiset(names)[n]
    ensures forall n :: n in Names(MergeAll(owners, names)) <==> n in Names(owners) || n in names
    ensures Unique(owners) ==> Unique(MergeAll(owners, names))
    ensures Positive(owners) ==> Positive(MergeAll(owners, names))
    decreases |names|
  {
    if names != [] {
      var init, last := names[..|names| - 1], names[|names| - 1];
      assert names == init + [last];
      MergeAllCounts(owners, init);
      var m := MergeAll(owners, init);
      assert MergeAll(owners, names) == Merge(m, last);
      MergeFacts(m, last);
      forall n ensures n in Names(Merge(m, last)) <==> n in Names(owners) || n in names {
        assert n in names <==> n in init || n == last;
      }
    }
  }

  /** The owner list of a freshly registered item after any sequence of records:
      unique names, each counted as often as it occurs, counts summing to the
      number of records. */
  lemma MergeAllFromEmpty(names: seq<string>)
    ensures Unique(MergeAll([], names))
    ensures Positive(MergeAll([], names))
    ensures Total(MergeAll([], names)) == |names|
    ensures forall n :: CountOf(MergeAll([], names), n) == multiset(names)[n]
    ensures forall n :: n in Names(MergeAll([], names)) <==> n in names
  {
    MergeAllCounts([], names);
  }

  /** Merging a page's inventory records counts every one of them: the total grows by
      the number of records, and a record without `user` or without `username`
      still adds to the count of the empty name. */
  lemma MergePageCountsEveryRecord(owners: seq<Owner>, invs: seq<Inventory>)
    ensures Total(MergeAll(owners, Usernames(invs))) == Total(owners) + |invs|
    ensures forall i :: 0 <= i < |invs| && (invs[i].user.None? || invs[i].user.value.username.None?) ==>
      CountOf(MergeAll(owners, Usernames(invs)), "") > CountOf(owners, "")
  {
    var names := Usernames(invs);
    MergeAllCounts(owners, names);
    forall i | 0 <= i < |invs| && (invs[i].user.None? || invs[i].user.value.username.None?)
      ensures CountOf(MergeAll(owners, names), "") > CountOf(owners, "")
    {
      assert names[i] == "";
      assert "" in multiset(names);
    }
  }

  /** The search half of the for-else: the first entry named `name`, or |owners|. */
  method FindOwner(owners: seq<Owner>, name: string) returns (k: nat)
    ensures k <= |owners|
    ensures k < |owners| ==> owners[k].name == name
    ensures forall j :: 0 <= j < k ==> owners[j].name != name
  {
    k := 0;
    while k < |owners| && owners[k].name != name
      invariant k <= |owners|
      invariant forall j :: 0 <= j < k ==> owners[j].name != name
    {
      k := k + 1;
    }
  }
}
