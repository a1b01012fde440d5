/** The records the crawlers read and write: the snapshot's items and owners, and
    the two API response shapes with their optional fields already parsed. A field
    the JSON may lack is an `Option`; the defaults the crawlers apply with
    `dict.get(key, default)` are the functions at the end of the module. */
module Records {

  datatype Option<T> = None | Some(value: T) {
    function GetOr(default: T): T {
      match this
      case Some(v) => v
      case None => default
    }
  }

  /** The key an item is stored under, `entry.get("id")`: a missing id is the key None. */
  type ItemId = Option<int>

  /** One `{name, count}` entry of an item's owner list. */
  datatype Owner = Owner(name: string, count: int)

  /** One value of the snapshot: `{name, owners}`. */
  datatype Item = Item(name: string, owners: seq<Owner>)

  /** One element of an items page's `data` list. */
  datatype Entry = Entry(id: ItemId, name: Option<string>)

  /** An items page: `data` is None when it is missing or not a list; `lastPage`
      is None when `meta` or `meta.lastPage` is missing. */
  datatype ItemsPage = ItemsPage(data: Option<seq<Entry>>, lastPage: Option<int>)

  datatype User = User(username: Option<string>)

  /** One element of an owners page's `inventories` list. */
  datatype Inventory = Inventory(user: Option<User>)

  /** An owners page: `inventories` and `pages` may each be missing. */
  datatype OwnersPage = OwnersPage(inventories: Option<seq<Inventory>>, pages: Option<int>)

  /** `entry.get("name", "")` */
  function ItemName(e: Entry): string {
    e.name.GetOr("")
  }

  /** `inv.get("user", {}).get("username", "")` */
  function Username(inv: Inventory): string {
    match inv.user
    case None => ""
    case Some(u) => u.username.GetOr("")
  }

  /** The usernames of a page's inventory records, in order. */
  function Usernames(invs: seq<Inventory>): seq<string> {
    seq(|invs|, i requires 0 <= i < |invs| => Username(invs[i]))
  }

  /** `json_data.get("meta", {}).get("lastPage", page)` */
  function LastPageOr(p: ItemsPage, page: int): int {
    p.lastPage.GetOr(page)
  }

  /** `json_data.get("inventories", [])` */
  function InventoriesOf(p: OwnersPage): seq<Inventory> {
    p.inventories.GetOr([])
  }

  /** `json_data.get("pages", 0)` */
  function PageCount(p: OwnersPage): int {
    p.pages.GetOr(0)
  }

  /** Pages lo, lo + 1, ..., hi - 1. */
  function Range(lo: nat, hi: nat): seq<nat>
    decreases hi - lo
  {
    if lo >= hi then [] else [lo] + Range(lo + 1, hi)
  }

  /** Pages `next ..` preceded by `page`, where `next == page + 1`, are pages `page ..`. */
  lemma RangeCons(page: nat, next: nat, q: seq<nat>, last: nat)
    requires next == page + 1
    requires q == Range(next, next + |q|) && next + |q| <= last + 1
    ensures var v := [page] + q; v == Range(page, page + |v|) && page + |v| <= last + 1
    ensures q == Range(next, last + 1) ==> [page] + q == Range(page, last + 1)
  {
  }

  /** A page log in which every page is either the previous one again or the next. */
  predicate Consecutive(visited: seq<nat>) {
    forall i :: 0 <= i < |visited| - 1 ==> visited[i + 1] == visited[i] || visited[i + 1] == visited[i] + 1
  }

  /** A page log stays consecutive when it is preceded by its first page or the one before. */
  lemma ConsecutiveCons(page: nat, visited: seq<nat>)
    requires Consecutive(visited)
    requires visited != [] ==> visited[0] == page || visited[0] == page + 1
    ensures Consecutive([page] + visited)
  {
    var v := [page] + visited;
    forall i | 0 <= i < |v| - 1 ensures v[i + 1] == v[i] || v[i + 1] == v[i] + 1 {
      if i > 0 {
        assert v[i] == visited[i - 1] && v[i + 1] == visited[i];
      }
    }
  }
}
