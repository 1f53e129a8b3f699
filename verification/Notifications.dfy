/** Listing notifications by cursor (src/internal/common/store_notification.go). */
module Notifications {
  import opened Sequences

  datatype Row = Row(userId: int, repository: string, unread: bool)

  /** The tables the listing reads; notifications are keyed by their positive id. */
  datatype Tables = Tables(
    rows: map<int, Row>, admins: set<int>, members: set<(string, int)>, localRepositories: set<string>)

  datatype Options = Options(minId: int, maxId: int, limit: int)

  predicate Visible(t: Tables, user: int, row: Row) {
    && row.userId == user
    && (user in t.admins || ((row.repository, user) in t.members && row.repository in t.localRepositories))
  }

  function VisibleIds(t: Tables, user: int): set<int> {
    set id | id in t.rows && Visible(t, user, t.rows[id])
  }

  /** The ids that the WHERE clause keeps. */
  function Pool(t: Tables, user: int, minId: int, maxId: int): set<int> {
    set id | id in VisibleIds(t, user) && (minId <= 0 || id > minId) && (maxId <= 0 || id < maxId)
  }

  /** Position in the result: `a` comes before `b`. */
  predicate Before(a: int, b: int, descending: bool) {
    if descending then a > b else a < b
  }

  predicate IsFirst(s: set<int>, m: int, descending: bool) {
    m in s && forall x :: x in s && x != m ==> Before(m, x, descending)
  }

  lemma {:induction false} HasFirst(s: set<int>, descending: bool)
    requires s != {}
    ensures exists m :: IsFirst(s, m, descending)
  {
    assert (forall y :: y !in s) ==> s == {};
    var y: int :| y in s;
    var rest := s - {y};
    if s == {y} {
      assert IsFirst(s, y, descending);
    } else {
      HasFirst(rest, descending);
      var m :| IsFirst(rest, m, descending);
      var first := if Before(y, m, descending) then y else m;
      forall x | x in s && x != first ensures Before(first, x, descending) {
        assert x == y || x in rest;
      }
      assert IsFirst(s, first, descending);
    }
  }

  function First(s: set<int>, descending: bool): (m: int)
    requires s != {}
    ensures IsFirst(s, m, descending)
  {
    HasFirst(s, descending);
    var m :| m in s && IsFirst(s, m, descending);
    m
  }

  /** ORDER BY id DESC (or ASC) LIMIT n. */
  function Listing(pool: set<int>, descending: bool, n: nat): seq<int> {
    if pool == {} || n == 0 then [] else
      var m := First(pool, descending);
      [m] + Listing(pool - {m}, descending, n - 1)
  }

  function Limit(limit: int): (n: nat)
    ensures 1 <= n <= 100
  {
    if limit <= 0 then 20 else if limit > 100 then 100 else limit
  }

  datatype Page = Page(ids: seq<int>, hasMore: bool)

  function Query(t: Tables, user: int, minId: int, maxId: int, n: nat): seq<int> {
    Listing(Pool(t, user, minId, maxId), minId <= 0, n)
  }

  function Take<T>(s: seq<T>, n: nat): seq<T> {
    if |s| <= n then s else s[..n]
  }

  function ListPage(t: Tables, user: int, o: Options): Page {
    if user <= 0 then Page([], false) else
      var n := Limit(o.limit);
      var found := Query(t, user, o.minId, o.maxId, n + 1);
      Page(if o.minId > 0 then Reversed(Take(found, n)) else Take(found, n), |found| > n)
  }

  // ---------------------------------------------------------------- the program

  method ReverseNotifications(items: array<int>)
    modifies items
    ensures items[..] == Reversed(old(items[..]))
  {
    var left, right: int := 0, items.Length - 1;
    while left < right
      invariant 0 <= left && left + right == items.Length - 1 && left <= right + 2
      invariant forall k :: 0 <= k < items.Length ==>
        items[k] == if k < left || right < k then old(items[items.Length - 1 - k]) else old(items[k])
    {
      items[left], items[right] := items[right], items[left];
      left, right := left + 1, right - 1;
    }
  }

  method ListNotificationsForUser(t: Tables, user: int, o: Options) returns (page: Page)
    ensures page == ListPage(t, user, o)
  {
    if user <= 0 {
      return Page([], false);
    }
    var limit := o.limit;
    if limit <= 0 {
      limit := 20;
    }
    if limit > 100 {
      limit := 100;
    }
    var targetCount := limit + 1;
    var isForward := o.minId > 0;
    hide Query, Reversed;
    var rows := Query(t, user, o.minId, o.maxId, targetCount);
    var notifications := Scanned(rows);
    var hasMore := |notifications| > limit;
    if hasMore {
      notifications := notifications[..limit];
    }
    assert notifications == Take(rows, limit);
    hide Take;
    if isForward {
      notifications := ReverseSlice(notifications);
    }
    return Page(notifications, hasMore);
  }

  method Scanned(rows: seq<int>) returns (notifications: seq<int>)
    ensures notifications == rows
  {
    notifications := [];
    for i := 0 to |rows|
      invariant notifications == rows[..i]
    {
      notifications := notifications + [rows[i]];
    }
  }

  method ReverseSlice(notifications: seq<int>) returns (reversed: seq<int>)
    ensures reversed == Reversed(notifications)
  {
    var items := new int[|notifications|](i requires 0 <= i < |notifications| => notifications[i]);
    assert items[..] == notifications;
    ReverseNotifications(items);
    reversed := items[..];
  }

  // ---------------------------------------------------------------- what a page holds

  predicate Descending(ids: seq<int>) {
    forall i, j :: 0 <= i < j < |ids| ==> ids[i] > ids[j]
  }

  /** Newest first, and of the ids in `pool` the newest (or the oldest) at most `n`. */
  ghost predicate IsPage(page: seq<int>, pool: set<int>, newest: bool, n: nat) {
    && Descending(page)
    && (forall id :: id in page ==> id in pool)
    && |page| == (if |pool| <= n then |pool| else n)
    && (forall id, kept :: id in pool && id !in page && kept in page ==> Before(kept, id, newest))
  }

  lemma {:induction false} ListingHolds(pool: set<int>, descending: bool, n: nat)
    ensures var ids := Listing(pool, descending, n);
            && (forall i, j :: 0 <= i < j < |ids| ==> Before(ids[i], ids[j], descending))
            && (forall id :: id in ids ==> id in pool)
            && |ids| == (if |pool| <= n then |pool| else n)
            && (forall id, kept :: id in pool && id !in ids && kept in ids ==> Before(kept, id, descending))
  {
    if pool != {} && n != 0 {
      var m := First(pool, descending);
      ListingHolds(pool - {m}, descending, n - 1);
    }
  }

  lemma {:induction false} ListingPrefix(pool: set<int>, descending: bool, n: nat, k: nat)
    requires n <= k
    ensures Take(Listing(pool, descending, k), n) == Listing(pool, descending, n)
  {
    if pool != {} && k != 0 && n != 0 {
      ListingPrefix(pool - {First(pool, descending)}, descending, n - 1, k - 1);
    }
  }

  /** What a page holds, in both directions, and when more remain. */
  lemma PageContents(t: Tables, user: int, o: Options)
    requires user > 0
    ensures var page, pool := ListPage(t, user, o), Pool(t, user, o.minId, o.maxId);
            && IsPage(page.ids, pool, o.minId <= 0, Limit(o.limit))
            && (page.hasMore <==> |pool| > Limit(o.limit))
  {
    var pool, n := Pool(t, user, o.minId, o.maxId), Limit(o.limit);
    ListingPrefix(pool, o.minId <= 0, n, n + 1);
    ListingHolds(pool, o.minId <= 0, n);
    ListingHolds(pool, o.minId <= 0, n + 1);
    var kept := Listing(pool, o.minId <= 0, n);
    ReversedMembers(kept);
    hide Listing, Pool, IsPage;
    assert ListPage(t, user, o).ids == if o.minId > 0 then Reversed(kept) else kept;
    assert IsPage(ListPage(t, user, o).ids, pool, o.minId <= 0, n) by {
      ListedIsPage(kept, pool, o.minId <= 0, n);
    }
  }

  /** Who sees what: of the rows addressed to a user an administrator sees all, and anyone else those of
      the local repositories they belong to; others' rows nobody sees. */
  lemma SeenExactly(t: Tables, user: int, id: int)
    ensures id in VisibleIds(t, user) <==>
              id in t.rows && MayRead(t, user, t.rows[id].userId, t.rows[id].repository)
  {
  }

  predicate MayRead(t: Tables, user: int, addressee: int, repository: string) {
    addressee == user && (user !in t.admins ==> repository in t.localRepositories && (repository, user) in t.members)
  }

  /** A page in terms of the stored rows and the raw options: which ids it holds, in which order, how
      many, and whether more remain. */
  lemma PageExact(t: Tables, user: int, o: Options)
    ensures user <= 0 ==> ListPage(t, user, o) == Page([], false)
    ensures user > 0 ==>
              var page, n := ListPage(t, user, o), if o.limit <= 0 then 20 else if o.limit > 100 then 100 else o.limit;
              var pool := set id | id in t.rows && MayRead(t, user, t.rows[id].userId, t.rows[id].repository)
                                   && (o.minId > 0 ==> o.minId < id) && (o.maxId > 0 ==> id < o.maxId);
              && (forall i, j :: 0 <= i < j < |page.ids| ==> page.ids[j] < page.ids[i])
              && (forall id :: id in page.ids ==> id in pool)
              && |page.ids| == (if |pool| <= n then |pool| else n)
              && (page.hasMore <==> n < |pool|)
              && (forall id, kept :: id in pool && id !in page.ids && kept in page.ids ==>
                    if o.minId > 0 then kept < id else id < kept)
  {
    if user > 0 {
      PoolExact(t, user, o);
      PageContents(t, user, o);
      hide ListPage, VisibleIds, Pool, MayRead;
    }
  }

  lemma PoolExact(t: Tables, user: int, o: Options)
    ensures Pool(t, user, o.minId, o.maxId)
         == set id | id in t.rows && MayRead(t, user, t.rows[id].userId, t.rows[id].repository)
                     && (o.minId > 0 ==> o.minId < id) && (o.maxId > 0 ==> id < o.maxId)
  {
    var pool := set id | id in t.rows && MayRead(t, user, t.rows[id].userId, t.rows[id].repository)
                         && (o.minId > 0 ==> o.minId < id) && (o.maxId > 0 ==> id < o.maxId);
    assert forall id :: id in Pool(t, user, o.minId, o.maxId) <==> id in pool;
  }

  lemma ListedIsPage(kept: seq<int>, pool: set<int>, newest: bool, n: nat)
    requires forall i, j :: 0 <= i < j < |kept| ==> Before(kept[i], kept[j], newest)
    requires forall id :: id in kept ==> id in pool
    requires |kept| == (if |pool| <= n then |pool| else n)
    requires forall id, k :: id in pool && id !in kept && k in kept ==> Before(k, id, newest)
    ensures IsPage(if newest then kept else Reversed(kept), pool, newest, n)
  {
    ReversedMembers(kept);
  }

  /** A page as large as its pool leaves nothing out. */
  lemma {:induction false} FullPage(page: seq<int>, pool: set<int>)
    requires Descending(page) && (forall id :: id in page ==> id in pool) && |page| == |pool|
    ensures forall id :: id in pool ==> id in page
  {
    if page == [] {
      assert pool == {};
    } else {
      var last := page[|page| - 1];
      assert last in page;
      var rest := page[..|page| - 1];
      forall id | id in rest ensures id in pool - {last} {
        assert id in page;
      }
      FullPage(rest, pool - {last});
      assert forall id :: id in pool ==> id == last || id in pool - {last};
    }
  }

  // ---------------------------------------------------------------- walking by cursor

  /** The ids listed by following the cursor from `maxId`, page k against tables[k]; the walk ends
      at the first page that reports nothing more. */
  function Walk(tables: seq<Tables>, user: int, limits: seq<int>, maxId: int): seq<int>
    requires |tables| == |limits|
    decreases |tables|
  {
    if tables == [] then [] else
      var page := ListPage(tables[0], user, Options(0, maxId, limits[0]));
      if page.hasMore && page.ids != []
      then page.ids + Walk(tables[1..], user, limits[1..], page.ids[|page.ids| - 1])
      else page.ids
  }

  /** The walk reaches a page that reports nothing more. */
  predicate Completes(tables: seq<Tables>, user: int, limits: seq<int>, maxId: int)
    requires |tables| == |limits|
    decreases |tables|
  {
    tables != [] &&
      var page := ListPage(tables[0], user, Options(0, maxId, limits[0]));
      page.hasMore ==> page.ids != [] && Completes(tables[1..], user, limits[1..], page.ids[|page.ids| - 1])
  }

  ghost predicate Keyed(t: Tables) {
    forall id :: id in t.rows ==> id > 0
  }

  ghost predicate Below(ids: seq<int>, maxId: int) {
    maxId > 0 ==> forall id :: id in ids ==> id < maxId
  }

  /** Whatever happens to the tables between pages, ids come in strictly descending order (so
      none repeats) and each was visible at some page. */
  lemma {:induction false} WalkSound(tables: seq<Tables>, user: int, limits: seq<int>, maxId: int)
    requires |tables| == |limits| && user > 0 && forall k :: 0 <= k < |tables| ==> Keyed(tables[k])
    ensures var ids := Walk(tables, user, limits, maxId);
            && Descending(ids) && Below(ids, maxId)
            && (forall id :: id in ids ==> exists k :: 0 <= k < |tables| && id in VisibleIds(tables[k], user))
    decreases |tables|
  {
    if tables != [] {
      var o := Options(0, maxId, limits[0]);
      var page := ListPage(tables[0], user, o);
      PageContents(tables[0], user, o);
      PoolVisible(tables[0], user, maxId);
      hide ListPage, VisibleIds, Pool;
      if page.hasMore && page.ids != [] {
        var last := page.ids[|page.ids| - 1];
        assert last in page.ids;
        WalkSound(tables[1..], user, limits[1..], last);
        WalkStep(tables, user, page.ids, Walk(tables[1..], user, limits[1..], last));
      }
    }
  }

  /** A completed walk misses no id that was visible throughout. */
  lemma {:induction false} WalkComplete(tables: seq<Tables>, user: int, limits: seq<int>, maxId: int, id: int)
    requires |tables| == |limits| && user > 0 && forall k :: 0 <= k < |tables| ==> Keyed(tables[k])
    requires Completes(tables, user, limits, maxId)
    requires Throughout(tables, user, id) && (maxId <= 0 || id < maxId)
    ensures id in Walk(tables, user, limits, maxId)
    decreases |tables|
  {
    var o := Options(0, maxId, limits[0]);
    var page := ListPage(tables[0], user, o);
    PageContents(tables[0], user, o);
    PoolVisible(tables[0], user, maxId);
    assert id in Pool(tables[0], user, 0, maxId);
    hide ListPage, VisibleIds, Pool;
    if !page.hasMore {
      FullPage(page.ids, Pool(tables[0], user, 0, maxId));
    } else if id !in page.ids {
      var last := page.ids[|page.ids| - 1];
      assert last in page.ids;
      assert Throughout(tables[1..], user, id);
      WalkComplete(tables[1..], user, limits[1..], last, id);
    }
  }

  lemma PoolVisible(t: Tables, user: int, maxId: int)
    requires Keyed(t)
    ensures forall id :: id in Pool(t, user, 0, maxId) <==> id in VisibleIds(t, user) && (maxId <= 0 || id < maxId)
    ensures forall id :: id in VisibleIds(t, user) ==> id > 0
  {
  }

  lemma WalkStep(tables: seq<Tables>, user: int, page: seq<int>, rest: seq<int>)
    requires tables != [] && page != [] && page[|page| - 1] > 0
    requires Descending(page) && Descending(rest) && Below(rest, page[|page| - 1])
    requires forall id :: id in page ==> id in VisibleIds(tables[0], user)
    requires forall id :: id in rest ==> exists k :: 0 <= k < |tables[1..]| && id in VisibleIds(tables[1..][k], user)
    ensures Descending(page + rest)
    ensures forall id :: id in page || id in rest ==> exists k :: 0 <= k < |tables| && id in VisibleIds(tables[k], user)
    ensures forall id :: Throughout(tables, user, id) ==> Throughout(tables[1..], user, id)
  {
    forall id | id in rest ensures exists k :: 0 <= k < |tables| && id in VisibleIds(tables[k], user) {
      var k :| 0 <= k < |tables[1..]| && id in VisibleIds(tables[1..][k], user);
      assert id in VisibleIds(tables[k + 1], user);
    }
    forall id | Throughout(tables, user, id) ensures Throughout(tables[1..], user, id) {
      forall k | 0 <= k < |tables[1..]| ensures id in VisibleIds(tables[1..][k], user) {
        assert tables[1..][k] == tables[k + 1];
      }
    }
    var first, last := page[0], page[|page| - 1];
    forall i, j | 0 <= i < j < |page + rest| ensures (page + rest)[i] > (page + rest)[j] {
      if i < |page| <= j {
        assert page[i] >= last && rest[j - |page|] in rest;
      }
    }
  }

  ghost predicate Throughout(tables: seq<Tables>, user: int, id: int) {
    forall k :: 0 <= k < |tables| ==> id in VisibleIds(tables[k], user)
  }

  // ---------------------------------------------------------------- only newer ids arrive

  /** Later pages see below any cursor in `pool` what the first page saw there. */
  ghost predicate Settled(tables: seq<Tables>, user: int, maxId: int, pool: set<int>) {
    && tables != [] && Pool(tables[0], user, 0, maxId) == pool
    && (forall k, cursor :: 0 < k < |tables| && cursor in pool ==>
          Pool(tables[k], user, 0, cursor) == LessThan(pool, cursor))
  }

  function LessThan(pool: set<int>, cursor: int): set<int> {
    set id | id in pool && id < cursor
  }

  lemma {:induction false} WalkExact(tables: seq<Tables>, user: int, limits: seq<int>, maxId: int, pool: set<int>)
    requires |tables| == |limits| && user > 0 && forall k :: 0 <= k < |tables| ==> Keyed(tables[k])
    requires Settled(tables, user, maxId, pool) && |tables| > |pool|
    ensures Completes(tables, user, limits, maxId)
    ensures forall id :: id in Walk(tables, user, limits, maxId) <==> id in pool
    decreases |tables|
  {
    var o := Options(0, maxId, limits[0]);
    var page := ListPage(tables[0], user, o);
    PageContents(tables[0], user, o);
    PoolVisible(tables[0], user, maxId);
    if !page.hasMore {
      FullPage(page.ids, pool);
    } else {
      var last := page.ids[|page.ids| - 1];
      assert last in page.ids;
      var rest := LessThan(pool, last);
      assert last in pool && last !in rest && rest <= pool - {last};
      SmallerRest(pool, rest, last);
      SettledRest(tables, user, maxId, pool, last);
      hide ListPage, VisibleIds, Pool;
      WalkExact(tables[1..], user, limits[1..], last, rest);
      forall id | id in pool && id !in page.ids ensures id in rest {
        assert Before(last, id, true);
      }
    }
  }

  lemma SmallerRest(pool: set<int>, rest: set<int>, last: int)
    requires last in pool && rest <= pool - {last}
    ensures |rest| < |pool|
  {
    SubsetSize(rest, pool - {last});
  }

  lemma SettledRest(tables: seq<Tables>, user: int, maxId: int, pool: set<int>, last: int)
    requires Settled(tables, user, maxId, pool) && last in pool && |tables| > 1
    ensures Settled(tables[1..], user, last, LessThan(pool, last))
  {
    hide Pool;
    var rest := LessThan(pool, last);
    assert Pool(tables[1], user, 0, last) == rest;
    forall k, cursor | 0 < k < |tables[1..]| && cursor in rest
      ensures Pool(tables[1..][k], user, 0, cursor) == LessThan(rest, cursor)
    {
      assert tables[1..][k] == tables[k + 1] && cursor in pool;
      assert LessThan(rest, cursor) == LessThan(pool, cursor);
    }
  }

  ghost predicate AllAbove(newer: set<int>, older: set<int>) {
    forall a, b :: a in newer && b in older ==> b < a
  }

  /** While the client walks, rows may arrive with ids above everything listed at the start. */
  ghost predicate OnlyNewerArrive(tables: seq<Tables>, user: int) {
    forall k :: 0 <= k < |tables| ==>
      && VisibleIds(tables[0], user) <= VisibleIds(tables[k], user)
      && AllAbove(VisibleIds(tables[k], user) - VisibleIds(tables[0], user), VisibleIds(tables[0], user))
  }

  lemma PoolUnchanged(t: Tables, user: int, pool: set<int>, cursor: int)
    requires Keyed(t) && cursor in pool && cursor > 0
    requires pool <= VisibleIds(t, user) && AllAbove(VisibleIds(t, user) - pool, pool)
    ensures Pool(t, user, 0, cursor) == LessThan(pool, cursor)
  {
    PoolVisible(t, user, cursor);
    var seen := VisibleIds(t, user);
    hide VisibleIds, Pool;
    forall id ensures id in Pool(t, user, 0, cursor) <==> id in LessThan(pool, cursor) {
      assert id in seen && id !in pool ==> id in seen - pool;
    }
  }

  /** With any limits, the walk ends and lists each id present at the start exactly once, newest
      first, and nothing else. */
  lemma WalkListsEachOnce(tables: seq<Tables>, user: int, limits: seq<int>)
    requires |tables| == |limits| && user > 0 && forall k :: 0 <= k < |tables| ==> Keyed(tables[k])
    requires tables != [] && OnlyNewerArrive(tables, user) && |tables| > |VisibleIds(tables[0], user)|
    ensures Completes(tables, user, limits, 0) && Descending(Walk(tables, user, limits, 0))
    ensures forall id :: id in Walk(tables, user, limits, 0) <==> id in VisibleIds(tables[0], user)
  {
    var pool := VisibleIds(tables[0], user);
    WalkSound(tables, user, limits, 0);
    PoolVisible(tables[0], user, 0);
    assert Pool(tables[0], user, 0, 0) == pool;
    hide VisibleIds, Pool, Walk, Completes;
    forall k, cursor | 0 < k < |tables| && cursor in pool
      ensures Pool(tables[k], user, 0, cursor) == LessThan(pool, cursor)
    {
      PoolUnchanged(tables[k], user, pool, cursor);
    }
    WalkExact(tables, user, limits, 0, pool);
  }
}
