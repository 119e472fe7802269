/** Keyset pagination over the users table: the two SQL queries, the fetch of one row too many, the
    reversal of backward results, and the page with its cursors. The row filter (search, email,
    activity) is an arbitrary predicate. */
module Pagination {
  import opened Options
  import opened Sequences

  /** Ids stand for UUIDs in the database's order. */
  datatype Row = Row(id: nat, content: string)

  /** A table, listed in the order of its primary key. */
  ghost predicate ById(rows: seq<Row>) {
    forall i, j :: 0 <= i < j < |rows| ==> rows[i].id < rows[j].id
  }

  /** What a decoded cursor holds; an id that is no UUID becomes a NULL parameter. */
  datatype Cursor = Cursor(lastId: Option<nat>, direction: string)

  const NEXT: string := "next"
  const PREV: string := "prev"

  datatype Page = Page(items: seq<Row>, next: Option<Cursor>, prev: Option<Cursor>, hasMore: bool, hasPrev: bool)

  const DEFAULT_LIMIT: int := 20
  const MAX_LIMIT: int := 100

  function NormalizeLimit(limit: int): (r: int)
    ensures 1 <= r <= MAX_LIMIT
    ensures 1 <= limit <= MAX_LIMIT ==> r == limit
  {
    if limit <= 0 then DEFAULT_LIMIT else if limit > MAX_LIMIT then MAX_LIMIT else limit
  }

  // ---------------------------------------------------------------- queries

  function Select(rows: seq<Row>, keep: Row -> bool): seq<Row> {
    if rows == [] then []
    else if keep(rows[0]) then [rows[0]] + Select(rows[1..], keep)
    else Select(rows[1..], keep)
  }

  predicate Later(c: Option<nat>, r: Row) {
    c.None? || r.id > c.value
  }

  predicate Earlier(c: Option<nat>, r: Row) {
    c.None? || r.id < c.value
  }

  function First(rows: seq<Row>, n: nat): seq<Row> {
    if |rows| <= n then rows else rows[..n]
  }

  function Reversed(rows: seq<Row>): seq<Row> {
    seq(|rows|, i requires 0 <= i < |rows| => rows[|rows| - 1 - i])
  }

  /** listUsers: rows after the cursor, ascending. */
  function ListUsers(table: seq<Row>, keep: Row -> bool, cursor: Option<nat>, limit: nat): seq<Row> {
    First(Select(table, r => keep(r) && Later(cursor, r)), limit)
  }

  /** listUsersPrev: rows before the cursor, descending. */
  function ListUsersPrev(table: seq<Row>, keep: Row -> bool, cursor: Option<nat>, limit: nat): seq<Row> {
    First(Reversed(Select(table, r => keep(r) && Earlier(cursor, r))), limit)
  }

  /** The repository's List: one row more than the page, ascending in either direction. */
  function Fetched(table: seq<Row>, keep: Row -> bool, cursor: Option<nat>, limit: int, direction: string): seq<Row> {
    var n := NormalizeLimit(limit) + 1;
    if direction == PREV then Reversed(ListUsersPrev(table, keep, cursor, n)) else ListUsers(table, keep, cursor, n)
  }

  method List(table: seq<Row>, keep: Row -> bool, cursor: Option<nat>, limit: int, direction: string)
    returns (result: seq<Row>)
    ensures result == Fetched(table, keep, cursor, limit, direction)
  {
    var n := NormalizeLimit(limit) + 1;
    var backward := direction == PREV;
    var found := if backward then ListUsersPrev(table, keep, cursor, n) else ListUsers(table, keep, cursor, n);
    var users := new Row[|found|](i requires 0 <= i < |found| => found[i]);
    assert users[..] == found;
    if backward {
      ReverseInPlace(users);
    }
    result := [];
    for k := 0 to users.Length
      invariant result == users[..k]
    {
      result := result + [users[k]];
    }
  }

  lemma MirrorIsReversed(rows: seq<Row>, mirror: seq<Row>)
    requires |mirror| == |rows| && forall k :: 0 <= k < |rows| ==> mirror[k] == rows[|rows| - 1 - k]
    ensures mirror == Reversed(rows)
  {
  }

  method ReverseInPlace(users: array<Row>)
    modifies users
    ensures users[..] == Reversed(old(users[..]))
  {
    ghost var was := users[..];
    var i, j := 0, users.Length - 1;
    while i < j
      invariant 0 <= i <= j + 2 && i + j == users.Length - 1
      invariant forall k :: 0 <= k < i ==> users[k] == was[users.Length - 1 - k]
      invariant forall k :: j < k < users.Length ==> users[k] == was[users.Length - 1 - k]
      invariant forall k :: i <= k <= j ==> users[k] == was[k]
      decreases j - i
    {
      users[i], users[j] := users[j], users[i];
      i, j := i + 1, j - 1;
    }
    MirrorIsReversed(was, users[..]);
  }

  // ---------------------------------------------------------------- pages

  function CursorAt(r: Row, direction: string): Cursor {
    Cursor(Some(r.id), direction)
  }

  function NewBidirectionalCursorPage(data: seq<Row>, limit: nat, direction: string, hasCursor: bool): Page {
    var hasExtra := |data| > limit;
    var backward := direction == PREV;
    var hasMore := if backward then hasCursor else hasExtra;
    var hasPrev := if backward then hasExtra else hasCursor;
    var items := if !hasExtra then data else if backward then data[1..] else data[..limit];
    Page(items,
         if items != [] && hasMore then Some(CursorAt(items[|items| - 1], NEXT)) else None,
         if items != [] && hasPrev then Some(CursorAt(items[0], PREV)) else None,
         hasMore, hasPrev)
  }

  /** The use case's List for a request whose cursor, if any, could be decoded. */
  function GetPage(table: seq<Row>, keep: Row -> bool, cursor: Option<Cursor>, limit: int): Page {
    var lastId := if cursor.Some? then cursor.value.lastId else None;
    var direction := if cursor.Some? then cursor.value.direction else "";
    var n := NormalizeLimit(limit);
    NewBidirectionalCursorPage(Fetched(table, keep, lastId, n, direction), n, direction, cursor.Some?)
  }

  /** Answers a request, made with or without a cursor against a table. */
  type Endpoint = (seq<Row>, Option<Cursor>) -> Page

  function UserList(keep: Row -> bool, limit: int): Endpoint {
    (table: seq<Row>, cursor: Option<Cursor>) => GetPage(table, keep, cursor, limit)
  }

  /** No page is longer than its limit; an unset limit is 20 and an excessive one 100. */
  lemma PageRespectsLimit(table: seq<Row>, keep: Row -> bool, cursor: Option<Cursor>, limit: int)
    ensures |GetPage(table, keep, cursor, limit).items|
         <= if 1 <= limit <= 100 then limit else if limit < 1 then 20 else 100
    ensures limit <= 0 ==> GetPage(table, keep, cursor, limit) == GetPage(table, keep, cursor, 20)
    ensures limit > 100 ==> GetPage(table, keep, cursor, limit) == GetPage(table, keep, cursor, 100)
  {
  }

  // ---------------------------------------------------------------- filtering facts

  lemma {:induction false} SelectMembers(rows: seq<Row>, keep: Row -> bool, r: Row)
    ensures r in Select(rows, keep) <==> r in rows && keep(r)
  {
    if rows == [] {
    } else {
      SelectMembers(rows[1..], keep, r);
    }
  }

  lemma {:induction false} SelectKeepsOrder(rows: seq<Row>, keep: Row -> bool)
    requires ById(rows)
    ensures ById(Select(rows, keep))
  {
    if rows == [] {
    } else {
      SelectKeepsOrder(rows[1..], keep);
      var rest := Select(rows[1..], keep);
      forall i | 0 <= i < |rest| ensures rows[0].id < rest[i].id {
        SelectMembers(rows[1..], keep, rest[i]);
      }
    }
  }

  lemma {:induction false} SelectTwice(rows: seq<Row>, keep: Row -> bool, and: Row -> bool, both: Row -> bool)
    requires forall r :: both(r) == (keep(r) && and(r))
    ensures Select(rows, both) == Select(Select(rows, keep), and)
  {
    if rows == [] {
    } else {
      SelectTwice(rows[1..], keep, and, both);
      if keep(rows[0]) {
        assert ([rows[0]] + Select(rows[1..], keep))[1..] == Select(rows[1..], keep);
      }
    }
  }

  lemma {:induction false} SelectAll(rows: seq<Row>, keep: Row -> bool)
    requires forall i :: 0 <= i < |rows| ==> keep(rows[i])
    ensures Select(rows, keep) == rows
  {
    if rows == [] {
    } else {
      SelectAll(rows[1..], keep);
    }
  }

  lemma {:induction false} SelectNone(rows: seq<Row>, keep: Row -> bool)
    requires forall i :: 0 <= i < |rows| ==> !keep(rows[i])
    ensures Select(rows, keep) == []
  {
    if rows == [] {
    } else {
      SelectNone(rows[1..], keep);
    }
  }

  lemma {:induction false} SelectConcat(a: seq<Row>, b: seq<Row>, keep: Row -> bool)
    ensures Select(a + b, keep) == Select(a, keep) + Select(b, keep)
  {
    if a == [] {
      assert a + b == b;
    } else {
      SelectConcat(a[1..], b, keep);
      assert (a + b)[1..] == a[1..] + b;
      if keep(a[0]) { Regroup([a[0]], Select(a[1..], keep), Select(b, keep)); }
    }
  }

  lemma {:induction false} RowsBefore(m: seq<Row>, i: nat, before: Row -> bool)
    requires ById(m) && i < |m| && forall r :: before(r) == Earlier(Some(m[i].id), r)
    ensures Select(m, before) == m[..i]
  {
    assert m == m[..i] + m[i..];
    SelectConcat(m[..i], m[i..], before);
    SelectAll(m[..i], before);
    SelectNone(m[i..], before);
  }

  lemma {:induction false} RowsAfter(m: seq<Row>, i: nat, after: Row -> bool)
    requires ById(m) && i < |m| && forall r :: after(r) == Later(Some(m[i].id), r)
    ensures Select(m, after) == m[i + 1..]
  {
    assert m == m[..i + 1] + m[i + 1..];
    SelectConcat(m[..i + 1], m[i + 1..], after);
    SelectNone(m[..i + 1], after);
    SelectAll(m[i + 1..], after);
  }

  // ---------------------------------------------------------------- navigation on a fixed table

  /** The page that starts at position `lo` of the matching rows `m`. */
  function PageAt(m: seq<Row>, limit: nat, lo: nat): Page
    requires lo <= |m|
  {
    var hi := if lo + limit < |m| then lo + limit else |m|;
    Page(m[lo..hi],
         if hi < |m| && lo < hi then Some(CursorAt(m[hi - 1], NEXT)) else None,
         if 0 < lo < hi then Some(CursorAt(m[lo], PREV)) else None,
         hi < |m|, lo > 0)
  }

  /** Following cursors from the first page: true is next, false is prev; None if one is missing. */
  function Navigate(get: Endpoint, table: seq<Row>, moves: seq<bool>): Option<Page> {
    if moves == [] then Some(get(table, None))
    else
      match Navigate(get, table, moves[..|moves| - 1])
      case None => None
      case Some(page) =>
        var cursor := Followed(page, moves[|moves| - 1]);
        if cursor.None? then None else Some(get(table, cursor))
  }

  function Offset(limit: int, moves: seq<bool>): int {
    if moves == [] then 0
    else Moved(Offset(limit, moves[..|moves| - 1]), limit, moves[|moves| - 1])
  }

  predicate Multiple(lo: int, n: nat)
    requires n > 0
    decreases lo
  {
    lo == 0 || (lo >= n && Multiple(lo - n, n))
  }

  /** An offset that names a page. */
  predicate OnGrid(m: seq<Row>, limit: nat, lo: int)
    requires limit > 0
  {
    Multiple(lo, limit) && (lo == 0 || lo < |m|)
  }

  lemma {:induction false} FirstPage(table: seq<Row>, keep: Row -> bool, limit: int)
    ensures GetPage(table, keep, None, limit) == PageAt(Select(table, keep), NormalizeLimit(limit), 0)
  {
    var all := (r: Row) => keep(r) && Later(None, r);
    SelectTwice(table, keep, (r: Row) => true, all);
    SelectAll(Select(table, keep), (r: Row) => true);
    assert ListUsers(table, keep, None, NormalizeLimit(limit) + 1)
        == First(Select(table, all), NormalizeLimit(limit) + 1);
  }

  lemma {:induction false} FetchedAfter(table: seq<Row>, keep: Row -> bool, limit: int, i: nat)
    requires ById(table) && i < |Select(table, keep)|
    ensures var m := Select(table, keep);
            Fetched(table, keep, Some(m[i].id), limit, NEXT) == First(m[i + 1..], NormalizeLimit(limit) + 1)
  {
    var m := Select(table, keep);
    var c := Some(m[i].id);
    SelectKeepsOrder(table, keep);
    SelectTwice(table, keep, (r: Row) => Later(c, r), (r: Row) => keep(r) && Later(c, r));
    RowsAfter(m, i, (r: Row) => Later(c, r));
  }

  lemma {:induction false} FetchedBefore(table: seq<Row>, keep: Row -> bool, limit: int, i: nat)
    requires ById(table) && i < |Select(table, keep)|
    ensures var m := Select(table, keep);
            var n := NormalizeLimit(limit) + 1;
            Fetched(table, keep, Some(m[i].id), limit, PREV) == m[if i > n then i - n else 0..i]
  {
    var m := Select(table, keep);
    var c := Some(m[i].id);
    SelectKeepsOrder(table, keep);
    SelectTwice(table, keep, (r: Row) => Earlier(c, r), (r: Row) => keep(r) && Earlier(c, r));
    RowsBefore(m, i, (r: Row) => Earlier(c, r));
    LastOnes(m[..i], NormalizeLimit(limit) + 1);
  }

  lemma LastOnes(rows: seq<Row>, n: nat)
    ensures Reversed(First(Reversed(rows), n)) == rows[if |rows| > n then |rows| - n else 0..]
  {
    var firsts := First(Reversed(rows), n);
    var lasts := rows[if |rows| > n then |rows| - n else 0..];
    forall i | 0 <= i < |firsts| ensures Reversed(firsts)[i] == lasts[i] {
      assert Reversed(firsts)[i] == firsts[|firsts| - 1 - i];
      assert firsts[|firsts| - 1 - i] == Reversed(rows)[|firsts| - 1 - i];
    }
  }

  lemma PageForward(m: seq<Row>, n: nat, lo: nat)
    requires n > 0 && 0 < lo < |m|
    ensures NewBidirectionalCursorPage(First(m[lo..], n + 1), n, NEXT, true) == PageAt(m, n, lo)
  {
    var data := First(m[lo..], n + 1);
    if |data| > n {
      assert data[..n] == m[lo..lo + n];
    } else {
      assert data == m[lo..];
    }
  }

  lemma PageBackward(m: seq<Row>, n: nat, lo: nat)
    requires n > 0 && n <= lo < |m|
    ensures NewBidirectionalCursorPage(m[if lo > n + 1 then lo - (n + 1) else 0..lo], n, PREV, true)
        == PageAt(m, n, lo - n)
  {
    var data := m[if lo > n + 1 then lo - (n + 1) else 0..lo];
    if |data| > n {
      assert data[1..] == m[lo - n..lo];
    } else {
      assert data == m[lo - n..lo];
    }
  }

  lemma FollowCursor(table: seq<Row>, keep: Row -> bool, c: Cursor, limit: int)
    ensures var n := NormalizeLimit(limit);
            GetPage(table, keep, Some(c), limit)
            == NewBidirectionalCursorPage(Fetched(table, keep, c.lastId, n, c.direction), n, c.direction, true)
  {
  }

  /** A request with the next cursor of a row returns the page that starts behind it. */
  lemma {:induction false} PageBehind(table: seq<Row>, keep: Row -> bool, limit: int, m: seq<Row>, n: nat, i: nat)
    requires ById(table) && m == Select(table, keep) && n == NormalizeLimit(limit) && i + 1 < |m|
    ensures GetPage(table, keep, Some(CursorAt(m[i], NEXT)), limit) == PageAt(m, n, i + 1)
  {
    FetchedAfter(table, keep, n, i);
    PageForward(m, n, i + 1);
    FollowCursor(table, keep, CursorAt(m[i], NEXT), limit);
  }

  /** A request with the prev cursor of a row returns the page that ends before it. */
  lemma {:induction false} PageAhead(table: seq<Row>, keep: Row -> bool, limit: int, m: seq<Row>, n: nat, i: nat)
    requires ById(table) && m == Select(table, keep) && n == NormalizeLimit(limit) && n <= i < |m|
    ensures GetPage(table, keep, Some(CursorAt(m[i], PREV)), limit) == PageAt(m, n, i - n)
  {
    FetchedBefore(table, keep, n, i);
    PageBackward(m, n, i);
    FollowCursor(table, keep, CursorAt(m[i], PREV), limit);
  }

  /** `page` is the page of the matching rows at offset `lo`, with exact flags and cursors. */
  ghost predicate AtOffset(m: seq<Row>, n: nat, page: Page, lo: int) {
    n > 0 && OnGrid(m, n, lo) && 0 <= lo <= |m| && page == PageAt(m, n, lo)
  }

  function Followed(page: Page, forward: bool): Option<Cursor> {
    if forward then page.next else page.prev
  }

  function Moved(lo: int, n: int, forward: bool): int {
    if forward then lo + n else lo - n
  }

  lemma NextCursor(m: seq<Row>, n: nat, page: Page, lo: int)
    requires AtOffset(m, n, page, lo) && page.next.Some?
    ensures lo + n < |m| && page.next == Some(CursorAt(m[lo + n - 1], NEXT)) && OnGrid(m, n, lo + n)
  {
  }

  lemma PrevCursor(m: seq<Row>, n: nat, page: Page, lo: int)
    requires AtOffset(m, n, page, lo) && page.prev.Some?
    ensures n <= lo < |m| && page.prev == Some(CursorAt(m[lo], PREV)) && OnGrid(m, n, lo - n)
  {
  }

  /** Without a cursor the first page, with a next cursor the page behind its row, with a prev cursor the
      page before its row. */
  ghost predicate Pages(get: Endpoint, table: seq<Row>, m: seq<Row>, n: nat) {
    && n > 0 && get(table, None) == PageAt(m, n, 0)
    && (forall i: nat :: i + 1 < |m| ==> Behind(get, table, m, i) == PageAt(m, n, i + 1))
    && (forall i: nat :: n <= i < |m| ==> Ahead(get, table, m, i) == PageAt(m, n, i - n))
  }

  function Behind(get: Endpoint, table: seq<Row>, m: seq<Row>, i: nat): Page
    requires i < |m|
  {
    get(table, Some(CursorAt(m[i], NEXT)))
  }

  function Ahead(get: Endpoint, table: seq<Row>, m: seq<Row>, i: nat): Page
    requires i < |m|
  {
    get(table, Some(CursorAt(m[i], PREV)))
  }

  lemma {:induction false} UserListPages(table: seq<Row>, keep: Row -> bool, limit: int, m: seq<Row>, n: nat)
    requires ById(table) && m == Select(table, keep) && n == NormalizeLimit(limit)
    ensures Pages(UserList(keep, limit), table, m, n)
  {
    FirstPage(table, keep, limit);
    forall i: nat | i + 1 < |m|
      ensures Behind(UserList(keep, limit), table, m, i) == PageAt(m, n, i + 1)
    {
      PageBehind(table, keep, limit, m, n, i);
    }
    forall i: nat | n <= i < |m|
      ensures Ahead(UserList(keep, limit), table, m, i) == PageAt(m, n, i - n)
    {
      PageAhead(table, keep, limit, m, n, i);
    }
  }

  /** Following a cursor of a page leads to the neighbouring page. */
  lemma MoveByOffset(get: Endpoint, table: seq<Row>, m: seq<Row>, n: nat, page: Page, lo: int, forward: bool)
    requires Pages(get, table, m, n) && AtOffset(m, n, page, lo) && Followed(page, forward).Some?
    ensures AtOffset(m, n, get(table, Followed(page, forward)), Moved(lo, n, forward))
  {
    if forward {
      NextCursor(m, n, page, lo);
      assert get(table, page.next) == Behind(get, table, m, lo + n - 1);
    } else {
      PrevCursor(m, n, page, lo);
      assert get(table, page.prev) == Ahead(get, table, m, lo);
    }
  }

  lemma {:induction false} NavigatesByOffset(get: Endpoint, table: seq<Row>, m: seq<Row>, n: nat, moves: seq<bool>)
    requires Pages(get, table, m, n) && Navigate(get, table, moves).Some?
    ensures AtOffset(m, n, Navigate(get, table, moves).value, Offset(n, moves))
    decreases |moves|
  {
    if moves == [] {
    } else {
      var init := moves[..|moves| - 1];
      NavigatesByOffset(get, table, m, n, init);
      MoveByOffset(get, table, m, n, Navigate(get, table, init).value, Offset(n, init), moves[|moves| - 1]);
    }
  }

  lemma ReturnExists(m: seq<Row>, n: nat, page: Page, lo: int, other: Page, step: bool)
    requires AtOffset(m, n, page, lo) && AtOffset(m, n, other, Moved(lo, n, step)) && Followed(page, step).Some?
    ensures Followed(other, !step).Some?
  {
  }

  lemma {:induction false} NavigatesBack(get: Endpoint, table: seq<Row>, m: seq<Row>, n: nat, moves: seq<bool>,
                                         step: bool)
    requires Pages(get, table, m, n) && Navigate(get, table, moves + [step]).Some?
    ensures Navigate(get, table, moves + [step] + [!step]) == Navigate(get, table, moves)
  {
    var there, back := moves + [step], moves + [step] + [!step];
    assert back[..|there|] == there && there[..|moves|] == moves;
    NavigatesByOffset(get, table, m, n, moves);
    NavigatesByOffset(get, table, m, n, there);
    ReturnExists(m, n, Navigate(get, table, moves).value, Offset(n, moves), Navigate(get, table, there).value, step);
    NavigatesByOffset(get, table, m, n, back);
    ThereAndBack(n, moves, step);
    SameOffset(m, n, Navigate(get, table, moves).value, Navigate(get, table, back).value, Offset(n, moves));
  }

  lemma {:induction false} ThereAndBack(n: nat, moves: seq<bool>, step: bool)
    ensures Offset(n, moves + [step] + [!step]) == Offset(n, moves)
  {
    var there, back := moves + [step], moves + [step] + [!step];
    assert back[..|there|] == there && there[..|moves|] == moves;
  }

  lemma SameOffset(m: seq<Row>, n: nat, page: Page, other: Page, lo: int)
    requires AtOffset(m, n, page, lo) && AtOffset(m, n, other, lo)
    ensures page == other
  {
  }

  /** Every page reached by issued cursors is the page at the offset the moves add up to. */
  lemma {:induction false} NavigationIsByOffset(table: seq<Row>, keep: Row -> bool, limit: int, moves: seq<bool>)
    requires ById(table) && Navigate(UserList(keep, limit), table, moves).Some?
    ensures AtOffset(Select(table, keep), NormalizeLimit(limit), Navigate(UserList(keep, limit), table, moves).value,
                     Offset(NormalizeLimit(limit), moves))
  {
    UserListPages(table, keep, limit, Select(table, keep), NormalizeLimit(limit));
    NavigatesByOffset(UserList(keep, limit), table, Select(table, keep), NormalizeLimit(limit), moves);
  }

  /** Next-then-prev and prev-then-next come back to the very same page, and the way back exists. */
  lemma {:induction false} RoundTrips(table: seq<Row>, keep: Row -> bool, limit: int, moves: seq<bool>, step: bool)
    requires ById(table) && Navigate(UserList(keep, limit), table, moves + [step]).Some?
    ensures Navigate(UserList(keep, limit), table, moves + [step] + [!step])
         == Navigate(UserList(keep, limit), table, moves)
  {
    UserListPages(table, keep, limit, Select(table, keep), NormalizeLimit(limit));
    NavigatesBack(UserList(keep, limit), table, Select(table, keep), NormalizeLimit(limit), moves, step);
  }

  /** The flags tell exactly whether rows of `m` lie beyond either end of the page. */
  ghost predicate ExactFlags(page: Page, m: seq<Row>) {
    && (page.items == [] <==> m == []) && (m == [] ==> !page.hasMore && !page.hasPrev)
    && (m != [] ==>
          && (page.hasMore <==> exists r :: r in m && r.id > page.items[|page.items| - 1].id)
          && (page.hasPrev <==> exists r :: r in m && r.id < page.items[0].id))
  }

  lemma FlagsOfPageAt(m: seq<Row>, n: nat, lo: nat)
    requires ById(m) && n > 0 && (lo == 0 || lo < |m|)
    ensures ExactFlags(PageAt(m, n, lo), m)
  {
    var page := PageAt(m, n, lo);
    if page.hasMore { assert m[lo + n] in m && m[lo + n].id > m[lo + n - 1].id; }
    if page.hasPrev { assert m[0] in m && m[0].id < m[lo].id; }
  }

  /** On reached pages the flags tell exactly whether matching rows lie beyond either end. */
  lemma {:induction false} FlagsAreExact(table: seq<Row>, keep: Row -> bool, limit: int, moves: seq<bool>)
    requires ById(table) && Navigate(UserList(keep, limit), table, moves).Some?
    ensures ExactFlags(Navigate(UserList(keep, limit), table, moves).value, Select(table, keep))
  {
    NavigationIsByOffset(table, keep, limit, moves);
    SelectKeepsOrder(table, keep);
    FlagsOfPageAt(Select(table, keep), NormalizeLimit(limit), Offset(NormalizeLimit(limit), moves));
  }

  // ---------------------------------------------------------------- walking a changing table

  /** Requests made one after the other, each against the table of its moment, each following the
      next cursor of the one before until there is no more; the items of each page. None if the
      walk needs more or fewer requests than there are tables. */
  function Walk(get: Endpoint, tables: seq<seq<Row>>, cursor: Option<Cursor>): Option<seq<seq<Row>>> {
    if tables == [] then None
    else
      var page := get(tables[0], cursor);
      if !page.hasMore then (if |tables| == 1 then Some([page.items]) else None)
      else
        match Walk(get, tables[1..], page.next)
        case None => None
        case Some(rest) => Some([page.items] + rest)
  }

  /** The rows of some pages, one page after the other. */
  function Listed(pages: seq<seq<Row>>): seq<Row> {
    if pages == [] then [] else pages[0] + Listed(pages[1..])
  }

  lemma {:induction false} ListedCons(page: seq<Row>, pages: seq<seq<Row>>)
    ensures Listed([page] + pages) == page + Listed(pages)
  {
    assert ([page] + pages)[1..] == pages;
  }

  lemma {:induction false} ListedOne(page: seq<Row>)
    ensures Listed([page]) == page
  {
    ListedCons(page, []);
    assert [page] + [] == [page] && page + [] == page;
  }

  function Start(cursor: Option<Cursor>): Option<nat> {
    if cursor.None? then None else cursor.value.lastId
  }

  predicate IsForward(cursor: Option<Cursor>) {
    cursor.None? || cursor.value.direction != PREV
  }

  ghost predicate HasMatch(table: seq<Row>, keep: Row -> bool, id: nat) {
    exists r :: r in table && keep(r) && r.id == id
  }

  ghost predicate Returned(items: seq<Row>, id: nat) {
    exists i :: 0 <= i < |items| && items[i].id == id
  }

  /** Rows of the table after `start` that match. */
  ghost predicate MatchedIn(items: seq<Row>, table: seq<Row>, keep: Row -> bool, start: Option<nat>) {
    forall i :: 0 <= i < |items| ==> Later(start, items[i]) && keep(items[i]) && items[i] in table
  }

  /** Each page holds rows that matched in the table its request was made against. */
  ghost predicate MatchedInTurn(pages: seq<seq<Row>>, tables: seq<seq<Row>>, keep: Row -> bool, start: Option<nat>) {
    |pages| == |tables| && forall k :: 0 <= k < |pages| ==> MatchedIn(pages[k], tables[k], keep, start)
  }

  /** What one page owes to a walk: order and matching rows only, a next cursor at its last row if there
      is more, and otherwise everything up to the end. */
  ghost predicate Serves(page: Page, table: seq<Row>, keep: Row -> bool, start: Option<nat>) {
    && ById(page.items) && MatchedIn(page.items, table, keep, start)
    && (page.hasMore ==> page.items != [] && page.next == Some(CursorAt(page.items[|page.items| - 1], NEXT)))
    && (forall id: nat :: HasMatch(table, keep, id) && (start.None? || id > start.value) ==> Reached(page, id))
  }

  /** The id is on the page, or there is more and it comes later. */
  ghost predicate Reached(page: Page, id: nat) {
    Returned(page.items, id) || (page.hasMore && page.items != [] && id > page.items[|page.items| - 1].id)
  }

  ghost predicate ServesAlways(get: Endpoint, keep: Row -> bool) {
    forall table, cursor :: ById(table) && IsForward(cursor) ==> Serves(get(table, cursor), table, keep, Start(cursor))
  }

  // What the user list owes.

  /** What a forward request returns of the rows after its cursor. */
  lemma {:induction false} ForwardPage(table: seq<Row>, keep: Row -> bool, limit: int, cursor: Option<Cursor>,
                                       a: seq<Row>)
    requires IsForward(cursor) && a == Select(table, r => keep(r) && Later(Start(cursor), r))
    ensures var (page, n) := (GetPage(table, keep, cursor, limit), NormalizeLimit(limit));
            && page.items == First(a, n) && (page.hasMore <==> |a| > n)
            && (page.hasMore ==> page.items != [] && page.next == Some(CursorAt(page.items[|page.items| - 1], NEXT)))
            && (page.hasPrev <==> cursor.Some?)
            && page.prev == if page.hasPrev && a != [] then Some(CursorAt(page.items[0], PREV)) else None
  {
    var n := NormalizeLimit(limit);
    var data := Fetched(table, keep, Start(cursor), n, if cursor.Some? then cursor.value.direction else "");
    assert data == First(a, n + 1);
    if |a| > n { assert data[..n] == First(a, n); }
  }

  lemma LastIsGreatest(items: seq<Row>, id: nat)
    requires ById(items) && Returned(items, id)
    ensures id <= items[|items| - 1].id
  {
  }

  /** A forward page announces more exactly if it is full and a matching row follows its last one. */
  lemma {:induction false} ForwardFlagIsExact(table: seq<Row>, keep: Row -> bool, limit: int, cursor: Option<Cursor>)
    requires ById(table) && IsForward(cursor)
    ensures var (page, n) := (GetPage(table, keep, cursor, limit), NormalizeLimit(limit));
            page.hasMore <==>
            |page.items| == n && exists id: nat :: HasMatch(table, keep, id) && id > page.items[n - 1].id
  {
    var after := (r: Row) => keep(r) && Later(Start(cursor), r);
    var a, page, n := Select(table, after), GetPage(table, keep, cursor, limit), NormalizeLimit(limit);
    ForwardPage(table, keep, limit, cursor, a);
    SelectedMatch(table, keep, Start(cursor), after);
    FlagOfFirst(a, n, page, table, keep, Start(cursor));
  }

  lemma FlagOfFirst(a: seq<Row>, n: nat, page: Page, table: seq<Row>, keep: Row -> bool, start: Option<nat>)
    requires n > 0 && page.items == First(a, n) && (page.hasMore <==> |a| > n)
    requires ById(a) && MatchedIn(a, table, keep, start)
    requires forall id: nat :: HasMatch(table, keep, id) && (start.None? || id > start.value) ==> Returned(a, id)
    ensures page.hasMore <==>
            |page.items| == n && exists id: nat :: HasMatch(table, keep, id) && id > page.items[n - 1].id
  {
    if page.hasMore {
      assert HasMatch(table, keep, a[n].id) && a[n].id > page.items[n - 1].id;
    } else if |page.items| == n {
      forall id: nat | HasMatch(table, keep, id) ensures id <= page.items[n - 1].id {
        if start.None? || id > start.value { LastIsGreatest(a, id); }
      }
    }
  }

  // Backward requests, whatever row their cursor names.

  predicate IsBackward(cursor: Option<Cursor>) {
    cursor.Some? && cursor.value.direction == PREV
  }

  /** What a backward request returns of the rows before its cursor. */
  lemma {:induction false} BackwardPage(table: seq<Row>, keep: Row -> bool, limit: int, cursor: Option<Cursor>,
                                        a: seq<Row>)
    requires IsBackward(cursor) && a == Select(table, r => keep(r) && Earlier(Start(cursor), r))
    ensures var (page, n) := (GetPage(table, keep, cursor, limit), NormalizeLimit(limit));
            && page.items == a[if |a| > n then |a| - n else 0..]
            && page.hasMore && (page.hasPrev <==> |a| > n)
            && page.next == (if a != [] then Some(CursorAt(page.items[|page.items| - 1], NEXT)) else None)
            && page.prev == if page.hasPrev then Some(CursorAt(page.items[0], PREV)) else None
  {
    var n := NormalizeLimit(limit);
    var data := Fetched(table, keep, Start(cursor), n, PREV);
    LastOnes(a, n + 1);
    if |a| > n {
      assert data[1..] == a[|a| - n..];
    } else {
      assert data == a[0..];
    }
  }

  lemma {:induction false} SelectedBefore(table: seq<Row>, keep: Row -> bool, start: Option<nat>, before: Row -> bool)
    requires ById(table) && forall r :: before(r) == (keep(r) && Earlier(start, r))
    ensures var a := Select(table, before);
            && ById(a) && (forall i :: 0 <= i < |a| ==> Earlier(start, a[i]) && keep(a[i]) && a[i] in table)
            && forall id: nat :: HasMatch(table, keep, id) && (start.None? || id < start.value) ==> Returned(a, id)
  {
    var a := Select(table, before);
    SelectKeepsOrder(table, before);
    forall i | 0 <= i < |a| ensures Earlier(start, a[i]) && keep(a[i]) && a[i] in table {
      SelectMembers(table, before, a[i]);
    }
    forall id: nat | HasMatch(table, keep, id) && (start.None? || id < start.value) ensures Returned(a, id) {
      var row :| row in table && keep(row) && row.id == id;
      SelectMembers(table, before, row);
    }
  }

  /** Ascending rows of the table before `start` that match, and those nearest to it: a matching row before
      `start` is on the page, or the page is full, announces more and the row comes before it. */
  ghost predicate ServesBackward(page: Page, table: seq<Row>, keep: Row -> bool, start: Option<nat>, n: nat) {
    && ById(page.items) && |page.items| <= n && page.hasMore
    && (forall i :: 0 <= i < |page.items| ==>
          Earlier(start, page.items[i]) && keep(page.items[i]) && page.items[i] in table)
    && (forall id: nat :: HasMatch(table, keep, id) && (start.None? || id < start.value) ==>
          Returned(page.items, id) || (page.hasPrev && page.items != [] && id < page.items[0].id))
    && (page.hasPrev ==> |page.items| == n > 0 && exists id: nat :: HasMatch(table, keep, id) && id < page.items[0].id)
    && page.next == (if page.items == [] then None else Some(CursorAt(page.items[|page.items| - 1], NEXT)))
    && page.prev == (if page.items == [] || !page.hasPrev then None else Some(CursorAt(page.items[0], PREV)))
  }

  lemma LastIsReached(a: seq<Row>, n: nat, items: seq<Row>, id: nat)
    requires ById(a) && n > 0 && items == a[if |a| > n then |a| - n else 0..] && Returned(a, id)
    ensures Returned(items, id) || (|a| > n && id < items[0].id)
  {
    var k :| 0 <= k < |a| && a[k].id == id;
    var lo := if |a| > n then |a| - n else 0;
    if k >= lo { assert items[k - lo].id == id; }
  }

  /** Every request with a prev cursor, whether or not its row still exists, returns the matching rows
      nearest before it. */
  lemma UserListServesBackward(table: seq<Row>, keep: Row -> bool, limit: int, cursor: Option<Cursor>)
    requires ById(table) && IsBackward(cursor)
    ensures ServesBackward(GetPage(table, keep, cursor, limit), table, keep, Start(cursor), NormalizeLimit(limit))
  {
    var start, n := Start(cursor), NormalizeLimit(limit);
    var before := (r: Row) => keep(r) && Earlier(start, r);
    var a, page := Select(table, before), GetPage(table, keep, cursor, limit);
    BackwardPage(table, keep, limit, cursor, a);
    SelectedBefore(table, keep, start, before);
    LastServes(a, n, page, table, keep, start);
  }

  lemma LastServes(a: seq<Row>, n: nat, page: Page, table: seq<Row>, keep: Row -> bool, start: Option<nat>)
    requires n > 0 && page.items == a[if |a| > n then |a| - n else 0..]
    requires page.hasMore && (page.hasPrev <==> |a| > n)
    requires page.next == if a != [] then Some(CursorAt(page.items[|page.items| - 1], NEXT)) else None
    requires page.prev == if page.hasPrev then Some(CursorAt(page.items[0], PREV)) else None
    requires ById(a) && forall i :: 0 <= i < |a| ==> Earlier(start, a[i]) && keep(a[i]) && a[i] in table
    requires forall id: nat :: HasMatch(table, keep, id) && (start.None? || id < start.value) ==> Returned(a, id)
    ensures ServesBackward(page, table, keep, start, n)
  {
    if page.hasPrev { assert HasMatch(table, keep, a[0].id) && a[0].id < page.items[0].id; }
    forall id: nat | HasMatch(table, keep, id) && (start.None? || id < start.value)
      ensures Returned(page.items, id) || (page.hasPrev && page.items != [] && id < page.items[0].id)
    {
      LastIsReached(a, n, page.items, id);
    }
  }

  // Forward requests.

  lemma FirstIsReached(a: seq<Row>, n: nat, page: Page, id: nat)
    requires ById(a) && n > 0 && page.items == First(a, n) && (page.hasMore <==> |a| > n) && Returned(a, id)
    ensures Reached(page, id)
  {
    var k :| 0 <= k < |a| && a[k].id == id;
    if k < n { assert page.items[k].id == id; }
  }

  lemma {:induction false} SelectedMatch(table: seq<Row>, keep: Row -> bool, start: Option<nat>, after: Row -> bool)
    requires ById(table) && forall r :: after(r) == (keep(r) && Later(start, r))
    ensures ById(Select(table, after)) && MatchedIn(Select(table, after), table, keep, start)
    ensures forall id: nat :: HasMatch(table, keep, id) && (start.None? || id > start.value) ==>
              Returned(Select(table, after), id)
  {
    var a := Select(table, after);
    SelectKeepsOrder(table, after);
    forall i | 0 <= i < |a| ensures Later(start, a[i]) && keep(a[i]) && a[i] in table {
      SelectMembers(table, after, a[i]);
    }
    forall id: nat | HasMatch(table, keep, id) && (start.None? || id > start.value) ensures Returned(a, id) {
      var row :| row in table && keep(row) && row.id == id;
      SelectMembers(table, after, row);
    }
  }

  lemma UserListServes(table: seq<Row>, keep: Row -> bool, limit: int, cursor: Option<Cursor>)
    requires ById(table) && IsForward(cursor)
    ensures Serves(GetPage(table, keep, cursor, limit), table, keep, Start(cursor))
  {
    var after := (r: Row) => keep(r) && Later(Start(cursor), r);
    var a, page, n := Select(table, after), GetPage(table, keep, cursor, limit), NormalizeLimit(limit);
    ForwardPage(table, keep, limit, cursor, a);
    SelectedMatch(table, keep, Start(cursor), after);
    FirstServes(a, n, page, table, keep, Start(cursor));
  }

  lemma FirstServes(a: seq<Row>, n: nat, page: Page, table: seq<Row>, keep: Row -> bool, start: Option<nat>)
    requires n > 0 && page.items == First(a, n) && (page.hasMore <==> |a| > n)
    requires page.hasMore ==> page.items != [] && page.next == Some(CursorAt(page.items[|page.items| - 1], NEXT))
    requires ById(a) && MatchedIn(a, table, keep, start)
    requires forall id: nat :: HasMatch(table, keep, id) && (start.None? || id > start.value) ==> Returned(a, id)
    ensures Serves(page, table, keep, start)
  {
    forall id: nat | HasMatch(table, keep, id) && (start.None? || id > start.value) ensures Reached(page, id) {
      FirstIsReached(a, n, page, id);
    }
  }

  lemma UserListServesAlways(keep: Row -> bool, limit: int)
    ensures ServesAlways(UserList(keep, limit), keep)
  {
    forall table, cursor | ById(table) && IsForward(cursor)
      ensures Serves(UserList(keep, limit)(table, cursor), table, keep, Start(cursor))
    {
      UserListServes(table, keep, limit, cursor);
    }
  }

  // Any walk over pages that do.

  lemma AppendOrdered(a: seq<Row>, b: seq<Row>)
    requires ById(a) && ById(b) && a != [] && forall i :: 0 <= i < |b| ==> b[i].id > a[|a| - 1].id
    ensures ById(a + b)
  {
  }

  /** A page from `table` before pages from `tables` that start behind it. */
  lemma MatchedInTurnCons(page: seq<Row>, table: seq<Row>, pages: seq<seq<Row>>, tables: seq<seq<Row>>,
                          keep: Row -> bool, start: Option<nat>, next: nat)
    requires MatchedIn(page, table, keep, start) && MatchedInTurn(pages, tables, keep, Some(next))
    requires start.None? || next >= start.value
    ensures MatchedInTurn([page] + pages, [table] + tables, keep, start)
  {
    forall k | 0 <= k < |pages| ensures MatchedIn(pages[k], tables[k], keep, start) {
      assert MatchedIn(pages[k], tables[k], keep, Some(next));
    }
  }

  lemma {:induction false} ListedIsLater(pages: seq<seq<Row>>, tables: seq<seq<Row>>, keep: Row -> bool, next: nat)
    requires MatchedInTurn(pages, tables, keep, Some(next))
    ensures forall i :: 0 <= i < |Listed(pages)| ==> Listed(pages)[i].id > next
  {
    if pages == [] {
    } else {
      assert MatchedIn(pages[0], tables[0], keep, Some(next));
      forall k | 0 <= k < |pages[1..]| ensures MatchedIn(pages[1..][k], tables[1..][k], keep, Some(next)) {
        assert MatchedIn(pages[k + 1], tables[k + 1], keep, Some(next));
      }
      ListedIsLater(pages[1..], tables[1..], keep, next);
    }
  }

  lemma {:induction false} OrderedCons(page: seq<Row>, table: seq<Row>, rest: seq<seq<Row>>, tables: seq<seq<Row>>,
                                       keep: Row -> bool, start: Option<nat>)
    requires page != [] && ById(page) && MatchedIn(page, table, keep, start)
    requires ById(Listed(rest)) && MatchedInTurn(rest, tables, keep, Some(page[|page| - 1].id))
    ensures ById(Listed([page] + rest)) && MatchedInTurn([page] + rest, [table] + tables, keep, start)
  {
    var next := page[|page| - 1].id;
    ListedCons(page, rest);
    ListedIsLater(rest, tables, keep, next);
    AppendOrdered(page, Listed(rest));
    MatchedInTurnCons(page, table, rest, tables, keep, start, next);
  }

  lemma {:induction false} WalkGoesOn(get: Endpoint, tables: seq<seq<Row>>, cursor: Option<Cursor>, page: Page)
    requires Walk(get, tables, cursor).Some? && page == get(tables[0], cursor) && page.hasMore
    ensures Walk(get, tables[1..], page.next).Some?
    ensures Walk(get, tables, cursor).value == [page.items] + Walk(get, tables[1..], page.next).value
  {
  }

  lemma {:induction false} WalkEnds(get: Endpoint, tables: seq<seq<Row>>, cursor: Option<Cursor>, page: Page)
    requires Walk(get, tables, cursor).Some? && page == get(tables[0], cursor) && !page.hasMore
    ensures |tables| == 1 && Walk(get, tables, cursor).value == [page.items]
  {
  }

  lemma {:induction false} ServedWalkIsOrdered(get: Endpoint, tables: seq<seq<Row>>, keep: Row -> bool,
                                               cursor: Option<Cursor>)
    requires ServesAlways(get, keep) && (forall i :: 0 <= i < |tables| ==> ById(tables[i])) && IsForward(cursor)
    requires Walk(get, tables, cursor).Some?
    ensures ById(Listed(Walk(get, tables, cursor).value))
    ensures MatchedInTurn(Walk(get, tables, cursor).value, tables, keep, Start(cursor))
  {
    var page := get(tables[0], cursor);
    assert Serves(page, tables[0], keep, Start(cursor));
    if page.hasMore {
      WalkGoesOn(get, tables, cursor, page);
      ServedWalkIsOrdered(get, tables[1..], keep, page.next);
      OrderedCons(page.items, tables[0], Walk(get, tables[1..], page.next).value, tables[1..], keep, Start(cursor));
      assert tables == [tables[0]] + tables[1..];
    } else {
      WalkEnds(get, tables, cursor, page);
      ListedOne(page.items);
    }
  }

  lemma ReturnedInEither(a: seq<Row>, b: seq<Row>, id: nat)
    requires Returned(a, id) || Returned(b, id)
    ensures Returned(a + b, id)
  {
    if Returned(a, id) {
      var i :| 0 <= i < |a| && a[i].id == id;
      assert (a + b)[i].id == id;
    } else {
      var i :| 0 <= i < |b| && b[i].id == id;
      assert (a + b)[|a| + i].id == id;
    }
  }

  lemma {:induction false} ServedWalkMissesNothing(get: Endpoint, tables: seq<seq<Row>>, keep: Row -> bool,
                                                   cursor: Option<Cursor>, id: nat)
    requires ServesAlways(get, keep) && (forall i :: 0 <= i < |tables| ==> ById(tables[i])) && IsForward(cursor)
    requires Walk(get, tables, cursor).Some? && (Start(cursor).None? || id > Start(cursor).value)
    requires forall i :: 0 <= i < |tables| ==> HasMatch(tables[i], keep, id)
    ensures Returned(Listed(Walk(get, tables, cursor).value), id)
  {
    var page := get(tables[0], cursor);
    assert Serves(page, tables[0], keep, Start(cursor)) && HasMatch(tables[0], keep, id);
    if page.hasMore {
      WalkGoesOn(get, tables, cursor, page);
      var rest := Walk(get, tables[1..], page.next).value;
      if !Returned(page.items, id) { ServedWalkMissesNothing(get, tables[1..], keep, page.next, id); }
      ReturnedInEither(page.items, Listed(rest), id);
      ListedCons(page.items, rest);
    } else {
      WalkEnds(get, tables, cursor, page);
      ListedOne(page.items);
    }
  }

  /** Whatever is inserted and deleted between the requests, the walk returns strictly ascending ids,
      each a row that matched in the table it was read from. */
  lemma {:induction false} WalkIsOrdered(tables: seq<seq<Row>>, keep: Row -> bool, limit: int, cursor: Option<Cursor>)
    requires (forall i :: 0 <= i < |tables| ==> ById(tables[i])) && IsForward(cursor)
    requires Walk(UserList(keep, limit), tables, cursor).Some?
    ensures var pages := Walk(UserList(keep, limit), tables, cursor).value;
            ById(Listed(pages)) && MatchedInTurn(pages, tables, keep, Start(cursor))
  {
    UserListServesAlways(keep, limit);
    ServedWalkIsOrdered(UserList(keep, limit), tables, keep, cursor);
  }

  /** Every id that has a matching row in all the tables of the walk is returned; with the strict
      order of WalkIsOrdered, exactly once. */
  lemma {:induction false} WalkMissesNothing(tables: seq<seq<Row>>, keep: Row -> bool, limit: int,
                                             cursor: Option<Cursor>, id: nat)
    requires (forall i :: 0 <= i < |tables| ==> ById(tables[i])) && IsForward(cursor)
    requires Walk(UserList(keep, limit), tables, cursor).Some?
    requires Start(cursor).None? || id > Start(cursor).value
    requires forall i :: 0 <= i < |tables| ==> HasMatch(tables[i], keep, id)
    ensures Returned(Listed(Walk(UserList(keep, limit), tables, cursor).value), id)
  {
    UserListServesAlways(keep, limit);
    ServedWalkMissesNothing(UserList(keep, limit), tables, keep, cursor, id);
  }

  /** Exactly one row of the list has the id. */
  ghost predicate ReturnedOnce(items: seq<Row>, id: nat) {
    exists i :: 0 <= i < |items| && items[i].id == id
                && forall j :: 0 <= j < |items| && items[j].id == id ==> j == i
  }

  lemma OrderedReturnsOnce(items: seq<Row>, id: nat)
    requires ById(items) && Returned(items, id)
    ensures ReturnedOnce(items, id)
  {
    var i :| 0 <= i < |items| && items[i].id == id;
    assert forall j :: 0 <= j < |items| && items[j].id == id ==> j == i;
  }

  /** A walk from the first page returns each persistent matching id exactly once. */
  lemma {:induction false} WalkReturnsExactlyOnce(tables: seq<seq<Row>>, keep: Row -> bool, limit: int, id: nat)
    requires (forall i :: 0 <= i < |tables| ==> ById(tables[i])) && Walk(UserList(keep, limit), tables, None).Some?
    requires forall i :: 0 <= i < |tables| ==> HasMatch(tables[i], keep, id)
    ensures ReturnedOnce(Listed(Walk(UserList(keep, limit), tables, None).value), id)
  {
    WalkIsOrdered(tables, keep, limit, None);
    WalkMissesNothing(tables, keep, limit, None, id);
    OrderedReturnsOnce(Listed(Walk(UserList(keep, limit), tables, None).value), id);
  }
}
