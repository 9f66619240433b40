/** Keyset pagination over the log, newest first: one page, and a walk from page to page while the
    table changes. Times are microseconds; ids are numbers in the order of their text. */
module LogsKeyset {
  import opened Tables
  import opened Lists

  // ----- rows and their order

  datatype Key = Key(recordedAt: int, id: nat) {
    /** The row-value comparison. */
    predicate Before(other: Key) {
      recordedAt < other.recordedAt || (recordedAt == other.recordedAt && id < other.id)
    }
  }

  datatype LogRow = LogRow(id: nat, user: string, area: AreaId, recordedAt: int, capturedAt: Option<int>) {
    function Position(): Key { Key(recordedAt, id) }
  }

  type Table = set<LogRow>

  ghost predicate HasPrimaryKey(table: Table) {
    forall r, q :: r in table && q in table && r.id == q.id ==> r == q
  }

  ghost predicate Descending(rows: seq<LogRow>) {
    forall i, j :: 0 <= i < j < |rows| ==> rows[j].Position().Before(rows[i].Position())
  }

  /** The same in the columns of ORDER BY "recorded_at" DESC, "id" DESC. */
  ghost predicate NewestFirst(rows: seq<LogRow>) {
    forall i, j :: 0 <= i < j < |rows| ==>
      || rows[i].recordedAt > rows[j].recordedAt
      || (rows[i].recordedAt == rows[j].recordedAt && rows[i].id > rows[j].id)
  }

  // ----- requests and answers

  datatype Filters = Filters(user: Option<string>, area: Option<AreaId>, from: Option<int>, to: Option<int>) {
    predicate Match(r: LogRow) {
      && (user.Some? ==> r.user == user.value)
      && (area.Some? ==> r.area == area.value)
      && (from.Some? ==> from.value <= r.recordedAt)
      && (to.Some? ==> r.recordedAt <= to.value)
    }
  }

  datatype Cursor = Malformed | At(key: Key)

  datatype Query = Query(filters: Filters, cursor: Option<Cursor>, limit: nat)

  datatype Page = Page(rows: seq<LogRow>, next: Option<Key>) | BadCursor

  predicate BelowCursor(cursor: Option<Cursor>, r: LogRow) {
    cursor.Some? ==> cursor.value.At? && r.Position().Before(cursor.value.key)
  }

  // ----- the statement

  datatype Value = Text(text: string) | Area(area: AreaId) | Time(time: int) | RowId(id: nat) | Count(count: nat)

  /** Conditions name their parameters by number, from 1. */
  datatype Condition =
    | UserIs(n: nat)
    | AreaIs(n: nat)
    | NotBefore(n: nat)
    | NotAfter(n: nat)
    | RowBefore(n: nat, m: nat)
  {
    predicate InRange(count: nat) { 1 <= n <= count && (RowBefore? ==> 1 <= m <= count) }

    predicate Holds(params: seq<Value>, r: LogRow) {
      && InRange(|params|)
      && match this
         case UserIs(n) => params[n - 1] == Text(r.user)
         case AreaIs(n) => params[n - 1] == Area(r.area)
         case NotBefore(n) => params[n - 1].Time? && r.recordedAt >= params[n - 1].time
         case NotAfter(n) => params[n - 1].Time? && r.recordedAt <= params[n - 1].time
         case RowBefore(n, m) =>
           && params[n - 1].Time? && params[m - 1].RowId?
           && r.Position().Before(Key(params[n - 1].time, params[m - 1].id))
    }
  }

  predicate AllHold(conditions: seq<Condition>, params: seq<Value>, r: LogRow) {
    forall i :: 0 <= i < |conditions| ==> conditions[i].Holds(params, r)
  }

  function Kept(table: Table, conditions: seq<Condition>, params: seq<Value>): Table {
    set r | r in table && AllHold(conditions, params, r)
  }

  ghost predicate AllInRange(conditions: seq<Condition>, count: nat) {
    forall i :: 0 <= i < |conditions| ==> conditions[i].InRange(count)
  }

  /** Binding more values leaves the earlier conditions as they were. */
  lemma Pushed(conditions: seq<Condition>, params: seq<Value>, more: seq<Value>, c: Condition)
    requires AllInRange(conditions, |params|) && c.InRange(|params + more|)
    ensures AllInRange(conditions + [c], |params + more|)
    ensures forall r :: AllHold(conditions + [c], params + more, r) <==> AllHold(conditions, params, r) && c.Holds(params + more, r)
  {
    var all := conditions + [c];
    forall r ensures AllHold(all, params + more, r) <==> AllHold(conditions, params, r) && c.Holds(params + more, r) {
      forall i | 0 <= i < |conditions| ensures conditions[i].Holds(params + more, r) <==> conditions[i].Holds(params, r) {}
      if AllHold(all, params + more, r) {
        forall i | 0 <= i < |conditions| ensures conditions[i].Holds(params, r) {
          assert all[i].Holds(params + more, r);
        }
        assert all[|conditions|].Holds(params + more, r);
      }
    }
  }

  /** The first `limit` rows of a set in descending order. */
  ghost predicate IsTop(rows: seq<LogRow>, kept: Table, limit: nat) {
    && Descending(rows) && |rows| <= limit
    && (forall r :: r in rows ==> r in kept)
    && (forall r, q :: r in kept && r !in rows && q in rows ==> r.Position().Before(q.Position()))
    && ((exists r :: r in kept && r !in rows) ==> |rows| == limit)
  }

  lemma {:induction false} LargestExists(rows: Table)
    requires HasPrimaryKey(rows) && rows != {}
    ensures exists m :: m in rows && forall r :: r in rows && r != m ==> r.Position().Before(m.Position())
    decreases |rows|
  {
    var x :| x in rows;
    var rest := rows - {x};
    if rest == {} {
      assert forall r :: r in rows && r != x ==> r in rest;
    } else {
      LargestExists(rest);
      var m :| m in rest && forall r :: r in rest && r != m ==> r.Position().Before(m.Position());
      assert forall r :: r in rows ==> r == x || r in rest;
      if x.Position().Before(m.Position()) {
        assert forall r :: r in rows && r != m ==> r.Position().Before(m.Position());
      } else {
        assert m.Position().Before(x.Position());
        assert forall r :: r in rows && r != x ==> r.Position().Before(x.Position());
      }
    }
  }

  /** What the database answers to the statement. */
  method Select(table: Table, conditions: seq<Condition>, params: seq<Value>, limit: nat) returns (rows: seq<LogRow>)
    requires HasPrimaryKey(table)
    ensures IsTop(rows, Kept(table, conditions, params), limit)
  {
    rows := [];
    var kept := Kept(table, conditions, params);
    var rest := kept;
    while |rows| < limit && rest != {}
      invariant rest <= kept && Descending(rows) && |rows| <= limit
      invariant forall r :: r in kept <==> r in rest || r in rows
      invariant forall r :: r in rest ==> r !in rows
      invariant forall r, q :: r in rest && q in rows ==> r.Position().Before(q.Position())
      decreases |rest|
    {
      LargestExists(rest);
      var m :| m in rest && forall r :: r in rest && r != m ==> r.Position().Before(m.Position());
      rows, rest := rows + [m], rest - {m};
    }
  }

  // ----- one page

  /** The rows of a page are all those of the table that match, lie below the cursor and, when
      there is a next cursor, not below that one. */
  ghost predicate InWindow(filters: Filters, cursor: Option<Cursor>, next: Option<Key>, r: LogRow) {
    filters.Match(r) && BelowCursor(cursor, r) && (next.Some? ==> !r.Position().Before(next.value))
  }

  ghost predicate IsPage(table: Table, query: Query, page: Page) {
    && page.Page?
    && Descending(page.rows)
    && (forall r :: r in page.rows <==> r in table && InWindow(query.filters, query.cursor, page.next, r))
    && (if page.next.Some?
        then |page.rows| == query.limit > 0 && page.rows[query.limit - 1].Position() == page.next.value
        else |page.rows| <= query.limit)
    && (page.next.Some? ==> exists r :: r in table && query.filters.Match(r) && r.Position().Before(page.next.value))
  }

  /** The conditions say what the filters and the cursor say. */
  ghost predicate Says(conditions: seq<Condition>, params: seq<Value>, f: Filters, cursor: Option<Cursor>) {
    && AllInRange(conditions, |params|)
    && forall r :: AllHold(conditions, params, r) <==> f.Match(r) && BelowCursor(cursor, r)
  }

  lemma SaysUser(conditions: seq<Condition>, params: seq<Value>, f: Filters, user: string)
    requires Says(conditions, params, f, None) && f.user.None?
    ensures Says(conditions + [UserIs(|params| + 1)], params + [Text(user)], f.(user := Some(user)), None)
  {
    Pushed(conditions, params, [Text(user)], UserIs(|params| + 1));
  }

  lemma SaysArea(conditions: seq<Condition>, params: seq<Value>, f: Filters, area: AreaId)
    requires Says(conditions, params, f, None) && f.area.None?
    ensures Says(conditions + [AreaIs(|params| + 1)], params + [Area(area)], f.(area := Some(area)), None)
  {
    Pushed(conditions, params, [Area(area)], AreaIs(|params| + 1));
  }

  lemma SaysFrom(conditions: seq<Condition>, params: seq<Value>, f: Filters, from: int)
    requires Says(conditions, params, f, None) && f.from.None?
    ensures Says(conditions + [NotBefore(|params| + 1)], params + [Time(from)], f.(from := Some(from)), None)
  {
    Pushed(conditions, params, [Time(from)], NotBefore(|params| + 1));
  }

  lemma SaysTo(conditions: seq<Condition>, params: seq<Value>, f: Filters, to: int)
    requires Says(conditions, params, f, None) && f.to.None?
    ensures Says(conditions + [NotAfter(|params| + 1)], params + [Time(to)], f.(to := Some(to)), None)
  {
    Pushed(conditions, params, [Time(to)], NotAfter(|params| + 1));
  }

  lemma SaysCursor(conditions: seq<Condition>, params: seq<Value>, f: Filters, key: Key)
    requires Says(conditions, params, f, None)
    ensures Says(conditions + [RowBefore(|params| + 1, |params| + 2)], params + [Time(key.recordedAt), RowId(key.id)], f, Some(At(key)))
  {
    Pushed(conditions, params, [Time(key.recordedAt), RowId(key.id)], RowBefore(|params| + 1, |params| + 2));
  }

  /** A value is bound first; the number of the parameter is then the length of the list. */
  method BindOwner(f: Filters) returns (conditions: seq<Condition>, params: seq<Value>)
    ensures Says(conditions, params, f.(from := None, to := None), None)
  {
    conditions, params := [], [];
    if f.user.Some? {
      SaysUser(conditions, params, Filters(None, None, None, None), f.user.value);
      params := params + [Text(f.user.value)];
      conditions := conditions + [UserIs(|params|)];
    }
    ghost var said := Filters(f.user, None, None, None);
    assert Says(conditions, params, said, None);
    if f.area.Some? {
      SaysArea(conditions, params, said, f.area.value);
      params := params + [Area(f.area.value)];
      conditions := conditions + [AreaIs(|params|)];
    }
  }

  method BindTimes(before: seq<Condition>, bound: seq<Value>, f: Filters)
    returns (conditions: seq<Condition>, params: seq<Value>)
    requires Says(before, bound, f.(from := None, to := None), None)
    ensures Says(conditions, params, f, None)
  {
    conditions, params := before, bound;
    if f.from.Some? {
      SaysFrom(conditions, params, f.(from := None, to := None), f.from.value);
      params := params + [Time(f.from.value)];
      conditions := conditions + [NotBefore(|params|)];
    }
    assert Says(conditions, params, f.(to := None), None);
    if f.to.Some? {
      SaysTo(conditions, params, f.(to := None), f.to.value);
      params := params + [Time(f.to.value)];
      conditions := conditions + [NotAfter(|params|)];
    }
  }

  method BuildConditions(query: Query) returns (conditions: seq<Condition>, params: seq<Value>)
    requires query.cursor != Some(Malformed)
    ensures Says(conditions, params, query.filters, query.cursor)
  {
    conditions, params := BindOwner(query.filters);
    conditions, params := BindTimes(conditions, params, query.filters);
    if query.cursor.Some? {
      var key := query.cursor.value.key;
      SaysCursor(conditions, params, query.filters, key);
      params := params + [Time(key.recordedAt), RowId(key.id)];
      conditions := conditions + [RowBefore(|params| - 1, |params|)];
    }
  }

  /** The rows that match and lie below the cursor. */
  function Wanted(table: Table, f: Filters, cursor: Option<Cursor>): Table {
    set r | r in table && f.Match(r) && BelowCursor(cursor, r)
  }

  function Cut(rows: seq<LogRow>, limit: nat): Page
    requires limit >= 1
  {
    if |rows| > limit then Page(rows[..limit], Some(rows[limit - 1].Position())) else Page(rows, None)
  }

  /** One row more than asked for is enough to know the next cursor. */
  lemma CutIsPage(table: Table, query: Query, rows: seq<LogRow>)
    requires query.limit >= 1 && IsTop(rows, Wanted(table, query.filters, query.cursor), query.limit + 1)
    ensures IsPage(table, query, Cut(rows, query.limit))
  {
    var page := Cut(rows, query.limit);
    if |rows| > query.limit {
      var last, extra := rows[query.limit - 1], rows[query.limit];
      assert extra in Wanted(table, query.filters, query.cursor) && extra.Position().Before(last.Position());
      forall r ensures r in page.rows <==> r in table && InWindow(query.filters, query.cursor, page.next, r) {
        if r in rows {
          var i :| 0 <= i < |rows| && rows[i] == r;
          assert i < query.limit ==> page.rows[i] == r;
        } else if r in Wanted(table, query.filters, query.cursor) {
          assert r.Position().Before(last.Position());
        }
      }
    }
  }

  /** A page in the columns. */
  lemma PageInColumns(table: Table, query: Query, page: Page)
    requires IsPage(table, query, page) && query.cursor != Some(Malformed)
    ensures NewestFirst(page.rows)
    ensures query.cursor.Some? ==>
      var key := query.cursor.value.key;
      forall r :: r in page.rows ==> r.recordedAt < key.recordedAt || (r.recordedAt == key.recordedAt && r.id < key.id)
    ensures page.next.Some? ==>
      && page.rows != []
      && var last := page.rows[|page.rows| - 1]; page.next == Some(Key(last.recordedAt, last.id))
  {
    forall r | r in page.rows && query.cursor.Some? ensures BelowCursor(query.cursor, r) {
      assert InWindow(query.filters, query.cursor, page.next, r);
    }
  }

  method List(table: Table, query: Query) returns (page: Page)
    requires HasPrimaryKey(table) && query.limit >= 1
    ensures page.BadCursor? <==> query.cursor == Some(Malformed)
    ensures page.Page? ==> IsPage(table, query, page)
    ensures page.Page? ==> NewestFirst(page.rows)
    ensures page.Page? && query.cursor.Some? ==>
      var key := query.cursor.value.key;
      forall r :: r in page.rows ==> r.recordedAt < key.recordedAt || (r.recordedAt == key.recordedAt && r.id < key.id)
    ensures page.Page? && page.next.Some? ==>
      && page.rows != []
      && var last := page.rows[|page.rows| - 1]; page.next == Some(Key(last.recordedAt, last.id))
  {
    if query.cursor == Some(Malformed) {
      return BadCursor;
    }
    var conditions, params := BuildConditions(query);
    KeptIsAsked(table, conditions, params, Count(query.limit + 1), query.filters, query.cursor);
    params := params + [Count(query.limit + 1)];
    var rows := Select(table, conditions, params, params[|params| - 1].count);
    var hasMore := |rows| > query.limit;
    var cut := if hasMore then rows[..query.limit] else rows;
    page := Page(cut, if hasMore then Some(cut[|cut| - 1].Position()) else None);
    assert page == Cut(rows, query.limit);
    CutIsPage(table, query, rows);
    PageInColumns(table, query, page);
  }

  /** The limit is bound last and no condition names it. */
  lemma KeptIsAsked(table: Table, conditions: seq<Condition>, params: seq<Value>, v: Value, f: Filters, cursor: Option<Cursor>)
    requires Says(conditions, params, f, cursor)
    ensures Kept(table, conditions, params + [v]) == Wanted(table, f, cursor)
  {
    forall r ensures AllHold(conditions, params + [v], r) <==> AllHold(conditions, params, r) {
      forall i | 0 <= i < |conditions| ensures conditions[i].Holds(params + [v], r) <==> conditions[i].Holds(params, r) {}
    }
  }

  // ----- a walk from page to page

  /** One request of a walk and the table it met. */
  datatype Visit = Visit(table: Table, filters: Filters, limit: nat, page: Page)

  ghost predicate IsVisit(v: Visit, cursor: Option<Cursor>) {
    IsPage(v.table, Query(v.filters, cursor, v.limit), v.page)
  }

  /** Where the walk stands before its i-th request. */
  ghost function CursorAt(w: seq<Visit>, i: nat): Option<Cursor>
    requires i <= |w|
  {
    if i == 0 then None
    else if w[i - 1].page.Page? && w[i - 1].page.next.Some? then Some(At(w[i - 1].page.next.value))
    else Some(Malformed)
  }

  /** Requests that follow the next cursor from the start. Tables, page sizes and even filters may
      change in between. */
  ghost predicate IsWalk(w: seq<Visit>) {
    w == [] ||
    (&& IsWalk(w[..|w| - 1])
     && IsVisit(w[|w| - 1], CursorAt(w, |w| - 1))
     && (|w| > 1 ==> w[|w| - 2].page.Page? && w[|w| - 2].page.next.Some?))
  }

  ghost predicate Finished(w: seq<Visit>) { w != [] && w[|w| - 1].page.Page? && w[|w| - 1].page.next.None? }

  ghost function AllRows(w: seq<Visit>): seq<LogRow> {
    if w == [] then []
    else AllRows(w[..|w| - 1]) + if w[|w| - 1].page.Page? then w[|w| - 1].page.rows else []
  }

  lemma {:induction false} VisitAt(w: seq<Visit>, i: nat)
    requires IsWalk(w) && i < |w|
    ensures IsVisit(w[i], CursorAt(w, i))
    ensures i + 1 < |w| ==> w[i].page.Page? && w[i].page.next.Some?
    decreases |w|
  {
    if i + 1 < |w| {
      VisitAt(w[..|w| - 1], i);
      assert CursorAt(w[..|w| - 1], i) == CursorAt(w, i);
    }
  }

  /** The request whose window a position falls into. */
  ghost predicate MetAt(w: seq<Visit>, i: nat, k: Key) {
    && i < |w| && w[i].page.Page?
    && (i > 0 ==> w[i - 1].page.Page? && w[i - 1].page.next.Some? && k.Before(w[i - 1].page.next.value))
    && (w[i].page.next.Some? ==> !k.Before(w[i].page.next.value))
  }

  /** The request that found the row in its table, matching, within its window. */
  ghost predicate FoundAt(w: seq<Visit>, i: nat, r: LogRow) {
    MetAt(w, i, r.Position()) && r in w[i].table && w[i].filters.Match(r)
  }

  lemma LastVisit(w: seq<Visit>, n: nat)
    requires IsWalk(w) && |w| == n + 1
    ensures w[n].page.Page? && Descending(w[n].page.rows)
    ensures forall r :: r in w[n].page.rows <==> FoundAt(w, n, r)
    ensures w[n].page.next.Some? ==> |w[n].page.rows| > 0
  {
  }

  ghost predicate NoneBelow(rows: seq<LogRow>, k: Key) {
    forall r :: r in rows ==> !r.Position().Before(k)
  }

  ghost predicate AllBelow(rows: seq<LogRow>, k: Key) {
    forall r :: r in rows ==> r.Position().Before(k)
  }

  lemma DescendingConcat(p: seq<LogRow>, q: seq<LogRow>, k: Key)
    requires Descending(p) && Descending(q) && NoneBelow(p, k) && AllBelow(q, k)
    ensures Descending(p + q)
  {
  }

  lemma NoneBelowConcat(p: seq<LogRow>, q: seq<LogRow>, k: Key, next: Key)
    requires NoneBelow(p, k) && NoneBelow(q, next) && (q != [] && AllBelow(q, k))
    ensures NoneBelow(p + q, next)
  {
    assert q[0] in q;
    forall r | r in p + q ensures !r.Position().Before(next) {
      assert r in p || r in q;
    }
  }

  /** The rows of a page lie below the page before it and not below their own next cursor. */
  lemma PageLiesBetween(w: seq<Visit>, n: nat)
    requires IsWalk(w) && |w| == n + 1
    ensures w[n].page.Page?
    ensures n > 0 ==> w[n - 1].page.Page? && w[n - 1].page.next.Some? && AllBelow(w[n].page.rows, w[n - 1].page.next.value)
    ensures w[n].page.next.Some? ==> w[n].page.rows != [] && NoneBelow(w[n].page.rows, w[n].page.next.value)
  {
  }

  ghost predicate DescendsTo(rows: seq<LogRow>, page: Page) {
    Descending(rows) && (page.Page? && page.next.Some? ==> NoneBelow(rows, page.next.value))
  }

  lemma AppendPage(p: seq<LogRow>, k: Key, page: Page)
    requires page.Page? && Descending(page.rows) && AllBelow(page.rows, k)
    requires page.next.Some? ==> page.rows != [] && NoneBelow(page.rows, page.next.value)
    requires Descending(p) && NoneBelow(p, k)
    ensures DescendsTo(p + page.rows, page)
  {
    DescendingConcat(p, page.rows, k);
    if page.next.Some? {
      NoneBelowConcat(p, page.rows, k, page.next.value);
    }
  }

  ghost function LastPage(w: seq<Visit>): Page { if w == [] then Page([], None) else w[|w| - 1].page }

  lemma FirstPage(w: seq<Visit>)
    requires IsWalk(w) && |w| == 1
    ensures DescendsTo(AllRows(w), w[0].page)
  {
  }

  lemma NextPage(w: seq<Visit>, n: nat)
    requires IsWalk(w) && |w| == n + 1 && n > 0
    requires DescendsTo(AllRows(w[..n]), w[n - 1].page)
    ensures DescendsTo(AllRows(w), w[n].page)
  {
    PageLiesBetween(w, n);
    LastVisit(w, n);
    AppendPage(AllRows(w[..n]), w[n - 1].page.next.value, w[n].page);
  }

  lemma {:induction false} WalkDescendsTo(w: seq<Visit>)
    requires IsWalk(w)
    ensures DescendsTo(AllRows(w), LastPage(w))
    decreases |w|
  {
    var n := |w| - 1;
    if n == 0 {
      FirstPage(w);
    } else if n > 0 {
      WalkDescendsTo(w[..n]);
      NextPage(w, n);
    }
  }

  /** The rows of a walk, page after page, are strictly descending: none comes twice, whatever was
      inserted meanwhile. */
  lemma WalkDescends(w: seq<Visit>)
    requires IsWalk(w)
    ensures Descending(AllRows(w)) && NewestFirst(AllRows(w))
    ensures NoDuplicates(AllRows(w))
  {
    WalkDescendsTo(w);
    var rows := AllRows(w);
    forall i, j | 0 <= i < j < |rows| ensures rows[i] != rows[j] {
      assert rows[j].Position().Before(rows[i].Position());
    }
  }

  /** A walk returns a row exactly when some request whose window it falls into found it in the
      table, matching. */
  lemma {:induction false} RowsOfWalk(w: seq<Visit>, r: LogRow)
    requires IsWalk(w)
    ensures r in AllRows(w) <==> exists i: nat :: FoundAt(w, i, r)
    decreases |w|
  {
    if w != [] {
      var n := |w| - 1;
      var v := w[..n];
      LastVisit(w, n);
      RowsOfWalk(v, r);
      forall i: nat | i < n ensures FoundAt(v, i, r) <==> FoundAt(w, i, r) {}
      assert forall i: nat :: FoundAt(w, i, r) ==> i < n || i == n;
    }
  }

  /** In a finished walk every position falls into a window. */
  lemma {:induction false} EveryPositionIsMet(w: seq<Visit>, k: Key, i: nat)
    requires IsWalk(w) && Finished(w) && i < |w|
    requires i > 0 ==> w[i - 1].page.Page? && w[i - 1].page.next.Some? && k.Before(w[i - 1].page.next.value)
    ensures exists j: nat :: MetAt(w, j, k)
    decreases |w| - i
  {
    VisitAt(w, i);
    if w[i].page.next.Some? && k.Before(w[i].page.next.value) {
      EveryPositionIsMet(w, k, i + 1);
    } else {
      assert MetAt(w, i, k);
    }
  }

  /** A finished walk returns every row that was there and matched throughout. */
  lemma WalkMissesNothing(w: seq<Visit>, r: LogRow)
    requires IsWalk(w) && Finished(w)
    requires forall i :: 0 <= i < |w| ==> r in w[i].table && w[i].filters.Match(r)
    ensures r in AllRows(w)
  {
    EveryPositionIsMet(w, r.Position(), 0);
    var i: nat :| MetAt(w, i, r.Position());
    assert FoundAt(w, i, r);
    RowsOfWalk(w, r);
  }

  /** Over a table that does not change, the walk is the matching rows, each once. */
  lemma WalkOfFixedTable(w: seq<Visit>, table: Table, filters: Filters)
    requires IsWalk(w) && Finished(w)
    requires forall i :: 0 <= i < |w| ==> w[i].table == table && w[i].filters == filters
    ensures NewestFirst(AllRows(w))
    ensures forall r :: r in AllRows(w) <==> r in table && filters.Match(r)
  {
    WalkDescends(w);
    forall r ensures r in AllRows(w) <==> r in table && filters.Match(r) {
      RowsOfWalk(w, r);
      if r in table && filters.Match(r) {
        WalkMissesNothing(w, r);
      }
    }
  }

  // ----- termination

  lemma DescendingAreDistinct(rows: seq<LogRow>)
    requires Descending(rows)
    ensures |Elements(rows)| == |rows|
  {
    forall i, j | 0 <= i < j < |rows| ensures rows[i] != rows[j] {
      assert rows[j].Position().Before(rows[i].Position());
    }
    CountOfElements(rows);
  }

  /** Every page with a next cursor is full. */
  lemma {:induction false} FullPages(w: seq<Visit>)
    requires IsWalk(w)
    ensures |AllRows(w)| >= |w| - 1
    ensures w != [] && w[|w| - 1].page.Page? && w[|w| - 1].page.next.Some? ==> |AllRows(w)| >= |w|
    decreases |w|
  {
    if w != [] {
      var n := |w| - 1;
      LastVisit(w, n);
      FullPages(w[..n]);
      if n > 0 {
        assert w[..n][n - 1] == w[n - 1] && w[n - 1].page.next.Some?;
        LastVisit(w[..n], n - 1);
      }
    }
  }

  /** As long as rows are only ever taken from `bound`, for instance because nothing is inserted any
      more, the walk has at most one request more than `bound` has rows. */
  lemma WalksAreBounded(w: seq<Visit>, bound: Table)
    requires IsWalk(w) && forall i :: 0 <= i < |w| ==> w[i].table <= bound
    ensures |w| <= |bound| + 1
  {
    FullPages(w);
    WalkDescends(w);
    DescendingAreDistinct(AllRows(w));
    forall r | r in AllRows(w) ensures r in bound {
      RowsOfWalk(w, r);
      var i: nat :| FoundAt(w, i, r);
      assert w[i].table <= bound;
    }
    SubsetIsSmaller(Elements(AllRows(w)), bound);
  }

  lemma NextVisit(w: seq<Visit>, v: Visit)
    requires IsWalk(w) && IsVisit(v, CursorAt(w, |w|))
    requires w != [] ==> w[|w| - 1].page.Page? && w[|w| - 1].page.next.Some?
    ensures IsWalk(w + [v])
  {
    assert (w + [v])[..|w|] == w;
    assert CursorAt(w + [v], |w|) == CursorAt(w, |w|);
  }

  /** A client that follows the next cursor over a table that does not change comes to the end. */
  method WalkToTheEnd(table: Table, filters: Filters, limit: nat) returns (w: seq<Visit>)
    requires HasPrimaryKey(table) && limit >= 1
    ensures IsWalk(w) && Finished(w)
    ensures forall i :: 0 <= i < |w| ==> w[i].table == table && w[i].filters == filters && w[i].limit == limit
  {
    var page := List(table, Query(filters, None, limit));
    NextVisit([], Visit(table, filters, limit, page));
    w := [Visit(table, filters, limit, page)];
    while page.next.Some?
      invariant IsWalk(w) && w != [] && w[|w| - 1].page == page && page.Page?
      invariant forall i :: 0 <= i < |w| ==> w[i].table == table && w[i].filters == filters && w[i].limit == limit
      decreases |table| + 1 - |w|
    {
      page := List(table, Query(filters, Some(At(page.next.value)), limit));
      NextVisit(w, Visit(table, filters, limit, page));
      w := w + [Visit(table, filters, limit, page)];
      WalksAreBounded(w, table);
    }
  }

  // ----- why the cursor carries microseconds

  /** The time an item shows has milliseconds only. */
  function Shown(r: LogRow): Key { Key(r.recordedAt / 1000, r.id) }

  /** A cursor made of what an item shows would lose rows: this one lies below the last row of the
      page and is not below the shown position of that row. */
  lemma ShownTimesWouldSkip(user: string, area: AreaId)
    ensures exists last: LogRow, r: LogRow ::
      r.Position().Before(last.Position()) && !r.Position().Before(Key(Shown(last).recordedAt * 1000, last.id))
  {
    var last, r := LogRow(1, user, area, 1700, None), LogRow(2, user, area, 1500, None);
    assert r.Position().Before(last.Position());
  }
}
