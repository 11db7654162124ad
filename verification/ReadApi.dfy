// Reading a finished job back: the dashboard endpoint, and the paged data endpoint.

module ReadApi {
  import opened Domain
  import opened Protocol
  import opened Safety
  import opened Exclusive
  import opened Windows
  import ColumnTypes

  newtype u32 = n: int | 0 <= n < 0x1_0000_0000
  newtype u64 = n: int | 0 <= n < 0x1_0000_0000_0000_0000

  const DEFAULT_PAGE_SIZE: u32 := 50
  const MAX_PAGE_SIZE: u32 := 500
  const MAX_OFFSET: u64 := 1_000_000

  datatype Reply<T> = Ok(value: T) | Err(error: Error)

  datatype Error =
    | JobNotFound
    | NotReady(status: JobStatus)
    | DashboardNotYet
    | NoTable
    | PageTooLarge(offset: u64)
    | FilterWithoutColon
    | UnknownColumn(name: string)
    | BadOrder(order: string)
    | QueryFailed

  /** Users see their own jobs, admins see all; a hidden job looks like a missing one. */
  predicate MaySee(s: State, j: Uuid, user: Uuid, admin: bool) {
    j in s.jobs && (s.jobs[j].user == user || admin)
  }

  // ---------------------------------------------------------------- the dashboard

  /** Two reads: the job row in `first`, then the dashboard row in `second`. */
  function GetDashboard(first: State, second: State, j: Uuid, user: Uuid, admin: bool): Reply<Dashboard> {
    if !MaySee(first, j, user, admin) then Err(JobNotFound)
    else if !first.jobs[j].status.Ready? then Err(NotReady(first.jobs[j].status))
    else if j !in second.dashboards then Err(DashboardNotYet)
    else Ok(second.dashboards[j])
  }

  /** Whatever the workers do between the two reads, a job seen ready has its dashboard served. */
  lemma DashboardServed(n: nat, es: seq<Event>, s: State, later: seq<Event>, t: State, j: Uuid, user: Uuid, admin: bool)
    requires n >= 1 && Run(n, INIT, es, s) && Run(n, s, later, t)
    ensures GetDashboard(s, t, j, user, admin) != Err(DashboardNotYet)
    ensures GetDashboard(s, t, j, user, admin) == Err(JobNotFound) <==>
              j !in s.jobs || (!admin && s.jobs[j].user != user)
    ensures GetDashboard(s, t, j, user, admin).Ok? <==>
              j in s.jobs && (admin || s.jobs[j].user == user) && s.jobs[j].status.Ready?
    ensures GetDashboard(s, t, j, user, admin).Ok? ==> GetDashboard(s, t, j, user, admin) == Ok(t.dashboards[j])
  {
    if j in s.jobs && s.jobs[j].status.Ready? {
      ReadyIsComplete(n, es, s, later, t, j);
    }
  }

  // ---------------------------------------------------------------- paging arithmetic

  function PageNumber(page: Option<u32>): (p: u32)
    ensures p >= 1
  {
    if page.None? || page.value < 1 then 1 else page.value
  }

  function PageSize(size: Option<u32>): (k: u32)
    ensures 1 <= k <= MAX_PAGE_SIZE
  {
    var k := if size.None? then DEFAULT_PAGE_SIZE else size.value;
    if k < 1 then 1 else if k > MAX_PAGE_SIZE then MAX_PAGE_SIZE else k
  }

  /** 50 if there is none, and otherwise the nearest size from 1 to 500. */
  predicate Clamped(asked: Option<u32>, size: u32) {
    match asked
    case None => size == 50
    case Some(k) =>
      1 <= size <= 500 && (1 <= k <= 500 ==> size == k) && (k < 1 ==> size == 1) && (k > 500 ==> size == 500)
  }

  lemma TimesBelow(a: int, b: int, m: int)
    requires 0 <= a <= m && 0 <= b <= m
    ensures 0 <= a * b <= m * m
  {
    assert a * b <= m * b;
    assert m * b <= m * m;
  }

  /** Both factors are widened first, so no page and no size overflows. */
  function Offset(page: u32, size: u32): (o: u64)
    requires page >= 1
    ensures o as int == (page as int - 1) * size as int
  {
    TimesBelow(page as int - 1, size as int, 0xFFFF_FFFF);
    (page - 1) as u64 * size as u64
  }

  function Least(a: int, b: int): int {
    if a < b then a else b
  }

  /** `LIMIT size OFFSET offset`. */
  function Window<T>(rows: seq<T>, offset: int, size: int): seq<T>
    requires offset >= 0 && size >= 0
  {
    rows[Least(offset, |rows|)..Least(offset + size, |rows|)]
  }

  /** The page shows the row at index `k`. */
  predicate Shows(page: u32, size: u32, k: int)
    requires page >= 1
  {
    Offset(page, size) <= MAX_OFFSET && Offset(page, size) as int <= k < Offset(page, size) as int + size as int
  }

  lemma DivUnique(k: nat, size: int, p: int)
    requires size >= 1 && p >= 0
    ensures p * size <= k < p * size + size <==> p == k / size
  {
    var q := k / size;
    assert q * size <= k < q * size + size;
    if p < q {
      assert (p + 1) * size <= q * size;
    } else if p > q {
      assert (q + 1) * size <= p * size;
    }
  }

  /** With a fixed page size every row that starts no deeper than the limit is on exactly one page,
      and deeper rows are on none. */
  lemma OnOnePage(page: u32, size: u32, k: nat)
    requires page >= 1 && size >= 1
    ensures Shows(page, size, k) <==>
              page as int == k / size as int + 1 && (k / size as int) * size as int <= MAX_OFFSET as int
  {
    DivUnique(k, size as int, page as int - 1);
  }

  lemma TimesAtLeast(q: int, size: int)
    requires q >= 0 && size >= 1
    ensures q <= q * size
  {
  }

  /** The page that has the row exists: its number fits. */
  lemma PageExists(size: u32, k: nat) returns (page: u32)
    requires size >= 1 && (k / size as int) * size as int <= MAX_OFFSET as int
    ensures page >= 1 && Shows(page, size, k)
  {
    var q := k / size as int;
    TimesAtLeast(q, size as int);
    page := (q + 1) as u32;
    OnOnePage(page, size, k);
  }

  function Pages<T>(rows: seq<T>, size: nat, n: nat): seq<T> {
    if n == 0 then [] else Pages(rows, size, n - 1) + Window(rows, (n - 1) * size, size)
  }

  /** Reading the pages in order reads the rows in order, without gaps or repeats. */
  lemma {:induction false} PagesInOrder<T>(rows: seq<T>, size: nat, n: nat)
    ensures Pages(rows, size, n) == rows[..Least(n * size, |rows|)]
  {
    if n > 0 {
      PagesInOrder(rows, size, n - 1);
      assert (n - 1) * size + size == n * size;
      var a, b := Least((n - 1) * size, |rows|), Least(n * size, |rows|);
      assert rows[..a] + rows[a..b] == rows[..b];
    }
  }

  // ---------------------------------------------------------------- filters and orders

  /** `split_once(':')`. */
  function SplitOnce(s: string): (r: Option<(string, string)>)
    ensures r.Some? ==> s == r.value.0 + [':'] + r.value.1 && ':' !in r.value.0
    ensures r.None? ==> ':' !in s
  {
    if s == "" then None
    else if s[0] == ':' then Some(("", s[1..]))
    else
      match SplitOnce(s[1..])
      case None => None
      case Some((a, b)) => Some(([s[0]] + a, b))
  }

  datatype DataQuery =
    DataQuery(page: Option<u32>, pageSize: Option<u32>, sort: Option<string>, order: Option<string>,
              filter: Option<string>)

  datatype DataPage = DataPage(rows: seq<Row>, page: u32, pageSize: u32, total: nat)

  datatype Sort = Sort(column: string, ascending: bool)
  datatype Filter = Filter(column: string, needle: string)

  /** ClickHouse: the order in which a table is read, and what a filter matches. */
  datatype Engine = Engine(arrange: (multiset<Row>, Option<Sort>) -> seq<Row>, matches: (Row, Filter) -> bool)
  {
    /** Reading a table in any order reads its rows. */
    ghost predicate Faithful() {
      forall m, o :: multiset(arrange(m, o)) == m
    }
  }

  function Select(e: Engine, rows: seq<Row>, f: Option<Filter>): seq<Row> {
    if rows == [] then []
    else (if f.None? || e.matches(rows[0], f.value) then [rows[0]] else []) + Select(e, rows[1..], f)
  }

  /** The filter keeps or drops each row by itself, in place. */
  lemma {:induction false} SelectConcat(e: Engine, a: seq<Row>, b: seq<Row>, f: Option<Filter>)
    ensures Select(e, a + b, f) == Select(e, a, f) + Select(e, b, f)
  {
    if a == [] {
      assert a + b == b;
    } else {
      var x, rest := a[0], a[1..];
      assert a + b == [x] + (rest + b);
      SelectConcat(e, rest, b, f);
      SelectCons(e, x, rest, f);
      SelectCons(e, x, rest + b, f);
      assert a == [x] + rest;
    }
  }

  lemma SelectCons(e: Engine, x: Row, rest: seq<Row>, f: Option<Filter>)
    ensures Select(e, [x] + rest, f) == (if f.None? || e.matches(x, f.value) then [x] else []) + Select(e, rest, f)
  {
    assert ([x] + rest)[1..] == rest;
  }

  lemma {:induction false} SelectCounts(e: Engine, rows: seq<Row>, f: Option<Filter>, x: Row)
    ensures multiset(Select(e, rows, f))[x] == if f.None? || e.matches(x, f.value) then multiset(rows)[x] else 0
  {
    if rows != [] {
      SelectCounts(e, rows[1..], f, x);
      assert rows == [rows[0]] + rows[1..];
    }
  }

  /** How many rows a filter matches does not depend on the order they are read in. */
  lemma SelectSize(e: Engine, a: seq<Row>, b: seq<Row>, f: Option<Filter>)
    requires multiset(a) == multiset(b)
    ensures |Select(e, a, f)| == |Select(e, b, f)|
  {
    forall x ensures multiset(Select(e, a, f))[x] == multiset(Select(e, b, f))[x] {
      SelectCounts(e, a, f, x);
      SelectCounts(e, b, f, x);
    }
    assert multiset(Select(e, a, f)) == multiset(Select(e, b, f));
    assert |multiset(Select(e, a, f))| == |Select(e, a, f)| && |multiset(Select(e, b, f))| == |Select(e, b, f)|;
  }

  function SchemaColumns(row: JobRow): seq<string> {
    if row.schema.None? then [] else Named(row.schema.value)
  }

  function Named(columns: seq<Column>): (names: seq<string>)
    ensures |names| == |columns| && forall i :: 0 <= i < |columns| ==> names[i] == columns[i].name
  {
    seq(|columns|, i requires 0 <= i < |columns| => columns[i].name)
  }

  function ParseFilter(allowed: seq<string>, filter: Option<string>): Reply<Option<Filter>> {
    if filter.None? then Ok(None)
    else
      match SplitOnce(filter.value)
      case None => Err(FilterWithoutColon)
      case Some((column, needle)) =>
        if column in allowed then Ok(Some(Filter(column, needle))) else Err(UnknownColumn(column))
  }

  function ParseSort(allowed: seq<string>, sort: Option<string>, order: Option<string>): Reply<Option<Sort>> {
    if sort.None? then Ok(None)
    else if sort.value !in allowed then Err(UnknownColumn(sort.value))
    else
      var dir := ColumnTypes.Lower(if order.None? then "asc" else order.value);
      if dir == "asc" then Ok(Some(Sort(sort.value, true)))
      else if dir == "desc" then Ok(Some(Sort(sort.value, false)))
      else Err(BadOrder(dir))
  }

  lemma {:induction false} LowerReads(s: string, word: string)
    requires ColumnTypes.IsLower(word)
    ensures ColumnTypes.Lower(s) == word <==> ColumnTypes.ReadsLike(s, word)
  {
    ColumnTypes.LowerBegins(s, word);
  }

  /** A sort is ascending if no order is given or the order reads "asc" in any case, descending if it
      reads "desc", and on the column that was asked for, which must be one of the dataset's. */
  lemma SortExact(allowed: seq<string>, column: string, order: Option<string>)
    ensures ParseSort(allowed, Some(column), order) == Ok(Some(Sort(column, true))) <==>
              column in allowed && (order.None? || ColumnTypes.ReadsLike(order.value, "asc"))
    ensures ParseSort(allowed, Some(column), order) == Ok(Some(Sort(column, false))) <==>
              column in allowed && order.Some? && ColumnTypes.ReadsLike(order.value, "desc")
    ensures ParseSort(allowed, None, order) == Ok(None)
  {
    DefaultOrder();
    if order.Some? {
      LowerReads(order.value, "asc");
      LowerReads(order.value, "desc");
    }
  }

  /** A filter is on the column before the first colon, and for the whole text after it. */
  lemma FilterExact(allowed: seq<string>, column: string, needle: string)
    requires ':' !in column
    ensures ParseFilter(allowed, Some(column + ([':'] + needle))) ==
            if column in allowed then Ok(Some(Filter(column, needle))) else Err(UnknownColumn(column))
    ensures ParseFilter(allowed, None) == Ok(None)
  {
    SplitExact(column + ([':'] + needle), column, needle);
  }

  lemma DefaultOrder()
    ensures ColumnTypes.Lower("asc") == "asc"
  {
    assert "asc"[1..] == "sc" && "sc"[1..] == "c" && "c"[1..] == "";
    assert ColumnTypes.Lower("c") == "c";
    assert ColumnTypes.Lower("sc") == "sc";
  }

  // ---------------------------------------------------------------- the data endpoint

  /** The rows the request pages through. */
  function Listing(e: Engine, tables: map<string, Table>, name: string, o: Option<Sort>, f: Option<Filter>): seq<Row>
    requires name in tables
  {
    Select(e, e.arrange(tables[name].rows, o), f)
  }

  /** The answer to a valid request on a ready job: the window the page number and size ask for, cut
      from the filtered listing, and the size of what is paged through. */
  ghost predicate Served(e: Engine, row: JobRow, atPage: map<string, Table>, atCount: map<string, Table>,
                         q: DataQuery, p: DataPage)
    requires row.table.Some?
  {
    var f, o := ParseFilter(SchemaColumns(row), q.filter), ParseSort(SchemaColumns(row), q.sort, q.order);
    && p.page == PageNumber(q.page) && p.pageSize == PageSize(q.pageSize)
    && Offset(p.page, p.pageSize) <= MAX_OFFSET && f.Ok? && o.Ok? && row.table.value in atPage
    && p.rows == Window(Listing(e, atPage, row.table.value, o.value, f.value),
                        Offset(p.page, p.pageSize) as int, p.pageSize as int)
    && (if f.value.None? then p.total == (if row.rowCount.Some? then row.rowCount.value else 0)
        else row.table.value in atCount && p.total == |Listing(e, atCount, row.table.value, None, f.value)|)
  }

  // -- what can be wrong with a request, in the order in which the handler looks

  predicate Readable(s: State, j: Uuid, user: Uuid, admin: bool) {
    MaySee(s, j, user, admin) && s.jobs[j].status.Ready? && s.jobs[j].table.Some?
  }

  predicate TooDeep(q: DataQuery) {
    Offset(PageNumber(q.page), PageSize(q.pageSize)) > MAX_OFFSET
  }

  predicate NoColon(q: DataQuery) {
    q.filter.Some? && ':' !in q.filter.value
  }

  /** The filter names this column: it is what comes before the first colon. */
  ghost predicate FiltersOn(q: DataQuery, column: string) {
    q.filter.Some? && ':' !in column && exists needle :: q.filter.value == column + ([':'] + needle)
  }

  predicate KnownFilter(allowed: seq<string>, q: DataQuery) {
    q.filter.None? || (SplitOnce(q.filter.value).Some? && SplitOnce(q.filter.value).value.0 in allowed)
  }

  predicate KnownSort(allowed: seq<string>, q: DataQuery) {
    q.sort.None? || q.sort.value in allowed
  }

  predicate KnownOrder(q: DataQuery) {
    q.sort.None? || q.order.None? || ColumnTypes.Lower(q.order.value) in ["asc", "desc"]
  }

  predicate Valid(allowed: seq<string>, q: DataQuery) {
    !TooDeep(q) && KnownFilter(allowed, q) && KnownSort(allowed, q) && KnownOrder(q)
  }

  /** ClickHouse answers the page query, and the count query if there is one. */
  predicate Reachable(table: string, atPage: map<string, Table>, atCount: map<string, Table>, q: DataQuery,
                      up: (bool, bool)) {
    up.0 && table in atPage && (q.filter.None? || (up.1 && table in atCount))
  }

  lemma SplitExact(s: string, column: string, needle: string)
    requires ':' !in column && s == column + ([':'] + needle)
    ensures SplitOnce(s) == Some((column, needle))
  {
    assert s[|column|] == ':';
    var (a, b) := SplitOnce(s).value;
    assert s == a + ([':'] + b);
    assert s[|a|] == ':';
    assert forall i :: 0 <= i < |column| ==> s[i] == column[i] && column[i] != ':';
    assert forall i :: 0 <= i < |a| ==> s[i] == a[i] && a[i] != ':';
    assert s[..|column|] == column && s[..|a|] == a;
    assert s[|column| + 1..] == needle && s[|a| + 1..] == b;
  }

  /** The filter names exactly the column it is split at. */
  lemma FiltersOnExact(q: DataQuery, column: string)
    ensures FiltersOn(q, column) <==>
            q.filter.Some? && SplitOnce(q.filter.value).Some? && SplitOnce(q.filter.value).value.0 == column
  {
    if FiltersOn(q, column) {
      var needle :| q.filter.value == column + ([':'] + needle);
      SplitExact(q.filter.value, column, needle);
    } else if q.filter.Some? && SplitOnce(q.filter.value).Some? {
      var (a, b) := SplitOnce(q.filter.value).value;
      assert q.filter.value == a + ([':'] + b);
    }
  }

  /** The job row is read in `s`; the page and the count are queried against the tables as they are
      then. `up` says whether ClickHouse answers the two queries. Every answer has exactly one reason:
      a request that is valid on a readable job is answered whenever ClickHouse answers. */
  method GetData(e: Engine, s: State, atPage: map<string, Table>, atCount: map<string, Table>, j: Uuid, user: Uuid,
                 admin: bool, q: DataQuery, up: (bool, bool)) returns (r: Reply<DataPage>)
    ensures r == Err(JobNotFound) <==> j !in s.jobs || (!admin && s.jobs[j].user != user)
    ensures r.Err? && r.error.NotReady? <==> MaySee(s, j, user, admin) && !s.jobs[j].status.Ready?
    ensures r.Err? && r.error.NotReady? ==> r.error.status == s.jobs[j].status
    ensures r == Err(NoTable) <==> MaySee(s, j, user, admin) && s.jobs[j].status.Ready? && s.jobs[j].table.None?
    ensures r != Err(DashboardNotYet)
    ensures r.Err? && r.error.PageTooLarge? <==> Readable(s, j, user, admin) && TooDeep(q)
    ensures r.Err? && r.error.PageTooLarge? ==> r.error.offset == Offset(PageNumber(q.page), PageSize(q.pageSize))
    ensures r == Err(FilterWithoutColon) <==> Readable(s, j, user, admin) && !TooDeep(q) && NoColon(q)
    ensures forall name :: r == Err(UnknownColumn(name)) <==>
              Readable(s, j, user, admin) && !TooDeep(q) && !NoColon(q) && name !in SchemaColumns(s.jobs[j]) &&
              (FiltersOn(q, name) || (KnownFilter(SchemaColumns(s.jobs[j]), q) && q.sort == Some(name)))
    ensures forall dir :: r == Err(BadOrder(dir)) <==>
              Readable(s, j, user, admin) && !TooDeep(q) && KnownFilter(SchemaColumns(s.jobs[j]), q) &&
              KnownSort(SchemaColumns(s.jobs[j]), q) && !KnownOrder(q) && dir == ColumnTypes.Lower(q.order.value)
    ensures r.Ok? || r == Err(QueryFailed) <==> Readable(s, j, user, admin) && Valid(SchemaColumns(s.jobs[j]), q)
    ensures r.Ok? ==> Reachable(s.jobs[j].table.value, atPage, atCount, q, up)
    ensures r == Err(QueryFailed) ==> !Reachable(s.jobs[j].table.value, atPage, atCount, q, up)
    ensures r.Ok? ==> Served(e, s.jobs[j], atPage, atCount, q, r.value)
    ensures r.Ok? ==> r.value.page == if q.page.Some? && q.page.value > 0 then q.page.value else 1
    ensures r.Ok? ==> Clamped(q.pageSize, r.value.pageSize) && Offset(r.value.page, r.value.pageSize) <= 1_000_000
    ensures r.Err? && r.error.PageTooLarge? ==> r.error.offset > 1_000_000
  {
    if !MaySee(s, j, user, admin) {
      return Err(JobNotFound);
    }
    var job := s.jobs[j];
    if !job.status.Ready? {
      return Err(NotReady(job.status));
    }
    if job.table.None? {
      return Err(NoTable);
    }
    var allowed := SchemaColumns(job);
    var page, pageSize := PageNumber(q.page), PageSize(q.pageSize);
    var offset := Offset(page, pageSize);
    if offset > MAX_OFFSET {
      return Err(PageTooLarge(offset));
    }
    forall name ensures FiltersOn(q, name) <==>
        q.filter.Some? && SplitOnce(q.filter.value).Some? && SplitOnce(q.filter.value).value.0 == name
    {
      FiltersOnExact(q, name);
    }
    DefaultOrder();
    var where := ParseFilter(allowed, q.filter);
    if where.Err? {
      return Err(where.error);
    }
    var orderBy := ParseSort(allowed, q.sort, q.order);
    if orderBy.Err? {
      return Err(orderBy.error);
    }
    if !up.0 || job.table.value !in atPage {
      return Err(QueryFailed);
    }
    var rows := Window(Listing(e, atPage, job.table.value, orderBy.value, where.value), offset as int, pageSize as int);
    var total: nat;
    if where.value.None? {
      total := if job.rowCount.Some? then job.rowCount.value else 0;
    } else {
      if !up.1 || job.table.value !in atCount {
        return Err(QueryFailed);
      }
      total := |Listing(e, atCount, job.table.value, None, where.value)|;
    }
    return Ok(DataPage(rows, page, pageSize, total));
  }

  /** A ready job always has a table to read. */
  lemma TableServed(n: nat, es: seq<Event>, s: State, j: Uuid)
    requires n >= 1 && Run(n, INIT, es, s) && j in s.jobs && s.jobs[j].status.Ready?
    ensures s.jobs[j].table == Some(DatasetTableName(s.jobs[j].user, j))
    ensures var columns := s.jobs[j].source.columns;
            && columns != [] && |SchemaColumns(s.jobs[j])| == |columns|
            && forall i :: 0 <= i < |columns| ==> SchemaColumns(s.jobs[j])[i] == columns[i].name
  {
    assert Run(n, s, [], s);
    ReadyIsComplete(n, es, s, [], s, j);
  }

  lemma {:induction false} SelectAll(e: Engine, rows: seq<Row>)
    ensures Select(e, rows, None) == rows
  {
    if rows != [] {
      SelectAll(e, rows[1..]);
    }
  }

  /** While deliveries of a job do not overlap and its database calls are calm, the total of every
      answer is the number of rows its pages run through, filtered or not, whatever happens between
      reading the job and the two queries. */
  lemma TotalAgrees(e: Engine, n: nat, es: seq<Event>, s: State, es1: seq<Event>, atPage: State, es2: seq<Event>,
                    atCount: State,
                    j: Uuid, q: DataQuery, p: DataPage)
    requires e.Faithful() && n >= 1 && SoloRun(n, INIT, es, s, j, true)
    requires SoloRun(n, s, es1, atPage, j, true) && SoloRun(n, s, es2, atCount, j, true)
    requires j in s.jobs && s.jobs[j].status.Ready? && s.jobs[j].table.Some?
    requires Served(e, s.jobs[j], atPage.tables, atCount.tables, q, p)
    ensures var row := s.jobs[j];
            var f, o := ParseFilter(SchemaColumns(row), q.filter), ParseSort(SchemaColumns(row), q.sort, q.order);
            p.total == |Listing(e, atPage.tables, row.table.value, o.value, f.value)|
  {
    var row := s.jobs[j];
    var f, o := ParseFilter(SchemaColumns(row), q.filter), ParseSort(SchemaColumns(row), q.sort, q.order);
    ReadyTable(n, es, s, es1, atPage, j);
    ReadyTable(n, es, s, es2, atCount, j);
    var rows := s.tables[row.table.value].rows;
    var listed := e.arrange(rows, o.value);
    assert multiset(listed) == rows == multiset(e.arrange(rows, None));
    if f.value.None? {
      SelectAll(e, listed);
      assert |multiset(listed)| == |listed|;
    } else {
      SelectSize(e, listed, e.arrange(rows, None), f.value);
    }
  }

  lemma ReadyTable(n: nat, es: seq<Event>, s: State, later: seq<Event>, t: State, j: Uuid)
    requires n >= 1 && SoloRun(n, INIT, es, s, j, true) && SoloRun(n, s, later, t, j, true)
    requires j in s.jobs && s.jobs[j].status.Ready? && s.jobs[j].table.Some?
    ensures var name := s.jobs[j].table.value;
            name in s.tables && name in t.tables && t.tables[name] == s.tables[name]
            && s.jobs[j].rowCount == Some(|s.tables[name].rows|)
  {
    CalmIsSolo(n, INIT, es, s, j);
    StoresAgree(n, es, s, j);
    ReadyStaysReady(n, es, s, later, t, j);
  }

  lemma {:induction false} CalmIsSolo(n: nat, s: State, es: seq<Event>, t: State, j: Uuid)
    requires SoloRun(n, s, es, t, j, true)
    ensures SoloRun(n, s, es, t, j, false)
    decreases |es|
  {
    if es != [] {
      CalmIsSolo(n, Apply(n, s, es[0]), es[1..], t, j);
    }
  }
}
