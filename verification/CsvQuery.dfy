/** Reading a dataset: rows of every version shown under the newest schema, filtered, paged,
    counted and summed. */
module CsvQuery {
  import opened Text
  import opened Decimals
  import opened DecimalSums
  import opened CsvFields
  import opened CsvStore
  import opened CsvAppend
  import opened CsvLedger
  import opened CsvInvariant
  import opened CsvPreserve
  import opened CsvSteps

  const MAX_QUERY_ROWS: nat := 100
  const MAX_QUERY_FILTERS: nat := 5

  /** What a query shows of a row. */
  datatype Shown = Shown(eventId: string, createdAt: string, actorName: string, fields: map<string, Value>)

  /** `_public_row`. */
  function ShowRow(cal: Calendar, row: Row, own: seq<Field>, latest: seq<Field>): Result<Shown, Reason> {
    match VisibleRow(cal, row, own, latest)
    case Err(e) => Err(e)
    case Ok(fields) => Ok(Shown(row.eventId, row.createdAt, row.actorName, fields))
  }

  function ShowRows(cal: Calendar, rows: seq<Row>, own: seq<Field>, latest: seq<Field>): Result<seq<Shown>, Reason> {
    if rows == [] then Ok([])
    else
      match ShowRows(cal, rows[..|rows| - 1], own, latest)
      case Err(e) => Err(e)
      case Ok(done) =>
        match ShowRow(cal, rows[|rows| - 1], own, latest)
        case Err(e) => Err(e)
        case Ok(s) => Ok(done + [s])
  }

  /** The rows of the first n versions, in stored order, under the newest fields. */
  function ShowVersions(env: Env, g: Group, csvId: string, schemas: seq<Schema>, latest: seq<Field>)
    : Result<seq<Shown>, Reason>
  {
    if schemas == [] then Ok([])
    else
      match ShowVersions(env, g, csvId, schemas[..|schemas| - 1], latest)
      case Err(e) => Err(e)
      case Ok(done) =>
        var s := schemas[|schemas| - 1];
        match ReadRows(env, g, csvId, s.version, s.fields)
        case Err(e) => Err(e)
        case Ok(rows) =>
          match ShowRows(env.cal, rows, s.fields, latest)
          case Err(e) => Err(e)
          case Ok(shown) => Ok(done + shown)
  }

  // ---------------------------------------------------------------- order

  predicate KeyLess(a: Shown, b: Shown) {
    TextLess(a.createdAt, b.createdAt) || (a.createdAt == b.createdAt && TextLess(a.eventId, b.eventId))
  }

  /** Insert after every row that does not come later: equal keys keep their order. */
  function Insert(rows: seq<Shown>, r: Shown): seq<Shown> {
    if rows == [] || !KeyLess(r, rows[|rows| - 1]) then rows + [r]
    else Insert(rows[..|rows| - 1], r) + [rows[|rows| - 1]]
  }

  /** The stable sort by creation time, then event id. */
  function SortRows(rows: seq<Shown>): seq<Shown> {
    if rows == [] then [] else Insert(SortRows(rows[..|rows| - 1]), rows[|rows| - 1])
  }

  predicate Sorted(rows: seq<Shown>) {
    forall i, j :: 0 <= i < j < |rows| ==> !KeyLess(rows[j], rows[i])
  }

  lemma {:induction false} TextLessAsymmetric(a: string, b: string)
    ensures !(TextLess(a, b) && TextLess(b, a))
  {
    if a != [] && b != [] { TextLessAsymmetric(a[1..], b[1..]); }
  }

  lemma {:induction false} TextLessConnected(a: string, b: string)
    ensures TextLess(a, b) || TextLess(b, a) || a == b
  {
    if a != [] && b != [] {
      TextLessConnected(a[1..], b[1..]);
      assert a == [a[0]] + a[1..] && b == [b[0]] + b[1..];
    }
  }

  lemma {:induction false} TextLessTransitive(a: string, b: string, c: string)
    requires TextLess(a, b) && TextLess(b, c)
    ensures TextLess(a, c)
  {
    if a != [] && a[0] == b[0] && b[0] == c[0] { TextLessTransitive(a[1..], b[1..], c[1..]); }
  }

  lemma KeyLessAsymmetric(a: Shown, b: Shown)
    ensures !(KeyLess(a, b) && KeyLess(b, a))
  {
    hide TextLess;
    TextLessAsymmetric(a.createdAt, b.createdAt);
    TextLessAsymmetric(a.eventId, b.eventId);
  }

  /** Not-later is transitive: the key order is a total order. */
  lemma NotLaterTransitive(a: Shown, b: Shown, c: Shown)
    requires !KeyLess(b, a) && !KeyLess(c, b)
    ensures !KeyLess(c, a)
  {
    hide TextLess;
    TextNotLater(a.createdAt, b.createdAt, c.createdAt);
    TextNotLater(a.eventId, b.eventId, c.eventId);
    TextLessConnected(a.createdAt, b.createdAt);
    TextLessConnected(b.createdAt, c.createdAt);
    TextLessAsymmetric(a.createdAt, b.createdAt);
    TextLessAsymmetric(b.createdAt, c.createdAt);
    TextLessAsymmetric(a.createdAt, c.createdAt);
    if TextLess(a.createdAt, b.createdAt) && TextLess(b.createdAt, c.createdAt) {
      TextLessTransitive(a.createdAt, b.createdAt, c.createdAt);
    }
  }

  lemma TextNotLater(a: string, b: string, c: string)
    ensures !TextLess(b, a) && !TextLess(c, b) ==> !TextLess(c, a)
  {
    hide TextLess;
    TextLessConnected(a, b);
    TextLessConnected(b, c);
    TextLessAsymmetric(a, c);
    if TextLess(a, b) && TextLess(b, c) { TextLessTransitive(a, b, c); }
  }

  lemma {:induction false} InsertKeeps(rows: seq<Shown>, r: Shown)
    ensures multiset(Insert(rows, r)) == multiset(rows) + multiset{r}
  {
    hide KeyLess;
    if rows != [] && KeyLess(r, rows[|rows| - 1]) {
      InsertKeeps(rows[..|rows| - 1], r);
      assert rows == rows[..|rows| - 1] + [rows[|rows| - 1]];
    }
  }

  lemma SortedSnoc(rows: seq<Shown>, r: Shown)
    requires Sorted(rows) && (rows != [] ==> !KeyLess(r, rows[|rows| - 1]))
    ensures Sorted(rows + [r])
  {
    hide KeyLess;
    forall i | 0 <= i < |rows|
      ensures !KeyLess(r, rows[i])
    {
      if i < |rows| - 1 { NotLaterTransitive(rows[i], rows[|rows| - 1], r); }
    }
  }

  lemma {:induction false} InsertSorts(rows: seq<Shown>, r: Shown)
    requires Sorted(rows)
    ensures Sorted(Insert(rows, r)) && Insert(rows, r) != []
    ensures var last := Insert(rows, r)[|Insert(rows, r)| - 1]; last == r || (rows != [] && last == rows[|rows| - 1])
  {
    hide KeyLess;
    if rows == [] || !KeyLess(r, rows[|rows| - 1]) {
      SortedSnoc(rows, r);
    } else {
      var init, last := rows[..|rows| - 1], rows[|rows| - 1];
      InsertSorts(init, r);
      KeyLessAsymmetric(r, last);
      SortedSnoc(Insert(init, r), last);
    }
  }

  /** Sorting permutes the rows and puts them in order. */
  lemma {:induction false} SortRowsSorts(rows: seq<Shown>)
    ensures Sorted(SortRows(rows)) && multiset(SortRows(rows)) == multiset(rows)
  {
    hide Insert, KeyLess;
    if rows == [] {
    } else {
      var init, last := rows[..|rows| - 1], rows[|rows| - 1];
      SortRowsSorts(init);
      InsertSorts(SortRows(init), last);
      InsertKeeps(SortRows(init), last);
      assert rows == init + [last];
    }
  }

  // ---------------------------------------------------------------- the query

  datatype Query = Query(csvId: string, filters: seq<(string, Value)>, offset: int, limit: int, count: bool,
                         sumField: string)

  datatype Answered = Answered(rows: seq<Shown>, hasMore: bool, count: Option<nat>, sum: Option<string>)

  /** `_logical_rows`. */
  function LogicalRows(env: Env, g: Group, d: Dataset): Result<seq<Shown>, Reason> {
    match LoadSchemas(env, g, d, d.latest)
    case Err(e) => Err(e)
    case Ok(schemas) =>
      match ShowVersions(env, g, d.csvId, schemas, FieldsAt(env, g, d.csvId, d.latest))
      case Err(e) => Err(e)
      case Ok(rows) => Ok(SortRows(rows))
  }

  function FieldNamed(fields: seq<Field>, name: string): Option<Field> {
    if fields == [] then None
    else if fields[|fields| - 1].name == name then Some(fields[|fields| - 1])
    else FieldNamed(fields[..|fields| - 1], name)
  }

  /** What one equality filter compares with. */
  function FilterValue(cal: Calendar, fields: seq<Field>, name: string, v: Value): Result<Value, Reason> {
    if name == "_event_id" then (if IsHexId(EventIdText(v)) then Ok(Str(EventIdText(v))) else Err(EventIdInvalid))
    else
      match FieldNamed(fields, name)
      case None => if NameOk(name) then Ok(v) else Err(FieldNameInvalid)
      case Some(f) =>
        match CanonField(cal, Optional(f), v)
        case Err(e) => Err(e)
        case Ok(t) => Ok(PublicValue(f.ftype, t))
  }

  function NormalizeFilters(cal: Calendar, fields: seq<Field>, filters: seq<(string, Value)>)
    : Result<seq<(string, Value)>, Reason>
  {
    if filters == [] then Ok([])
    else
      match NormalizeFilters(cal, fields, filters[..|filters| - 1])
      case Err(e) => Err(e)
      case Ok(done) =>
        var (name, v) := filters[|filters| - 1];
        match FilterValue(cal, fields, name, v)
        case Err(e) => Err(e)
        case Ok(w) => Ok(done + [(name, w)])
  }

  /** `==` on JSON values is Python's, across numbers and booleans; it is left to the caller. */
  predicate Matches(same: (Value, Value) -> bool, r: Shown, filters: seq<(string, Value)>) {
    forall i :: 0 <= i < |filters| ==>
      same(if filters[i].0 == "_event_id" then Str(r.eventId) else Get(r.fields, filters[i].0), filters[i].1)
  }

  function Matched(same: (Value, Value) -> bool, rows: seq<Shown>, filters: seq<(string, Value)>): seq<Shown> {
    if rows == [] then []
    else
      Matched(same, rows[..|rows| - 1], filters)
      + (if Matches(same, rows[|rows| - 1], filters) then [rows[|rows| - 1]] else [])
  }

  function Min(a: int, b: int): int { if a < b then a else b }

  function Page(rows: seq<Shown>, offset: nat, limit: nat): seq<Shown> {
    rows[Min(offset, |rows|)..Min(offset + limit, |rows|)]
  }

  predicate HasMore(rows: seq<Shown>, offset: nat, limit: nat) { offset + |Page(rows, offset, limit)| < |rows| }

  /** The declared numbers of one field, in row order. */
  function Numbers(rows: seq<Shown>, field: string): seq<Dec> {
    if rows == [] then []
    else
      var v := Get(rows[|rows| - 1].fields, field);
      Numbers(rows[..|rows| - 1], field)
      + (if v == Null then [] else [match ParseDec(Strip(PyStr(v))) case Some(d) => d case None => ZERO])
  }

  function SumOf(fields: seq<Field>, rows: seq<Shown>, sumField: string): Result<Option<string>, Reason> {
    if Strip(sumField) == "" then Ok(None)
    else
      match FieldNamed(fields, Strip(sumField))
      case None => Err(SumFieldInvalid)
      case Some(f) =>
        if !f.ftype.DecimalType? then Err(SumFieldInvalid)
        else
          match CanonDec(SumCtx(Numbers(rows, Strip(sumField))))
          case None => Err(NotDecimal)
          case Some(t) => Ok(Some(t))
  }

  /** All rows that pass the filters. */
  function MatchedRows(env: Env, same: (Value, Value) -> bool, g: Group, d: Dataset, filters: seq<(string, Value)>)
    : Result<seq<Shown>, Reason>
  {
    match LogicalRows(env, g, d)
    case Err(e) => Err(e)
    case Ok(rows) =>
      match NormalizeFilters(env.cal, FieldsAt(env, g, d.csvId, d.latest), filters)
      case Err(e) => Err(e)
      case Ok(normalized) => Ok(Matched(same, rows, normalized))
  }

  /** `query`, on the dataset it names. */
  function QueryDataset(env: Env, same: (Value, Value) -> bool, g: Group, d: Dataset, q: Query)
    : Result<Answered, Reason>
    requires q.offset >= 0 && q.limit >= 1
  {
    match MatchedRows(env, same, g, d, q.filters)
    case Err(e) => Err(e)
    case Ok(matched) =>
      match SumOf(FieldsAt(env, g, d.csvId, d.latest), matched, q.sumField)
      case Err(e) => Err(e)
      case Ok(sum) =>
        Ok(Answered(Page(matched, q.offset, q.limit), HasMore(matched, q.offset, q.limit),
                    if q.count then Some(|matched|) else None, sum))
  }

  /** `query`, under the shared group lock. */
  function RunQuery(env: Env, same: (Value, Value) -> bool, g: Group, q: Query): Result<Answered, Reason> {
    if !IsHexId(CleanId(q.csvId)) then Err(CsvIdInvalid)
    else if |q.filters| > MAX_QUERY_FILTERS || q.offset < 0 || !(1 <= q.limit <= MAX_QUERY_ROWS) then Err(QueryInvalid)
    else
      match ReadLogical(env, g)
      case Err(e) => Err(e)
      case Ok(logical) =>
        if CleanId(q.csvId) !in logical then Err(CsvIdUnknown)
        else QueryDataset(env, same, g, logical[CleanId(q.csvId)], q)
  }

  // ---------------------------------------------------------------- coherence

  /** A shown row stands for a stored one of a version of the dataset. */
  predicate ShowsRow(s: Shown, r: Row) {
    s.eventId == r.eventId && s.createdAt == r.createdAt && s.actorName == r.actorName
  }

  predicate ShowsAll(shown: seq<Shown>, rows: seq<Row>) {
    |shown| == |rows| && forall i :: 0 <= i < |rows| ==> ShowsRow(shown[i], rows[i])
  }

  lemma {:induction false} ShowRowsOk(cal: Calendar, rows: seq<Row>, own: seq<Field>, latest: seq<Field>)
    requires RowsProject(cal, rows, Names(own), latest) && Names(own) <= Names(latest)
    requires forall r :: r in rows ==> RowFits(r, own)
    ensures ShowRows(cal, rows, own, latest).Ok? && ShowsAll(ShowRows(cal, rows, own, latest).value, rows)
  {
    hide Projects, VisibleRow, RowFits, Names;
    if rows == [] {
    } else {
      var init, last := rows[..|rows| - 1], rows[|rows| - 1];
      assert forall r :: r in init ==> r in rows;
      assert last in rows;
      ShowRowsOk(cal, init, own, latest);
      RowShows(cal, last, own, latest);
    }
  }

  lemma VersionRowsFit(env: Env, g: Group, csvId: string, n: nat, hash: string)
    requires VersionOk(env, g, csvId, n, hash)
    ensures forall r :: r in RowsOf(g, csvId, n) ==> RowFits(r, FieldsAt(env, g, csvId, n))
    ensures ReadRows(env, g, csvId, n, FieldsAt(env, g, csvId, n)) == Ok(RowsOf(g, csvId, n))
  {
    hide LoadSchema, ReadRows, RowsOf, Distinct, RowFits, Seeded;
    RowsOfVersion(env, g, csvId, n, LoadSchema(env, g, csvId, n).value.fields);
  }

  lemma {:induction false} NamesGrow(env: Env, g: Group, d: Dataset, n: nat, m: nat)
    requires 1 <= n <= m <= |d.events| && ChainOk(env, g, d, m)
    ensures Names(FieldsAt(env, g, d.csvId, n)) <= Names(FieldsAt(env, g, d.csvId, m))
    decreases m
  {
    hide VersionOk, FieldsAt, Names, LEDGER_FIELDS;
    if n == m {
    } else {
      NamesGrow(env, g, d, n, m - 1);
      var a, b := FieldsAt(env, g, d.csvId, m - 1), FieldsAt(env, g, d.csvId, m);
      assert b == a + b[|a|..];
      NamesConcat(a, b[|a|..]);
    }
  }

  /** One more version of rows, shown behind the others. */
  lemma ShowVersionsSnoc(env: Env, g: Group, csvId: string, schemas: seq<Schema>, s: Schema, latest: seq<Field>,
                         done: seq<Shown>, rows: seq<Row>, shown: seq<Shown>)
    requires ShowVersions(env, g, csvId, schemas, latest) == Ok(done)
    requires ReadRows(env, g, csvId, s.version, s.fields) == Ok(rows)
    requires ShowRows(env.cal, rows, s.fields, latest) == Ok(shown)
    ensures ShowVersions(env, g, csvId, schemas + [s], latest) == Ok(done + shown)
  {
    hide ReadRows, ShowRows;
    assert (schemas + [s])[..|schemas|] == schemas;
  }

  lemma ShowsBoth(a: seq<Shown>, x: seq<Row>, b: seq<Shown>, y: seq<Row>)
    requires ShowsAll(a, x) && ShowsAll(b, y)
    ensures ShowsAll(a + b, x + y)
  {
    hide ShowsRow;
  }

  /** The rows of one version show under the newest schema. */
  lemma OneVersionShows(env: Env, g: Group, d: Dataset, n: nat, latest: seq<Field>)
    requires 1 <= n <= |d.events| && VersionOk(env, g, d.csvId, n, d.events[n - 1].schemaHash)
    requires Names(FieldsAt(env, g, d.csvId, n)) <= Names(latest)
    requires RowsProject(env.cal, RowsOf(g, d.csvId, n), Names(FieldsAt(env, g, d.csvId, n)), latest)
    ensures ReadRows(env, g, d.csvId, n, FieldsAt(env, g, d.csvId, n)) == Ok(RowsOf(g, d.csvId, n))
    ensures var shown := ShowRows(env.cal, RowsOf(g, d.csvId, n), FieldsAt(env, g, d.csvId, n), latest);
            shown.Ok? && ShowsAll(shown.value, RowsOf(g, d.csvId, n))
  {
    hide VersionOk, FieldsAt, ReadRows, Names, RowsOf, RowsProject, ShowRows, RowFits, ShowsAll;
    VersionRowsFit(env, g, d.csvId, n, d.events[n - 1].schemaHash);
    ShowRowsOk(env.cal, RowsOf(g, d.csvId, n), FieldsAt(env, g, d.csvId, n), latest);
  }

  lemma ProjectsAt(env: Env, g: Group, csvId: string, n: nat, latest: seq<Field>)
    requires n >= 1 && AllProject(env, g, csvId, n, latest)
    ensures AllProject(env, g, csvId, n - 1, latest)
    ensures RowsProject(env.cal, RowsOf(g, csvId, n), Names(FieldsAt(env, g, csvId, n)), latest)
  {
    hide RowsProject, RowsOf, Names, FieldsAt;
  }

  /** Every stored row of every version can be shown under the newest schema, in stored order. */
  lemma {:induction false} ShowVersionsOk(env: Env, g: Group, d: Dataset, n: nat)
    requires n <= d.latest <= |d.events| && ChainOk(env, g, d, d.latest)
    requires AllProject(env, g, d.csvId, n, FieldsAt(env, g, d.csvId, d.latest))
    ensures LoadSchemas(env, g, d, n).Ok? && AllRows(env, g, d.csvId, n).Ok?
    ensures var shown :=
            ShowVersions(env, g, d.csvId, LoadSchemas(env, g, d, n).value, FieldsAt(env, g, d.csvId, d.latest));
            shown.Ok? && ShowsAll(shown.value, AllRows(env, g, d.csvId, n).value)
  {
    hide ChainOk, AllProject, FieldsAt, LoadSchemas, AllRows, ShowVersions, ShowsAll, VersionOk, ReadRows, RowsOf,
         ShowRows, RowsProject, Names, LoadSchema, Extends, LEDGER_FIELDS;
    var latest := FieldsAt(env, g, d.csvId, d.latest);
    ChainPrefix(env, g, d, n, d.latest);
    ChainReads(env, g, d, n);
    if n == 0 {
      NothingShownYet(env, g, d, latest);
    } else {
      ProjectsAt(env, g, d.csvId, n, latest);
      ShowVersionsOk(env, g, d, n - 1);
      SchemaPrefix(env, g, d, n);
      ChainAt(env, g, d, n, d.latest);
      NamesGrow(env, g, d, n, d.latest);
      OneVersionShows(env, g, d, n, latest);
      var schemas, rows := LoadSchemas(env, g, d, n - 1).value, RowsOf(g, d.csvId, n);
      var done := ShowVersions(env, g, d.csvId, schemas, latest).value;
      var shown := ShowRows(env.cal, rows, FieldsAt(env, g, d.csvId, n), latest).value;
      ShowVersionsSnoc(env, g, d.csvId, schemas, LoadSchema(env, g, d.csvId, n).value, latest, done, rows, shown);
      ShowsBoth(done, AllRows(env, g, d.csvId, n - 1).value, shown, rows);
    }
  }

  lemma NothingShownYet(env: Env, g: Group, d: Dataset, latest: seq<Field>)
    ensures LoadSchemas(env, g, d, 0) == Ok([]) && AllRows(env, g, d.csvId, 0) == Ok([])
    ensures ShowVersions(env, g, d.csvId, [], latest) == Ok([]) && ShowsAll([], [])
  {
  }

  lemma SchemaPrefix(env: Env, g: Group, d: Dataset, n: nat)
    requires n > 0 && LoadSchemas(env, g, d, n).Ok?
    ensures LoadSchemas(env, g, d, n - 1).Ok?
    ensures LoadSchema(env, g, d.csvId, n).Ok?
    ensures LoadSchemas(env, g, d, n).value
         == LoadSchemas(env, g, d, n - 1).value + [LoadSchema(env, g, d.csvId, n).value]
    ensures LoadSchema(env, g, d.csvId, n).value.version == n
    ensures LoadSchema(env, g, d.csvId, n).value.fields == FieldsAt(env, g, d.csvId, n)
  {
  }

  /** No stored row ever blocks a reader: the logical rows exist, sorted, and are a permutation
      of all stored rows shown under the newest schema. */
  lemma LogicalRowsCoherent(env: Env, g: Group, d: Dataset)
    requires DatasetOk(env, g, d.csvId, d)
    ensures LoadSchemas(env, g, d, d.latest).Ok? && AllRows(env, g, d.csvId, d.latest).Ok?
    ensures var shown := ShowVersions(env, g, d.csvId, LoadSchemas(env, g, d, d.latest).value,
                                      FieldsAt(env, g, d.csvId, d.latest));
            shown.Ok? && ShowsAll(shown.value, AllRows(env, g, d.csvId, d.latest).value)
            && LogicalRows(env, g, d).Ok? && Sorted(LogicalRows(env, g, d).value)
            && multiset(LogicalRows(env, g, d).value) == multiset(shown.value)
  {
    hide ChainOk, AllProject, FieldsAt, ShowVersions, LedgerFilesOk, SortRows, LoadSchemas, AllRows, Sorted;
    ShowVersionsOk(env, g, d, d.latest);
    SortRowsSorts(ShowVersions(env, g, d.csvId, LoadSchemas(env, g, d, d.latest).value,
                               FieldsAt(env, g, d.csvId, d.latest)).value);
  }

  /** In every reachable workspace the rows of every dataset can be read. */
  lemma ReachableRowsReadable(env: Env, groups: Groups, calls: seq<Call>, key: string, csvId: string)
    requires CollisionFree(env) && AllOk(env, groups)
    requires key in Run(env, groups, calls)
    requires var g := Run(env, groups, calls)[key]; Replay(CatalogOf(g)).Ok? && csvId in Replay(CatalogOf(g)).value
    ensures var g := Run(env, groups, calls)[key];
            var d := Replay(CatalogOf(g)).value[csvId];
            LogicalRows(env, g, d).Ok? && AllRows(env, g, csvId, d.latest).Ok?
            && |LogicalRows(env, g, d).value| == |AllRows(env, g, csvId, d.latest).value|
  {
    hide GroupOk, Run, Replay, CatalogOf, LogicalRows, ShowVersions, FieldsAt, LoadSchemas, CollisionFree, DatasetOk;
    RunKeeps(env, groups, calls);
    var g := Run(env, groups, calls)[key];
    var d := Replay(CatalogOf(g)).value[csvId];
    LogicalBounds(env, g, csvId);
    LogicalRowsCoherent(env, g, d);
    var shown :=
        ShowVersions(env, g, csvId, LoadSchemas(env, g, d, d.latest).value, FieldsAt(env, g, csvId, d.latest)).value;
    SameSize(LogicalRows(env, g, d).value, shown);
  }

  lemma SameSize(a: seq<Shown>, b: seq<Shown>)
    requires multiset(a) == multiset(b)
    ensures |a| == |b|
  {
    assert |multiset(a)| == |a| && |multiset(b)| == |b|;
  }

  // ---------------------------------------------------------------- filters

  /** Filtering keeps exactly the rows that pass every filter, as often as they occur, in order. */
  lemma {:induction false} MatchedExactly(same: (Value, Value) -> bool, rows: seq<Shown>, filters: seq<(string, Value)>)
    ensures var kept := Matched(same, rows, filters);
            (forall r :: multiset(kept)[r] == if Matches(same, r, filters) then multiset(rows)[r] else 0)
            && (forall r :: r in kept ==> r in rows)
            && (Sorted(rows) ==> Sorted(kept))
  {
    hide Matches, Sorted, KeyLess;
    if rows == [] {
      assert Sorted([]) by { NothingToSort(); }
    } else {
      var n := |rows| - 1;
      assert rows == rows[..n] + [rows[n]];
      MatchedExactly(same, rows[..n], filters);
      var kept := Matched(same, rows[..n], filters);
      if Sorted(rows) {
        SortedFront(rows);
        LastIsLatest(kept, rows);
      }
      if !Matches(same, rows[n], filters) { assert kept + [] == kept; }
    }
  }

  lemma NothingToSort()
    ensures Sorted([])
  {
  }

  lemma SortedFront(rows: seq<Shown>)
    requires Sorted(rows) && rows != []
    ensures Sorted(rows[..|rows| - 1])
  {
  }

  lemma LastIsLatest(kept: seq<Shown>, rows: seq<Shown>)
    requires Sorted(rows) && rows != [] && Sorted(kept) && forall r :: r in kept ==> r in rows[..|rows| - 1]
    ensures Sorted(kept + [rows[|rows| - 1]])
  {
    hide KeyLess;
    forall i | 0 <= i < |kept|
      ensures !KeyLess(rows[|rows| - 1], kept[i])
    {
      assert kept[i] in kept;
      assert kept[i] in rows[..|rows| - 1];
    }
  }

  // ---------------------------------------------------------------- pages

  /** What a client collects by asking again at the next offset while there is more. */
  function Collect(env: Env, same: (Value, Value) -> bool, g: Group, d: Dataset, q: Query): seq<Shown>
    requires q.offset >= 0 && q.limit >= 1
    decreases if MatchedRows(env, same, g, d, q.filters).Ok?
              then |MatchedRows(env, same, g, d, q.filters).value| - q.offset else 0
  {
    match QueryDataset(env, same, g, d, q)
    case Err(_) => []
    case Ok(a) => a.rows + (if a.hasMore then Collect(env, same, g, d, q.(offset := q.offset + q.limit)) else [])
  }

  lemma {:induction false} CollectFrom(env: Env, same: (Value, Value) -> bool, g: Group, d: Dataset, q: Query)
    requires q.offset >= 0 && q.limit >= 1 && QueryDataset(env, same, g, d, q).Ok?
    ensures MatchedRows(env, same, g, d, q.filters).Ok?
    ensures var matched := MatchedRows(env, same, g, d, q.filters).value;
            q.offset <= |matched| ==> Collect(env, same, g, d, q) == matched[q.offset..]
    decreases if MatchedRows(env, same, g, d, q.filters).Ok?
              then |MatchedRows(env, same, g, d, q.filters).value| - q.offset else 0
  {
    hide MatchedRows, SumOf, FieldsAt, Page, HasMore;
    var matched := MatchedRows(env, same, g, d, q.filters).value;
    PageSplit(matched, q.offset, q.limit);
    if HasMore(matched, q.offset, q.limit) {
      CollectFrom(env, same, g, d, q.(offset := q.offset + q.limit));
    }
  }

  /** A full page is followed by the rest; the last page is all that is left. */
  lemma PageSplit(rows: seq<Shown>, offset: nat, limit: nat)
    requires limit >= 1
    ensures HasMore(rows, offset, limit) ==> offset < |rows|
    ensures HasMore(rows, offset, limit) && offset + limit <= |rows| ==>
              rows[offset..] == Page(rows, offset, limit) + rows[offset + limit..]
    ensures HasMore(rows, offset, limit) ==> offset + limit <= |rows|
    ensures !HasMore(rows, offset, limit) && offset <= |rows| ==> Page(rows, offset, limit) + [] == rows[offset..]
  {
  }

  /** Queries agree with each other: the pages at offsets 0, L, 2L, ... while there is more are
      exactly the matched rows, their number is the count, their sum the sum. */
  lemma PagesAgree(env: Env, same: (Value, Value) -> bool, g: Group, d: Dataset, q: Query)
    requires q.offset == 0 && q.limit >= 1 && QueryDataset(env, same, g, d, q).Ok?
    ensures var a := QueryDataset(env, same, g, d, q).value;
            var all := Collect(env, same, g, d, q);
            Ok(all) == MatchedRows(env, same, g, d, q.filters)
            && (q.count ==> a.count == Some(|all|))
            && SumOf(FieldsAt(env, g, d.csvId, d.latest), all, q.sumField) == Ok(a.sum)
  {
    hide MatchedRows, SumOf, FieldsAt, Collect, Page, HasMore;
    CollectFrom(env, same, g, d, q);
    var matched := MatchedRows(env, same, g, d, q.filters).value;
    assert matched[0..] == matched;
  }

  lemma SumText(fields: seq<Field>, rows: seq<Shown>, sumField: string)
    requires SumOf(fields, rows, sumField).Ok? && SumOf(fields, rows, sumField).value.Some?
    ensures TextValue(SumOf(fields, rows, sumField).value.value) == Val(SumCtx(Numbers(rows, Strip(sumField))))
  {
    hide Numbers, Strip, SumCtx, CanonDec, TextValue, Val, FieldNamed;
    CanonDecKeepsValue(SumCtx(Numbers(rows, Strip(sumField))));
  }

  /** A reported sum is exact while running totals stay below 10^(28 - f). */
  lemma QuerySumIsExact(fields: seq<Field>, rows: seq<Shown>, sumField: string, f: nat)
    requires SumOf(fields, rows, sumField).Ok? && SumOf(fields, rows, sumField).value.Some?
    requires var ds := Numbers(rows, Strip(sumField)); FractionWithin(ds, f) && TotalsWithin(ds, f)
    ensures TextValue(SumOf(fields, rows, sumField).value.value) == ExactSum(Numbers(rows, Strip(sumField)))
  {
    hide Numbers, Strip, SumCtx, TextValue, TotalsWithin, FractionWithin, Val, ExactSum, SumOf;
    SumIsExact(Numbers(rows, Strip(sumField)), f);
    SumText(fields, rows, sumField);
  }

  /** A query that asks for the sum of a declared number is refused as a whole, rows and count
      included, exactly when the rounded sum does not fit in fixed notation. */
  lemma QueryNeedsSum(env: Env, same: (Value, Value) -> bool, g: Group, d: Dataset, q: Query)
    requires q.offset >= 0 && q.limit >= 1 && MatchedRows(env, same, g, d, q.filters).Ok?
    requires Strip(q.sumField) != ""
    requires var f := FieldNamed(FieldsAt(env, g, d.csvId, d.latest), Strip(q.sumField));
             f.Some? && f.value.ftype.DecimalType?
    ensures var total := SumCtx(Numbers(MatchedRows(env, same, g, d, q.filters).value, Strip(q.sumField)));
            (QueryDataset(env, same, g, d, q).Ok? <==> FitsFixed(total))
            && (!FitsFixed(total) ==> QueryDataset(env, same, g, d, q) == Err(NotDecimal))
  {
    hide MatchedRows, Strip, FieldNamed, FieldsAt, Numbers, SumCtx, CanonDec, FitsFixed, Page, HasMore;
    TotalFits(Numbers(MatchedRows(env, same, g, d, q.filters).value, Strip(q.sumField)));
  }

  // ---------------------------------------------------------------- orphans

  lemma {:induction false} ShowVersionsFrame(env: Env, g: Group, h: Group, d: Dataset, n: nat, latest: seq<Field>)
    requires SameVersions(g, h, d.csvId, n) && LoadSchemas(env, g, d, n).Ok?
    ensures ShowVersions(env, g, d.csvId, LoadSchemas(env, g, d, n).value, latest)
         == ShowVersions(env, h, d.csvId, LoadSchemas(env, g, d, n).value, latest)
  {
    hide LoadSchema, ReadRows, ShowRows, Lookup, FieldsAt;
    if n == 0 {
    } else {
      SchemaPrefix(env, g, d, n);
      ShowVersionsFrame(env, g, h, d, n - 1, latest);
      VersionFrame(env, g, h, d.csvId, n);
      var schemas := LoadSchemas(env, g, d, n).value;
      assert schemas[..|schemas| - 1] == LoadSchemas(env, g, d, n - 1).value;
    }
  }

  /** Files of an unannounced version, such as a crash leaves behind, are invisible: every
      query is answered as if they were not there. */
  lemma OrphansInvisible(env: Env, same: (Value, Value) -> bool, g: Group, h: Group, csvId: string, n: nat, q: Query)
    requires GroupOk(env, g) && GroupOk(env, h) && OnlyAdds(g, h, csvId, n)
    requires Replay(CatalogOf(g)).Ok? && !Announced(Replay(CatalogOf(g)).value, csvId, n)
    ensures RunQuery(env, same, h, q) == RunQuery(env, same, g, q)
  {
    hide GroupOk, Replay, OnlyAdds, Announced, CatalogOf, ReadLogical, QueryDataset, CleanId, IsHexId, DatasetOk;
    SameCatalog(g, h, csvId, n);
    ReplayIsOk(env, g);
    ReplayIsOk(env, h);
    var id := CleanId(q.csvId);
    var logical := Replay(CatalogOf(g)).value;
    if id in logical && q.offset >= 0 && q.limit >= 1 {
      LogicalBounds(env, g, id);
      UnannouncedFrame(g, h, logical, csvId, n, id);
      QueryFrame(env, same, g, h, logical[id], q);
    }
  }

  lemma QueryFrame(env: Env, same: (Value, Value) -> bool, g: Group, h: Group, d: Dataset, q: Query)
    requires q.offset >= 0 && q.limit >= 1 && SameVersions(g, h, d.csvId, d.latest)
    requires d.latest >= 1 && DatasetOk(env, g, d.csvId, d)
    ensures QueryDataset(env, same, h, d, q) == QueryDataset(env, same, g, d, q)
  {
    hide ShowVersions, SumOf, Matched, NormalizeFilters, LoadSchemas, FieldsAt, ChainOk, AllProject, LedgerFilesOk,
         Page, HasMore, SameVersions;
    ChainFrame(env, g, h, d, d.latest);
    ChainReads(env, g, d, d.latest);
    ShowVersionsFrame(env, g, h, d, d.latest, FieldsAt(env, g, d.csvId, d.latest));
  }
}
