/** From an append to every later query: what was answered stays visible, with the values it was
    given, whatever else happens to the workspace. */
module CsvTrace {
  import opened Text
  import opened Decimals
  import opened CsvFields
  import opened CsvMeaning
  import opened CsvStore
  import opened CsvAppend
  import opened CsvInvariant
  import opened CsvPreserve
  import opened CsvSteps
  import opened CsvReplay
  import opened CsvEffects
  import opened CsvQuery
  import opened CsvReading
  import opened CsvStored
  import opened CsvAccepted
  import opened CsvReachable

  // ---------------------------------------------------------------- a stored row is shown

  lemma {:induction false} RowShownIn(cal: Calendar, rows: seq<Row>, own: seq<Field>, latest: seq<Field>, r: Row)
    requires ShowRows(cal, rows, own, latest).Ok? && r in rows
    ensures ShowRow(cal, r, own, latest).Ok?
    ensures ShowRow(cal, r, own, latest).value in ShowRows(cal, rows, own, latest).value
  {
    hide ShowRow;
    var init, last := rows[..|rows| - 1], rows[|rows| - 1];
    if r in init { RowShownIn(cal, init, own, latest, r); } else { assert r == last; }
  }

  lemma ShowVersionsParts(env: Env, g: Group, csvId: string, schemas: seq<Schema>, s: Schema, latest: seq<Field>)
    requires ShowVersions(env, g, csvId, schemas + [s], latest).Ok?
    ensures ShowVersions(env, g, csvId, schemas, latest).Ok? && ReadRows(env, g, csvId, s.version, s.fields).Ok?
    ensures var rows := ReadRows(env, g, csvId, s.version, s.fields).value;
            ShowRows(env.cal, rows, s.fields, latest).Ok?
            && ShowVersions(env, g, csvId, schemas + [s], latest).value
                 == ShowVersions(env, g, csvId, schemas, latest).value
                    + ShowRows(env.cal, rows, s.fields, latest).value
  {
    hide ReadRows, ShowRows;
    assert (schemas + [s])[..|schemas|] == schemas;
  }

  /** Each stored row of the first m versions is among the rows they show. */
  lemma {:induction false} ShownAmong(env: Env, g: Group, d: Dataset, n: nat, m: nat, r: Row, latest: seq<Field>)
    requires 1 <= n <= m && LoadSchemas(env, g, d, m).Ok? && r in RowsOf(g, d.csvId, n)
    requires ShowVersions(env, g, d.csvId, LoadSchemas(env, g, d, m).value, latest).Ok?
    ensures ShowRow(env.cal, r, FieldsAt(env, g, d.csvId, n), latest).Ok?
    ensures ShowRow(env.cal, r, FieldsAt(env, g, d.csvId, n), latest).value
              in ShowVersions(env, g, d.csvId, LoadSchemas(env, g, d, m).value, latest).value
    decreases m
  {
    hide LoadSchemas, ShowVersions, ShowRow, ShowRows, ReadRows, RowsOf, FieldsAt, LoadSchema;
    SchemaPrefix(env, g, d, m);
    var s := LoadSchema(env, g, d.csvId, m).value;
    ShowVersionsParts(env, g, d.csvId, LoadSchemas(env, g, d, m - 1).value, s, latest);
    if n == m {
      RowsOfVersion(env, g, d.csvId, m, s.fields);
      RowShownIn(env.cal, RowsOf(g, d.csvId, m), s.fields, latest, r);
    } else {
      ShownAmong(env, g, d, n, m - 1, r, latest);
    }
  }

  lemma SortKeepsMember(rows: seq<Shown>, s: Shown)
    requires s in rows
    ensures s in SortRows(rows)
  {
    hide SortRows;
    SortRowsSorts(rows);
    assert s in multiset(rows);
    assert s in multiset(SortRows(rows));
  }

  /** Every stored row of a dataset is among the rows that its queries select from. */
  lemma StoredIsShown(env: Env, g: Group, d: Dataset, n: nat, r: Row)
    requires DatasetOk(env, g, d.csvId, d) && 1 <= n <= d.latest && r in RowsOf(g, d.csvId, n)
    ensures LogicalRows(env, g, d).Ok?
    ensures ShowRow(env.cal, r, FieldsAt(env, g, d.csvId, n), FieldsAt(env, g, d.csvId, d.latest)).Ok?
    ensures ShowRow(env.cal, r, FieldsAt(env, g, d.csvId, n), FieldsAt(env, g, d.csvId, d.latest)).value
              in LogicalRows(env, g, d).value
  {
    hide DatasetOk, LoadSchemas, ShowVersions, ShowRow, RowsOf, FieldsAt, SortRows, ShowsAll, Sorted, AllRows;
    LogicalRowsCoherent(env, g, d);
    var latest := FieldsAt(env, g, d.csvId, d.latest);
    ShownAmong(env, g, d, n, d.latest, r, latest);
    SortKeepsMember(ShowVersions(env, g, d.csvId, LoadSchemas(env, g, d, d.latest).value, latest).value,
                    ShowRow(env.cal, r, FieldsAt(env, g, d.csvId, n), latest).value);
  }

  // ---------------------------------------------------------------- a shown row is a stored one

  lemma {:induction false} RowShownFrom(cal: Calendar, rows: seq<Row>, own: seq<Field>, latest: seq<Field>, s: Shown)
    returns (r: Row)
    requires ShowRows(cal, rows, own, latest).Ok? && s in ShowRows(cal, rows, own, latest).value
    ensures r in rows && ShowRow(cal, r, own, latest) == Ok(s)
  {
    hide ShowRow;
    var init, last := rows[..|rows| - 1], rows[|rows| - 1];
    if s in ShowRows(cal, init, own, latest).value { r := RowShownFrom(cal, init, own, latest, s); } else { r := last; }
  }

  lemma {:induction false} ShownFrom(env: Env, g: Group, d: Dataset, m: nat, s: Shown, latest: seq<Field>)
    returns (n: nat, r: Row)
    requires LoadSchemas(env, g, d, m).Ok?
    requires ShowVersions(env, g, d.csvId, LoadSchemas(env, g, d, m).value, latest).Ok?
    requires s in ShowVersions(env, g, d.csvId, LoadSchemas(env, g, d, m).value, latest).value
    ensures 1 <= n <= m && r in RowsOf(g, d.csvId, n)
            && ShowRow(env.cal, r, FieldsAt(env, g, d.csvId, n), latest) == Ok(s)
    decreases m
  {
    hide LoadSchemas, ShowVersions, ShowRow, ShowRows, ReadRows, RowsOf, FieldsAt, LoadSchema;
    if m == 0 {
      NothingShownYet(env, g, d, latest);
      assert false;
    } else {
      SchemaPrefix(env, g, d, m);
      var schema := LoadSchema(env, g, d.csvId, m).value;
      ShowVersionsParts(env, g, d.csvId, LoadSchemas(env, g, d, m - 1).value, schema, latest);
      RowsOfVersion(env, g, d.csvId, m, schema.fields);
      if s in ShowVersions(env, g, d.csvId, LoadSchemas(env, g, d, m - 1).value, latest).value {
        n, r := ShownFrom(env, g, d, m - 1, s, latest);
      } else {
        n := m;
        r := RowShownFrom(env.cal, RowsOf(g, d.csvId, m), schema.fields, latest, s);
      }
    }
  }

  /** Every row that queries select from stands for a stored row of one version. */
  lemma ShownIsStored(env: Env, g: Group, d: Dataset, s: Shown) returns (n: nat, r: Row)
    requires DatasetOk(env, g, d.csvId, d) && LogicalRows(env, g, d).Ok? && s in LogicalRows(env, g, d).value
    ensures 1 <= n <= d.latest && r in RowsOf(g, d.csvId, n)
    ensures ShowRow(env.cal, r, FieldsAt(env, g, d.csvId, n), FieldsAt(env, g, d.csvId, d.latest)) == Ok(s)
  {
    hide DatasetOk, LoadSchemas, ShowVersions, ShowRow, RowsOf, FieldsAt, SortRows, ShowsAll, Sorted, AllRows;
    LogicalRowsCoherent(env, g, d);
    var latest := FieldsAt(env, g, d.csvId, d.latest);
    var all := ShowVersions(env, g, d.csvId, LoadSchemas(env, g, d, d.latest).value, latest).value;
    SortRowsSorts(all);
    assert s in multiset(SortRows(all));
    assert s in multiset(all);
    n, r := ShownFrom(env, g, d, d.latest, s, latest);
  }

  /** So only one of them has the id of a stored row. */
  lemma OneIsShown(env: Env, g: Group, d: Dataset, n: nat, r: Row, s: Shown)
    requires CollisionFree(env) && GroupOk(env, g) && DatasetIn(g, d.csvId) == Some(d)
    requires 1 <= n <= d.latest && r in RowsOf(g, d.csvId, n)
    requires LogicalRows(env, g, d).Ok? && s in LogicalRows(env, g, d).value && s.eventId == r.eventId
    ensures ShowRow(env.cal, r, FieldsAt(env, g, d.csvId, n), FieldsAt(env, g, d.csvId, d.latest)) == Ok(s)
  {
    hide GroupOk, Replay, CatalogOf, DatasetOk, RowsOf, FieldsAt, LogicalRows, VisibleRow, CollisionFree;
    LogicalBounds(env, g, d.csvId);
    var m, r' := ShownIsStored(env, g, d, s);
    SameIdInGroup(env, g, d.csvId, n, r, d.csvId, m, r');
  }

  // ---------------------------------------------------------------- over any later calls

  lemma {:induction false} FieldsGrow(env: Env, g: Group, d: Dataset, n: nat, m: nat)
    requires 1 <= n <= m <= |d.events| && ChainOk(env, g, d, m)
    ensures FieldsAt(env, g, d.csvId, n) <= FieldsAt(env, g, d.csvId, m)
    decreases m
  {
    hide VersionOk, FieldsAt, LEDGER_FIELDS;
    if n == m {
    } else {
      FieldsGrow(env, g, d, n, m - 1);
      var a, b, c := FieldsAt(env, g, d.csvId, n), FieldsAt(env, g, d.csvId, m - 1), FieldsAt(env, g, d.csvId, m);
      PrefixOfPrefix(a, b, c);
    }
  }

  lemma PrefixOfPrefix(a: seq<Field>, b: seq<Field>, c: seq<Field>)
    requires a <= b <= c
    ensures a <= c
  {
    assert c[..|a|] == b[..|a|];
  }

  /** What a later group shows of a row that an earlier one stored. */
  lemma LaterShows(env: Env, h: Group, m: Group, d: Dataset, d': Dataset, r: Row)
    requires GroupOk(env, h) && GroupOk(env, m) && Grown(h, m)
    requires DatasetIn(h, d.csvId) == Some(d) && DatasetIn(m, d.csvId) == Some(d') && Continues(d, d')
    requires r in RowsOf(h, d.csvId, d.latest)
    ensures LogicalRows(env, m, d').Ok? && FieldsAt(env, h, d.csvId, d.latest) <= FieldsAt(env, m, d.csvId, d'.latest)
    ensures Distinct(FieldsAt(env, m, d.csvId, d'.latest))
    ensures var shown := ShowRow(env.cal, r, FieldsAt(env, h, d.csvId, d.latest), FieldsAt(env, m, d.csvId, d'.latest));
            shown.Ok? && shown.value in LogicalRows(env, m, d').value
  {
    hide GroupOk, Grown, Replay, CatalogOf, DatasetOk, ChainOk, RowsOf, FieldsAt, LogicalRows, ShowRow, Distinct;
    LogicalBounds(env, h, d.csvId);
    LogicalBounds(env, m, d.csvId);
    DatasetChain(env, h, d);
    DatasetChain(env, m, d');
    ChainReads(env, h, d, d.latest);
    SameFields(env, h, m, d.csvId, d.latest);
    RowsStay(h, m, d.csvId, d.latest);
    FieldsGrow(env, m, d', d.latest, d'.latest);
    PreviousDistinct(env, m, d');
    StoredIsShown(env, m, d', d.latest, r);
  }

  lemma SameFields(env: Env, g: Group, h: Group, csvId: string, n: nat)
    requires Grown(g, h) && LoadSchema(env, g, csvId, n).Ok?
    ensures FieldsAt(env, h, csvId, n) == FieldsAt(env, g, csvId, n)
  {
    hide Grown, LoadSchema;
    SchemaStays(env, g, h, csvId, n);
  }

  /** The append stored a new row. */
  predicate StoresNew(r: Result<Response, Reason>) { r.Ok? && r.value.RowResponse? && !r.value.idempotent }

  /** The row of a new append is the one prepared for its request. */
  lemma NewRowIsAnswered(env: Env, g: Group, call: Call)
    requires CollisionFree(env) && GroupOk(env, g) && Screen(call).None? && call.request.AppendRequest?
    requires StoresNew(InGroup(env, g, call).1) && DatasetIn(g, CleanId(call.request.csvId)).Some?
    ensures var d := DatasetIn(g, CleanId(call.request.csvId)).value;
            LoadSchema(env, g, d.csvId, d.latest).Ok?
            && NewRow(env, g, call.ctx, d, LoadSchema(env, g, d.csvId, d.latest).value, call.request.row,
                      RowEventId(env, call.ctx, d.csvId, d.latest, call.request.row), call.times)
                 == Ok(InGroup(env, g, call).1.value.row)
  {
    hide GroupOk, Screen, Replay, CatalogOf, InGroup, CleanId, FindRow, RowsOf, LoadSchema, NewRow, RowAdded,
         BalanceFits, AllRows, CollisionFree, RowEventId, DatasetIn;
    AppendCallEffect(env, g, call);
  }

  /** After an answered append and any later calls, the rows that the queries of its dataset
      select from contain one that stands for its event. */
  lemma AppendedIsShown(env: Env, groups: Groups, call: Call, later: seq<Call>) returns (shown: Shown)
    requires CollisionFree(env) && AllOk(env, groups) && Screen(call).None? && call.request.AppendRequest?
    requires Step(env, groups, call).1.Ok?
    ensures var key, csvId := env.scope(call.ctx.chat), CleanId(call.request.csvId);
            var h := GroupOf(Step(env, groups, call).0, key);
            var m := GroupOf(Run(env, Step(env, groups, call).0, later), key);
            var r := Step(env, groups, call).1.value;
            r.RowResponse? && DatasetIn(h, csvId).Some? && DatasetIn(m, csvId).Some?
            && var d, d' := DatasetIn(h, csvId).value, DatasetIn(m, csvId).value;
            LogicalRows(env, m, d').Ok? && shown in LogicalRows(env, m, d').value && shown.eventId == r.row.eventId
            && shown.createdAt == r.row.createdAt && shown.actorName == r.row.actorName
            && FieldsAt(env, h, d.csvId, d.latest) <= FieldsAt(env, m, d.csvId, d'.latest)
            && Distinct(FieldsAt(env, m, d.csvId, d'.latest))
            && VisibleRow(env.cal, r.row, FieldsAt(env, h, d.csvId, d.latest), FieldsAt(env, m, d.csvId, d'.latest))
                 == Ok(shown.fields)
  {
    hide GroupOk, Screen, InGroup, DatasetIn, Grown, CollisionFree, Run, Continues, AllOk, EMPTY_GROUP, CleanId,
         RowsOf, FieldsAt, LogicalRows, VisibleRow, Distinct, AnswersWith, RowEventId;
    var key, csvId := env.scope(call.ctx.chat), CleanId(call.request.csvId);
    var g := GroupOf(groups, key);
    var after := Step(env, groups, call).0;
    GroupOfOk(env, groups, key);
    StepKeeps(env, groups, call);
    RunKeeps(env, after, later);
    RunFrame(env, after, later, key);
    GroupOfOk(env, Run(env, after, later), key);
    InGroupKeeps(env, g, call);
    AnsweredRowIsStored(env, g, call);
    var h, m := after[key], Run(env, after, later)[key];
    DatasetStays(env, h, m, csvId);
    var d, d' := DatasetIn(h, csvId).value, DatasetIn(m, csvId).value;
    NamedDatasetOf(env, h, csvId);
    var row := Step(env, groups, call).1.value.row;
    LaterShows(env, h, m, d, d', row);
    shown := ShowRow(env.cal, row, FieldsAt(env, h, d.csvId, d.latest), FieldsAt(env, m, d.csvId, d'.latest)).value;
  }

  /** And every key shows what it stood for in the request when the row was stored. */
  lemma AppendedIsRead(env: Env, groups: Groups, call: Call, later: seq<Call>, key: string) returns (shown: Shown)
    requires CollisionFree(env) && AllOk(env, groups) && Screen(call).None? && call.request.AppendRequest?
    requires StoresNew(Step(env, groups, call).1)
    ensures var scope, csvId := env.scope(call.ctx.chat), CleanId(call.request.csvId);
            var g := GroupOf(groups, scope);
            var m := GroupOf(Run(env, Step(env, groups, call).0, later), scope);
            DatasetIn(g, csvId).Some? && DatasetIn(m, csvId).Some?
            && var d, d' := DatasetIn(g, csvId).value, DatasetIn(m, csvId).value;
            LogicalRows(env, m, d').Ok? && shown in LogicalRows(env, m, d').value
            && shown.eventId == Step(env, groups, call).1.value.row.eventId
            && RowsToSearch(env, g, d, call.request.row).Ok?
            && Seen(env.cal, FieldsAt(env, g, d.csvId, d.latest), FieldsAt(env, m, d.csvId, d'.latest), shown.fields,
                    key, Meant(d.preset, RowsToSearch(env, g, d, call.request.row).value, call.request.row,
                               call.times.ledger, key))
  {
    hide GroupOk, Screen, InGroup, DatasetIn, Grown, CollisionFree, Run, AllOk, EMPTY_GROUP, CleanId, RowsOf,
         LoadSchema, LogicalRows, VisibleRow, Distinct, AnswersWith, RowEventId, NewRow, Meant, Seen, RowsToSearch;
    var scope, csvId := env.scope(call.ctx.chat), CleanId(call.request.csvId);
    var g := GroupOf(groups, scope);
    shown := AppendedIsShown(env, groups, call, later);
    GroupOfOk(env, groups, scope);
    AnsweredRowIsStored(env, g, call);
    NewRowIsAnswered(env, g, call);
    var d := DatasetIn(g, csvId).value;
    var s := LoadSchema(env, g, d.csvId, d.latest).value;
    InGroupGrows(env, g, call);
    SameFields(env, g, InGroup(env, g, call).0, d.csvId, d.latest);
    var m := GroupOf(Run(env, Step(env, groups, call).0, later), scope);
    var d' := DatasetIn(m, csvId).value;
    var id := RowEventId(env, call.ctx, d.csvId, d.latest, call.request.row);
    AcceptedIsRead(env, g, call.ctx, d, s, call.request.row, id, call.times, FieldsAt(env, m, d.csvId, d'.latest), key);
  }

  // ---------------------------------------------------------------- the values themselves

  /** A reader sees this request: each field with what the given value means, every other key as it
      was given, and nothing else. */
  predicate ShowsGiven(cal: Calendar, own: seq<Field>, latest: seq<Field>, raw: map<string, Value>,
                       shown: map<string, Value>)
  {
    && shown.Keys == Names(latest) + raw.Keys
    && (forall i :: 0 <= i < |latest| ==>
          latest[i].name in shown
          && Meaning(cal, latest[i], i < |own|, Given(raw, latest[i].name), shown[latest[i].name]))
    && forall k :: k in raw && k !in Names(latest) ==> shown[k] == raw[k]
  }

  lemma DurableShowsGiven(cal: Calendar, ctx: Context, own: seq<Field>, raw: map<string, Value>, eventId: string,
                          now: string, latest: seq<Field>)
    requires DurableRow(cal, ctx, own, raw, eventId, now).Ok? && own <= latest && Distinct(latest)
    requires VisibleRow(cal, DurableRow(cal, ctx, own, raw, eventId, now).value, own, latest).Ok?
    ensures ShowsGiven(cal, own, latest, raw,
                       VisibleRow(cal, DurableRow(cal, ctx, own, raw, eventId, now).value, own, latest).value)
  {
    hide DurableRow, VisibleRow, Names, Distinct, Meaning, RowFits, Projects;
    var row := DurableRow(cal, ctx, own, raw, eventId, now).value;
    WrittenIsRead(cal, ctx, own, raw, eventId, now, latest);
    DurableKeys(cal, ctx, own, raw, eventId, now);
    DurableRowFits(cal, ctx, own, raw, eventId, now);
    NamesOfPrefix(own, latest);
    RowShows(cal, row, own, latest);
  }

  lemma NewCustomRow(env: Env, g: Group, call: Call)
    requires CollisionFree(env) && GroupOk(env, g) && Screen(call).None? && call.request.AppendRequest?
    requires StoresNew(InGroup(env, g, call).1) && DatasetIn(g, CleanId(call.request.csvId)).Some?
    requires DatasetIn(g, CleanId(call.request.csvId)).value.preset.Custom?
    ensures var d := DatasetIn(g, CleanId(call.request.csvId)).value;
            var own := FieldsAt(env, g, d.csvId, d.latest);
            var id := RowEventId(env, call.ctx, d.csvId, d.latest, call.request.row);
            Distinct(own)
            && DurableRow(env.cal, call.ctx, own, call.request.row, id, call.times.row)
                 == Ok(InGroup(env, g, call).1.value.row)
  {
    hide GroupOk, Screen, InGroup, CleanId, LoadSchema, NewRow, CollisionFree, RowEventId, DurableRow, Distinct,
         ChainOk, DatasetOk, Replay, CatalogOf;
    NewRowIsAnswered(env, g, call);
    NamedDatasetOf(env, g, CleanId(call.request.csvId));
    LogicalBounds(env, g, CleanId(call.request.csvId));
    var d := DatasetIn(g, CleanId(call.request.csvId)).value;
    DatasetChain(env, g, d);
    PreviousDistinct(env, g, d);
    CustomNewRow(env, g, call.ctx, d, LoadSchema(env, g, d.csvId, d.latest).value, call.request.row,
              RowEventId(env, call.ctx, d.csvId, d.latest, call.request.row), call.times);
  }

  /** A new append to a dataset of one's own stores who asked, when and under which message, with
      the text of every value, and its answer shows every value. */
  lemma AnswerShowsGiven(env: Env, g: Group, call: Call)
    requires CollisionFree(env) && GroupOk(env, g) && Screen(call).None? && call.request.AppendRequest?
    requires StoresNew(InGroup(env, g, call).1) && DatasetIn(g, CleanId(call.request.csvId)).Some?
    requires DatasetIn(g, CleanId(call.request.csvId)).value.preset.Custom?
    ensures var d := DatasetIn(g, CleanId(call.request.csvId)).value;
            var own := FieldsAt(env, g, d.csvId, d.latest);
            var id := RowEventId(env, call.ctx, d.csvId, d.latest, call.request.row);
            var r := InGroup(env, g, call).1.value;
            r.csvId == d.csvId && r.version == d.latest && r.balance.None?
            && Holds(env.cal, call.ctx, own, call.request.row, id, call.times.row, r.row)
            && ShowsGiven(env.cal, own, own, call.request.row, r.shown)
  {
    hide GroupOk, Screen, InGroup, CleanId, NewRow, CollisionFree, RowEventId, DurableRow, Distinct, DatasetIn, Holds,
         ShowsGiven, VisibleRow, Grown, LoadSchema, FieldsAt, BalanceFits;
    NewCustomRow(env, g, call);
    AnsweredRowIsStored(env, g, call);
    var d := DatasetIn(g, CleanId(call.request.csvId)).value;
    var own := FieldsAt(env, g, d.csvId, d.latest);
    var id := RowEventId(env, call.ctx, d.csvId, d.latest, call.request.row);
    NewRowIsAnswered(env, g, call);
    InGroupGrows(env, g, call);
    SameFields(env, g, InGroup(env, g, call).0, d.csvId, d.latest);
    DurableRowMeans(env.cal, call.ctx, own, call.request.row, id, call.times.row);
    DurableShowsGiven(env.cal, call.ctx, own, call.request.row, id, call.times.row, own);
  }

  /** After a new append to a dataset of one's own and any later calls, every row of that event that
      a query may return shows the request as it was given, whatever versions were added. */
  lemma LaterShowsGiven(env: Env, groups: Groups, call: Call, later: seq<Call>, row: Shown)
    requires CollisionFree(env) && AllOk(env, groups) && Screen(call).None? && call.request.AppendRequest?
    requires StoresNew(Step(env, groups, call).1)
    requires var key, csvId := env.scope(call.ctx.chat), CleanId(call.request.csvId);
             var g, m := GroupOf(groups, key), GroupOf(Run(env, Step(env, groups, call).0, later), key);
             DatasetIn(g, csvId).Some? && DatasetIn(g, csvId).value.preset.Custom? && DatasetIn(m, csvId).Some?
             && LogicalRows(env, m, DatasetIn(m, csvId).value).Ok?
             && row in LogicalRows(env, m, DatasetIn(m, csvId).value).value
             && row.eventId == Step(env, groups, call).1.value.row.eventId
    ensures var key, csvId := env.scope(call.ctx.chat), CleanId(call.request.csvId);
            var g, m := GroupOf(groups, key), GroupOf(Run(env, Step(env, groups, call).0, later), key);
            var d, d' := DatasetIn(g, csvId).value, DatasetIn(m, csvId).value;
            ShowsGiven(env.cal, FieldsAt(env, g, d.csvId, d.latest), FieldsAt(env, m, d.csvId, d'.latest),
                       call.request.row, row.fields)
            && row.createdAt == call.times.row && row.actorName == call.ctx.userName
  {
    hide GroupOk, Screen, InGroup, DatasetIn, Grown, CollisionFree, Run, AllOk, EMPTY_GROUP, CleanId, RowsOf,
         LoadSchema, LogicalRows, VisibleRow, Distinct, AnswersWith, RowEventId, NewRow, DurableRow, ShowsGiven, Holds,
         FieldsAt;
    var key, csvId := env.scope(call.ctx.chat), CleanId(call.request.csvId);
    var g := GroupOf(groups, key);
    var shown := AppendedIsShown(env, groups, call, later);
    GroupOfOk(env, groups, key);
    AnsweredRowIsStored(env, g, call);
    NewCustomRow(env, g, call);
    NewRowIsAnswered(env, g, call);
    var h, m := GroupOf(Step(env, groups, call).0, key), GroupOf(Run(env, Step(env, groups, call).0, later), key);
    var d, d', r := DatasetIn(g, csvId).value, DatasetIn(m, csvId).value, Step(env, groups, call).1.value.row;
    InGroupGrows(env, g, call);
    SameFields(env, g, h, d.csvId, d.latest);
    var own := FieldsAt(env, g, d.csvId, d.latest);
    var id := RowEventId(env, call.ctx, d.csvId, d.latest, call.request.row);
    DurableRowMeans(env.cal, call.ctx, own, call.request.row, id, call.times.row);
    HeldBy(env.cal, call.ctx, own, call.request.row, id, call.times.row, r);
    DurableShowsGiven(env.cal, call.ctx, own, call.request.row, id, call.times.row,
                      FieldsAt(env, m, d.csvId, d'.latest));
    RowIsThere(env, groups, call, later, row);
    NamedDatasetOf(env, g, csvId);
  }

  /** The value shown for a given one, type by type. */
  predicate ShowsAs(cal: Calendar, f: Field, given: Value, seen: Value) {
    && (given == Null && f.default.None? ==> seen == Null)
    && (f.ftype.BooleanType? && given.Bool? ==> seen == Bool(given.b))
    && (f.ftype.IntegerType? && given.Int? ==> seen == Int(given.i))
    && (f.ftype.TextType? && given.Str? && Strip(given.s) != "" ==> seen == Str(Strip(given.s)))
    && (f.ftype.EnumType? && given.Str? && given.s != "" ==> seen == Str(Strip(given.s)) && Strip(given.s) in f.enum)
    && (f.ftype.DateType? && given.Str? && given.s != "" ==>
          cal.date(Strip(given.s)).Some? && seen == Dated(cal.date(Strip(given.s)).value))
    && (f.ftype.DatetimeType? && given.Str? && given.s != "" ==>
          cal.datetime(Strip(given.s)).Some? && seen == Dated(cal.datetime(Strip(given.s)).value))
    && (f.ftype.DecimalType? && given.Int? ==> seen.Str? && NumberInText(seen.s) == Some(given.i as real))
    && (f.ftype.DecimalType? && given.Str? && given.s != "" ==>
          seen.Str? && NumberInText(seen.s).Some? && NumberInText(seen.s) == NumberInText(given.s))
  }

  lemma MeaningShows(cal: Calendar, f: Field, given: Option<Value>, seen: Value)
    requires Meaning(cal, f, true, given, seen)
    ensures ShowsAs(cal, f, if given.None? then Null else given.value, seen)
  {
    hide Strip, ParseDec, Val, Norm, ToFixed, Digits;
    assert Strip("") == "" by { NothingStripped(); }
  }

  lemma FieldShowsGiven(cal: Calendar, own: seq<Field>, latest: seq<Field>, raw: map<string, Value>,
                        shown: map<string, Value>, i: nat)
    requires ShowsGiven(cal, own, latest, raw, shown) && own <= latest && i < |own|
    ensures own[i].name in shown && ShowsAs(cal, own[i], Get(raw, own[i].name), shown[own[i].name])
  {
    hide Meaning, ShowsAs;
    assert latest[i] == own[i];
    MeaningShows(cal, own[i], Given(raw, own[i].name), shown[own[i].name]);
  }

  /** The answer of a new append, and every row of its event in every later query, show each value
      of the fields it was written under as it was given. */
  lemma GivenIsShown(env: Env, groups: Groups, call: Call, later: seq<Call>, row: Shown, i: nat)
    requires CollisionFree(env) && AllOk(env, groups) && Screen(call).None? && call.request.AppendRequest?
    requires StoresNew(Step(env, groups, call).1)
    requires var key, csvId := env.scope(call.ctx.chat), CleanId(call.request.csvId);
             var g, m := GroupOf(groups, key), GroupOf(Run(env, Step(env, groups, call).0, later), key);
             DatasetIn(g, csvId).Some? && DatasetIn(g, csvId).value.preset.Custom? && DatasetIn(m, csvId).Some?
             && LogicalRows(env, m, DatasetIn(m, csvId).value).Ok?
             && row in LogicalRows(env, m, DatasetIn(m, csvId).value).value
             && row.eventId == Step(env, groups, call).1.value.row.eventId
             && i < |FieldsAt(env, g, csvId, DatasetIn(g, csvId).value.latest)|
    ensures var g, csvId := GroupOf(groups, env.scope(call.ctx.chat)), CleanId(call.request.csvId);
            var f := FieldsAt(env, g, csvId, DatasetIn(g, csvId).value.latest)[i];
            var given, answer := Get(call.request.row, f.name), Step(env, groups, call).1.value;
            f.name in answer.shown && ShowsAs(env.cal, f, given, answer.shown[f.name])
            && f.name in row.fields && ShowsAs(env.cal, f, given, row.fields[f.name])
  {
    hide GroupOk, Screen, InGroup, DatasetIn, Grown, CollisionFree, Run, AllOk, EMPTY_GROUP, CleanId, RowsOf,
         LoadSchema, LogicalRows, VisibleRow, Distinct, AnswersWith, RowEventId, NewRow, DurableRow, ShowsGiven, Holds,
         FieldsAt, ShowsAs;
    var key, csvId := env.scope(call.ctx.chat), CleanId(call.request.csvId);
    var g := GroupOf(groups, key);
    GroupOfOk(env, groups, key);
    NamedDatasetOf(env, g, csvId);
    AnswerShowsGiven(env, g, call);
    LaterShowsGiven(env, groups, call, later, row);
    LaterExtends(env, groups, call, later);
    var m := GroupOf(Run(env, Step(env, groups, call).0, later), key);
    var own := FieldsAt(env, g, csvId, DatasetIn(g, csvId).value.latest);
    FieldShowsGiven(env.cal, own, own, call.request.row, Step(env, groups, call).1.value.shown, i);
    FieldShowsGiven(env.cal, own, FieldsAt(env, m, csvId, DatasetIn(m, csvId).value.latest), call.request.row,
                    row.fields, i);
  }

  /** Later versions only add fields. */
  lemma LaterExtends(env: Env, groups: Groups, call: Call, later: seq<Call>)
    requires CollisionFree(env) && AllOk(env, groups) && Screen(call).None? && call.request.AppendRequest?
    requires Step(env, groups, call).1.Ok?
    ensures var key, csvId := env.scope(call.ctx.chat), CleanId(call.request.csvId);
            var g, m := GroupOf(groups, key), GroupOf(Run(env, Step(env, groups, call).0, later), key);
            DatasetIn(g, csvId).Some? && DatasetIn(m, csvId).Some?
            && FieldsAt(env, g, csvId, DatasetIn(g, csvId).value.latest)
                 <= FieldsAt(env, m, csvId, DatasetIn(m, csvId).value.latest)
  {
    hide GroupOk, Screen, InGroup, DatasetIn, Grown, CollisionFree, Run, AllOk, EMPTY_GROUP, CleanId, RowsOf,
         LoadSchema, LogicalRows, VisibleRow, Distinct, AnswersWith, RowEventId, FieldsAt;
    var key, csvId := env.scope(call.ctx.chat), CleanId(call.request.csvId);
    var g := GroupOf(groups, key);
    GroupOfOk(env, groups, key);
    var shown := AppendedIsShown(env, groups, call, later);
    AnsweredRowIsStored(env, g, call);
    NamedDatasetOf(env, g, csvId);
    InGroupGrows(env, g, call);
    var d := DatasetIn(g, csvId).value;
    DatasetReads(env, g, d);
    SameFields(env, g, InGroup(env, g, call).0, csvId, d.latest);
  }

  lemma DatasetReads(env: Env, g: Group, d: Dataset)
    requires GroupOk(env, g) && DatasetIn(g, d.csvId) == Some(d)
    ensures LoadSchema(env, g, d.csvId, d.latest).Ok?
  {
    hide GroupOk, Replay, CatalogOf, DatasetOk, ChainOk, LoadSchema;
    LogicalBounds(env, g, d.csvId);
    DatasetChain(env, g, d);
    ChainReads(env, g, d, d.latest);
  }

  lemma HeldBy(cal: Calendar, ctx: Context, fields: seq<Field>, values: map<string, Value>, eventId: string,
               now: string, row: Row)
    requires Holds(cal, ctx, fields, values, eventId, now, row)
    ensures row.createdAt == now && row.actorName == ctx.userName
  {
    hide FieldStores, Names;
  }

  /** The row of the event that a query may return is the projection of the stored one. */
  lemma RowIsThere(env: Env, groups: Groups, call: Call, later: seq<Call>, row: Shown)
    requires CollisionFree(env) && AllOk(env, groups) && Screen(call).None? && call.request.AppendRequest?
    requires Step(env, groups, call).1.Ok? && Step(env, groups, call).1.value.RowResponse?
    requires var key, csvId := env.scope(call.ctx.chat), CleanId(call.request.csvId);
             var m := GroupOf(Run(env, Step(env, groups, call).0, later), key);
             DatasetIn(m, csvId).Some? && LogicalRows(env, m, DatasetIn(m, csvId).value).Ok?
             && row in LogicalRows(env, m, DatasetIn(m, csvId).value).value
             && row.eventId == Step(env, groups, call).1.value.row.eventId
    ensures var key, csvId := env.scope(call.ctx.chat), CleanId(call.request.csvId);
            var h := GroupOf(Step(env, groups, call).0, key);
            var m := GroupOf(Run(env, Step(env, groups, call).0, later), key);
            DatasetIn(h, csvId).Some?
            && ShowRow(env.cal, Step(env, groups, call).1.value.row,
                       FieldsAt(env, h, csvId, DatasetIn(h, csvId).value.latest),
                       FieldsAt(env, m, csvId, DatasetIn(m, csvId).value.latest)) == Ok(row)
  {
    hide GroupOk, Screen, InGroup, DatasetIn, Grown, CollisionFree, Run, AllOk, EMPTY_GROUP, CleanId, RowsOf,
         LoadSchema, LogicalRows, VisibleRow, AnswersWith, RowEventId, FieldsAt, Continues, ShowRow;
    var key, csvId := env.scope(call.ctx.chat), CleanId(call.request.csvId);
    var g := GroupOf(groups, key);
    var after := Step(env, groups, call).0;
    GroupOfOk(env, groups, key);
    StepKeeps(env, groups, call);
    RunKeeps(env, after, later);
    RunFrame(env, after, later, key);
    GroupOfOk(env, Run(env, after, later), key);
    InGroupKeeps(env, g, call);
    AnsweredRowIsStored(env, g, call);
    var h, m := after[key], Run(env, after, later)[key];
    NamedDatasetOf(env, h, csvId);
    NamedDatasetOf(env, m, csvId);
    var d, d', r := DatasetIn(h, csvId).value, DatasetIn(m, csvId).value, Step(env, groups, call).1.value.row;
    DatasetStays(env, h, m, csvId);
    Carried(env, h, m, d, d', r);
    OneIsShown(env, m, d', d.latest, r, row);
  }

  lemma Carried(env: Env, h: Group, m: Group, d: Dataset, d': Dataset, r: Row)
    requires GroupOk(env, h) && Grown(h, m) && Continues(d, d')
    requires DatasetIn(h, d.csvId) == Some(d) && r in RowsOf(h, d.csvId, d.latest)
    ensures 1 <= d.latest <= d'.latest && d'.csvId == d.csvId && r in RowsOf(m, d.csvId, d.latest)
    ensures FieldsAt(env, m, d.csvId, d.latest) == FieldsAt(env, h, d.csvId, d.latest)
  {
    hide GroupOk, Grown, Replay, CatalogOf, DatasetOk, ChainOk, RowsOf, FieldsAt, LoadSchema;
    LogicalBounds(env, h, d.csvId);
    DatasetChain(env, h, d);
    ChainReads(env, h, d, d.latest);
    SameFields(env, h, m, d.csvId, d.latest);
    RowsStay(h, m, d.csvId, d.latest);
  }
}
