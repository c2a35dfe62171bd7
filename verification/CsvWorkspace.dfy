/** The workspace object: the methods of `CsvWorkspace`, step by step on its groups, proved
    against the functions whose properties the other modules state. */
module CsvWorkspaceModel {
  import opened Text
  import opened Decimals
  import opened DecimalSums
  import opened CsvFields
  import opened CsvStore
  import opened CsvAppend
  import opened CsvLedger
  import opened CsvBalance
  import opened CsvInvariant
  import opened CsvPreserve
  import opened CsvSteps
  import opened CsvReplay
  import opened CsvEffects
  import opened CsvQuery
  import opened CsvReading
  import opened CsvFiltering
  import opened CsvCreated

  // ---------------------------------------------------------------- loops that only read

  lemma {:induction false} ReplayStops(events: seq<CatalogEvent>, i: nat)
    requires i <= |events| && Replay(events[..i]).Err?
    ensures Replay(events) == Replay(events[..i])
  {
    hide ReplayStep;
    if i < |events| {
      assert events[..|events| - 1][..i] == events[..i];
      ReplayStops(events[..|events| - 1], i);
    } else {
      assert events[..i] == events;
    }
  }

  /** `_logical_catalog`. */
  method LogicalCatalog(events: seq<CatalogEvent>) returns (r: Result<Logical, Reason>)
    ensures r == Replay(events)
  {
    hide ReplayStep;
    var logical: Logical := map[];
    for i := 0 to |events|
      invariant Replay(events[..i]) == Ok(logical)
    {
      assert events[..i + 1][..i] == events[..i];
      var next := ReplayStep(logical, events[i]);
      if next.Err? {
        ReplayStops(events, i + 1);
        return Err(next.error);
      }
      logical := next.value;
    }
    assert events[..|events|] == events;
    r := Ok(logical);
  }

  lemma {:induction false} AllRowsStops(env: Env, g: Group, csvId: string, n: nat, m: nat)
    requires n <= m && AllRows(env, g, csvId, n).Err?
    ensures AllRows(env, g, csvId, m) == AllRows(env, g, csvId, n)
    decreases m
  {
    hide LoadSchema, ReadRows;
    if n == m {
    } else {
      AllRowsStops(env, g, csvId, n, m - 1);
    }
  }

  /** `_all_raw_rows`. */
  method AllRawRows(env: Env, g: Group, csvId: string, latest: nat) returns (r: Result<seq<Row>, Reason>)
    ensures r == AllRows(env, g, csvId, latest)
  {
    hide LoadSchema, ReadRows;
    var rows: seq<Row> := [];
    for version := 0 to latest
      invariant AllRows(env, g, csvId, version) == Ok(rows)
    {
      var schema := LoadSchema(env, g, csvId, version + 1);
      if schema.Err? {
        AllRowsStops(env, g, csvId, version + 1, latest);
        return Err(schema.error);
      }
      var more := ReadRows(env, g, csvId, version + 1, schema.value.fields);
      if more.Err? {
        AllRowsStops(env, g, csvId, version + 1, latest);
        return Err(more.error);
      }
      rows := rows + more.value;
    }
    r := Ok(rows);
  }

  /** The balance loop of `_append_result`. */
  method LedgerSum(rows: seq<Row>, account: string, currency: string) returns (balance: Dec)
    ensures balance == BalanceOf(rows, account, currency)
  {
    hide AddCtx, CellNumber, Cell, SumCtx, DeltasOf;
    balance := ZERO;
    NothingSummed(rows, account, currency);
    for i := 0 to |rows|
      invariant balance == SumCtx(DeltasOf(rows[..i], account, currency))
    {
      assert rows[..i + 1] == rows[..i] + [rows[i]];
      DeltasStep(rows[..i], rows[i], account, currency);
      var ds := DeltasOf(rows[..i], account, currency);
      if Cell(rows[i], "account") == account && Cell(rows[i], "currency") == currency {
        SumSnoc(ds, CellNumber(rows[i], "amount_delta"));
        balance := AddCtx(balance, CellNumber(rows[i], "amount_delta"));
      } else {
        assert ds + [] == ds;
      }
    }
    assert rows[..|rows|] == rows;
  }

  lemma NothingSummed(rows: seq<Row>, account: string, currency: string)
    ensures SumCtx(DeltasOf(rows[..0], account, currency)) == ZERO
  {
    assert rows[..0] == [];
  }

  lemma {:induction false} VisibleStops(cal: Calendar, row: Row, own: set<string>, latest: seq<Field>, i: nat)
    requires i <= |latest| && VisibleFields(cal, row, own, latest[..i]).Err?
    ensures VisibleFields(cal, row, own, latest) == VisibleFields(cal, row, own, latest[..i])
  {
    hide VisibleField;
    if i < |latest| {
      assert latest[..|latest| - 1][..i] == latest[..i];
      VisibleStops(cal, row, own, latest[..|latest| - 1], i);
    } else {
      assert latest[..i] == latest;
    }
  }

  /** `_public_row`: fields are moved out of the extra data as they are shown. */
  method PublicFields(cal: Calendar, row: Row, own: seq<Field>, latest: seq<Field>)
    returns (r: Result<map<string, Value>, Reason>)
    requires Distinct(latest)
    ensures r == VisibleRow(cal, row, own, latest)
    ensures r.Ok? <==> forall i :: 0 <= i < |latest| ==> Inherits(cal, row, own, latest[i])
    ensures r.Ok? ==> ShowsStored(cal, row, own, latest, r.value)
  {
    hide CanonField, PublicValue, VisibleFields, Distinct, Names, Inherits, ShowsStored;
    VisibleMeans(cal, row, own, latest);
    var visible: map<string, Value> := map[];
    var extra := row.extra;
    NothingShown(cal, row, own, latest);
    for i := 0 to |latest|
      invariant VisibleFields(cal, row, Names(own), latest[..i]) == Ok(visible)
      invariant extra == LeftOver(row, Names(own), latest[..i])
    {
      var f := latest[i];
      OneMoreShown(cal, row, Names(own), latest, i);
      if f.name in Names(own) {
        visible := visible[f.name := PublicValue(f.ftype, Cell(row, f.name))];
      } else if f.name in extra {
        var text := CanonField(cal, Optional(f), extra[f.name]);
        if text.Err? {
          VisibleStops(cal, row, Names(own), latest, i + 1);
          return Err(text.error);
        }
        visible := visible[f.name := PublicValue(f.ftype, text.value)];
        extra := extra - {f.name};
      } else {
        visible := visible[f.name := Null];
      }
    }
    assert latest[..|latest|] == latest;
    r := Ok(visible + extra);
  }

  lemma NothingShown(cal: Calendar, row: Row, own: seq<Field>, latest: seq<Field>)
    ensures VisibleFields(cal, row, Names(own), latest[..0]) == Ok(map[])
    ensures LeftOver(row, Names(own), latest[..0]) == row.extra
  {
    assert latest[..0] == [];
  }

  /** One turn of the loop: the next field is shown, and its extra value, if taken, is gone. */
  lemma OneMoreShown(cal: Calendar, row: Row, own: set<string>, latest: seq<Field>, i: nat)
    requires i < |latest| && Distinct(latest)
    ensures latest[i].name !in Names(latest[..i])
    ensures Names(latest[..i + 1]) == Names(latest[..i]) + {latest[i].name}
    ensures VisibleFields(cal, row, own, latest[..i + 1])
         == (match VisibleFields(cal, row, own, latest[..i])
             case Err(e) => Err(e)
             case Ok(done) =>
               match VisibleField(cal, row, own, latest[i])
               case Err(e) => Err(e)
               case Ok(v) => Ok(done[latest[i].name := v]))
    ensures latest[i].name in row.extra && latest[i].name !in own ==>
              latest[i].name in LeftOver(row, own, latest[..i])
    ensures LeftOver(row, own, latest[..i + 1])
         == (if latest[i].name in own then LeftOver(row, own, latest[..i])
             else LeftOver(row, own, latest[..i]) - {latest[i].name})
  {
    hide VisibleField;
    assert latest[..i + 1][..i] == latest[..i];
    DistinctPrefix(latest, i + 1);
  }

  lemma {:induction false} DistinctPrefix(fields: seq<Field>, i: nat)
    requires Distinct(fields) && i <= |fields|
    ensures Distinct(fields[..i])
  {
    if i < |fields| {
      DistinctPrefix(fields[..|fields| - 1], i);
      assert fields[..|fields| - 1][..i] == fields[..i];
    } else {
      assert fields[..i] == fields;
    }
  }

  // ---------------------------------------------------------------- loops of a query

  lemma {:induction false} ShowRowsStops(cal: Calendar, rows: seq<Row>, own: seq<Field>, latest: seq<Field>, i: nat)
    requires i <= |rows| && ShowRows(cal, rows[..i], own, latest).Err?
    ensures ShowRows(cal, rows, own, latest) == ShowRows(cal, rows[..i], own, latest)
  {
    hide ShowRow;
    if i < |rows| {
      assert rows[..|rows| - 1][..i] == rows[..i];
      ShowRowsStops(cal, rows[..|rows| - 1], own, latest, i);
    } else {
      assert rows[..i] == rows;
    }
  }

  /** The inner loop of `_logical_rows`. */
  method ShowStoredRows(cal: Calendar, rows: seq<Row>, own: seq<Field>, latest: seq<Field>)
    returns (r: Result<seq<Shown>, Reason>)
    requires Distinct(latest)
    ensures r == ShowRows(cal, rows, own, latest)
  {
    hide VisibleRow, Distinct;
    var shown: seq<Shown> := [];
    for i := 0 to |rows|
      invariant ShowRows(cal, rows[..i], own, latest) == Ok(shown)
    {
      assert rows[..i + 1][..i] == rows[..i];
      var fields := PublicFields(cal, rows[i], own, latest);
      if fields.Err? {
        ShowRowsStops(cal, rows, own, latest, i + 1);
        return Err(fields.error);
      }
      shown := shown + [Shown(rows[i].eventId, rows[i].createdAt, rows[i].actorName, fields.value)];
    }
    assert rows[..|rows|] == rows;
    r := Ok(shown);
  }

  lemma {:induction false} ShowVersionsStops(env: Env, g: Group, csvId: string, schemas: seq<Schema>,
                                             latest: seq<Field>, i: nat)
    requires i <= |schemas| && ShowVersions(env, g, csvId, schemas[..i], latest).Err?
    ensures ShowVersions(env, g, csvId, schemas, latest) == ShowVersions(env, g, csvId, schemas[..i], latest)
  {
    hide ShowRows, ReadRows;
    if i < |schemas| {
      assert schemas[..|schemas| - 1][..i] == schemas[..i];
      ShowVersionsStops(env, g, csvId, schemas[..|schemas| - 1], latest, i);
    } else {
      assert schemas[..i] == schemas;
    }
  }

  /** The outer loop of `_logical_rows`, before the sort. */
  method ShowAllVersions(env: Env, g: Group, csvId: string, schemas: seq<Schema>, latest: seq<Field>)
    returns (r: Result<seq<Shown>, Reason>)
    requires Distinct(latest)
    ensures r == ShowVersions(env, g, csvId, schemas, latest)
  {
    hide ShowRows, ReadRows, Distinct;
    var all: seq<Shown> := [];
    for i := 0 to |schemas|
      invariant ShowVersions(env, g, csvId, schemas[..i], latest) == Ok(all)
    {
      assert schemas[..i + 1][..i] == schemas[..i];
      var rows := ReadRows(env, g, csvId, schemas[i].version, schemas[i].fields);
      if rows.Err? {
        ShowVersionsStops(env, g, csvId, schemas, latest, i + 1);
        return Err(rows.error);
      }
      var shown := ShowStoredRows(env.cal, rows.value, schemas[i].fields, latest);
      if shown.Err? {
        ShowVersionsStops(env, g, csvId, schemas, latest, i + 1);
        return Err(shown.error);
      }
      all := all + shown.value;
    }
    assert schemas[..|schemas|] == schemas;
    r := Ok(all);
  }

  /** `_matches`. */
  method RowMatches(same: (Value, Value) -> bool, row: Shown, filters: seq<(string, Value)>) returns (ok: bool)
    ensures ok <==> forall i :: 0 <= i < |filters| ==>
              same(if filters[i].0 == "_event_id" then Str(row.eventId)
                   else Get(row.fields, filters[i].0), filters[i].1)
    ensures ok <==> Matches(same, row, filters)
  {
    for i := 0 to |filters|
      invariant Matches(same, row, filters[..i])
    {
      var (name, expected) := filters[i];
      var actual := if name == "_event_id" then Str(row.eventId) else Get(row.fields, name);
      if !same(actual, expected) { return false; }
    }
    assert filters[..|filters|] == filters;
    ok := true;
  }

  /** Every row is kept as often as it occurs, or not at all: by its own values under the names. */
  lemma MatchedByFilters(same: (Value, Value) -> bool, rows: seq<Shown>, filters: seq<(string, Value)>)
    ensures forall r :: multiset(Matched(same, rows, filters))[r] ==
              if forall i :: 0 <= i < |filters| ==>
                   same(if filters[i].0 == "_event_id" then Str(r.eventId) else Get(r.fields, filters[i].0),
                        filters[i].1)
              then multiset(rows)[r] else 0
  {
    hide Matched;
    MatchedExactly(same, rows, filters);
  }

  method FilterRows(same: (Value, Value) -> bool, rows: seq<Shown>, filters: seq<(string, Value)>)
    returns (matched: seq<Shown>)
    ensures matched == Matched(same, rows, filters)
    ensures forall r :: multiset(matched)[r] ==
              if forall i :: 0 <= i < |filters| ==>
                   same(if filters[i].0 == "_event_id" then Str(r.eventId) else Get(r.fields, filters[i].0),
                        filters[i].1)
              then multiset(rows)[r] else 0
  {
    MatchedByFilters(same, rows, filters);
    hide Matches;
    matched := [];
    for i := 0 to |rows|
      invariant matched == Matched(same, rows[..i], filters)
    {
      assert rows[..i + 1][..i] == rows[..i];
      var ok := RowMatches(same, rows[i], filters);
      if ok { matched := matched + [rows[i]]; }
    }
    assert rows[..|rows|] == rows;
  }

  // ---------------------------------------------------------------- the object

  class CsvWorkspace {
    const env: Env
    var groups: Groups

    ghost predicate Valid()
      reads this
    {
      CollisionFree(env) && AllOk(env, groups)
    }

    constructor (env: Env)
      requires CollisionFree(env)
      ensures Valid() && this.env == env && groups == map[]
    {
      this.env := env;
      groups := map[];
    }

    /** `_ensure_group`. */
    method EnsureGroup(key: string)
      modifies this
      ensures groups == old(groups)[key := GroupOf(old(groups), key)]
    {
      if key !in groups {
        groups := groups[key := EMPTY_GROUP];
      }
    }

    /** `_write_new_version`: schema file, rows file, then read both back. */
    method WriteNewVersion(key: string, s: Schema, crash: Crash) returns (failure: Option<Reason>)
      requires key in groups
      modifies this
      ensures groups == old(groups)[key := WriteVersion(env, old(groups)[key], s, crash).0]
      ensures failure == WriteVersion(env, old(groups)[key], s, crash).1
    {
      hide TotalSize, LoadSchema, ReadRows, Header, CreateFile;
      var header := Header(s.fields);
      if TotalSize(env, groups[key]) + env.schemaSize(s) + env.headerSize(header) > MAX_GROUP_BYTES {
        return Some(GroupQuota);
      }
      groups := groups[key := CreateFile(groups[key], SchemaPath(s.csvId, s.version), SchemaFile(s))];
      if crash.AfterSchemaFile? { return Some(Crashed); }
      groups := groups[key := CreateFile(groups[key], RowsPath(s.csvId, s.version), RowsFile(header, []))];
      if crash.AfterRowsFile? { return Some(Crashed); }
      var stored := LoadSchema(env, groups[key], s.csvId, s.version);
      if stored.Err? { return Some(stored.error); }
      if env.schemaHash(stored.value) != env.schemaHash(s) { return Some(Integrity); }
      var rows := ReadRows(env, groups[key], s.csvId, s.version, stored.value.fields);
      if rows.Err? { return Some(Integrity); }
      failure := None;
    }

    /** `_append_catalog`. */
    method AppendToCatalog(key: string, e: CatalogEvent, crash: Crash) returns (failure: Option<Reason>)
      requires key in groups
      modifies this
      ensures groups == old(groups)[key := AppendCatalog(env, old(groups)[key], e, crash).0]
      ensures failure == AppendCatalog(env, old(groups)[key], e, crash).1
    {
      hide TotalSize, CatalogOf, CatalogBytes;
      var events := CatalogOf(groups[key]);
      if TotalSize(env, groups[key]) + env.catalogSize(e) > MAX_GROUP_BYTES { return Some(GroupQuota); }
      if CatalogBytes(env, events) + env.catalogSize(e) > MAX_FILE_BYTES { return Some(FileQuota); }
      groups := groups[key := Put(groups[key], CatalogPath, CatalogFile(events + [e]))];
      failure := if crash.AfterCatalog? then Some(Crashed) else None;
    }

    /** Write the files of a version, then announce it. */
    method PublishVersion(key: string, s: Schema, e: CatalogEvent, crash: Crash) returns (failure: Option<Reason>)
      requires key in groups
      modifies this
      ensures groups == old(groups)[key := Publish(env, old(groups)[key], s, e, crash).0]
      ensures failure == Publish(env, old(groups)[key], s, e, crash).1
    {
      hide WriteVersion, AppendCatalog;
      failure := WriteNewVersion(key, s, crash);
      if failure.None? {
        failure := AppendToCatalog(key, e, crash);
      }
    }

    /** `_create_dataset`. */
    method CreateNewDataset(key: string, ctx: Context, logical: Logical, name: string, description: string,
                            preset: Preset, raw: seq<RawField>, t: Times, crash: Crash)
      returns (r: Result<Response, Reason>)
      requires key in groups
      modifies this
      ensures var out := CreateDataset(env, old(groups)[key], ctx, logical, name, description, preset, raw, t, crash);
              groups == old(groups)[key := out.0] && r == out.1
    {
      hide InitialFields, LoadSchemas, DatasetAnswer, Publish, AfterPublish;
      if |logical| >= MAX_DATASETS_PER_GROUP { return Err(TooManyDatasets); }
      var fields := InitialFields(env, preset, raw);
      if fields.Err? { return Err(fields.error); }
      var csvId := NewDatasetId(env, ctx, name, preset, fields.value);
      if csvId in logical {
        var schemas := LoadSchemas(env, groups[key], logical[csvId], logical[csvId].latest);
        if schemas.Err? { return Err(schemas.error); }
        return DatasetAnswer(env, groups[key], logical[csvId], schemas.value, true);
      }
      var s := Schema(csvId, 1, name, description, preset, fields.value, t.schema, None);
      var e := DatasetCreated(csvId, 1, description, env.schemaHash(s), t.event,
                              ctx.user, ctx.userName, ctx.message, name, preset);
      var failure := PublishVersion(key, s, e, crash);
      if failure.Some? { return Err(failure.value); }
      r := AfterPublish(env, groups[key], csvId, [s]);
    }

    /** The end of `_create_version`: check stored extra data against the added fields, then publish. */
    method AddNewVersion(key: string, ctx: Context, d: Dataset, schemas: seq<Schema>, description: string,
                         additions: seq<Field>, t: Times, crash: Crash) returns (r: Result<Response, Reason>)
      requires key in groups
      modifies this
      ensures var out := AddVersion(env, old(groups)[key], ctx, d, schemas, description, additions, t, crash);
              groups == old(groups)[key := out.0] && r == out.1
    {
      hide Publish, AfterPublish, AllRows, CheckRows, Names;
      if d.latest >= MAX_VERSIONS_PER_DATASET { return Err(TooManyVersions); }
      if schemas == [] { return Err(Integrity); }
      var previous := schemas[|schemas| - 1];
      if Names(additions) * Names(previous.fields) != {} { return Err(FieldDuplicated); }
      if |previous.fields| + |additions| > MAX_FIELDS_PER_SCHEMA { return Err(TooManyFields); }
      var rows := AllRawRows(env, groups[key], d.csvId, d.latest);
      if rows.Err? { return Err(rows.error); }
      var refusal := CheckRows(env.cal, additions, rows.value);
      if refusal.Some? { return Err(refusal.value); }
      var s := Schema(d.csvId, d.latest + 1, d.name, if description != "" then description else d.description,
                      d.preset, previous.fields + additions, t.schema, Some(env.schemaHash(previous)));
      var e := VersionCreated(d.csvId, d.latest + 1, description, env.schemaHash(s), t.event,
                              ctx.user, ctx.userName, ctx.message);
      var failure := PublishVersion(key, s, e, crash);
      if failure.Some? { return Err(failure.value); }
      r := AfterPublish(env, groups[key], d.csvId, schemas + [s]);
    }

    /** `_create_version`. */
    method CreateNewVersion(key: string, ctx: Context, logical: Logical, csvId: string, name: string,
                            description: string, preset: Preset, raw: seq<RawField>, t: Times, crash: Crash)
      returns (r: Result<Response, Reason>)
      requires key in groups
      modifies this
      ensures var out :=
              CreateVersion(env, old(groups)[key], ctx, logical, csvId, name, description, preset, raw, t, crash);
              groups == old(groups)[key := out.0] && r == out.1
    {
      hide NormalizeFields, LoadSchemas, DatasetAnswer, AddVersion, FieldsNotIn, ReplayedEvent, Names;
      if csvId !in logical { return Err(CsvIdUnknown); }
      var d := logical[csvId];
      if name != d.name { return Err(RenamesDataset); }
      if preset != Custom && preset != d.preset { return Err(ChangesPreset); }
      var additions := NormalizeFields(env.cal, raw, true);
      if additions.Err? { return Err(additions.error); }
      if additions.value == [] { return Err(NoFields); }
      var schemas := LoadSchemas(env, groups[key], d, d.latest);
      if schemas.Err? { return Err(schemas.error); }
      var replayed := ReplayedEvent(d.events, ctx, 0);
      if replayed.Some? {
        var i := replayed.value;
        if 1 <= i < |schemas.value|
           && FieldsNotIn(schemas.value[i].fields, Names(schemas.value[i - 1].fields)) == additions.value {
          return DatasetAnswer(env, groups[key], d, schemas.value, true);
        }
        return Err(ReplayDiffers);
      }
      r := AddNewVersion(key, ctx, d, schemas.value, description, additions.value, t, crash);
    }

    /** Quotas, then `_append_row`. */
    method StoreNewRow(key: string, csvId: string, s: Schema, row: Row) returns (failure: Option<Reason>)
      requires key in groups
      modifies this
      ensures groups == old(groups)[key := StoreRow(env, old(groups)[key], csvId, s, row).0]
      ensures failure == StoreRow(env, old(groups)[key], csvId, s, row).1
    {
      hide TotalSize, Header, RowBytes, RowsOf, AddRow;
      var header := Header(s.fields);
      var bytes := env.rowSize(header, row);
      if bytes > MAX_ROW_BYTES { return Some(RowTooLarge); }
      if TotalSize(env, groups[key]) + bytes > MAX_GROUP_BYTES { return Some(GroupQuota); }
      if RowBytes(env, header, RowsOf(groups[key], csvId, s.version)) + bytes > MAX_FILE_BYTES {
        return Some(FileQuota);
      }
      groups := groups[key := AddRow(groups[key], csvId, s.version, s.fields, row)];
      failure := None;
    }

    /** `_append_result`: the public row, and in a ledger the balance of its account. */
    method AnswerAppend(g: Group, d: Dataset, s: Schema, row: Row, idempotent: bool)
      returns (r: Result<Response, Reason>)
      requires Distinct(s.fields)
      ensures r == AppendAnswer(env, g, d, s, row, idempotent)
    {
      hide VisibleRow, AllRows, BalanceOf, CanonDec, Distinct, Cell;
      var shown := PublicFields(env.cal, row, s.fields, s.fields);
      if shown.Err? { return Err(shown.error); }
      if !d.preset.Ledger? { return Ok(RowResponse(idempotent, d.csvId, s.version, row, shown.value, None)); }
      var rows := AllRawRows(env, g, d.csvId, d.latest);
      if rows.Err? { return Err(rows.error); }
      var account, currency := Cell(row, "account"), Cell(row, "currency");
      var total := LedgerSum(rows.value, account, currency);
      var amount := CanonDec(total);
      if amount.None? { return Err(BalanceTooLong); }
      var balance := Balance(account, currency, amount.value);
      r := Ok(RowResponse(idempotent, d.csvId, s.version, row, shown.value, Some(balance)));
    }

    /** The body of `append` inside the locks. */
    method AppendToDataset(key: string, ctx: Context, d: Dataset, raw: map<string, Value>, t: Times, crash: Crash)
      returns (r: Result<Response, Reason>)
      requires key in groups && DatasetOk(env, groups[key], d.csvId, d)
      modifies this
      ensures var out := AppendRow(env, old(groups)[key], ctx, d, raw, t, crash);
              groups == old(groups)[key := out.0] && r == out.1
    {
      hide LoadSchema, ReadRows, FindRow, NewRow, StoreRow, AppendAnswer, RowEventId, DatasetOk, Distinct;
      var s := LoadSchema(env, groups[key], d.csvId, d.latest);
      if s.Err? { return Err(s.error); }
      SchemaNamesDiffer(env, groups[key], d);
      var existing := ReadRows(env, groups[key], d.csvId, d.latest, s.value.fields);
      if existing.Err? { return Err(existing.error); }
      var eventId := RowEventId(env, ctx, d.csvId, d.latest, raw);
      var duplicate := FindRow(existing.value, eventId);
      if duplicate.Some? {
        r := AnswerAppend(groups[key], d, s.value, duplicate.value, true);
        return;
      }
      var row := NewRow(env, groups[key], ctx, d, s.value, raw, eventId, t);
      if row.Err? { return Err(row.error); }
      var failure := StoreNewRow(key, d.csvId, s.value, row.value);
      if failure.Some? { return Err(failure.value); }
      if crash.AfterRow? { return Err(Crashed); }
      var written := ReadRows(env, groups[key], d.csvId, s.value.version, s.value.fields);
      if written.Err? { return Err(written.error); }
      var stored := FindRow(written.value, row.value.eventId);
      if stored.None? || stored.value != row.value { return Err(Integrity); }
      r := AnswerAppend(groups[key], d, s.value, stored.value, false);
    }

    /** Read and replay the catalog of a group. */
    method ReadLogicalCatalog(key: string) returns (r: Result<Logical, Reason>)
      requires key in groups
      ensures r == ReadLogical(env, groups[key])
    {
      hide Replay, ReadCatalog;
      var events := ReadCatalog(env, groups[key]);
      if events.Err? { return Err(events.error); }
      r := LogicalCatalog(events.value);
    }

    /** One call, `create` or `append`, under the group lock. Whatever the outcome, the workspace
        stays in order and no other group changes; a create announces exactly one event or none,
        an append stores exactly one row or none, and the answer says which. */
    method Serve(call: Call) returns (r: Result<Response, Reason>)
      requires Valid()
      modifies this
      ensures Valid()
      ensures groups == Step(env, old(groups), call).0 && r == Step(env, old(groups), call).1
      ensures Screen(call).Some? ==> groups == old(groups) && r.Err?
      ensures Screen(call).None? ==>
                var key := env.scope(call.ctx.chat);
                key in groups && groups == old(groups)[key := groups[key]]
                && (if call.request.CreateRequest?
                    then CreateCallOutcome(env, GroupOf(old(groups), key), call, groups[key], r)
                    else AppendCallOutcome(env, GroupOf(old(groups), key), call, groups[key], r))
    {
      hide Screen, CollisionFree, AllOk, ReadLogical, GroupOf, CreateIn, AppendRow, CleanId, CreateCallOutcome,
           AppendCallOutcome, GroupOk, DatasetOk;
      ghost var before := groups;
      StepKeeps(env, groups, call);
      CallEffect(env, groups, call);
      var refusal := Screen(call);
      if refusal.Some? { return Err(refusal.value); }
      var key := env.scope(call.ctx.chat);
      EnsureGroup(key);
      var logical := ReadLogicalCatalog(key);
      if logical.Err? { return Err(logical.error); }
      if call.request.CreateRequest? {
        r := ServeCreate(key, logical.value, call);
      } else {
        var csvId := CleanId(call.request.csvId);
        if csvId !in logical.value { return Err(CsvIdUnknown); }
        ListedIsInOrder(env, before, key, csvId);
        r := AppendToDataset(key, call.ctx, logical.value[csvId], call.request.row, call.times, call.crash);
      }
      ghost var out := InGroup(env, GroupOf(before, key), call);
      assert groups == before[key := GroupOf(before, key)][key := out.0] == before[key := out.0];
    }

    method ServeCreate(key: string, logical: Logical, call: Call) returns (r: Result<Response, Reason>)
      requires key in groups && Screen(call).None? && call.request.CreateRequest?
      modifies this
      ensures var out := CreateIn(env, old(groups)[key], logical, call);
              groups == old(groups)[key := out.0] && r == out.1
    {
      hide SafeText, ParsePreset, Strip, IsHexId, CreateDataset, CreateVersion, CleanId, ContextOk;
      var name := SafeText(call.request.name, 160, true).value;
      var description := SafeText(call.request.description, 1200, false).value;
      var preset := ParsePreset(call.request.preset).value;
      if Strip(call.request.versionOf) == "" {
        r := CreateNewDataset(key, call.ctx, logical, name, description, preset, call.request.fields, call.times,
                              call.crash);
      } else if !IsHexId(CleanId(call.request.versionOf)) {
        return Err(CsvIdInvalid);
      } else {
        r := CreateNewVersion(key, call.ctx, logical, CleanId(call.request.versionOf), name, description, preset,
                              call.request.fields, call.times, call.crash);
      }
    }

    /** `query`: it reads one group and changes nothing. */
    method QueryRows(same: (Value, Value) -> bool, ctx: Context, q: Query) returns (r: Result<Answered, Reason>)
      requires Valid()
      ensures r == if !ContextOk(ctx) then Err(ContextInvalid)
                   else RunQuery(env, same, GroupOf(groups, env.scope(ctx.chat)), q)
      ensures r.Ok? <==> ContextOk(ctx) && QueryTaken(env, same, GroupOf(groups, env.scope(ctx.chat)), q)
    {
      hide ContextOk, CleanId, ReadLogical, LoadSchemas, ShowVersions, SortRows, NormalizeFilters, Matched, SumOf,
           FieldsAt, CollisionFree, AllOk, DatasetOk, QueryTaken, GroupOk;
      GroupOfOk(env, groups, env.scope(ctx.chat));
      AnsweredIfTaken(env, same, GroupOf(groups, env.scope(ctx.chat)), q);
      if !ContextOk(ctx) { return Err(ContextInvalid); }
      if !IsHexId(CleanId(q.csvId)) { return Err(CsvIdInvalid); }
      if |q.filters| > MAX_QUERY_FILTERS || q.offset < 0 || !(1 <= q.limit <= MAX_QUERY_ROWS) {
        return Err(QueryInvalid);
      }
      var key := env.scope(ctx.chat);
      if key !in groups {
        NothingInEmptyGroup(env);
        return Err(CsvIdUnknown);
      }
      var logical := ReadLogicalCatalog(key);
      if logical.Err? { return Err(logical.error); }
      if CleanId(q.csvId) !in logical.value { return Err(CsvIdUnknown); }
      ListedIsInOrder(env, groups, key, CleanId(q.csvId));
      r := QueryIn(same, key, logical.value[CleanId(q.csvId)], q);
    }

    /** The part of `query` that reads the dataset. */
    method QueryIn(same: (Value, Value) -> bool, key: string, d: Dataset, q: Query)
      returns (r: Result<Answered, Reason>)
      requires key in groups && DatasetOk(env, groups[key], d.csvId, d) && q.offset >= 0 && q.limit >= 1
      ensures r == QueryDataset(env, same, groups[key], d, q)
    {
      hide LoadSchemas, ShowVersions, SortRows, NormalizeFilters, Matched, SumOf, FieldsAt, Distinct, DatasetOk;
      SchemaNamesDiffer(env, groups[key], d);
      var schemas := LoadSchemas(env, groups[key], d, d.latest);
      if schemas.Err? { return Err(schemas.error); }
      var fields := FieldsAt(env, groups[key], d.csvId, d.latest);
      var shown := ShowAllVersions(env, groups[key], d.csvId, schemas.value, fields);
      if shown.Err? { return Err(shown.error); }
      var normalized := NormalizeFilters(env.cal, fields, q.filters);
      if normalized.Err? { return Err(normalized.error); }
      var matched := FilterRows(same, SortRows(shown.value), normalized.value);
      var sum := SumOf(fields, matched, q.sumField);
      if sum.Err? { return Err(sum.error); }
      r := Ok(Answered(Page(matched, q.offset, q.limit), HasMore(matched, q.offset, q.limit),
                       if q.count then Some(|matched|) else None, sum.value));
    }
  }

  /** What the two kinds of calls do, at the level of all groups. */
  lemma CallEffect(env: Env, groups: Groups, call: Call)
    requires CollisionFree(env) && AllOk(env, groups)
    ensures Screen(call).None? ==>
              var g := GroupOf(groups, env.scope(call.ctx.chat));
              var out := InGroup(env, g, call);
              if call.request.CreateRequest?
              then CreateCallOutcome(env, g, call, out.0, out.1)
              else AppendCallOutcome(env, g, call, out.0, out.1)
  {
    hide Screen, CollisionFree, AllOk, GroupOf, InGroup, CreateCallOutcome, AppendCallOutcome, GroupOk;
    if Screen(call).None? {
      var g := GroupOf(groups, env.scope(call.ctx.chat));
      GroupOfOk(env, groups, env.scope(call.ctx.chat));
      if call.request.CreateRequest? { CreateCallEffect(env, g, call); } else { AppendCallEffect(env, g, call); }
    }
  }

  /** A dataset that the catalog of a group lists is in order. */
  lemma ListedIsInOrder(env: Env, groups: Groups, key: string, csvId: string)
    requires AllOk(env, groups) && ReadLogical(env, GroupOf(groups, key)).Ok?
    requires csvId in ReadLogical(env, GroupOf(groups, key)).value
    ensures var d := ReadLogical(env, GroupOf(groups, key)).value[csvId];
            d.csvId == csvId && DatasetOk(env, GroupOf(groups, key), csvId, d)
  {
    hide AllOk, ReadLogical, GroupOf, GroupOk, DatasetOk, Replay, CatalogOf;
    GroupOfOk(env, groups, key);
    ReplayIsOk(env, GroupOf(groups, key));
    LogicalBounds(env, GroupOf(groups, key), csvId);
  }

  /** The fields of the latest version have distinct names. */
  lemma SchemaNamesDiffer(env: Env, g: Group, d: Dataset)
    requires DatasetOk(env, g, d.csvId, d)
    ensures LoadSchema(env, g, d.csvId, d.latest).Ok? && Distinct(LoadSchema(env, g, d.csvId, d.latest).value.fields)
    ensures Distinct(FieldsAt(env, g, d.csvId, d.latest))
  {
    hide LoadSchema, ChainOk, AllProject, LedgerFilesOk, Distinct;
    DatasetChain(env, g, d);
    ChainReads(env, g, d, d.latest);
    PreviousDistinct(env, g, d);
  }

  lemma NothingInEmptyGroup(env: Env)
    ensures ReadLogical(env, EMPTY_GROUP) == Ok(map[])
  {
  }
}
