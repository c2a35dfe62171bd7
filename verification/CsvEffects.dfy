/** What one operation does to a group, all or nothing: an append stores exactly one row or
    none, a create announces exactly one event or none, and the answer says which. */
module CsvEffects {
  import opened Text
  import opened Decimals
  import opened CsvFields
  import opened CsvStore
  import opened CsvAppend
  import opened CsvLedger
  import opened CsvInvariant
  import opened CsvPreserve
  import opened CsvSteps
  import opened CsvReplay

  // ---------------------------------------------------------------- appending

  /** The quota that a row of the latest version would exceed: 16 KiB for itself, 100 MiB for the
      group, 10 MiB for its file. */
  function OverQuota(env: Env, g: Group, csvId: string, s: Schema, row: Row): Option<Reason> {
    var bytes := env.rowSize(Header(s.fields), row);
    if bytes > 16 * 1024 then Some(RowTooLarge)
    else if TotalSize(env, g) + bytes > 100 * 1024 * 1024 then Some(GroupQuota)
    else if RowBytes(env, Header(s.fields), RowsOf(g, csvId, s.version)) + bytes > 10 * 1024 * 1024 then Some(FileQuota)
    else None
  }

  /** What an append may do: repeat the answer for a stored row, refuse and change nothing, or
      store exactly the new row and, unless the process dies, answer with it. */
  ghost predicate AppendOutcome(env: Env, g: Group, ctx: Context, d: Dataset, raw: map<string, Value>, t: Times,
                                crash: Crash, h: Group, r: Result<Response, Reason>)
    requires LoadSchema(env, g, d.csvId, d.latest).Ok?
  {
    var id := RowEventId(env, ctx, d.csvId, d.latest, raw);
    match FindRow(RowsOf(g, d.csvId, d.latest), id)
    case Some(row) => h == g && AnswersWith(env, g, d, r, row, true)
    case None =>
      var s := LoadSchema(env, g, d.csvId, d.latest).value;
      match NewRow(env, g, ctx, d, s, raw, id, t)
      case Err(e) => h == g && r == Err(e)
      case Ok(row) =>
        match OverQuota(env, g, d.csvId, s, row)
        case Some(e) => h == g && r == Err(e)
        case None =>
          RowAdded(g, h, d.csvId, d.latest, row)
          && (if crash.AfterRow? then r == Err(Crashed) else AnswersWith(env, h, d, r, row, false))
  }

  lemma NewIsFound(rows: seq<Row>, row: Row)
    requires FindRow(rows, row.eventId).None?
    ensures FindRow(rows + [row], row.eventId) == Some(row)
  {
    assert (rows + [row])[..|rows|] == rows;
  }

  /** A stored row can be read back, and the answer is about it. */
  lemma StoredIsAnswered(env: Env, g: Group, h: Group, d: Dataset, s: Schema, row: Row)
    requires GroupOk(env, h) && DatasetIn(h, d.csvId) == Some(d)
    requires LoadSchema(env, h, d.csvId, d.latest) == Ok(s)
    requires RowsOf(h, d.csvId, d.latest) == RowsOf(g, d.csvId, d.latest) + [row]
    requires FindRow(RowsOf(g, d.csvId, d.latest), row.eventId).None?
    ensures AnswersWith(env, h, d, ReadBack(env, h, d, s, row), row, false)
  {
    hide GroupOk, DatasetOk, LoadSchema, ReadRows, RowsOf, FindRow, AppendAnswer, AnswersWith, Replay, CatalogOf,
         ChainOk;
    LogicalBounds(env, h, d.csvId);
    DatasetChain(env, h, d);
    LatestFacts(env, h, d, s);
    RowsOfVersion(env, h, d.csvId, s.version, s.fields);
    NewIsFound(RowsOf(g, d.csvId, d.latest), row);
    assert row in RowsOf(h, d.csvId, d.latest);
    AnswerForStoredRow(env, h, d, s, row, false);
  }

  /** A row adds nothing to the catalog or to a schema. */
  lemma RowLeavesCatalog(env: Env, g: Group, h: Group, d: Dataset, row: Row)
    requires RowAdded(g, h, d.csvId, d.latest, row)
    ensures CatalogOf(h) == CatalogOf(g)
    ensures LoadSchema(env, h, d.csvId, d.latest) == LoadSchema(env, g, d.csvId, d.latest)
  {
    assert Lookup(h, CatalogPath) == Lookup(g, CatalogPath);
    assert Lookup(h, SchemaPath(d.csvId, d.latest)) == Lookup(g, SchemaPath(d.csvId, d.latest));
  }

  lemma StoreRowRefused(env: Env, g: Group, csvId: string, s: Schema, row: Row)
    ensures StoreRow(env, g, csvId, s, row).1 == OverQuota(env, g, csvId, s, row)
    ensures StoreRow(env, g, csvId, s, row).1.Some? ==> StoreRow(env, g, csvId, s, row).0 == g
  {
    hide TotalSize, Header, RowBytes, RowsOf;
  }

  lemma NewRowOutcome(env: Env, g: Group, ctx: Context, d: Dataset, s: Schema, raw: map<string, Value>, t: Times,
                      crash: Crash)
    requires CollisionFree(env) && GroupOk(env, g) && DatasetIn(g, d.csvId) == Some(d)
    requires LoadSchema(env, g, d.csvId, d.latest) == Ok(s)
    requires FindRow(RowsOf(g, d.csvId, d.latest), RowEventId(env, ctx, d.csvId, d.latest, raw)).None?
    requires NewRow(env, g, ctx, d, s, raw, RowEventId(env, ctx, d.csvId, d.latest, raw), t).Ok?
    ensures var id := RowEventId(env, ctx, d.csvId, d.latest, raw);
            var row := NewRow(env, g, ctx, d, s, raw, id, t).value;
            var out := AppendNew(env, g, ctx, d, s, raw, id, t, crash);
            match OverQuota(env, g, d.csvId, s, row)
            case Some(e) => out.0 == g && out.1 == Err(e)
            case None =>
              RowAdded(g, out.0, d.csvId, d.latest, row)
              && (if crash.AfterRow? then out.1 == Err(Crashed) else AnswersWith(env, out.0, d, out.1, row, false))
  {
    hide GroupOk, Replay, CatalogOf, DatasetOk, LoadSchema, ReadRows, FindRow, NewRow, StoreRow, ReadBack, RowEventId,
         RowsOf, ListingOk, TotalSize, Lookup, RowAdded, ChainOk, AnswersWith, CollisionFree, OverQuota;
    var id := RowEventId(env, ctx, d.csvId, d.latest, raw);
    var row := NewRow(env, g, ctx, d, s, raw, id, t).value;
    LogicalBounds(env, g, d.csvId);
    DatasetChain(env, g, d);
    LatestFacts(env, g, d, s);
    GroupSizes(env, g);
    NewRowFits(env, g, ctx, d, s, raw, id, t);
    StoreRowKeeps(env, g, ctx, d, s, raw, t);
    StoreRowEffect(env, g, d.csvId, s, row);
    StoreRowRefused(env, g, d.csvId, s, row);
    var h := StoreRow(env, g, d.csvId, s, row).0;
    if h != g {
      RowLeavesCatalog(env, g, h, d, row);
      AddedRows(g, h, d.csvId, d.latest, row);
      StoredIsAnswered(env, g, h, d, s, row);
    }
  }

  lemma AddedRows(g: Group, h: Group, csvId: string, n: nat, row: Row)
    requires RowAdded(g, h, csvId, n, row)
    ensures RowsOf(h, csvId, n) == RowsOf(g, csvId, n) + [row]
  {
  }

  /** An append stores exactly one row or none, and the answer says which. */
  lemma AppendEffect(env: Env, g: Group, ctx: Context, d: Dataset, raw: map<string, Value>, t: Times, crash: Crash)
    requires CollisionFree(env) && GroupOk(env, g) && DatasetIn(g, d.csvId) == Some(d)
    ensures LoadSchema(env, g, d.csvId, d.latest).Ok?
    ensures var out := AppendRow(env, g, ctx, d, raw, t, crash);
            AppendOutcome(env, g, ctx, d, raw, t, crash, out.0, out.1)
  {
    hide GroupOk, Replay, CatalogOf, DatasetOk, LoadSchema, ReadRows, FindRow, NewRow, StoreRow, ReadBack, RowEventId,
         RowsOf, ChainOk, AnswersWith, CollisionFree, AppendAnswer, RowAdded, OverQuota;
    LogicalBounds(env, g, d.csvId);
    DatasetChain(env, g, d);
    ChainReads(env, g, d, d.latest);
    var s := LoadSchema(env, g, d.csvId, d.latest).value;
    LatestFacts(env, g, d, s);
    RowsOfVersion(env, g, d.csvId, d.latest, s.fields);
    var id := RowEventId(env, ctx, d.csvId, d.latest, raw);
    if FindRow(RowsOf(g, d.csvId, d.latest), id).Some? {
      FoundRow(RowsOf(g, d.csvId, d.latest), id);
      AnswerForStoredRow(env, g, d, s, FindRow(RowsOf(g, d.csvId, d.latest), id).value, true);
    } else if NewRow(env, g, ctx, d, s, raw, id, t).Ok? {
      NewRowOutcome(env, g, ctx, d, s, raw, t, crash);
    }
  }

  // ---------------------------------------------------------------- creating

  /** What a create may do: leave the catalog alone, and then either refuse or repeat an earlier
      answer; or announce exactly one event in the caller's name and, unless the process dies,
      answer with the dataset as the catalog now has it. */
  predicate CreateOutcome(env: Env, g: Group, ctx: Context, isNew: bool, crash: Crash, h: Group,
                          r: Result<Response, Reason>)
  {
    if CatalogOf(h) == CatalogOf(g) then
      r.Err? || (h == g && r.value.DatasetResponse? && AnswersDataset(env, g, r.value.info.dataset.csvId, r))
    else
      && |CatalogOf(h)| == |CatalogOf(g)| + 1 && CatalogOf(g) <= CatalogOf(h)
      && var e := CatalogOf(h)[|CatalogOf(g)|];
      && e.DatasetCreated? == isNew && e.actorId == ctx.user && e.messageId == ctx.message
      && (if crash.AfterCatalog? then r == Err(Crashed)
          else r.Ok? && r.value.DatasetResponse? && !r.value.idempotent
               && DatasetIn(h, e.csvId) == Some(r.value.info.dataset) && Describes(env, h, r.value.info))
  }

  lemma PublishCrash(env: Env, g: Group, s: Schema, e: CatalogEvent, crash: Crash)
    requires CatalogOf(Publish(env, g, s, e, crash).0) != CatalogOf(g)
    ensures Publish(env, g, s, e, crash).1 == if crash.AfterCatalog? then Some(Crashed) else None
  {
    hide WriteVersion, TotalSize, CatalogBytes, OnlyAdds;
    WriteFiles(env, g, s, crash);
    SameCatalog(g, WriteVersion(env, g, s, crash).0, s.csvId, s.version);
  }

  lemma LastEvent(events: seq<CatalogEvent>, e: CatalogEvent)
    ensures events <= events + [e] && (events + [e])[|events|] == e && events + [e] != events
  {
    assert |events + [e]| == |events| + 1;
  }

  /** The schemas of a grown dataset are the old ones and the new one. */
  lemma {:induction false} SchemasStay(env: Env, g: Group, h: Group, d: Dataset, d': Dataset, n: nat)
    requires Grown(g, h) && d'.csvId == d.csvId && d.events <= d'.events
    requires LoadSchemas(env, g, d, n).Ok? && n <= |d.events|
    ensures LoadSchemas(env, h, d', n) == LoadSchemas(env, g, d, n)
  {
    hide Grown, LoadSchema;
    if n == 0 {
    } else {
      SchemasStay(env, g, h, d, d', n - 1);
      SchemaStays(env, g, h, d.csvId, n);
    }
  }

  lemma AnnouncedSchema(env: Env, h: Group, d: Dataset, s: Schema)
    requires CollisionFree(env) && 1 <= d.latest == |d.events| && d.events[d.latest - 1].schemaHash == env.schemaHash(s)
    requires LoadSchemas(env, h, d, d.latest).Ok?
    ensures LoadSchemas(env, h, d, d.latest - 1).Ok?
    ensures LoadSchemas(env, h, d, d.latest).value == LoadSchemas(env, h, d, d.latest - 1).value + [s]
  {
    hide LoadSchema;
  }

  /** Once the announcing event is in, reading back answers with the dataset. */
  lemma AnnouncedIsAnswered(env: Env, h: Group, d: Dataset, schemas: seq<Schema>, s: Schema)
    requires CollisionFree(env) && GroupOk(env, h) && DatasetIn(h, d.csvId) == Some(d)
    requires 1 <= d.latest == |d.events| && d.events[d.latest - 1].schemaHash == env.schemaHash(s)
    requires LoadSchemas(env, h, d, d.latest - 1) == Ok(schemas)
    ensures var a := AfterPublish(env, h, d.csvId, schemas + [s]);
            a.Ok? && a.value.DatasetResponse? && !a.value.idempotent && a.value.info.dataset == d
            && Describes(env, h, a.value.info)
  {
    hide GroupOk, DatasetOk, LoadSchemas, ReadLogical, Replay, CatalogOf, ChainOk, DatasetAnswer, CollisionFree;
    ReplayIsOk(env, h);
    LogicalBounds(env, h, d.csvId);
    DatasetChain(env, h, d);
    ChainReads(env, h, d, d.latest);
    AnnouncedSchema(env, h, d, s);
    AnswerForDataset(env, h, d, false);
  }

  lemma NoSchemasYet(env: Env, h: Group, d: Dataset)
    ensures LoadSchemas(env, h, d, 0) == Ok([])
  {
  }

  lemma CreatedDataset(events: seq<CatalogEvent>, e: CatalogEvent)
    requires Replay(events).Ok? && Replay(events + [e]).Ok? && e.DatasetCreated?
    ensures e.csvId in Replay(events + [e]).value
    ensures Replay(events + [e]).value[e.csvId]
         == Dataset(e.csvId, e.name, e.description, e.preset, e.createdAt, e.actorName, 1, [e])
  {
    hide IsHexId, Replay;
    ReplayGrows(events, e);
  }

  lemma ExtendedDataset(events: seq<CatalogEvent>, e: CatalogEvent)
    requires Replay(events).Ok? && Replay(events + [e]).Ok? && e.VersionCreated?
    ensures e.csvId in Replay(events).value && e.csvId in Replay(events + [e]).value
    ensures var d, d' := Replay(events).value[e.csvId], Replay(events + [e]).value[e.csvId];
            d'.csvId == d.csvId && d'.latest == d.latest + 1 && d'.events == d.events + [e]
  {
    hide IsHexId, Replay;
    ReplayGrows(events, e);
  }

  /** A new dataset is announced by one event and answered, or nothing is announced. */
  lemma CreateDatasetEffect(env: Env, g: Group, ctx: Context, name: string, description: string, preset: Preset,
                            raw: seq<RawField>, t: Times, crash: Crash)
    requires CollisionFree(env) && GroupOk(env, g) && Replay(CatalogOf(g)).Ok?
    ensures var out := CreateDataset(env, g, ctx, Replay(CatalogOf(g)).value, name, description, preset, raw, t, crash);
            CreateOutcome(env, g, ctx, true, crash, out.0, out.1)
  {
    hide GroupOk, Replay, CatalogOf, InitialFields, Publish, DatasetAnswer, LoadSchemas, AfterPublish, NewDatasetId,
         CollisionFree, DatasetIn;
    var logical := Replay(CatalogOf(g)).value;
    if |logical| < MAX_DATASETS_PER_GROUP && InitialFields(env, preset, raw).Ok? {
      var fields := InitialFields(env, preset, raw).value;
      var csvId := NewDatasetId(env, ctx, name, preset, fields);
      if csvId in logical {
        assert DatasetIn(g, csvId) == Some(logical[csvId]) by { ListedHere(g, csvId); }
        ShownAgain(env, g, csvId);
      } else {
        var s := Schema(csvId, 1, name, description, preset, fields, t.schema, None);
        var e := DatasetCreated(csvId, 1, description, env.schemaHash(s), t.event,
                                ctx.user, ctx.userName, ctx.message, name, preset);
        CreateDatasetKeeps(env, g, ctx, name, description, preset, raw, t, crash);
        NewDatasetOutcome(env, g, s, e, crash);
        LastEvent(CatalogOf(g), e);
      }
    }
  }

  lemma ListedHere(g: Group, csvId: string)
    requires Replay(CatalogOf(g)).Ok?
    ensures csvId in Replay(CatalogOf(g)).value ==> DatasetIn(g, csvId) == Some(Replay(CatalogOf(g)).value[csvId])
  {
    hide Replay;
  }

  /** A dataset of the catalog can be described again. */
  lemma ShownAgain(env: Env, g: Group, csvId: string)
    requires GroupOk(env, g) && DatasetIn(g, csvId).Some?
    ensures var d := DatasetIn(g, csvId).value;
            d.csvId == csvId && LoadSchemas(env, g, d, d.latest).Ok?
            && AnswersDataset(env, g, csvId, DatasetAnswer(env, g, d, LoadSchemas(env, g, d, d.latest).value, true))
  {
    hide GroupOk, Replay, CatalogOf, DatasetOk, ChainOk, LoadSchemas, DatasetAnswer, Describes;
    LogicalBounds(env, g, csvId);
    var d := DatasetIn(g, csvId).value;
    DatasetChain(env, g, d);
    ChainReads(env, g, d, d.latest);
    AnswerForDataset(env, g, d, true);
  }

  /** The part of CreateOutcome that concerns the event. */
  predicate Published(g: Group, e: CatalogEvent, crash: Crash, out: (Group, Option<Reason>)) {
    if CatalogOf(out.0) == CatalogOf(g) then out.1.Some?
    else CatalogOf(out.0) == CatalogOf(g) + [e] && out.1 == if crash.AfterCatalog? then Some(Crashed) else None
  }

  lemma PublishedOrNot(env: Env, g: Group, s: Schema, e: CatalogEvent, crash: Crash)
    ensures Published(g, e, crash, Publish(env, g, s, e, crash))
  {
    hide Publish, CatalogOf;
    PublishEffect(env, g, s, e, crash);
    LastEvent(CatalogOf(g), e);
    if CatalogOf(Publish(env, g, s, e, crash).0) != CatalogOf(g) { PublishCrash(env, g, s, e, crash); }
  }

  lemma NewDatasetOutcome(env: Env, g: Group, s: Schema, e: CatalogEvent, crash: Crash)
    requires CollisionFree(env) && GroupOk(env, Publish(env, g, s, e, crash).0) && Replay(CatalogOf(g)).Ok?
    requires e.DatasetCreated? && s.csvId == e.csvId && e.schemaHash == env.schemaHash(s)
    ensures var w := Publish(env, g, s, e, crash);
            Published(g, e, crash, w)
            && (w.1.None? ==>
                  var a := AfterPublish(env, w.0, e.csvId, [s]);
                  a.Ok? && a.value.DatasetResponse? && !a.value.idempotent
                  && DatasetIn(w.0, e.csvId) == Some(a.value.info.dataset) && Describes(env, w.0, a.value.info))
  {
    hide GroupOk, Replay, CatalogOf, Publish, LoadSchemas, AfterPublish, CollisionFree;
    PublishedOrNot(env, g, s, e, crash);
    var w := Publish(env, g, s, e, crash);
    if w.1.None? {
      ReplayIsOk(env, w.0);
      CreatedDataset(CatalogOf(g), e);
      var d := Replay(CatalogOf(w.0)).value[e.csvId];
      NoSchemasYet(env, w.0, d);
      AnnouncedIsAnswered(env, w.0, d, [], s);
      assert [] + [s] == [s];
    }
  }

  lemma NewVersionOutcome(env: Env, g: Group, d: Dataset, schemas: seq<Schema>, s: Schema, e: CatalogEvent,
                          crash: Crash)
    requires CollisionFree(env) && GroupOk(env, g) && GroupOk(env, Publish(env, g, s, e, crash).0)
    requires DatasetIn(g, d.csvId) == Some(d) && LoadSchemas(env, g, d, d.latest) == Ok(schemas)
    requires e.VersionCreated? && s.csvId == e.csvId == d.csvId && e.schemaHash == env.schemaHash(s)
    ensures var w := Publish(env, g, s, e, crash);
            Published(g, e, crash, w)
            && (w.1.None? ==>
                  var a := AfterPublish(env, w.0, e.csvId, schemas + [s]);
                  a.Ok? && a.value.DatasetResponse? && !a.value.idempotent
                  && DatasetIn(w.0, e.csvId) == Some(a.value.info.dataset) && Describes(env, w.0, a.value.info))
  {
    hide GroupOk, Replay, CatalogOf, Publish, LoadSchemas, AfterPublish, CollisionFree, DatasetOk, Grown;
    PublishedOrNot(env, g, s, e, crash);
    var w := Publish(env, g, s, e, crash);
    if w.1.None? {
      ReplayIsOk(env, w.0);
      ExtendedDataset(CatalogOf(g), e);
      LogicalBounds(env, g, d.csvId);
      HasCatalog(env, g);
      PublishGrows(env, g, s, e, crash);
      var d' := Replay(CatalogOf(w.0)).value[e.csvId];
      SchemasStay(env, g, w.0, d, d', d.latest);
      AnnouncedIsAnswered(env, w.0, d', schemas, s);
    }
  }

  lemma AddVersionEffect(env: Env, g: Group, ctx: Context, d: Dataset, schemas: seq<Schema>, description: string,
                         additions: seq<Field>, t: Times, crash: Crash)
    requires CollisionFree(env) && GroupOk(env, g) && DatasetIn(g, d.csvId) == Some(d)
    requires LoadSchemas(env, g, d, d.latest) == Ok(schemas)
    requires Distinct(additions) && AllOptional(additions) && additions != []
    ensures var out := AddVersion(env, g, ctx, d, schemas, description, additions, t, crash);
            CreateOutcome(env, g, ctx, false, crash, out.0, out.1)
  {
    hide GroupOk, Replay, CatalogOf, Publish, LoadSchemas, AfterPublish, CollisionFree, AllRows, CheckRows, Names,
         Distinct, AllOptional;
    AddVersionKeeps(env, g, ctx, d, schemas, description, additions, t, crash);
    if schemas != [] {
      hide DatasetIn;
      var previous := schemas[|schemas| - 1];
      var s := Schema(d.csvId, d.latest + 1, d.name, if description != "" then description else d.description, d.preset,
                      previous.fields + additions, t.schema, Some(env.schemaHash(previous)));
      var e := VersionCreated(d.csvId, d.latest + 1, description, env.schemaHash(s), t.event,
                              ctx.user, ctx.userName, ctx.message);
      if GroupOk(env, Publish(env, g, s, e, crash).0) {
        NewVersionOutcome(env, g, d, schemas, s, e, crash);
        LastEvent(CatalogOf(g), e);
      }
    }
  }

  /** A new version is announced by one event and answered, or nothing is announced. */
  lemma CreateVersionEffect(env: Env, g: Group, ctx: Context, csvId: string, name: string, description: string,
                            preset: Preset, raw: seq<RawField>, t: Times, crash: Crash)
    requires CollisionFree(env) && GroupOk(env, g) && Replay(CatalogOf(g)).Ok?
    ensures var out := CreateVersion(env, g, ctx, Replay(CatalogOf(g)).value, csvId, name, description, preset, raw, t,
                                     crash);
            CreateOutcome(env, g, ctx, false, crash, out.0, out.1)
  {
    hide NormalizeFields, LoadSchemas, GroupOk, Replay, CatalogOf, AddVersion, DatasetAnswer, FieldsNotIn,
         ReplayedEvent, Distinct, AllOptional, Names, DatasetOk, CollisionFree;
    var logical := Replay(CatalogOf(g)).value;
    if csvId in logical && NormalizeFields(env.cal, raw, true).Ok? {
      var d := logical[csvId];
      NewFieldsOk(env.cal, raw);
      LogicalBounds(env, g, csvId);
      ShownAgain(env, g, csvId);
      var additions := NormalizeFields(env.cal, raw, true).value;
      if additions != [] && LoadSchemas(env, g, d, d.latest).Ok? {
        AddVersionEffect(env, g, ctx, d, LoadSchemas(env, g, d, d.latest).value, description, additions, t, crash);
      }
    }
  }

  // ---------------------------------------------------------------- a call

  /** What an append call may do. */
  ghost predicate AppendCallOutcome(env: Env, g: Group, call: Call, h: Group, r: Result<Response, Reason>)
    requires call.request.AppendRequest?
  {
    match DatasetIn(g, CleanId(call.request.csvId))
    case None => h == g && r == Err(CsvIdUnknown)
    case Some(d) =>
      LoadSchema(env, g, d.csvId, d.latest).Ok?
      && AppendOutcome(env, g, call.ctx, d, call.request.row, call.times, call.crash, h, r)
  }

  /** An append call stores exactly one row or none, and the answer says which. */
  lemma AppendCallEffect(env: Env, g: Group, call: Call)
    requires CollisionFree(env) && GroupOk(env, g) && Screen(call).None? && call.request.AppendRequest?
    ensures AppendCallOutcome(env, g, call, InGroup(env, g, call).0, InGroup(env, g, call).1)
  {
    hide GroupOk, Screen, Replay, CatalogOf, ReadLogical, CollisionFree, CleanId, AppendRow, AppendOutcome, LoadSchema,
         DatasetOk;
    ReplayIsOk(env, g);
    var csvId := CleanId(call.request.csvId);
    if DatasetIn(g, csvId).Some? {
      LogicalBounds(env, g, csvId);
      AppendEffect(env, g, call.ctx, DatasetIn(g, csvId).value, call.request.row, call.times, call.crash);
    }
  }

  lemma NothingAnnounced(env: Env, g: Group, ctx: Context, isNew: bool, crash: Crash, e: Reason)
    ensures CreateOutcome(env, g, ctx, isNew, crash, g, Err(e))
  {
  }

  /** A create call announces exactly one event or none, and the answer says which. */
  lemma CreateEffect(env: Env, g: Group, call: Call)
    requires CollisionFree(env) && GroupOk(env, g) && Screen(call).None? && call.request.CreateRequest?
    ensures var out := InGroup(env, g, call);
            CreateOutcome(env, g, call.ctx, CreatesDataset(call), call.crash, out.0, out.1)
  {
    hide GroupOk, ContextOk, Replay, CatalogOf, ReadLogical, SafeText, ParsePreset, CollisionFree, Strip,
         CreateDataset, CreateVersion, CreateOutcome, IsHexId, CleanId, DatasetIn;
    ReplayIsOk(env, g);
    var r := call.request;
    var name := SafeText(r.name, 160, true).value;
    var description := SafeText(r.description, 1200, false).value;
    var preset := ParsePreset(r.preset).value;
    CreateDatasetEffect(env, g, call.ctx, name, description, preset, r.fields, call.times, call.crash);
    CreateVersionEffect(env, g, call.ctx, CleanId(r.versionOf), name, description, preset, r.fields, call.times,
                        call.crash);
    NothingAnnounced(env, g, call.ctx, false, call.crash, CsvIdInvalid);
  }
}
