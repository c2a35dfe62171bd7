/** A create that dies after it wrote its schema and before its event: the file stays, and it holds
    the clock reading of that attempt. */
module CsvInterrupted {
  import opened Text
  import opened CsvFields
  import opened CsvMeaning
  import opened CsvStore
  import opened CsvAppend
  import opened CsvInvariant
  import opened CsvPreserve
  import opened CsvSteps
  import opened CsvReplay
  import opened CsvEffects
  import opened CsvCreated
  import opened CsvRuns

  /** The first schema file of a dataset. */
  function SchemaFileOf(g: Group, csvId: string): Option<File> { Lookup(g, SchemaPath(csvId, 1)) }

  /** A schema file, once written, is never changed. */
  lemma FileStays(g: Group, h: Group, csvId: string)
    requires Grown(g, h) && SchemaFileOf(g, csvId).Some? && SchemaFileOf(g, csvId).value.SchemaFile?
    ensures SchemaFileOf(h, csvId) == SchemaFileOf(g, csvId)
  {
    assert FileGrows(g.files[SchemaPath(csvId, 1)], h.files[SchemaPath(csvId, 1)]);
  }

  /** The id and the schema that a create of a new dataset stands for. */
  lemma AsksFor(env: Env, call: Call)
    requires Screen(call).None? && CreatesDataset(call) && RequestedId(env, call).Some?
    ensures FieldsAsked(call) == InitialFields(env, PresetOf(call), call.request.fields).value
    ensures RequestedId(env, call).value == NewDatasetId(env, call.ctx, NameOf(call), PresetOf(call), FieldsAsked(call))
  {
    hide Screen, InitialFields, NewDatasetId, FieldsAsked, NameOf, PresetOf;
    InitialAsked(env, call);
  }

  /** Where another schema stands in the place of the one asked for, nothing is announced. */
  lemma PlaceIsTaken(env: Env, m: Group, again: Call)
    requires CollisionFree(env) && GroupOk(env, m) && Screen(again).None? && CreatesDataset(again)
    requires RequestedId(env, again).Some? && DatasetIn(m, RequestedId(env, again).value).None?
    requires var id := RequestedId(env, again).value;
             SchemaFileOf(m, id).Some? && SchemaFileOf(m, id) != Some(SchemaFile(SchemaAsked(again, id)))
    ensures InGroup(env, m, again).1.Err? && CatalogOf(InGroup(env, m, again).0) == CatalogOf(m)
  {
    hide GroupOk, Screen, Replay, CatalogOf, ReadLogical, InitialFields, CollisionFree, Strip, CreateIn, NewDatasetId,
         WriteVersion, LoadSchemas, DatasetAnswer, AfterPublish, Written, LEDGER_FIELDS, FieldsFor, NameOf,
         DescriptionOf, PresetOf, PresetFor, FieldsAsked, SchemaFileOf, OnlyAdds;
    var id := RequestedId(env, again).value;
    ReplayIsOk(env, m);
    CreateInIs(env, m, Replay(CatalogOf(m)).value, again);
    AskedMeans(again);
    AsksFor(env, again);
    NotAnnounced(m, id);
    var s := SchemaAsked(again, id);
    NotWritten(env, m, s, again.crash);
    WriteFiles(env, m, s, again.crash);
    SameCatalog(m, WriteVersion(env, m, s, again.crash).0, id, 1);
  }

  lemma NotWritten(env: Env, m: Group, s: Schema, crash: Crash)
    requires CollisionFree(env) && s.version == 1
    requires SchemaFileOf(m, s.csvId).Some? && SchemaFileOf(m, s.csvId) != Some(SchemaFile(s))
    ensures WriteVersion(env, m, s, crash).1.Some?
  {
    hide TotalSize, Header, ReadRows;
  }

  /** What an interrupted create leaves behind, if it got as far as writing. */
  lemma WritesItsSchema(env: Env, g: Group, call: Call)
    requires CollisionFree(env) && GroupOk(env, g) && Screen(call).None? && CreatesDataset(call)
    requires call.crash.AfterSchemaFile? || call.crash.AfterRowsFile?
    requires RequestedId(env, call).Some? && SchemaFileOf(g, RequestedId(env, call).value).None?
    requires DatasetIn(g, RequestedId(env, call).value).None? && InGroup(env, g, call).0 != g
    ensures var id := RequestedId(env, call).value;
            SchemaFileOf(InGroup(env, g, call).0, id) == Some(SchemaFile(SchemaAsked(call, id)))
            && CatalogOf(InGroup(env, g, call).0) == CatalogOf(g)
  {
    hide GroupOk, Screen, Replay, CatalogOf, ReadLogical, InitialFields, CollisionFree, Strip, CreateIn, NewDatasetId,
         WriteVersion, LoadSchemas, DatasetAnswer, AfterPublish, Written, LEDGER_FIELDS, FieldsFor, NameOf,
         DescriptionOf, PresetOf, PresetFor, FieldsAsked, SchemaFileOf, OnlyAdds, AppendCatalog;
    var id := RequestedId(env, call).value;
    ReplayIsOk(env, g);
    CreateInIs(env, g, Replay(CatalogOf(g)).value, call);
    AskedMeans(call);
    AsksFor(env, call);
    NotAnnounced(g, id);
    var s := SchemaAsked(call, id);
    WrittenUntilCrash(env, g, s, call.crash);
    WriteFiles(env, g, s, call.crash);
    SameCatalog(g, WriteVersion(env, g, s, call.crash).0, id, 1);
  }

  lemma WrittenUntilCrash(env: Env, g: Group, s: Schema, crash: Crash)
    requires s.version == 1 && SchemaFileOf(g, s.csvId).None? && (crash.AfterSchemaFile? || crash.AfterRowsFile?)
    ensures var w := WriteVersion(env, g, s, crash);
            w.1.Some? && (w.0 != g ==> SchemaFileOf(w.0, s.csvId) == Some(SchemaFile(s)))
  {
    hide TotalSize, Header, LoadSchema, ReadRows;
  }

  /** A create that died between writing its schema and announcing it can be repeated only at the
      very same clock reading: at any other, after any further calls, it is refused and announces
      nothing. If the dataset is there nevertheless, it was announced at that reading. */
  lemma InterruptedIsBlocked(env: Env, groups: Groups, call: Call, later: seq<Call>, again: Call)
    requires CollisionFree(env) && AllOk(env, groups)
    requires Screen(call).None? && CreatesDataset(call) && Screen(again).None? && Retries(call, again)
    requires call.crash.AfterSchemaFile? || call.crash.AfterRowsFile?
    requires again.times.schema != call.times.schema && RequestedId(env, call).Some?
    requires var g, id := GroupOf(groups, env.scope(call.ctx.chat)), RequestedId(env, call).value;
             SchemaFileOf(g, id).None? && DatasetIn(g, id).None? && InGroup(env, g, call).0 != g
    ensures var mid, id := Run(env, Step(env, groups, call).0, later), RequestedId(env, call).value;
            var m := GroupOf(mid, env.scope(call.ctx.chat));
            if DatasetIn(m, id).None? then
              Step(env, mid, again).1.Err?
              && CatalogOf(GroupOf(Step(env, mid, again).0, env.scope(call.ctx.chat))) == CatalogOf(m)
            else LoadSchema(env, m, id, 1).Ok? && LoadSchema(env, m, id, 1).value.createdAt == call.times.schema
  {
    hide GroupOk, Screen, InGroup, DatasetIn, Grown, CollisionFree, Run, AllOk, EMPTY_GROUP, RequestedId, Strip,
         CatalogOf, SchemaFileOf, LoadSchema, SchemaAsked;
    var key := env.scope(call.ctx.chat);
    var g := GroupOf(groups, key);
    var after := Step(env, groups, call).0;
    var mid := Run(env, after, later);
    var id := RequestedId(env, call).value;
    GroupOfOk(env, groups, key);
    StepKeeps(env, groups, call);
    RunKeeps(env, after, later);
    RunFrame(env, after, later, key);
    GroupOfOk(env, mid, key);
    WritesItsSchema(env, g, call);
    FileStays(after[key], mid[key], id);
    SameRequestedId(env, call, again);
    SchemaTells(call, again, id);
    if DatasetIn(mid[key], id).None? {
      PlaceIsTaken(env, mid[key], again);
    } else {
      FirstSchemaLoads(env, mid[key], id);
      LoadedIsFile(env, mid[key], id);
    }
  }

  lemma SchemaTells(call: Call, again: Call, id: string)
    requires call.request.CreateRequest? && again.request.CreateRequest?
    ensures SchemaAsked(call, id).createdAt == call.times.schema
    ensures SchemaAsked(again, id).createdAt == again.times.schema
  {
    hide FieldsAsked, PresetFor, Strip;
  }

  lemma FirstSchemaLoads(env: Env, m: Group, csvId: string)
    requires GroupOk(env, m) && DatasetIn(m, csvId).Some?
    ensures LoadSchema(env, m, csvId, 1).Ok?
  {
    hide GroupOk, Replay, CatalogOf, DatasetOk, ChainOk, LoadSchema;
    LogicalBounds(env, m, csvId);
    var d := DatasetIn(m, csvId).value;
    DatasetChain(env, m, d);
    ChainPrefix(env, m, d, 1, d.latest);
    ChainReads(env, m, d, 1);
  }

  lemma LoadedIsFile(env: Env, m: Group, csvId: string)
    requires LoadSchema(env, m, csvId, 1).Ok?
    ensures SchemaFileOf(m, csvId) == Some(SchemaFile(LoadSchema(env, m, csvId, 1).value))
  {
  }

  /** So it does happen: the first create of a group dies after its schema file, and the same
      request a moment later is refused. */
  lemma InterruptedRun(env: Env, call: Call, again: Call)
    requires Roomy(env) && CreatesLedger(call.(crash := Never)) && call.crash.AfterSchemaFile?
    requires Screen(again).None? && Retries(call, again) && again.times.schema != call.times.schema
    ensures Screen(call).None?
    ensures var mid := Step(env, map[], call).0;
            Step(env, mid, again).1.Err?
            && CatalogOf(GroupOf(Step(env, mid, again).0, env.scope(call.ctx.chat))) == []
  {
    hide GroupOk, Screen, InGroup, DatasetIn, Grown, CollisionFree, EMPTY_GROUP, RequestedId, Strip, CatalogOf,
         SchemaFileOf, LoadSchema, CreatesDataset, Retries, ContextOk, SafeText, ParsePreset;
    LedgerCallPasses(call.(crash := Never));
    SameScreen(call);
    FirstWrite(env, call);
    EmptyGroupOk(env);
    EmptySize(env);
    assert Run(env, Step(env, map[], call).0, []) == Step(env, map[], call).0;
    InterruptedIsBlocked(env, map[], call, [], again);
    NothingThere(env, call);
  }

  lemma SameScreen(call: Call)
    ensures Screen(call) == Screen(call.(crash := Never))
    ensures CreatesDataset(call) == CreatesDataset(call.(crash := Never))
  {
    hide SafeText, ParsePreset, ContextOk, Strip, IsHexId, CleanId, SuppliesSystemFields;
  }

  lemma NothingThere(env: Env, call: Call)
    requires CollisionFree(env) && Screen(call).None? && CreatesDataset(call) && RequestedId(env, call).Some?
    requires call.crash.AfterSchemaFile? && SchemaFileOf(EMPTY_GROUP, RequestedId(env, call).value).None?
    requires DatasetIn(EMPTY_GROUP, RequestedId(env, call).value).None?
             && InGroup(env, EMPTY_GROUP, call).0 != EMPTY_GROUP
    ensures var id := RequestedId(env, call).value;
            CatalogOf(InGroup(env, EMPTY_GROUP, call).0) == []
            && DatasetIn(InGroup(env, EMPTY_GROUP, call).0, id).None?
  {
    hide GroupOk, Screen, InGroup, CollisionFree, EMPTY_GROUP, RequestedId, CatalogOf, SchemaFileOf, CreatesDataset,
         Replay;
    EmptyGroupOk(env);
    EmptySize(env);
    WritesItsSchema(env, EMPTY_GROUP, call);
  }

  lemma FirstWrite(env: Env, call: Call)
    requires Roomy(env) && Screen(call).None? && CreatesDataset(call) && PresetOf(call) == Ledger
    requires call.request.fields == [] && call.crash.AfterSchemaFile?
    ensures RequestedId(env, call).Some?
    ensures SchemaFileOf(EMPTY_GROUP, RequestedId(env, call).value).None?
            && DatasetIn(EMPTY_GROUP, RequestedId(env, call).value).None?
            && InGroup(env, EMPTY_GROUP, call).0 != EMPTY_GROUP
  {
    hide GroupOk, Screen, ReadLogical, CollisionFree, Strip, CreateIn, NewDatasetId, NameOf, DescriptionOf, PresetOf,
         Header, LEDGER_FIELDS, Replay, CatalogOf, TotalSize;
    EmptyGroupOk(env);
    EmptySize(env);
    ReplayIsOk(env, EMPTY_GROUP);
    CreateInIs(env, EMPTY_GROUP, map[], call);
    NotAnnounced(EMPTY_GROUP, RequestedId(env, call).value);
  }
}
