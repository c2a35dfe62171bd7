/** Every operation, with any crash, takes a group in order to a group in order. */
module CsvPreserve {
  import opened Text
  import opened Decimals
  import opened CsvFields
  import opened CsvStore
  import opened CsvAppend
  import opened CsvLedger
  import opened CsvInvariant

  // ---------------------------------------------------------------- announcing a version

  /** The catalog grew by one event and nothing else changed. */
  ghost predicate CatalogGrew(g: Group, h: Group, e: CatalogEvent) {
    && CatalogOf(h) == CatalogOf(g) + [e]
    && forall p :: p != CatalogPath ==> Lookup(h, p) == Lookup(g, p)
  }

  lemma ReplayGrows(events: seq<CatalogEvent>, e: CatalogEvent)
    requires Replay(events).Ok?
    ensures Replay(events + [e]) == ReplayStep(Replay(events).value, e)
  {
    hide ReplayStep;
    assert (events + [e])[..|events|] == events;
  }

  lemma CatalogBytesGrow(env: Env, events: seq<CatalogEvent>, e: CatalogEvent)
    ensures CatalogBytes(env, events + [e]) == CatalogBytes(env, events) + env.catalogSize(e)
  {
    assert (events + [e])[..|events|] == events;
  }

  /** What a successful `_append_catalog` leaves behind. */
  lemma AppendCatalogEffect(env: Env, g: Group, e: CatalogEvent, crash: Crash)
    requires GroupOk(env, g)
    ensures var h := AppendCatalog(env, g, e, crash).0;
            h == g
            || (CatalogGrew(g, h, e) && ListingOk(h) && TotalSize(env, h) <= MAX_GROUP_BYTES
                && CatalogPath in h.files && h.files[CatalogPath].CatalogFile?
                && CatalogBytes(env, CatalogOf(h)) <= MAX_FILE_BYTES)
    ensures AppendCatalog(env, g, e, crash).1.None? ==> AppendCatalog(env, g, e, crash).0 != g
  {
    hide TotalSize, ListingOk, LogicalOk, Replay, CatalogBytes;
    var events := CatalogOf(g);
    var f := CatalogFile(events + [e]);
    PutSize(env, g, CatalogPath, f);
    CatalogBytesGrow(env, events, e);
    assert |events + [e]| == |events| + 1;
  }

  /** The dataset map changed at one id only. */
  ghost predicate ChangedOnlyAt(logical: Logical, logical': Logical, csvId: string) {
    forall id :: id != csvId ==> (id in logical' <==> id in logical) && (id in logical ==> logical'[id] == logical[id])
  }

  lemma CatalogFrame(g: Group, h: Group, e: CatalogEvent, csvId: string, n: nat)
    requires CatalogGrew(g, h, e)
    ensures SameVersions(g, h, csvId, n)
  {
    hide SameVersions, CatalogOf;
    SameVersionsIfUntouched(g, h, csvId, n);
  }

  lemma AnnouncedMore(g: Group, h: Group, e: CatalogEvent, logical: Logical, logical': Logical, csvId: string)
    requires CatalogGrew(g, h, e) && OrphansEmpty(g, logical) && ChangedOnlyAt(logical, logical', csvId)
    requires csvId in logical' && (csvId in logical ==> logical[csvId].latest <= logical'[csvId].latest)
    ensures OrphansEmpty(h, logical')
  {
    hide CatalogOf;
    forall id, v | !Announced(logical', id, v)
      ensures RowsOf(h, id, v) == []
    {
      assert !Announced(logical, id, v);
      assert Lookup(h, RowsPath(id, v)) == Lookup(g, RowsPath(id, v));
    }
  }

  /** Announcing a version whose files are in order keeps the group in order. */
  lemma AnnounceKeeps(env: Env, g: Group, h: Group, e: CatalogEvent, logical': Logical)
    requires GroupOk(env, g) && CatalogGrew(g, h, e)
    requires ListingOk(h) && TotalSize(env, h) <= MAX_GROUP_BYTES
    requires CatalogPath in h.files && h.files[CatalogPath].CatalogFile?
    requires CatalogBytes(env, CatalogOf(h)) <= MAX_FILE_BYTES
    requires ReplayStep(Replay(CatalogOf(g)).value, e) == Ok(logical')
    requires |logical'| <= MAX_DATASETS_PER_GROUP && e.csvId in logical'
    requires ChangedOnlyAt(Replay(CatalogOf(g)).value, logical', e.csvId)
    requires var logical := Replay(CatalogOf(g)).value;
             e.csvId in logical ==> logical[e.csvId].latest <= logical'[e.csvId].latest
    requires DatasetOk(env, g, e.csvId, logical'[e.csvId])
    ensures GroupOk(env, h)
  {
    hide TotalSize, ListingOk, Replay, ReplayStep, CatalogBytes, DatasetOk, OrphansEmpty, CatalogOf;
    var logical := Replay(CatalogOf(g)).value;
    ReplayGrows(CatalogOf(g), e);
    AnnouncedMore(g, h, e, logical, logical', e.csvId);
    hide CatalogGrew;
    forall id | id in logical'
      ensures DatasetOk(env, h, id, logical'[id])
    {
      CatalogFrame(g, h, e, id, logical'[id].latest);
      DatasetFrame(env, g, h, id, logical'[id]);
    }
  }

  // ---------------------------------------------------------------- new datasets

  lemma InitialFieldsOk(env: Env, preset: Preset, raw: seq<RawField>)
    requires InitialFields(env, preset, raw).Ok?
    ensures Distinct(InitialFields(env, preset, raw).value)
    ensures preset.Ledger? ==> LEDGER_FIELDS <= InitialFields(env, preset, raw).value
  {
    if preset.Ledger? {
      hide NormalizeAll;
      LedgerFieldsDistinct();
    } else {
      hide NormalizeAll, Distinct, LEDGER_FIELDS;
      NormalizedFields(env.cal, raw, false);
    }
  }

  lemma DistinctSnoc(fields: seq<Field>, f: Field)
    requires Distinct(fields) && f.name !in Names(fields)
    ensures Distinct(fields + [f]) && Names(fields + [f]) == Names(fields) + {f.name}
  {
    assert (fields + [f])[..|fields|] == fields;
  }

  lemma LedgerFieldsDistinct()
    ensures Distinct(LEDGER_FIELDS)
    ensures Names(LEDGER_FIELDS) == {"occurred_at", "account", "currency", "direction", "amount", "amount_delta",
                                     "category", "note", REVERSES}
  {
    assert Distinct([]) && Names([]) == {};
    hide Distinct, Names;
    DistinctSnoc([], OCCURRED_FIELD);
    var s1 := [] + [OCCURRED_FIELD];
    DistinctSnoc(s1, ACCOUNT_FIELD);
    DistinctSnoc(s1 + [ACCOUNT_FIELD], CURRENCY_FIELD);
    var s3 := s1 + [ACCOUNT_FIELD] + [CURRENCY_FIELD];
    DistinctSnoc(s3, DIRECTION_FIELD);
    DistinctSnoc(s3 + [DIRECTION_FIELD], AMOUNT_FIELD);
    var s5 := s3 + [DIRECTION_FIELD] + [AMOUNT_FIELD];
    DistinctSnoc(s5, DELTA_FIELD);
    DistinctSnoc(s5 + [DELTA_FIELD], CATEGORY_FIELD);
    var s7 := s5 + [DELTA_FIELD] + [CATEGORY_FIELD];
    DistinctSnoc(s7, NOTE_FIELD);
    DistinctSnoc(s7 + [NOTE_FIELD], REVERSES_FIELD);
    assert s7 + [NOTE_FIELD] + [REVERSES_FIELD] == LEDGER_FIELDS;
  }

  /** A version that was just written is in order once it is announced with its own hash. */
  lemma WrittenVersionOk(env: Env, h: Group, s: Schema)
    requires CollisionFree(env) && Distinct(s.fields)
    requires LoadSchema(env, h, s.csvId, s.version).Ok?
    requires env.schemaHash(LoadSchema(env, h, s.csvId, s.version).value) == env.schemaHash(s)
    requires ReadRows(env, h, s.csvId, s.version, LoadSchema(env, h, s.csvId, s.version).value.fields).Ok?
    requires RowsOf(h, s.csvId, s.version) == []
    ensures LoadSchema(env, h, s.csvId, s.version).value == s
    ensures VersionOk(env, h, s.csvId, s.version, env.schemaHash(s))
    ensures FieldsAt(env, h, s.csvId, s.version) == s.fields
  {
    hide LoadSchema, ReadRows, RowsOf, Distinct;
    assert LoadSchema(env, h, s.csvId, s.version).value == s;
    RowsOfVersion(env, h, s.csvId, s.version, s.fields);
  }

  lemma FirstVersionOk(env: Env, h: Group, s: Schema, d: Dataset)
    requires VersionOk(env, h, s.csvId, 1, env.schemaHash(s)) && FieldsAt(env, h, s.csvId, 1) == s.fields
    requires RowsOf(h, s.csvId, 1) == []
    requires d.csvId == s.csvId && d.latest == 1 && |d.events| == 1 && d.events[0].schemaHash == env.schemaHash(s)
    requires d.preset.Ledger? ==> LEDGER_FIELDS <= s.fields
    ensures DatasetOk(env, h, s.csvId, d)
  {
    hide VersionOk, FieldsAt, RowsOf, LEDGER_FIELDS, LoadSchema, ReadRows, LoadSchemas, Names;
    assert ChainOk(env, h, d, 0);
    assert ChainOk(env, h, d, 1);
    assert AllProject(env, h, s.csvId, 0, s.fields);
    assert AllProject(env, h, s.csvId, 1, s.fields);
    ChainReads(env, h, d, 1);
    assert AllRows(env, h, d.csvId, 0).value == [];
    assert AllRows(env, h, d.csvId, 1).value == [];
    assert LedgerOk([]) && AmountsInOrder([]);
  }

  /** The written version is in order: it is exactly the schema that was asked for, it has no
      rows yet, and nothing else in the group changed. */
  lemma WrittenFacts(env: Env, g: Group, s: Schema, crash: Crash)
    requires CollisionFree(env) && GroupOk(env, g) && Distinct(s.fields)
    requires !Announced(Replay(CatalogOf(g)).value, s.csvId, s.version)
    requires WriteVersion(env, g, s, crash).1.None?
    ensures var h := WriteVersion(env, g, s, crash).0;
            VersionOk(env, h, s.csvId, s.version, env.schemaHash(s))
            && FieldsAt(env, h, s.csvId, s.version) == s.fields
            && RowsOf(h, s.csvId, s.version) == []
  {
    hide WriteVersion, LoadSchema, ReadRows, RowsOf, Announced, VersionOk, FieldsAt, TotalSize, ListingOk, Replay,
         CatalogBytes, DatasetOk, Distinct;
    WriteFiles(env, g, s, crash);
    assert RowsOf(g, s.csvId, s.version) == [];
    WrittenVersionOk(env, WriteVersion(env, g, s, crash).0, s);
  }

  lemma NewDatasetReplays(logical: Logical, e: CatalogEvent)
    requires e.DatasetCreated? && IsHexId(e.csvId) && e.version == 1 && e.csvId !in logical
    requires |logical| < MAX_DATASETS_PER_GROUP
    ensures var d := Dataset(e.csvId, e.name, e.description, e.preset, e.createdAt, e.actorName, 1, [e]);
            var logical' := logical[e.csvId := d];
            ReplayStep(logical, e) == Ok(logical') && ChangedOnlyAt(logical, logical', e.csvId)
            && |logical'| <= MAX_DATASETS_PER_GROUP
  {
    hide IsHexId;
  }

  /** `_create_dataset` keeps a group in order. */
  lemma CreateDatasetKeeps(env: Env, g: Group, ctx: Context, name: string, description: string, preset: Preset,
                           raw: seq<RawField>, t: Times, crash: Crash)
    requires CollisionFree(env) && GroupOk(env, g)
    ensures GroupOk(env, CreateDataset(env, g, ctx, Replay(CatalogOf(g)).value, name, description, preset,
                                       raw, t, crash).0)
  {
    hide InitialFields, LoadSchemas, DatasetAnswer, WriteVersion, AppendCatalog, AfterPublish, GroupOk, Replay,
         CatalogOf, IsHexId, Distinct, LEDGER_FIELDS;
    ReplayIsOk(env, g);
    var logical := Replay(CatalogOf(g)).value;
    if |logical| < MAX_DATASETS_PER_GROUP && InitialFields(env, preset, raw).Ok? {
      var fields := InitialFields(env, preset, raw).value;
      var csvId := NewDatasetId(env, ctx, name, preset, fields);
      if csvId !in logical {
        InitialFieldsOk(env, preset, raw);
        var s := Schema(csvId, 1, name, description, preset, fields, t.schema, None);
        var e := DatasetCreated(csvId, 1, description, env.schemaHash(s), t.event,
                                ctx.user, ctx.userName, ctx.message, name, preset);
        PublishDatasetKeeps(env, g, s, e, crash);
      }
    }
  }

  lemma ReplayIsOk(env: Env, g: Group)
    requires GroupOk(env, g)
    ensures Replay(CatalogOf(g)).Ok? && ReadLogical(env, g) == Replay(CatalogOf(g))
  {
    hide Replay, LogicalOk, TotalSize, ListingOk, CatalogBytes;
  }

  lemma PublishDatasetKeeps(env: Env, g: Group, s: Schema, e: CatalogEvent, crash: Crash)
    requires CollisionFree(env) && GroupOk(env, g) && Replay(CatalogOf(g)).Ok?
    requires s.version == 1 && Distinct(s.fields) && (s.preset.Ledger? ==> LEDGER_FIELDS <= s.fields)
    requires e.DatasetCreated? && e.csvId == s.csvId && e.version == 1 && e.preset == s.preset
    requires e.schemaHash == env.schemaHash(s) && IsHexId(e.csvId)
    requires e.csvId !in Replay(CatalogOf(g)).value && |Replay(CatalogOf(g)).value| < MAX_DATASETS_PER_GROUP
    ensures GroupOk(env, Publish(env, g, s, e, crash).0)
  {
    hide WriteVersion, AppendCatalog, GroupOk, Replay, ReplayStep, CatalogOf, IsHexId, Distinct, LEDGER_FIELDS,
         VersionOk, FieldsAt, RowsOf, DatasetOk, OnlyAdds, CatalogGrew, ListingOk, TotalSize, CatalogBytes;
    var logical := Replay(CatalogOf(g)).value;
    var w := WriteVersion(env, g, s, crash);
    WriteKeeps(env, g, s, crash);
    if w.1.None? {
      WrittenFacts(env, g, s, crash);
      NewDatasetReplays(logical, e);
      var d := Dataset(e.csvId, e.name, e.description, e.preset, e.createdAt, e.actorName, 1, [e]);
      FirstVersionOk(env, w.0, s, d);
      AppendCatalogEffect(env, w.0, e, crash);
      var h := AppendCatalog(env, w.0, e, crash).0;
      if h != w.0 {
        AnnounceKeeps(env, w.0, h, e, logical[e.csvId := d]);
      }
    }
  }

  // ---------------------------------------------------------------- new versions

  lemma {:induction false} CheckRowMeans(cal: Calendar, additions: seq<Field>, extra: map<string, Value>, f: Field)
    requires CheckRow(cal, additions, extra).None? && f in additions
    ensures f.name in extra ==> CanonField(cal, f, extra[f.name]).Ok?
  {
    hide CanonField;
    var init, last := additions[..|additions| - 1], additions[|additions| - 1];
    assert additions == init + [last];
    if f == last {
    } else {
      CheckRowMeans(cal, init, extra, f);
    }
  }

  lemma {:induction false} CheckRowsMeans(cal: Calendar, additions: seq<Field>, rows: seq<Row>, r: Row)
    requires CheckRows(cal, additions, rows).None? && r in rows
    ensures CheckRow(cal, additions, r.extra).None?
  {
    hide CheckRow;
    var init, last := rows[..|rows| - 1], rows[|rows| - 1];
    assert rows == init + [last];
    if r == last {
    } else {
      CheckRowsMeans(cal, additions, init, r);
    }
  }

  lemma ProjectsMore(cal: Calendar, r: Row, own: set<string>, fields: seq<Field>, additions: seq<Field>)
    requires Projects(cal, r, own, fields) && AllOptional(additions)
    requires CheckRow(cal, additions, r.extra).None?
    ensures Projects(cal, r, own, fields + additions)
  {
    hide CanonField, CheckRow;
    forall f | f in fields + additions && f.name !in own
      ensures Accepts(cal, f, r.extra)
    {
      if f in additions {
        CheckRowMeans(cal, additions, r.extra, f);
        assert Optional(f) == f;
      }
    }
  }

  /** Rows that pass the check of a new version can be shown under it. */
  lemma {:induction false} AllProjectMore(env: Env, g: Group, d: Dataset, n: nat, fields: seq<Field>,
                                          additions: seq<Field>)
    requires n <= |d.events| && ChainOk(env, g, d, n) && AllOptional(additions)
    requires AllProject(env, g, d.csvId, n, fields)
    requires AllRows(env, g, d.csvId, n).Ok? && CheckRows(env.cal, additions, AllRows(env, g, d.csvId, n).value).None?
    ensures AllProject(env, g, d.csvId, n, fields + additions)
  {
    hide AllRows, CheckRows, Projects, FieldsAt, VersionOk, RowsOf, Names, LEDGER_FIELDS, AllOptional, CheckRow,
         Extends;
    if n == 0 {
    } else {
      ChainReads(env, g, d, n);
      var before, rows := AllRows(env, g, d.csvId, n - 1).value, RowsOf(g, d.csvId, n);
      CheckRowsPrefix(env.cal, additions, before, rows);
      AllProjectMore(env, g, d, n - 1, fields, additions);
      forall r | r in rows
        ensures Projects(env.cal, r, Names(FieldsAt(env, g, d.csvId, n)), fields + additions)
      {
        CheckRowsMeans(env.cal, additions, before + rows, r);
        ProjectsMore(env.cal, r, Names(FieldsAt(env, g, d.csvId, n)), fields, additions);
      }
    }
  }

  lemma {:induction false} CheckRowsPrefix(cal: Calendar, additions: seq<Field>, a: seq<Row>, b: seq<Row>)
    requires CheckRows(cal, additions, a + b).None?
    ensures CheckRows(cal, additions, a).None?
  {
    hide CheckRow;
    if b == [] {
      assert a + b == a;
    } else {
      assert (a + b)[..|a + b| - 1] == a + b[..|b| - 1];
      CheckRowsPrefix(cal, additions, a, b[..|b| - 1]);
    }
  }

  /** A dataset with one more version: the fields grew by checked optional additions. */
  lemma ExtendedDatasetOk(env: Env, h: Group, d: Dataset, d': Dataset, additions: seq<Field>)
    requires DatasetOk(env, h, d.csvId, d) && d.latest < MAX_VERSIONS_PER_DATASET
    requires d'.csvId == d.csvId && d'.preset == d.preset && d'.latest == d.latest + 1
    requires |d'.events| == d'.latest && d.events <= d'.events
    requires VersionOk(env, h, d.csvId, d.latest + 1, d'.events[d.latest].schemaHash)
    requires FieldsAt(env, h, d.csvId, d.latest + 1) == FieldsAt(env, h, d.csvId, d.latest) + additions
    requires additions != [] && AllOptional(additions) && RowsOf(h, d.csvId, d.latest + 1) == []
    requires AllRows(env, h, d.csvId, d.latest).Ok?
    requires CheckRows(env.cal, additions, AllRows(env, h, d.csvId, d.latest).value).None?
    ensures DatasetOk(env, h, d.csvId, d')
  {
    hide VersionOk, FieldsAt, RowsOf, LEDGER_FIELDS, CheckRows, AllRows, Names, LedgerOk, AllOptional, AmountsInOrder;
    var n := d.latest;
    ChainOfPrefix(env, h, d, d', n);
    LedgerPrefix(d, env, h);
    ChainGrows(env, h, d', n, additions);
    AllProjectMore(env, h, d, n, FieldsAt(env, h, d.csvId, n), additions);
    ChainReads(env, h, d', n + 1);
    hide ChainOk;
    var fields := FieldsAt(env, h, d.csvId, n + 1);
    assert AllProject(env, h, d.csvId, n + 1, fields);
    var rows := AllRows(env, h, d.csvId, n).value;
    assert rows + [] == rows;
  }

  lemma LedgerPrefix(d: Dataset, env: Env, h: Group)
    requires d.latest >= 1 && d.latest == |d.events| && ChainOk(env, h, d, d.latest)
    ensures d.preset.Ledger? ==> LEDGER_FIELDS <= FieldsAt(env, h, d.csvId, d.latest)
  {
    hide VersionOk, FieldsAt, LEDGER_FIELDS, Extends;
  }

  lemma ChainGrows(env: Env, h: Group, d': Dataset, n: nat, additions: seq<Field>)
    requires 1 <= n < |d'.events| && ChainOk(env, h, d', n)
    requires VersionOk(env, h, d'.csvId, n + 1, d'.events[n].schemaHash)
    requires FieldsAt(env, h, d'.csvId, n + 1) == FieldsAt(env, h, d'.csvId, n) + additions && additions != []
    requires d'.preset.Ledger? ==> LEDGER_FIELDS <= FieldsAt(env, h, d'.csvId, n)
    ensures ChainOk(env, h, d', n + 1)
  {
    hide VersionOk, FieldsAt, LEDGER_FIELDS;
  }

  lemma NewVersionReplays(logical: Logical, e: CatalogEvent)
    requires e.VersionCreated? && IsHexId(e.csvId) && e.csvId in logical
    requires e.version == logical[e.csvId].latest + 1 && 1 <= e.version <= MAX_VERSIONS_PER_DATASET
    requires |logical| <= MAX_DATASETS_PER_GROUP
    ensures var d := logical[e.csvId];
            var d' := d.(latest := e.version, events := d.events + [e],
                         description := if e.description != "" then e.description else d.description);
            var logical' := logical[e.csvId := d'];
            ReplayStep(logical, e) == Ok(logical') && ChangedOnlyAt(logical, logical', e.csvId)
            && |logical'| <= MAX_DATASETS_PER_GROUP
  {
    hide IsHexId;
    var d := logical[e.csvId];
    var d' := d.(latest := e.version, events := d.events + [e],
                 description := if e.description != "" then e.description else d.description);
    assert logical[e.csvId := d'].Keys == logical.Keys;
  }

  /** Ids that a replay accepts are well formed. */
  lemma {:induction false} ReplayedIdIsHex(events: seq<CatalogEvent>, csvId: string)
    requires Replay(events).Ok? && csvId in Replay(events).value
    ensures IsHexId(csvId)
  {
    hide IsHexId;
    var init := events[..|events| - 1];
    if csvId in Replay(init).value { ReplayedIdIsHex(init, csvId); }
  }

  lemma PublishVersionKeeps(env: Env, g: Group, s: Schema, e: CatalogEvent, additions: seq<Field>, crash: Crash)
    requires CollisionFree(env) && GroupOk(env, g) && Replay(CatalogOf(g)).Ok?
    requires e.VersionCreated? && e.csvId == s.csvId && e.schemaHash == env.schemaHash(s) && e.version == s.version
    requires e.csvId in Replay(CatalogOf(g)).value
    requires var d := Replay(CatalogOf(g)).value[e.csvId];
             d.latest < MAX_VERSIONS_PER_DATASET && s.version == d.latest + 1 && d.csvId == e.csvId
             && s.fields == FieldsAt(env, g, d.csvId, d.latest) + additions
             && AllRows(env, g, d.csvId, d.latest).Ok?
             && CheckRows(env.cal, additions, AllRows(env, g, d.csvId, d.latest).value).None?
    requires Distinct(s.fields) && additions != [] && AllOptional(additions)
    ensures GroupOk(env, Publish(env, g, s, e, crash).0)
  {
    hide WriteVersion, AppendCatalog, GroupOk, Replay, ReplayStep, CatalogOf, IsHexId, Distinct, VersionOk, FieldsAt,
         RowsOf, DatasetOk, CatalogGrew, ListingOk, TotalSize, CatalogBytes, AllRows, CheckRows, AllOptional, OnlyAdds,
         SameVersions;
    var logical := Replay(CatalogOf(g)).value;
    var d := logical[e.csvId];
    var w := WriteVersion(env, g, s, crash);
    WriteKeeps(env, g, s, crash);
    if w.1.None? {
      WrittenFacts(env, g, s, crash);
      ReplayedIdIsHex(CatalogOf(g), e.csvId);
      LogicalBounds(env, g, e.csvId);
      LogicalBounds(env, w.0, e.csvId);
      UnannouncedFrame(g, w.0, logical, s.csvId, s.version, e.csvId);
      ChainFrame(env, g, w.0, d, d.latest);
      NewVersionReplays(logical, e);
      var d' := d.(latest := e.version, events := d.events + [e],
                   description := if e.description != "" then e.description else d.description);
      ExtendedDatasetOk(env, w.0, d, d', additions);
      AppendCatalogEffect(env, w.0, e, crash);
      var h := AppendCatalog(env, w.0, e, crash).0;
      if h != w.0 {
        AnnounceKeeps(env, w.0, h, e, logical[e.csvId := d']);
      }
    }
  }

  lemma LogicalBounds(env: Env, g: Group, csvId: string)
    requires GroupOk(env, g) && Replay(CatalogOf(g)).Ok? && csvId in Replay(CatalogOf(g)).value
    ensures var d := Replay(CatalogOf(g)).value[csvId];
            DatasetOk(env, g, csvId, d) && |d.events| == d.latest >= 1 && d.csvId == csvId
            && |Replay(CatalogOf(g)).value| <= MAX_DATASETS_PER_GROUP
  {
    hide Replay, OrphansEmpty, TotalSize, ListingOk, CatalogBytes, ChainOk, AllProject, LedgerFilesOk, CatalogOf;
  }

  lemma NothingShared(a: set<string>, b: set<string>)
    requires a * b == {}
    ensures b !! a
  {
    forall x | x in a ensures x !in b { assert x in b ==> x in a * b; }
  }

  lemma AddVersionKeeps(env: Env, g: Group, ctx: Context, d: Dataset, schemas: seq<Schema>, description: string,
                        additions: seq<Field>, t: Times, crash: Crash)
    requires CollisionFree(env) && GroupOk(env, g) && Replay(CatalogOf(g)).Ok?
    requires d.csvId in Replay(CatalogOf(g)).value && Replay(CatalogOf(g)).value[d.csvId] == d
    requires LoadSchemas(env, g, d, d.latest) == Ok(schemas)
    requires Distinct(additions) && AllOptional(additions) && additions != []
    ensures GroupOk(env, AddVersion(env, g, ctx, d, schemas, description, additions, t, crash).0)
  {
    hide WriteVersion, AppendCatalog, GroupOk, Replay, CatalogOf, Distinct, DatasetOk, AllRows, CheckRows, AllOptional,
         Names, Publish, AfterPublish, LoadSchemas, ChainOk, LoadSchema;
    var n := d.latest;
    LogicalBounds(env, g, d.csvId);
    DatasetChain(env, g, d);
    ChainReads(env, g, d, n);
    var previous := schemas[|schemas| - 1];
    assert previous.fields == FieldsAt(env, g, d.csvId, n);
    if d.latest < MAX_VERSIONS_PER_DATASET && Names(additions) * Names(previous.fields) == {}
       && |previous.fields| + |additions| <= MAX_FIELDS_PER_SCHEMA
       && CheckRows(env.cal, additions, AllRows(env, g, d.csvId, n).value).None? {
      DistinctConcat(previous.fields, additions);
      NothingShared(Names(additions), Names(previous.fields));
      PreviousDistinct(env, g, d);
      var s := Schema(d.csvId, n + 1, d.name, if description != "" then description else d.description, d.preset,
                      previous.fields + additions, t.schema, Some(env.schemaHash(previous)));
      var e := VersionCreated(d.csvId, n + 1, description, env.schemaHash(s), t.event, ctx.user, ctx.userName,
                              ctx.message);
      PublishVersionKeeps(env, g, s, e, additions, crash);
    }
  }

  lemma DatasetChain(env: Env, g: Group, d: Dataset)
    requires DatasetOk(env, g, d.csvId, d)
    ensures ChainOk(env, g, d, d.latest)
    ensures AllProject(env, g, d.csvId, d.latest, FieldsAt(env, g, d.csvId, d.latest))
    ensures d.preset.Ledger? ==> LedgerFilesOk(env, g, d)
  {
    hide ChainOk, AllProject, LedgerFilesOk;
  }

  lemma PreviousDistinct(env: Env, g: Group, d: Dataset)
    requires d.latest >= 1 && |d.events| == d.latest && ChainOk(env, g, d, d.latest)
    ensures Distinct(FieldsAt(env, g, d.csvId, d.latest))
  {
    hide LoadSchema, ReadRows, RowsOk, Distinct, LEDGER_FIELDS, Extends;
  }

  lemma NewFieldsOk(cal: Calendar, raw: seq<RawField>)
    requires NormalizeFields(cal, raw, true).Ok?
    ensures Distinct(NormalizeFields(cal, raw, true).value) && AllOptional(NormalizeFields(cal, raw, true).value)
  {
    hide NormalizeAll, Distinct, AllOptional;
    NormalizedFields(cal, raw, true);
  }

  /** `_create_version` keeps a group in order. */
  lemma CreateVersionKeeps(env: Env, g: Group, ctx: Context, csvId: string, name: string, description: string,
                           preset: Preset, raw: seq<RawField>, t: Times, crash: Crash)
    requires CollisionFree(env) && GroupOk(env, g) && Replay(CatalogOf(g)).Ok?
    ensures GroupOk(env, CreateVersion(env, g, ctx, Replay(CatalogOf(g)).value, csvId, name, description, preset,
                                       raw, t, crash).0)
  {
    hide NormalizeFields, LoadSchemas, GroupOk, Replay, CatalogOf, AddVersion, DatasetAnswer, FieldsNotIn,
         ReplayedEvent, Distinct, AllOptional, Names, DatasetOk;
    var logical := Replay(CatalogOf(g)).value;
    if csvId in logical && NormalizeFields(env.cal, raw, true).Ok? {
      var d := logical[csvId];
      NewFieldsOk(env.cal, raw);
      LogicalBounds(env, g, csvId);
      var additions := NormalizeFields(env.cal, raw, true).value;
      if additions != [] && LoadSchemas(env, g, d, d.latest).Ok? {
        AddVersionKeeps(env, g, ctx, d, LoadSchemas(env, g, d, d.latest).value, description, additions, t, crash);
      }
    }
  }

  // ---------------------------------------------------------------- appended rows

  /** The group gained one row in the rows file of one version. */
  ghost predicate RowAdded(g: Group, h: Group, csvId: string, n: nat, row: Row) {
    && RowsOf(h, csvId, n) == RowsOf(g, csvId, n) + [row]
    && forall p :: p != RowsPath(csvId, n) ==> Lookup(h, p) == Lookup(g, p)
  }

  lemma RowBytesGrow(env: Env, header: seq<string>, rows: seq<Row>, row: Row)
    ensures RowBytes(env, header, rows + [row]) == RowBytes(env, header, rows) + env.rowSize(header, row)
  {
    assert (rows + [row])[..|rows|] == rows;
  }

  lemma StoreRowEffect(env: Env, g: Group, csvId: string, s: Schema, row: Row)
    requires ListingOk(g) && TotalSize(env, g) <= MAX_GROUP_BYTES
    requires ReadRows(env, g, csvId, s.version, s.fields).Ok?
    ensures var h := StoreRow(env, g, csvId, s, row).0;
            h == g
            || (RowAdded(g, h, csvId, s.version, row) && ListingOk(h) && TotalSize(env, h) <= MAX_GROUP_BYTES
                && Lookup(h, RowsPath(csvId, s.version))
                     == Some(RowsFile(Header(s.fields), RowsOf(g, csvId, s.version) + [row]))
                && RowBytes(env, Header(s.fields), RowsOf(g, csvId, s.version) + [row]) <= MAX_FILE_BYTES)
    ensures StoreRow(env, g, csvId, s, row).1.None? ==> StoreRow(env, g, csvId, s, row).0 != g
  {
    hide TotalSize, ListingOk, Header, RowBytes, AllHexIds, DistinctIds;
    var rows := RowsOf(g, csvId, s.version);
    var header := Header(s.fields);
    PutSize(env, g, RowsPath(csvId, s.version), RowsFile(header, rows + [row]));
    RowBytesGrow(env, header, rows, row);
    assert |rows + [row]| == |rows| + 1;
  }

  lemma DistinctIdsSnoc(rows: seq<Row>, row: Row)
    requires DistinctIds(rows) && AllHexIds(rows) && FindRow(rows, row.eventId).None? && IsHexId(row.eventId)
    ensures DistinctIds(rows + [row]) && AllHexIds(rows + [row])
  {
    hide FindRow, IsHexId;
    assert (rows + [row])[..|rows|] == rows;
  }

  /** The version that received a row is still in order. */
  lemma RowVersionOk(env: Env, g: Group, h: Group, csvId: string, n: nat, hash: string, row: Row)
    requires VersionOk(env, g, csvId, n, hash) && RowAdded(g, h, csvId, n, row)
    requires var fields := FieldsAt(env, g, csvId, n);
             Lookup(h, RowsPath(csvId, n)) == Some(RowsFile(Header(fields), RowsOf(g, csvId, n) + [row]))
             && RowBytes(env, Header(fields), RowsOf(g, csvId, n) + [row]) <= MAX_FILE_BYTES
             && RowFits(row, fields)
    requires Seeded(env, csvId, n, row) && IsHexId(row.eventId) && FindRow(RowsOf(g, csvId, n), row.eventId).None?
    ensures VersionOk(env, h, csvId, n, hash) && FieldsAt(env, h, csvId, n) == FieldsAt(env, g, csvId, n)
    ensures LoadSchema(env, h, csvId, n) == LoadSchema(env, g, csvId, n)
  {
    hide Header, RowBytes, DistinctIds, AllHexIds, Distinct, FindRow, IsHexId, Seeded, RowFits;
    assert Lookup(h, SchemaPath(csvId, n)) == Lookup(g, SchemaPath(csvId, n));
    var fields := FieldsAt(env, g, csvId, n);
    RowsOfVersion(env, g, csvId, n, fields);
    ReadRowsFacts(env, g, csvId, n, fields);
    DistinctIdsSnoc(RowsOf(g, csvId, n), row);
  }

  lemma ReadRowsFacts(env: Env, g: Group, csvId: string, n: nat, fields: seq<Field>)
    requires ReadRows(env, g, csvId, n, fields).Ok?
    ensures DistinctIds(RowsOf(g, csvId, n)) && AllHexIds(RowsOf(g, csvId, n))
  {
    hide Header, RowBytes, DistinctIds, AllHexIds;
  }

  lemma RowFrame(g: Group, h: Group, csvId: string, n: nat, row: Row, other: string, m: nat)
    requires RowAdded(g, h, csvId, n, row) && (other != csvId || m < n)
    ensures SameVersions(g, h, other, m)
  {
    hide SameVersions, RowsOf;
    SameVersionsIfUntouched(g, h, other, m);
  }

  lemma OwnFieldsProject(cal: Calendar, row: Row, fields: seq<Field>)
    ensures Projects(cal, row, Names(fields), fields)
  {
    hide CanonField, Names;
    forall f | f in fields ensures f.name in Names(fields) {
      var i :| 0 <= i < |fields| && fields[i] == f;
      NameAt(fields, i);
    }
  }

  /** A dataset whose latest version gained a proper row. */
  lemma AppendedDatasetOk(env: Env, g: Group, h: Group, d: Dataset, row: Row)
    requires DatasetOk(env, g, d.csvId, d) && RowAdded(g, h, d.csvId, d.latest, row)
    requires VersionOk(env, h, d.csvId, d.latest, d.events[d.latest - 1].schemaHash)
    requires FieldsAt(env, h, d.csvId, d.latest) == FieldsAt(env, g, d.csvId, d.latest)
    requires d.preset.Ledger? ==>
               AllRows(env, g, d.csvId, d.latest).Ok?
               && LedgerRowOk(AllRows(env, g, d.csvId, d.latest).value, row) && AmountsOk(row)
    ensures DatasetOk(env, h, d.csvId, d)
  {
    hide VersionOk, FieldsAt, RowsOf, LEDGER_FIELDS, AllRows, Names, LedgerRowOk, Extends, Projects, LoadSchema,
         LoadSchemas, AmountsOk, AmountsInOrder;
    var n := d.latest;
    RowFrame(g, h, d.csvId, n, row, d.csvId, n - 1);
    ChainFrame(env, g, h, d, n - 1);
    assert ChainOk(env, h, d, n);
    var fields := FieldsAt(env, g, d.csvId, n);
    ProjectFrame(env, g, h, d.csvId, n - 1, fields);
    OwnFieldsProject(env.cal, row, fields);
    assert AllProject(env, h, d.csvId, n, fields);
    ChainReads(env, g, d, n);
    ChainReads(env, h, d, n);
    if d.preset.Ledger? {
      var before, rows := AllRows(env, g, d.csvId, n - 1).value, RowsOf(g, d.csvId, n);
      assert before + (rows + [row]) == (before + rows) + [row];
      LedgerSnoc(before + rows, row);
    }
  }

  lemma LedgerSnoc(rows: seq<Row>, row: Row)
    requires LedgerOk(rows) && LedgerRowOk(rows, row) && AmountsInOrder(rows) && AmountsOk(row)
    ensures LedgerOk(rows + [row]) && AmountsInOrder(rows + [row])
  {
    hide LedgerRowOk, AmountsOk;
    assert (rows + [row])[..|rows|] == rows;
  }

  lemma DurableRowFits(cal: Calendar, ctx: Context, fields: seq<Field>, values: map<string, Value>,
                       eventId: string, now: string)
    requires DurableRow(cal, ctx, fields, values, eventId, now).Ok?
    ensures var row := DurableRow(cal, ctx, fields, values, eventId, now).value;
            RowFits(row, fields) && row.eventId == eventId
  {
    hide KnownValues, ExtraOk, Names;
    KnownKeys(cal, fields, values);
  }

  /** No row of the first n versions has the event id of a request against a later version. */
  lemma {:induction false} OlderIdsDiffer(env: Env, g: Group, d: Dataset, n: nat, seed: EventSeed)
    requires CollisionFree(env) && n <= |d.events| && ChainOk(env, g, d, n) && seed.version > n
    requires AllRows(env, g, d.csvId, n).Ok?
    ensures FindRow(AllRows(env, g, d.csvId, n).value, env.eventId(seed)).None?
  {
    hide FieldsAt, RowsOf, LEDGER_FIELDS, AllRows, Extends, LoadSchema, ReadRows, FindRow, Distinct, RowFits;
    ChainReads(env, g, d, n);
    if n > 0 {
      OlderIdsDiffer(env, g, d, n - 1, seed);
      VersionIdsDiffer(env, g, d.csvId, n, d.events[n - 1].schemaHash, seed);
      NotFoundConcat(AllRows(env, g, d.csvId, n - 1).value, RowsOf(g, d.csvId, n), env.eventId(seed));
    } else {
      FoundRow([], env.eventId(seed));
      NoRows(env, g, d.csvId);
    }
  }

  lemma NoRows(env: Env, g: Group, csvId: string)
    ensures AllRows(env, g, csvId, 0) == Ok([])
  {
  }

  lemma VersionIdsDiffer(env: Env, g: Group, csvId: string, n: nat, hash: string, seed: EventSeed)
    requires CollisionFree(env) && VersionOk(env, g, csvId, n, hash) && seed.version != n
    ensures FindRow(RowsOf(g, csvId, n), env.eventId(seed)).None?
  {
    hide RowsOf, LoadSchema, ReadRows, FindRow, Distinct, RowFits;
    RowsOfVersion(env, g, csvId, n, LoadSchema(env, g, csvId, n).value.fields);
    FoundRow(RowsOf(g, csvId, n), env.eventId(seed));
  }

  lemma {:induction false} NotFoundConcat(a: seq<Row>, b: seq<Row>, id: string)
    requires FindRow(a, id).None? && FindRow(b, id).None?
    ensures FindRow(a + b, id).None?
  {
    hide FindRow;
    FoundRow(a, id);
    FoundRow(b, id);
    FoundRow(a + b, id);
  }

  /** The new event id is fresh in the whole dataset. */
  lemma FreshId(env: Env, g: Group, d: Dataset, seed: EventSeed)
    requires CollisionFree(env) && DatasetOk(env, g, d.csvId, d) && seed.version == d.latest
    requires FindRow(RowsOf(g, d.csvId, d.latest), env.eventId(seed)).None?
    ensures AllRows(env, g, d.csvId, d.latest).Ok?
    ensures FindRow(AllRows(env, g, d.csvId, d.latest).value, env.eventId(seed)).None?
  {
    hide VersionOk, FieldsAt, RowsOf, LEDGER_FIELDS, AllRows, Extends, FindRow, AllProject, LedgerFilesOk;
    ChainReads(env, g, d, d.latest);
    assert ChainOk(env, g, d, d.latest - 1);
    OlderIdsDiffer(env, g, d, d.latest - 1, seed);
    NotFoundConcat(AllRows(env, g, d.csvId, d.latest - 1).value, RowsOf(g, d.csvId, d.latest), env.eventId(seed));
  }

  /** The row a request would store in a ledger is a proper ledger row. */
  lemma NewLedgerRowOk(env: Env, g: Group, ctx: Context, d: Dataset, s: Schema, raw: map<string, Value>,
                       eventId: string, t: Times)
    requires d.preset.Ledger? && AllRows(env, g, d.csvId, d.latest).Ok?
    requires NewRow(env, g, ctx, d, s, raw, eventId, t).Ok?
    requires LedgerOk(AllRows(env, g, d.csvId, d.latest).value)
             && AmountsInOrder(AllRows(env, g, d.csvId, d.latest).value)
    requires Distinct(s.fields) && LEDGER_FIELDS <= s.fields
    requires IsHexId(eventId) && FindRow(AllRows(env, g, d.csvId, d.latest).value, eventId).None?
    ensures LedgerRowOk(AllRows(env, g, d.csvId, d.latest).value, NewRow(env, g, ctx, d, s, raw, eventId, t).value)
    ensures AmountsOk(NewRow(env, g, ctx, d, s, raw, eventId, t).value)
  {
    hide AllRows, LedgerOk, AmountsInOrder, AmountsOk, Distinct, LEDGER_FIELDS, IsHexId, FindRow, PrepareLedger,
         DurableRow, LedgerRowOk, AsksReversal;
    AppendedRowOk(env.cal, ctx, s.fields, AllRows(env, g, d.csvId, d.latest).value, raw, eventId, t.ledger, t.row);
  }

  lemma NewRowFits(env: Env, g: Group, ctx: Context, d: Dataset, s: Schema, raw: map<string, Value>,
                   eventId: string, t: Times)
    requires NewRow(env, g, ctx, d, s, raw, eventId, t).Ok?
    ensures var row := NewRow(env, g, ctx, d, s, raw, eventId, t).value;
            RowFits(row, s.fields) && row.eventId == eventId
  {
    hide DurableRow, RowsToSearch, RowValues, RowFits;
    var rows := RowsToSearch(env, g, d, raw).value;
    DurableRowFits(env.cal, ctx, s.fields, RowValues(d.preset, rows, raw, t.ledger).value, eventId, t.row);
  }

  /** Storing the row of a fresh request keeps the group in order. */
  lemma StoreRowKeeps(env: Env, g: Group, ctx: Context, d: Dataset, s: Schema, raw: map<string, Value>, t: Times)
    requires CollisionFree(env) && GroupOk(env, g) && Replay(CatalogOf(g)).Ok?
    requires d.csvId in Replay(CatalogOf(g)).value && Replay(CatalogOf(g)).value[d.csvId] == d
    requires LoadSchema(env, g, d.csvId, d.latest) == Ok(s)
    requires var eventId := RowEventId(env, ctx, d.csvId, d.latest, raw);
             FindRow(RowsOf(g, d.csvId, d.latest), eventId).None?
             && NewRow(env, g, ctx, d, s, raw, eventId, t).Ok?
    ensures var row := NewRow(env, g, ctx, d, s, raw, RowEventId(env, ctx, d.csvId, d.latest, raw), t).value;
            GroupOk(env, StoreRow(env, g, d.csvId, s, row).0)
  {
    hide GroupOk, Replay, CatalogOf, LoadSchema, FindRow, NewRow, StoreRow, RowsOf, DatasetOk, VersionOk, LedgerRowOk,
         AmountsOk, AmountsInOrder, LEDGER_FIELDS, Distinct, AllRows, FieldsAt, RowFits, IsHexId, ChainOk, AllProject,
         LedgerOk, RowAdded, ListingOk, TotalSize, Lookup, RowBytes, ReadRows, Header;
    var seed := EventSeed(ctx.chat, ctx.message, d.csvId, d.latest, raw);
    var eventId := env.eventId(seed);
    var row := NewRow(env, g, ctx, d, s, raw, eventId, t).value;
    LogicalBounds(env, g, d.csvId);
    DatasetChain(env, g, d);
    LatestFacts(env, g, d, s);
    FreshId(env, g, d, seed);
    NewRowFits(env, g, ctx, d, s, raw, eventId, t);
    if d.preset.Ledger? { NewLedgerRowOk(env, g, ctx, d, s, raw, eventId, t); }
    GroupSizes(env, g);
    StoreRowEffect(env, g, d.csvId, s, row);
    var h := StoreRow(env, g, d.csvId, s, row).0;
    if h != g {
      RowVersionOk(env, g, h, d.csvId, d.latest, d.events[d.latest - 1].schemaHash, row);
      AppendedDatasetOk(env, g, h, d, row);
      RowKeepsGroup(env, g, h, d, row);
    }
  }

  lemma LatestFacts(env: Env, g: Group, d: Dataset, s: Schema)
    requires |d.events| == d.latest >= 1 && ChainOk(env, g, d, d.latest)
    requires LoadSchema(env, g, d.csvId, d.latest) == Ok(s)
    ensures s.version == d.latest && FieldsAt(env, g, d.csvId, d.latest) == s.fields && Distinct(s.fields)
    ensures VersionOk(env, g, d.csvId, d.latest, d.events[d.latest - 1].schemaHash)
    ensures ReadRows(env, g, d.csvId, s.version, s.fields).Ok?
    ensures d.preset.Ledger? ==> LEDGER_FIELDS <= s.fields
  {
    hide ReadRows, RowsOk, Distinct, LEDGER_FIELDS, Extends;
  }

  lemma GroupSizes(env: Env, g: Group)
    requires GroupOk(env, g)
    ensures ListingOk(g) && TotalSize(env, g) <= MAX_GROUP_BYTES
  {
    hide ListingOk, TotalSize, LogicalOk, Replay, CatalogBytes;
  }

  lemma RowKeepsGroup(env: Env, g: Group, h: Group, d: Dataset, row: Row)
    requires GroupOk(env, g) && Replay(CatalogOf(g)).Ok?
    requires d.csvId in Replay(CatalogOf(g)).value && Replay(CatalogOf(g)).value[d.csvId] == d
    requires d.latest >= 1 && RowAdded(g, h, d.csvId, d.latest, row)
    requires ListingOk(h) && TotalSize(env, h) <= MAX_GROUP_BYTES && DatasetOk(env, h, d.csvId, d)
    ensures GroupOk(env, h)
  {
    hide ListingOk, TotalSize, Replay, DatasetOk, CatalogBytes, OrphansEmpty, RowsOf;
    var logical := Replay(CatalogOf(g)).value;
    assert Lookup(h, CatalogPath) == Lookup(g, CatalogPath);
    RowKeepsOrphans(g, h, logical, d, row);
    forall id | id in logical
      ensures DatasetOk(env, h, id, logical[id])
    {
      if id != d.csvId {
        RowFrame(g, h, d.csvId, d.latest, row, id, logical[id].latest);
        DatasetFrame(env, g, h, id, logical[id]);
      }
    }
  }

  lemma RowKeepsOrphans(g: Group, h: Group, logical: Logical, d: Dataset, row: Row)
    requires OrphansEmpty(g, logical) && RowAdded(g, h, d.csvId, d.latest, row)
    requires d.csvId in logical && logical[d.csvId] == d && d.latest >= 1
    ensures OrphansEmpty(h, logical)
  {
    forall id, v | !Announced(logical, id, v)
      ensures RowsOf(h, id, v) == []
    {
      assert Lookup(h, RowsPath(id, v)) == Lookup(g, RowsPath(id, v));
    }
  }

  /** `append` keeps a group in order. */
  lemma AppendRowKeeps(env: Env, g: Group, ctx: Context, d: Dataset, raw: map<string, Value>, t: Times, crash: Crash)
    requires CollisionFree(env) && GroupOk(env, g) && Replay(CatalogOf(g)).Ok?
    requires d.csvId in Replay(CatalogOf(g)).value && Replay(CatalogOf(g)).value[d.csvId] == d
    ensures GroupOk(env, AppendRow(env, g, ctx, d, raw, t, crash).0)
  {
    hide GroupOk, Replay, CatalogOf, LoadSchema, FindRow, NewRow, StoreRow, RowsOf, AppendAnswer, ReadBack, RowEventId,
         CollisionFree, ReadRows;
    if LoadSchema(env, g, d.csvId, d.latest).Ok? {
      var s := LoadSchema(env, g, d.csvId, d.latest).value;
      if ReadRows(env, g, d.csvId, d.latest, s.fields).Ok? {
        RowsOfVersion(env, g, d.csvId, d.latest, s.fields);
        var eventId := RowEventId(env, ctx, d.csvId, d.latest, raw);
        if FindRow(RowsOf(g, d.csvId, d.latest), eventId).None? && NewRow(env, g, ctx, d, s, raw, eventId, t).Ok? {
          StoreRowKeeps(env, g, ctx, d, s, raw, t);
        }
      }
    }
  }
}
