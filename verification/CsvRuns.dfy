/** Short runs from an empty workspace, for the inputs on which the ledger behaves unexpectedly. */
module CsvRuns {
  import opened Text
  import opened Decimals
  import opened DecimalSums
  import opened CsvFields
  import opened CsvStore
  import opened CsvAppend
  import opened CsvLedger
  import opened CsvBalance
  import opened CsvInvariant
  import opened CsvPreserve
  import opened CsvSteps
  import opened CsvReplay
  import opened CsvEffects
  import opened CsvReading
  import opened CsvReversal
  import opened CsvQuery

  const UNIT := 4096

  /** Nothing that is written is larger than 4 KiB, and the clock is a datetime. */
  ghost predicate Roomy(env: Env) {
    && CollisionFree(env) && env.cal.datetime("t").Some?
    && (forall e :: env.catalogSize(e) <= UNIT)
    && (forall s :: env.schemaSize(s) <= UNIT)
    && (forall h :: env.headerSize(h) <= UNIT)
    && (forall h, r :: env.rowSize(h, r) <= UNIT)
  }

  // ---------------------------------------------------------------- a new ledger

  /** A ledger that still has its first version, with these rows and at most so many bytes. */
  ghost predicate LedgerAt(env: Env, g: Group, d: Dataset, rows: seq<Row>, bytes: nat) {
    && GroupOk(env, g) && DatasetIn(g, d.csvId) == Some(d) && d.latest == 1 && d.preset.Ledger?
    && LoadSchema(env, g, d.csvId, 1).Ok? && LoadSchema(env, g, d.csvId, 1).value.fields == LEDGER_FIELDS
    && RowsOf(g, d.csvId, 1) == rows && TotalSize(env, g) <= bytes
  }

  lemma EmptySize(env: Env)
    ensures TotalSize(env, EMPTY_GROUP) == 0 && ListingOk(EMPTY_GROUP) && CatalogOf(EMPTY_GROUP) == []
    ensures Replay(CatalogOf(EMPTY_GROUP)) == Ok(map[])
  {
    var g := EMPTY_GROUP;
    assert g.listing[..0] == [];
    assert ListedSize(env, g, []) == 0 && SizeOf(env, g, CatalogPath) == 0;
  }

  /** The files of a new version fit, and can be read back. */
  lemma VersionIsWritten(env: Env, s: Schema)
    requires Roomy(env) && |s.fields| <= MAX_FIELDS_PER_SCHEMA
    ensures var w := WriteVersion(env, EMPTY_GROUP, s, Never);
            w.1.None? && LoadSchema(env, w.0, s.csvId, s.version) == Ok(s) && RowsOf(w.0, s.csvId, s.version) == []
            && CatalogOf(w.0) == [] && ListingOk(w.0) && TotalSize(env, w.0) <= 2 * UNIT
  {
    hide TotalSize, ListingOk, Header, CollisionFree, DistinctIds, AllHexIds;
    EmptySize(env);
    var g1 := CreateFile(EMPTY_GROUP, SchemaPath(s.csvId, s.version), SchemaFile(s));
    CreateSize(env, EMPTY_GROUP, SchemaPath(s.csvId, s.version), SchemaFile(s));
    CreateSize(env, g1, RowsPath(s.csvId, s.version), RowsFile(Header(s.fields), []));
    NoIds();
  }

  lemma NoIds()
    ensures DistinctIds([]) && AllHexIds([])
  {
  }

  lemma EventIsWritten(env: Env, g: Group, e: CatalogEvent)
    requires Roomy(env) && ListingOk(g) && TotalSize(env, g) <= 2 * UNIT && CatalogOf(g) == []
    ensures var w := AppendCatalog(env, g, e, Never);
            w.1.None? && CatalogOf(w.0) == [e] && TotalSize(env, w.0) <= 3 * UNIT
            && forall p :: p != CatalogPath ==> Lookup(w.0, p) == Lookup(g, p)
  {
    hide TotalSize, ListingOk, CollisionFree;
    assert [] + [e] == [e];
    OneEventSize(env, e);
    PutSize(env, g, CatalogPath, CatalogFile([e]));
  }

  lemma OneEventSize(env: Env, e: CatalogEvent)
    ensures CatalogBytes(env, [e]) == env.catalogSize(e) && CatalogBytes(env, []) == 0
  {
    assert [e][..0] == [];
  }

  /** The request that creates a ledger. */
  predicate CreatesLedger(call: Call) {
    && ContextOk(call.ctx) && call.crash.Never?
    && call.request == CreateRequest(Str("l"), Null, "ledger", "", [])
  }

  lemma LedgerCallPasses(call: Call)
    requires CreatesLedger(call)
    ensures Screen(call).None? && CreatesDataset(call)
    ensures NameOf(call) == "l" && DescriptionOf(call) == "" && PresetOf(call) == Ledger
  {
    hide ContextOk;
    NameIsSafe();
    LedgerIsPreset();
    hide SafeText, Strip;
  }

  lemma NameIsSafe()
    ensures SafeText(Str("l"), 160, true) == Ok("l") && SafeText(Null, 1200, false) == Ok("") && Strip("") == ""
  {
    PlainTextIsSafe("l", 160, true);
  }

  lemma LedgerIsPreset()
    ensures ParsePreset("ledger") == Some(Ledger)
  {
    StripFixes("ledger");
    hide Strip;
  }

  function LedgerSeed(env: Env, ctx: Context): DatasetSeed {
    DatasetSeed(env.scope(ctx.chat), ctx.message, "l", Ledger, LEDGER_FIELDS)
  }

  lemma LedgerIsPublished(env: Env, s: Schema, e: CatalogEvent)
    requires Roomy(env) && s.fields == LEDGER_FIELDS && s.preset.Ledger? && s.version == 1
    requires e.DatasetCreated? && e.csvId == s.csvId && e.version == 1 && e.preset == Ledger
    requires e.schemaHash == env.schemaHash(s) && IsHexId(e.csvId)
    ensures var w := Publish(env, EMPTY_GROUP, s, e, Never);
            w.1.None?
            && LedgerAt(env, w.0, Dataset(e.csvId, e.name, e.description, e.preset, e.createdAt, e.actorName, 1, [e]),
                        [], 3 * UNIT)
  {
    hide WriteVersion, AppendCatalog, GroupOk, TotalSize, ListingOk, CatalogOf, LoadSchema, RowsOf, Replay,
         CollisionFree, IsHexId, LEDGER_FIELDS, Distinct;
    LedgerFieldAt();
    LedgerFieldsDistinct();
    EmptySize(env);
    EmptyGroupOk(env);
    VersionIsWritten(env, s);
    var w := WriteVersion(env, EMPTY_GROUP, s, Never).0;
    EventIsWritten(env, w, e);
    var h := AppendCatalog(env, w, e, Never).0;
    SameFiles(env, w, h, s.csvId);
    PublishDatasetKeeps(env, EMPTY_GROUP, s, e, Never);
    ReplayIsOk(env, h);
    assert [] + [e] == [e];
    CreatedDataset([], e);
  }

  lemma SameFiles(env: Env, g: Group, h: Group, csvId: string)
    requires forall p :: p != CatalogPath ==> Lookup(h, p) == Lookup(g, p)
    ensures LoadSchema(env, h, csvId, 1) == LoadSchema(env, g, csvId, 1) && RowsOf(h, csvId, 1) == RowsOf(g, csvId, 1)
  {
    assert Lookup(h, SchemaPath(csvId, 1)) == Lookup(g, SchemaPath(csvId, 1));
    assert Lookup(h, RowsPath(csvId, 1)) == Lookup(g, RowsPath(csvId, 1));
  }

  /** After the first call there is an empty ledger. */
  lemma LedgerIsCreated(env: Env, call: Call) returns (d: Dataset)
    requires Roomy(env) && CreatesLedger(call)
    ensures d.csvId == env.datasetId(LedgerSeed(env, call.ctx))
    ensures LedgerAt(env, GroupOf(Step(env, map[], call).0, env.scope(call.ctx.chat)), d, [], 3 * UNIT)
  {
    hide Publish, GroupOk, Replay, CatalogOf, LEDGER_FIELDS, CreateIn, Screen, AfterPublish, IsHexId, LedgerAt,
         EMPTY_GROUP;
    LedgerCallPasses(call);
    EmptySize(env);
    EmptyGroupOk(env);
    ReplayIsOk(env, EMPTY_GROUP);
    CreateInIs(env, EMPTY_GROUP, map[], call);
    var csvId := env.datasetId(LedgerSeed(env, call.ctx));
    var s := Schema(csvId, 1, "l", "", Ledger, LEDGER_FIELDS, call.times.schema, None);
    var e := DatasetCreated(csvId, 1, "", env.schemaHash(s), call.times.event,
                            call.ctx.user, call.ctx.userName, call.ctx.message, "l", Ledger);
    LedgerIsPublished(env, s, e);
    d := Dataset(csvId, "l", "", Ledger, call.times.event, call.ctx.userName, 1, [e]);
  }

  // ---------------------------------------------------------------- an append with room

  lemma {:induction false} RowsFitUnits(env: Env, header: seq<string>, rows: seq<Row>)
    requires Roomy(env)
    ensures RowBytes(env, header, rows) <= (|rows| + 1) * UNIT
  {
    hide CollisionFree;
    if rows == [] {
    } else {
      RowsFitUnits(env, header, rows[..|rows| - 1]);
    }
  }

  lemma RowIsStored(env: Env, g: Group, csvId: string, s: Schema, row: Row, bytes: nat)
    requires Roomy(env) && ListingOk(g) && TotalSize(env, g) <= bytes <= 100 * UNIT
    requires ReadRows(env, g, csvId, s.version, s.fields).Ok? && |RowsOf(g, csvId, s.version)| <= 100
    ensures StoreRow(env, g, csvId, s, row).1.None?
    ensures TotalSize(env, StoreRow(env, g, csvId, s, row).0) <= bytes + UNIT
  {
    hide TotalSize, ListingOk, Header, RowBytes, AllHexIds, DistinctIds, CollisionFree;
    var rows, header := RowsOf(g, csvId, s.version), Header(s.fields);
    RowsFitUnits(env, header, rows);
    PutSize(env, g, RowsPath(csvId, s.version), RowsFile(header, rows + [row]));
    RowBytesGrow(env, header, rows, row);
  }

  lemma LedgerFacts(env: Env, g: Group, d: Dataset, rows: seq<Row>, bytes: nat)
    requires LedgerAt(env, g, d, rows, bytes)
    ensures LoadSchema(env, g, d.csvId, 1).value.version == 1 && ListingOk(g)
    ensures ReadRows(env, g, d.csvId, 1, LoadSchema(env, g, d.csvId, 1).value.fields) == Ok(rows)
    ensures Replay(CatalogOf(g)).Ok? && d.csvId in Replay(CatalogOf(g)).value
            && Replay(CatalogOf(g)).value[d.csvId] == d
  {
    hide GroupOk, Replay, CatalogOf, DatasetOk, LoadSchema, ReadRows, RowsOf, ChainOk, TotalSize, ListingOk,
         LEDGER_FIELDS;
    LogicalBounds(env, g, d.csvId);
    DatasetChain(env, g, d);
    var s := LoadSchema(env, g, d.csvId, 1).value;
    LatestFacts(env, g, d, s);
    RowsOfVersion(env, g, d.csvId, 1, s.fields);
    GroupSizes(env, g);
  }

  lemma NewRowIsAppended(env: Env, g: Group, ctx: Context, d: Dataset, s: Schema, raw: map<string, Value>, t: Times,
                         rows: seq<Row>)
    requires d.latest == 1 && LoadSchema(env, g, d.csvId, 1) == Ok(s) && s.version == 1
    requires ReadRows(env, g, d.csvId, 1, s.fields) == Ok(rows)
    requires var id := RowEventId(env, ctx, d.csvId, 1, raw);
             FindRow(rows, id).None? && NewRow(env, g, ctx, d, s, raw, id, t).Ok?
             && StoreRow(env, g, d.csvId, s, NewRow(env, g, ctx, d, s, raw, id, t).value).1.None?
    ensures var row := NewRow(env, g, ctx, d, s, raw, RowEventId(env, ctx, d.csvId, 1, raw), t).value;
            var h := StoreRow(env, g, d.csvId, s, row).0;
            AppendRow(env, g, ctx, d, raw, t, Never) == (h, ReadBack(env, h, d, s, row))
  {
    hide LoadSchema, ReadRows, FindRow, NewRow, StoreRow, ReadBack, RowEventId;
  }

  /** What an append leaves behind when its row is acceptable and new, and there is room. */
  lemma AppendWithRoom(env: Env, g: Group, d: Dataset, rows: seq<Row>, bytes: nat, ctx: Context,
                       raw: map<string, Value>, t: Times)
    requires Roomy(env) && LedgerAt(env, g, d, rows, bytes) && |rows| <= 100 && bytes <= 100 * UNIT
    requires FindRow(rows, RowEventId(env, ctx, d.csvId, 1, raw)).None?
    requires NewRow(env, g, ctx, d, LoadSchema(env, g, d.csvId, 1).value, raw, RowEventId(env, ctx, d.csvId, 1, raw),
                    t).Ok?
    ensures var row := NewRow(env, g, ctx, d, LoadSchema(env, g, d.csvId, 1).value, raw,
                              RowEventId(env, ctx, d.csvId, 1, raw), t).value;
            var out := AppendRow(env, g, ctx, d, raw, t, Never);
            LedgerAt(env, out.0, d, rows + [row], bytes + UNIT) && AnswersWith(env, out.0, d, out.1, row, false)
            && row.eventId == RowEventId(env, ctx, d.csvId, 1, raw)
  {
    hide GroupOk, Replay, CatalogOf, LoadSchema, ReadRows, FindRow, NewRow, StoreRow, ReadBack, RowEventId, RowsOf,
         AnswersWith, CollisionFree, RowAdded, TotalSize, ListingOk, LEDGER_FIELDS, AppendRow;
    LedgerFacts(env, g, d, rows, bytes);
    var s := LoadSchema(env, g, d.csvId, 1).value;
    var id := RowEventId(env, ctx, d.csvId, 1, raw);
    var row := NewRow(env, g, ctx, d, s, raw, id, t).value;
    RowIsStored(env, g, d.csvId, s, row, bytes);
    NewRowIsAppended(env, g, ctx, d, s, raw, t, rows);
    NewRowFits(env, g, ctx, d, s, raw, id, t);
    GroupSizes(env, g);
    StoreRowEffect(env, g, d.csvId, s, row);
    var h := StoreRow(env, g, d.csvId, s, row).0;
    AddedRows(g, h, d.csvId, 1, row);
    RowLeavesCatalog(env, g, h, d, row);
    StoreRowKeeps(env, g, ctx, d, s, raw, t);
    StoredIsAnswered(env, g, h, d, s, row);
  }

  /** All rows of a ledger with one version. */
  lemma OnlyVersion(env: Env, g: Group, d: Dataset, rows: seq<Row>, bytes: nat)
    requires LedgerAt(env, g, d, rows, bytes)
    ensures AllRows(env, g, d.csvId, d.latest) == Ok(rows) && LedgerOk(rows) && AmountsInOrder(rows)
  {
    hide GroupOk, Replay, CatalogOf, DatasetOk, ChainOk, RowsOf, LoadSchema, LedgerOk, AmountsInOrder, TotalSize,
         AllRows, AllProject, LEDGER_FIELDS;
    LogicalBounds(env, g, d.csvId);
    DatasetChain(env, g, d);
    ChainReads(env, g, d, 1);
    NoRows(env, g, d.csvId);
    assert [] + rows == rows;
  }

  // ---------------------------------------------------------------- incomes

  /** A request to book an income. */
  function Income(amount: string, account: string): map<string, Value> {
    map["direction" := Str("income"), "amount" := Str(amount), "account" := Str(account)]
  }

  /** What is handed on to storage, for an amount in canonical text. */
  function Booked(amount: string, account: string): map<string, Value> {
    map["direction" := Str("income"), "amount" := Str(amount), "account" := Str(account), "occurred_at" := Str("t"),
        "currency" := Str("CNY"), "amount_delta" := Str(amount)]
  }

  lemma BookedValues(amount: string, account: string)
    ensures var m := Booked(amount, account);
            Get(m, "occurred_at") == Str("t") && Get(m, "account") == Str(account) && Get(m, "currency") == Str("CNY")
            && Get(m, "direction") == Str("income") && Get(m, "amount") == Str(amount)
            && Get(m, "amount_delta") == Str(amount) && Get(m, "category") == Null && Get(m, "note") == Null
            && Get(m, REVERSES) == Null
  {
  }

  /** The text is accepted as an income, as this canonical text. */
  predicate Books(text: string, a: string) {
    AmountAndDelta(Str("income"), Str(text)) == Ok((a, a)) && CanonText(a) == Some(a) && a != ""
  }

  lemma IncomeIsPrepared(text: string, a: string, account: string)
    requires Books(text, a)
    ensures PrepareLedger([], Income(text, account), "t") == Ok(Booked(a, account))
  {
    hide AmountAndDelta, CanonText;
    assert !AsksReversal(Income(text, account));
    assert DraftRow([], Income(text, account), "t").Ok?;
    assert PrepareLedger([], Income(text, account), "t").value == Booked(a, account);
  }

  lemma BookedIsTaken(cal: Calendar, a: string, account: string)
    requires cal.datetime("t").Some? && CanonText(a) == Some(a) && a != ""
    requires account != "" && SafeText(Str(account), 4096, false).Ok?
    ensures KnownValues(cal, LEDGER_FIELDS, Booked(a, account)).Ok?
  {
    hide Takes, Booked, KnownValues, SafeText, CanonText;
    BookedValues(a, account);
    ShortWords();
    TextIsTaken(cal, OCCURRED_FIELD, Booked(a, account), "t");
    TextIsTaken(cal, CURRENCY_FIELD, Booked(a, account), "CNY");
    TextIsTaken(cal, DIRECTION_FIELD, Booked(a, account), "income");
    TextIsTaken(cal, AMOUNT_FIELD, Booked(a, account), a);
    TextIsTaken(cal, DELTA_FIELD, Booked(a, account), a);
    BlankIsTaken(cal, CATEGORY_FIELD, Booked(a, account));
    BlankIsTaken(cal, NOTE_FIELD, Booked(a, account));
    BlankIsTaken(cal, REVERSES_FIELD, Booked(a, account));
    AccountIsTaken(cal, Booked(a, account), account);
    KnownIfTaken(cal, LEDGER_FIELDS, Booked(a, account));
  }

  lemma BlankIsTaken(cal: Calendar, f: Field, values: map<string, Value>)
    requires f.default.None? && !f.required && Get(values, f.name) == Null
    ensures Takes(cal, f, values)
  {
  }

  lemma AccountIsTaken(cal: Calendar, values: map<string, Value>, account: string)
    requires account != "" && SafeText(Str(account), 4096, false).Ok? && Get(values, "account") == Str(account)
    ensures Takes(cal, ACCOUNT_FIELD, values)
  {
    hide SafeText;
  }

  lemma BookedKeysLegal(a: string, account: string)
    ensures ExtraOk(LEDGER_FIELDS, Booked(a, account))
  {
    hide Names, KeyOk, LEDGER_FIELDS, ExtraValueOk;
    LedgerFieldsDistinct();
    forall k | k in Booked(a, account)
      ensures KeyOk(k) && k in Names(LEDGER_FIELDS)
    {
      LedgerKeysAreLegal(k);
    }
  }

  /** A booked income is stored with its canonical amount under the stripped account. */
  predicate IsIncome(row: Row, a: string, account: string) {
    Cell(row, "amount") == a && Cell(row, "amount_delta") == a && Cell(row, "direction") == "income"
    && Cell(row, "account") == account && Cell(row, "currency") == "CNY" && Cell(row, REVERSES) == ""
    && Cell(row, "category") == ""
  }

  lemma BookedRow(cal: Calendar, ctx: Context, a: string, account: string, stored: string, eventId: string, now: string)
    requires cal.datetime("t").Some? && CanonText(a) == Some(a) && a != ""
    requires account != "" && SafeText(Str(account), 4096, false) == Ok(stored)
    ensures var r := DurableRow(cal, ctx, LEDGER_FIELDS, Booked(a, account), eventId, now);
            r.Ok? && IsIncome(r.value, a, stored)
  {
    hide KnownValues, ExtraOk, Booked, SafeText, CanonText, CanonField, LEDGER_FIELDS;
    BookedIsTaken(cal, a, account);
    BookedKeysLegal(a, account);
    BookedValues(a, account);
    LedgerFieldsDistinct();
    LedgerFieldAt();
    var known := KnownValues(cal, LEDGER_FIELDS, Booked(a, account)).value;
    KnownAt(cal, LEDGER_FIELDS, Booked(a, account), 1);
    KnownAt(cal, LEDGER_FIELDS, Booked(a, account), 2);
    KnownAt(cal, LEDGER_FIELDS, Booked(a, account), 3);
    KnownAt(cal, LEDGER_FIELDS, Booked(a, account), 4);
    KnownAt(cal, LEDGER_FIELDS, Booked(a, account), 5);
    KnownAt(cal, LEDGER_FIELDS, Booked(a, account), 6);
    KnownAt(cal, LEDGER_FIELDS, Booked(a, account), 8);
    BookedCells(cal, a, account, stored);
  }

  lemma BookedCells(cal: Calendar, a: string, account: string, stored: string)
    requires CanonText(a) == Some(a) && a != ""
    requires account != "" && SafeText(Str(account), 4096, false) == Ok(stored)
    ensures CanonField(cal, AMOUNT_FIELD, Str(a)) == Ok(a) && CanonField(cal, DELTA_FIELD, Str(a)) == Ok(a)
    ensures CanonField(cal, ACCOUNT_FIELD, Str(account)) == Ok(stored)
    ensures CanonField(cal, CURRENCY_FIELD, Str("CNY")) == Ok("CNY")
    ensures CanonField(cal, DIRECTION_FIELD, Str("income")) == Ok("income")
    ensures CanonField(cal, REVERSES_FIELD, Null) == Ok("") && CanonField(cal, CATEGORY_FIELD, Null) == Ok("")
    ensures LEDGER_FIELDS[6] == CATEGORY_FIELD
  {
    hide CanonText, SafeText;
    ShortWords();
  }

  /** Booking an income in a new ledger. */
  lemma IncomeIsNew(env: Env, g: Group, ctx: Context, d: Dataset, s: Schema, text: string, a: string, account: string,
                    stored: string, eventId: string, t: Times)
    requires d.preset.Ledger? && s.fields == LEDGER_FIELDS && env.cal.datetime("t").Some? && t.ledger == "t"
    requires Books(text, a) && account != "" && SafeText(Str(account), 4096, false) == Ok(stored)
    ensures var r := NewRow(env, g, ctx, d, s, Income(text, account), eventId, t);
            r.Ok? && r.value.eventId == eventId && IsIncome(r.value, a, stored)
  {
    hide PrepareLedger, DurableRow, Books, SafeText, AllRows, LEDGER_FIELDS, Booked, IsIncome;
    IncomeIsPrepared(text, a, account);
    BooksAmount(text, a);
    BookedRow(env.cal, ctx, a, account, stored, eventId, t.row);
    AsksNothing(text, account);
    hide AsksReversal, Income;
    NewRowFits(env, g, ctx, d, s, Income(text, account), eventId, t);
  }

  lemma BooksAmount(text: string, a: string)
    requires Books(text, a)
    ensures CanonText(a) == Some(a) && a != ""
  {
    hide AmountAndDelta, CanonText;
  }

  lemma AsksNothing(text: string, account: string)
    ensures !AsksReversal(Income(text, account))
  {
  }

  // ---------------------------------------------------------------- calls

  /** A call that appends this row to the ledger, in the chat that created it. */
  predicate Appends(call: Call, chat: string, csvId: string, raw: map<string, Value>) {
    && ContextOk(call.ctx) && call.ctx.chat == chat && call.crash.Never? && call.times.ledger == "t"
    && call.request == AppendRequest(csvId, raw)
  }

  lemma CleanHex(id: string)
    requires IsHexId(id)
    ensures CleanId(id) == id
  {
    HexIsTrimmed(id);
    hide Strip;
    assert forall i :: 0 <= i < |id| ==> id[i] in id;
    assert Lower(id) == id;
  }

  lemma AppendPasses(call: Call, chat: string, csvId: string, raw: map<string, Value>)
    requires Appends(call, chat, csvId, raw) && IsHexId(csvId) && !SuppliesSystemFields(raw)
    ensures Screen(call).None? && CleanId(call.request.csvId) == csvId
  {
    CleanHex(csvId);
    hide ContextOk, IsHexId, SuppliesSystemFields, CleanId;
  }

  /** The group of the chat after some calls. */
  function GroupAfter(env: Env, calls: seq<Call>, chat: string): Group {
    GroupOf(Run(env, map[], calls), env.scope(chat))
  }

  lemma OneMoreCall(env: Env, calls: seq<Call>, call: Call)
    requires Screen(call).None?
    ensures var g := GroupAfter(env, calls, call.ctx.chat);
            GroupAfter(env, calls + [call], call.ctx.chat) == InGroup(env, g, call).0
            && Step(env, Run(env, map[], calls), call).1 == InGroup(env, g, call).1
  {
    hide Screen, InGroup, EMPTY_GROUP;
    assert (calls + [call])[..|calls|] == calls;
  }

  /** An append call is served on its dataset. */
  lemma AppendIsServed(env: Env, g: Group, d: Dataset, rows: seq<Row>, bytes: nat, call: Call, raw: map<string, Value>)
    requires LedgerAt(env, g, d, rows, bytes) && Appends(call, call.ctx.chat, d.csvId, raw)
    requires Screen(call).None? && CleanId(call.request.csvId) == d.csvId
    ensures InGroup(env, g, call) == AppendRow(env, g, call.ctx, d, raw, call.times, Never)
  {
    hide GroupOk, Screen, CleanId, AppendRow, Replay, CatalogOf, ReadLogical, LoadSchema, RowsOf, TotalSize, ContextOk;
    ReplayIsOk(env, g);
  }

  lemma IncomeKeysPass(text: string, account: string)
    ensures !SuppliesSystemFields(Income(text, account))
  {
    assert Income(text, account).Keys == {"direction", "amount", "account"};
  }

  lemma LedgerIdIsHex(env: Env, g: Group, d: Dataset, rows: seq<Row>, bytes: nat)
    requires LedgerAt(env, g, d, rows, bytes)
    ensures IsHexId(d.csvId)
  {
    hide GroupOk, Replay, CatalogOf, LoadSchema, RowsOf, TotalSize, IsHexId;
    ReplayedIdIsHex(CatalogOf(g), d.csvId);
  }

  /** Booking an income adds its row. */
  lemma IncomeIsBooked(env: Env, calls: seq<Call>, d: Dataset, rows: seq<Row>, bytes: nat, call: Call, text: string,
                       a: string, account: string, stored: string) returns (row: Row)
    requires Roomy(env) && LedgerAt(env, GroupAfter(env, calls, call.ctx.chat), d, rows, bytes)
    requires |rows| <= 100 && bytes <= 100 * UNIT
    requires Appends(call, call.ctx.chat, d.csvId, Income(text, account))
    requires Books(text, a) && account != "" && SafeText(Str(account), 4096, false) == Ok(stored)
    requires FindRow(rows, RowEventId(env, call.ctx, d.csvId, 1, Income(text, account))).None?
    ensures IsIncome(row, a, stored) && row.eventId == RowEventId(env, call.ctx, d.csvId, 1, Income(text, account))
    ensures var h := GroupAfter(env, calls + [call], call.ctx.chat);
            LedgerAt(env, h, d, rows + [row], bytes + UNIT)
            && AnswersWith(env, h, d, Step(env, Run(env, map[], calls), call).1, row, false)
  {
    hide GroupOk, LedgerAt, Income, Books, SafeText, NewRow, AppendRow, Screen, InGroup, CleanId, GroupAfter, FindRow,
         Run, Step, IsIncome, AnswersWith, RowEventId, CollisionFree, LEDGER_FIELDS, IsHexId, SuppliesSystemFields;
    var g := GroupAfter(env, calls, call.ctx.chat);
    var raw := Income(text, account);
    LedgerIdIsHex(env, g, d, rows, bytes);
    IncomeKeysPass(text, account);
    AppendPasses(call, call.ctx.chat, d.csvId, raw);
    OneMoreCall(env, calls, call);
    AppendIsServed(env, g, d, rows, bytes, call, raw);
    LedgerSchema(env, g, d, rows, bytes);
    var s := LoadSchema(env, g, d.csvId, 1).value;
    var id := RowEventId(env, call.ctx, d.csvId, 1, raw);
    IncomeIsNew(env, g, call.ctx, d, s, text, a, account, stored, id, call.times);
    AppendWithRoom(env, g, d, rows, bytes, call.ctx, raw, call.times);
    row := NewRow(env, g, call.ctx, d, s, raw, id, call.times).value;
  }

  lemma LedgerSchema(env: Env, g: Group, d: Dataset, rows: seq<Row>, bytes: nat)
    requires LedgerAt(env, g, d, rows, bytes)
    ensures d.preset.Ledger? && LoadSchema(env, g, d.csvId, 1).Ok?
    ensures LoadSchema(env, g, d.csvId, 1).value.fields == LEDGER_FIELDS
  {
    hide GroupOk, Replay, CatalogOf, RowsOf, TotalSize, LEDGER_FIELDS;
  }

  /** The ledger after its creation. */
  lemma LedgerStarts(env: Env, call: Call) returns (d: Dataset)
    requires Roomy(env) && CreatesLedger(call)
    ensures d.csvId == env.datasetId(LedgerSeed(env, call.ctx))
    ensures LedgerAt(env, GroupAfter(env, [call], call.ctx.chat), d, [], 3 * UNIT)
  {
    hide LedgerAt, Step, EMPTY_GROUP;
    d := LedgerIsCreated(env, call);
    FirstCall(env, call);
  }

  lemma FirstCall(env: Env, call: Call)
    ensures Run(env, map[], [call]) == Step(env, map[], call).0
  {
    hide Step;
    var calls := [call];
    assert calls[..|calls| - 1] == [];
    assert Run(env, map[], []) == map[];
  }

  // ---------------------------------------------------------------- a balance that cannot be written

  const BIG: string := "9E+1023"

  lemma BigIsBooked()
    ensures Books(BIG, ToFixed(Nine(1023))) && ParseDec(Strip(ToFixed(Nine(1023)))) == Some(Nine(1023))
  {
    hide CanonText, ToFixed, ParseDec, Strip, Pow10, CanonDec, AmountAndDelta, ToSci, Digits, FitsFixed;
    NineIsAccepted();
    NineIsPlain();
    CanonFixedPoint(BIG);
    BigAmount();
    EmptyIsNoNumber();
  }

  lemma BigAmount()
    ensures AmountAndDelta(Str("income"), Str(BIG)) == Ok((ToFixed(Nine(1023)), ToFixed(Nine(1023))))
  {
    hide CanonDec, CanonText, ToFixed, ParseDec, Strip, Pow10;
    NineIsAccepted();
    assert Signed(Nine(1023)) > 0 by { NinePositive(1023); }
  }

  lemma NineIsPlain()
    ensures |ToFixed(Nine(1023))| == 1024
  {
    hide Digits, Pow10;
    ShortDigits();
    SplitZeros(9, 1023, 1023);
  }

  lemma FreshForOther(env: Env, ctx: Context, other: Context, csvId: string, raw: map<string, Value>, row: Row)
    requires CollisionFree(env) && ctx.message != other.message && row.eventId == RowEventId(env, other, csvId, 1, raw)
    ensures FindRow([row], RowEventId(env, ctx, csvId, 1, raw)).None?
  {
    assert [row][..0] == [];
    assert FindRow([], RowEventId(env, ctx, csvId, 1, raw)).None?;
  }

  lemma CashIsSafe()
    ensures SafeText(Str("cash"), 4096, false) == Ok("cash")
  {
    hide SafeText;
    ShortWords();
  }

  lemma TwoDeltas(a: Row, b: Row, text: string, d: Dec)
    requires IsIncome(a, text, "cash") && IsIncome(b, text, "cash") && ParseDec(Strip(text)) == Some(d)
    ensures DeltasOf([a, b], "cash", "CNY") == [d, d]
  {
    hide ParseDec, Strip, Cell;
    NoDeltas();
    DeltasStep([], a, "cash", "CNY");
    DeltasStep([a], b, "cash", "CNY");
    assert [] + [a] == [a] && [a] + [b] == [a, b];
  }

  lemma NoDeltas()
    ensures DeltasOf([], "cash", "CNY") == []
  {
  }

  /** A ledger is created and two incomes of 9E+1023 are appended by two messages: the second one
      is stored, and refused for its balance. */
  lemma TwoBigIncomesRun(env: Env, create: Call, first: Call, second: Call) returns (d: Dataset, a: Row, b: Row)
    requires Roomy(env) && CreatesLedger(create)
    requires var csvId := env.datasetId(LedgerSeed(env, create.ctx));
             Appends(first, create.ctx.chat, csvId, Income(BIG, "cash"))
             && Appends(second, create.ctx.chat, csvId, Income(BIG, "cash"))
    requires first.ctx.message != second.ctx.message
    ensures d.csvId == env.datasetId(LedgerSeed(env, create.ctx))
    ensures IsIncome(a, ToFixed(Nine(1023)), "cash") && IsIncome(b, ToFixed(Nine(1023)), "cash")
    ensures LedgerAt(env, GroupAfter(env, [create, first, second], create.ctx.chat), d, [a, b], 5 * UNIT)
    ensures Step(env, Run(env, map[], [create, first]), second).1 == Err(BalanceTooLong)
  {
    hide LedgerAt, Income, Books, SafeText, GroupAfter, FindRow, Run, Step, IsIncome, RowEventId, CollisionFree,
         ToFixed, ParseDec, Strip, AnswersWith;
    d := LedgerStarts(env, create);
    BigIsBooked();
    CashIsSafe();
    var text := ToFixed(Nine(1023));
    NothingFound(RowEventId(env, first.ctx, d.csvId, 1, Income(BIG, "cash")));
    a := IncomeIsBooked(env, [create], d, [], 3 * UNIT, first, BIG, text, "cash", "cash");
    assert [] + [a] == [a] && [create] + [first] == [create, first];
    FreshForOther(env, second.ctx, first.ctx, d.csvId, Income(BIG, "cash"), a);
    b := IncomeIsBooked(env, [create, first], d, [a], 4 * UNIT, second, BIG, text, "cash", "cash");
    assert [a] + [b] == [a, b] && [create, first] + [second] == [create, first, second];
    TwoDeltas(a, b, text, Nine(1023));
    RefusedForBalance(env, GroupAfter(env, [create, first, second], create.ctx.chat), d, a, b,
                      Step(env, Run(env, map[], [create, first]), second).1);
  }

  lemma NothingFound(id: string)
    ensures FindRow([], id).None?
  {
  }

  lemma RefusedForBalance(env: Env, g: Group, d: Dataset, a: Row, b: Row, r: Result<Response, Reason>)
    requires LedgerAt(env, g, d, [a, b], 5 * UNIT) && AnswersWith(env, g, d, r, b, false)
    requires IsIncome(b, ToFixed(Nine(1023)), "cash") && DeltasOf([a, b], "cash", "CNY") == [Nine(1023), Nine(1023)]
    ensures r == Err(BalanceTooLong)
  {
    hide GroupOk, Replay, CatalogOf, RowsOf, TotalSize, LEDGER_FIELDS, DeltasOf, ToFixed, AllRows, LedgerBalance,
         FitsFixed, Cell, LoadSchema, DatasetIn;
    OnlyVersion(env, g, d, [a, b], 5 * UNIT);
    TwoBigIncomes([a, b], b);
    BalanceRefused([a, b], b);
  }

  // ---------------------------------------------------------------- a query that is refused for its sum

  lemma {:induction false} SameNumbers(rows: seq<Shown>, field: string, text: string, d: Dec)
    requires forall r :: r in rows ==> Get(r.fields, field) == Str(text)
    requires ParseDec(Strip(text)) == Some(d)
    ensures Numbers(rows, field) == seq(|rows|, i => d)
  {
    hide ParseDec, Strip;
    if rows == [] {
    } else {
      SameNumbers(rows[..|rows| - 1], field, text, d);
    }
  }

  lemma AmountShows(env: Env, row: Row, a: string, shown: map<string, Value>)
    requires Cell(row, "amount") == a && a != "" && RowFits(row, LEDGER_FIELDS)
    requires VisibleRow(env.cal, row, LEDGER_FIELDS, LEDGER_FIELDS) == Ok(shown)
    ensures Get(shown, "amount") == Str(a)
  {
    hide Cell, LEDGER_FIELDS, Names, Distinct, VisibleFields;
    LedgerFieldAt();
    LedgerFieldsDistinct();
    NameAt(LEDGER_FIELDS, 4);
    ShownAt(env.cal, row, Names(LEDGER_FIELDS), LEDGER_FIELDS, 4);
  }

  /** The rows that queries of a ledger with one version select from. */
  lemma LedgerRowsShown(env: Env, g: Group, d: Dataset, a: Row, b: Row, bytes: nat, text: string)
    requires LedgerAt(env, g, d, [a, b], bytes) && Cell(a, "amount") == text && Cell(b, "amount") == text && text != ""
    ensures LogicalRows(env, g, d).Ok? && |LogicalRows(env, g, d).value| == 2
    ensures forall r :: r in LogicalRows(env, g, d).value ==> Get(r.fields, "amount") == Str(text)
    ensures FieldsAt(env, g, d.csvId, d.latest) == LEDGER_FIELDS
  {
    hide GroupOk, Replay, CatalogOf, DatasetOk, RowsOf, LoadSchema, TotalSize, LoadSchemas, ShowVersions, ShowRows,
         SortRows, LEDGER_FIELDS, ShowsAll, Sorted, AllRows, Cell, ReadRows, RowFits;
    LogicalBounds(env, g, d.csvId);
    LogicalRowsCoherent(env, g, d);
    OneSchema(env, g, d);
    LedgerFacts(env, g, d, [a, b], bytes);
    var s := LoadSchema(env, g, d.csvId, 1).value;
    OneVersionShown(env, g, d.csvId, s, [a, b]);
    var shown := ShowVersions(env, g, d.csvId, [s], LEDGER_FIELDS).value;
    FirstVersionFits(env, g, d);
    assert a in RowsOf(g, d.csvId, 1) && b in RowsOf(g, d.csvId, 1);
    TwoRowsShown(env, a, b, text, shown);
    SortRowsSorts(shown);
    assert |SortRows(shown)| == |shown| by { SameSize(SortRows(shown), shown); }
    forall r | r in SortRows(shown)
      ensures Get(r.fields, "amount") == Str(text)
    {
      assert r in multiset(SortRows(shown));
      assert r in multiset(shown);
    }
  }

  lemma FirstVersionFits(env: Env, g: Group, d: Dataset)
    requires DatasetOk(env, g, d.csvId, d)
    ensures forall r :: r in RowsOf(g, d.csvId, 1) ==> RowFits(r, FieldsAt(env, g, d.csvId, 1))
  {
    hide ChainOk, VersionOk, FieldsAt, RowsOf, RowFits, AllProject, LedgerFilesOk;
    DatasetChain(env, g, d);
    ChainAt(env, g, d, 1, d.latest);
    VersionRowsFit(env, g, d.csvId, 1, d.events[0].schemaHash);
  }

  lemma OneSchema(env: Env, g: Group, d: Dataset)
    requires LoadSchemas(env, g, d, 1).Ok?
    ensures LoadSchema(env, g, d.csvId, 1).Ok?
            && LoadSchemas(env, g, d, 1).value == [LoadSchema(env, g, d.csvId, 1).value]
  {
    hide LoadSchema;
    NoSchemasYet(env, g, d);
  }

  lemma OneVersionShown(env: Env, g: Group, csvId: string, s: Schema, rows: seq<Row>)
    requires ReadRows(env, g, csvId, s.version, s.fields) == Ok(rows) && s.fields == LEDGER_FIELDS
    requires ShowVersions(env, g, csvId, [s], LEDGER_FIELDS).Ok?
    ensures ShowRows(env.cal, rows, LEDGER_FIELDS, LEDGER_FIELDS)
         == Ok(ShowVersions(env, g, csvId, [s], LEDGER_FIELDS).value)
  {
    hide ReadRows, ShowRows, LEDGER_FIELDS;
    var schemas := [s];
    assert schemas[..|schemas| - 1] == [];
    assert ShowVersions(env, g, csvId, [], LEDGER_FIELDS) == Ok([]);
    var shown := ShowRows(env.cal, rows, LEDGER_FIELDS, LEDGER_FIELDS);
    if shown.Ok? { assert [] + shown.value == shown.value; }
  }

  lemma TwoRowsShown(env: Env, a: Row, b: Row, text: string, shown: seq<Shown>)
    requires ShowRows(env.cal, [a, b], LEDGER_FIELDS, LEDGER_FIELDS) == Ok(shown)
    requires Cell(a, "amount") == text && Cell(b, "amount") == text && text != ""
    requires RowFits(a, LEDGER_FIELDS) && RowFits(b, LEDGER_FIELDS)
    ensures |shown| == 2 && forall r :: r in shown ==> Get(r.fields, "amount") == Str(text)
  {
    hide Cell, VisibleRow, LEDGER_FIELDS, RowFits;
    var rows := [a, b];
    assert rows[..|rows| - 1] == [a] && [a][..|[a]| - 1] == [];
    assert ShowRows(env.cal, [], LEDGER_FIELDS, LEDGER_FIELDS) == Ok([]);
    AmountShows(env, a, text, VisibleRow(env.cal, a, LEDGER_FIELDS, LEDGER_FIELDS).value);
    AmountShows(env, b, text, VisibleRow(env.cal, b, LEDGER_FIELDS, LEDGER_FIELDS).value);
  }

  lemma {:induction false} NoFilters(same: (Value, Value) -> bool, rows: seq<Shown>)
    ensures Matched(same, rows, []) == rows
  {
    if rows == [] {
    } else {
      NoFilters(same, rows[..|rows| - 1]);
      assert rows[..|rows| - 1] + [rows[|rows| - 1]] == rows;
    }
  }

  lemma {:induction false} FieldNamedAt(fields: seq<Field>, i: nat)
    requires Distinct(fields) && i < |fields|
    ensures FieldNamed(fields, fields[i].name) == Some(fields[i])
  {
    hide Names;
    if i == |fields| - 1 {
    } else {
      FieldNamedAt(fields[..|fields| - 1], i);
      NameAt(fields[..|fields| - 1], i);
    }
  }

  lemma AmountIsDeclared()
    ensures FieldNamed(LEDGER_FIELDS, "amount") == Some(AMOUNT_FIELD) && Strip("amount") == "amount"
  {
    StripFixes("amount");
    hide FieldNamed, LEDGER_FIELDS, Distinct, Strip;
    LedgerFieldAt();
    LedgerFieldsDistinct();
    FieldNamedAt(LEDGER_FIELDS, 4);
  }

  /** In the ledger with two incomes of 9E+1023, a query of all rows is answered, and the same
      query with the sum of the amounts is refused, rows and all. */
  lemma SumIsRefused(env: Env, same: (Value, Value) -> bool, g: Group, d: Dataset, a: Row, b: Row, q: Query)
    requires LedgerAt(env, g, d, [a, b], 5 * UNIT)
    requires IsIncome(a, ToFixed(Nine(1023)), "cash") && IsIncome(b, ToFixed(Nine(1023)), "cash")
    requires q.filters == [] && q.offset >= 0 && q.limit >= 1 && q.sumField == ""
    ensures QueryDataset(env, same, g, d, q).Ok?
    ensures QueryDataset(env, same, g, d, q.(sumField := "amount")) == Err(NotDecimal)
  {
    hide LedgerAt, ToFixed, ParseDec, Strip, LogicalRows, Numbers, FieldsAt, FieldNamed, LEDGER_FIELDS, Page, HasMore,
         SumCtx, FitsFixed, CanonDec, Matched, Cell;
    var text := ToFixed(Nine(1023));
    BigIsBooked();
    hide Books;
    assert text != "" by { NineIsPlain(); }
    LedgerRowsShown(env, g, d, a, b, 5 * UNIT, text);
    var rows := LogicalRows(env, g, d).value;
    NoFilters(same, rows);
    AmountIsDeclared();
    NameIsSafe();
    SameNumbers(rows, "amount", text, Nine(1023));
    assert seq(2, i => Nine(1023)) == [Nine(1023), Nine(1023)];
    TwoNinesAreTooLong();
  }

  // ---------------------------------------------------------------- an income that cannot be taken back

  const TINY: string := "1E-1022"
  const TINY_NUMBER: Dec := Dec(false, 1, -1022)

  lemma TinyTextIs()
    ensures NumberText(false, "1", None, Some(-1022)) == TINY
  {
    assert Digits(1022) == "1022";
  }

  lemma TinySci()
    ensures ToSci(TINY_NUMBER) == TINY
  {
    assert Digits(1) == "1";
    hide Digits, NumberText;
    TinyTextIs();
  }

  lemma TinyTextParses()
    ensures Strip(TINY) == TINY && ParseDec(TINY) == Some(TINY_NUMBER) && ToSci(TINY_NUMBER) == TINY
  {
    hide ParseDec, Strip, Digits, ParseNat, NumberText, ToSci;
    TinySci();
    TinyTextIs();
    ParseSnoc([], '1');
    ParseZeros(0);
    assert [] + ['1'] == "1";
    ParseWhole(false, "1", Some(-1022));
  }

  lemma TinyIsShort()
    ensures |ToFixed(TINY_NUMBER)| == 1024 && FitsFixed(TINY_NUMBER) && |Digits(1)| == 1
  {
    TinyLength();
    hide Digits, ToFixed;
    NegatedText(TINY_NUMBER);
  }

  lemma TinyIsCanonical()
    ensures CanonText(TINY) == Some(ToFixed(TINY_NUMBER))
            && CanonText(ToFixed(TINY_NUMBER)) == Some(ToFixed(TINY_NUMBER))
    ensures ParseDec(Strip(ToFixed(TINY_NUMBER))) == Some(TINY_NUMBER) && CanonDec(TINY_NUMBER) == CanonText(TINY)
  {
    hide ParseDec, Strip, ToFixed, TrimText, Digits, ToSci, FitsFixed;
    TinyTextParses();
    TinyIsShort();
    NormOfNormal(TINY_NUMBER);
    assert CanonText(TINY).Some?;
    CanonKeepsValue(TINY);
    CanonFixedPoint(TINY);
  }

  lemma TinyIsBooked()
    ensures Books(TINY, ToFixed(TINY_NUMBER))
  {
    hide ParseDec, Strip, ToFixed, CanonText, CanonDec;
    TinyIsCanonical();
    TinyIsShort();
  }

  lemma AmountOfText(row: Row, text: string, d: Dec)
    requires Cell(row, "amount") == text && ParseDec(Strip(text)) == Some(d)
    ensures CellNumber(row, "amount") == d
  {
    hide ParseDec, Strip, Cell;
  }

  lemma TinyDoesNotFit(a: Row)
    requires AmountsOk(a) && IsIncome(a, ToFixed(TINY_NUMBER), "cash")
    ensures !ReversalFits(a)
  {
    hide ParseDec, Strip, ToFixed, CanonText, CanonDec, Cell, CellNumber, FitsFixed, Normal, Norm, Digits;
    TinyIsCanonical();
    TinyIsShort();
    AmountOfText(a, ToFixed(TINY_NUMBER), TINY_NUMBER);
    hide AmountsOk, ReversalFits;
    ShortAmountFits(a);
  }

  lemma OneRow(a: Row, id: string)
    ensures FindRow([a], id) == if a.eventId == id then Some(a) else None
  {
    var rows := [a];
    assert rows[..|rows| - 1] == [];
  }

  lemma NoReversalRow(env: Env, g: Group, ctx: Context, d: Dataset, s: Schema, a: Row, raw: map<string, Value>,
                      eventId: string, t: Times, bytes: nat)
    requires LedgerAt(env, g, d, [a], bytes) && s.fields == LEDGER_FIELDS && !ReversalFits(a)
    requires AsksReversal(raw) && EventIdText(Get(raw, REVERSES)) == a.eventId
    ensures NewRow(env, g, ctx, d, s, raw, eventId, t).Err?
  {
    hide GroupOk, Replay, CatalogOf, RowsOf, LoadSchema, TotalSize, LEDGER_FIELDS, AllRows, LedgerOk, ReversalFits,
         IsHexId, AsksReversal, EventIdText, Distinct, AmountsOk, ReversedBy, Cell, AmountAndDelta, OthersTaken,
         DurableRow, ReversalRow, DatasetIn;
    OnlyVersion(env, g, d, [a], bytes);
    OneRow(a, a.eventId);
    LedgerFieldsDistinct();
    assert a in [a];
    if ReversalTarget([a], raw).Ok? {
      ReversalAccepted(env.cal, ctx, s.fields, [a], raw, eventId, t.ledger, t.row, a);
    }
  }

  lemma TinyStays(env: Env, g: Group, d: Dataset, a: Row, first: Context, bytes: nat, ctx: Context,
                  raw: map<string, Value>, t: Times, crash: Crash)
    requires Roomy(env) && LedgerAt(env, g, d, [a], bytes) && IsIncome(a, ToFixed(TINY_NUMBER), "cash")
    requires a.eventId == RowEventId(env, first, d.csvId, 1, Income(TINY, "cash"))
    requires AsksReversal(raw) && EventIdText(Get(raw, REVERSES)) == a.eventId
    ensures AppendRow(env, g, ctx, d, raw, t, crash).0 == g && AppendRow(env, g, ctx, d, raw, t, crash).1.Err?
  {
    hide GroupOk, Replay, CatalogOf, RowsOf, TotalSize, LEDGER_FIELDS, AllRows, LedgerOk, ReversalFits, IsHexId,
         AsksReversal, EventIdText, AppendRow, NewRow, ToFixed, Cell, FindRow, Income, LoadSchema, AmountsOk, IsIncome;
    OnlyVersion(env, g, d, [a], bytes);
    assert a in [a];
    TinyDoesNotFit(a);
    var id := RowEventId(env, ctx, d.csvId, 1, raw);
    AsksNothing(TINY, "cash");
    OneRow(a, id);
    NoReversalRow(env, g, ctx, d, LoadSchema(env, g, d.csvId, 1).value, a, raw, id, t, bytes);
    AppendEffect(env, g, ctx, d, raw, t, crash);
  }

  /** An income of 1E-1022 is accepted and stored, and no request whatever can reverse it. */
  lemma TinyIncomeRun(env: Env, create: Call, first: Call) returns (d: Dataset, a: Row)
    requires Roomy(env) && CreatesLedger(create)
    requires Appends(first, create.ctx.chat, env.datasetId(LedgerSeed(env, create.ctx)), Income(TINY, "cash"))
    ensures IsIncome(a, ToFixed(TINY_NUMBER), "cash")
    ensures LedgerAt(env, GroupAfter(env, [create, first], create.ctx.chat), d, [a], 4 * UNIT)
    ensures var g := GroupAfter(env, [create, first], create.ctx.chat);
            forall ctx, raw, t, crash :: AsksReversal(raw) && EventIdText(Get(raw, REVERSES)) == a.eventId ==>
              AppendRow(env, g, ctx, d, raw, t, crash).0 == g && AppendRow(env, g, ctx, d, raw, t, crash).1.Err?
  {
    hide LedgerAt, Income, Books, SafeText, GroupAfter, FindRow, Run, Step, IsIncome, RowEventId, CollisionFree,
         AppendRow, ToFixed, AnswersWith, AsksReversal, EventIdText;
    d := LedgerStarts(env, create);
    TinyIsBooked();
    CashIsSafe();
    NothingFound(RowEventId(env, first.ctx, d.csvId, 1, Income(TINY, "cash")));
    a := IncomeIsBooked(env, [create], d, [], 3 * UNIT, first, TINY, ToFixed(TINY_NUMBER), "cash", "cash");
    assert [] + [a] == [a] && [create] + [first] == [create, first];
    var g := GroupAfter(env, [create, first], create.ctx.chat);
    forall ctx, raw, t, crash | AsksReversal(raw) && EventIdText(Get(raw, REVERSES)) == a.eventId
      ensures AppendRow(env, g, ctx, d, raw, t, crash).0 == g && AppendRow(env, g, ctx, d, raw, t, crash).1.Err?
    {
      TinyStays(env, g, d, a, first.ctx, 4 * UNIT, ctx, raw, t, crash);
    }
  }

  // ---------------------------------------------------------------- a reversal in another account

  /** A request to reverse an event. */
  function Reverses(id: string): map<string, Value> { map[REVERSES := Str(id), "note" := Str("n")] }

  lemma ReversesAsks(id: string)
    requires IsHexId(id)
    ensures AsksReversal(Reverses(id)) && EventIdText(Get(Reverses(id), REVERSES)) == id
    ensures !OverridesReversal(Reverses(id)) && !SuppliesSystemFields(Reverses(id))
  {
    CleanHex(id);
    hide Lower, Strip;
    HexIsTrimmed(id);
    assert Reverses(id).Keys == {REVERSES, "note"};
  }

  lemma OriginalIsTarget(a: Row, stored: string, text: string)
    requires IsHexId(a.eventId) && IsIncome(a, text, stored)
    ensures ReversalTarget([a], Reverses(a.eventId)) == Ok(a)
  {
    hide IsHexId, EventIdText, OverridesReversal, Cell, Reverses;
    ReversesAsks(a.eventId);
    OneRow(a, a.eventId);
    hide AsksReversal;
    assert a.eventId != "" by { HexIsNotEmpty(a.eventId); }
    assert forall r :: r in [a] ==> r == a;
  }

  lemma HexIsNotEmpty(id: string)
    requires IsHexId(id)
    ensures id != ""
  {
  }

  lemma HexIsSafe(id: string)
    requires IsHexId(id) && |id| <= 1024
    ensures SafeText(Str(id), 4096, false) == Ok(id) && id != ""
  {
    assert id[0] in id && id[|id| - 1] in id;
    hide SafeText;
    PlainTextIsSafe(id, 4096, false);
  }

  lemma ReversalDraft(a: Row, text: string, stored: string, id: string)
    requires IsIncome(a, text, stored)
    ensures var m := ReversalRow(a, Reverses(id), id, "t");
            Get(m, "occurred_at") == Str("t") && Get(m, "account") == Str(stored) && Get(m, "currency") == Str("CNY")
            && Get(m, "direction") == Str("expense") && Get(m, "category") == Str("") && Get(m, "note") == Str("n")
            && Get(m, REVERSES) == Str(id)
  {
    hide Cell;
  }

  lemma ExpenseIsSafe()
    ensures SafeText(Str("expense"), 256, true) == Ok("expense") && SafeText(Str("n"), 4096, false) == Ok("n")
  {
    hide SafeText;
    PlainTextIsSafe("expense", 256, true);
    PlainTextIsSafe("n", 4096, false);
  }

  lemma BlankOrDefault(cal: Calendar, f: Field, values: map<string, Value>)
    requires Get(values, f.name) == Str("") && f.ftype.TextType?
    requires f == CATEGORY_FIELD || f == ACCOUNT_FIELD
    ensures Takes(cal, f, values)
  {
    hide SafeText;
    ShortWords();
  }

  lemma ReversalIsTaken(cal: Calendar, a: Row, text: string, id: string)
    requires cal.datetime("t").Some? && IsIncome(a, text, "") && IsHexId(id) && |id| <= 1024
    ensures OthersTaken(cal, LEDGER_FIELDS, ReversalRow(a, Reverses(id), id, "t"))
  {
    hide Takes, SafeText, CanonText, Cell, IsHexId, ReversalRow, Reverses, IsIncome;
    var m := ReversalRow(a, Reverses(id), id, "t");
    ReversalDraft(a, text, "", id);
    ShortWords();
    ExpenseIsSafe();
    HexIsSafe(id);
    TextIsTaken(cal, OCCURRED_FIELD, m, "t");
    TextIsTaken(cal, CURRENCY_FIELD, m, "CNY");
    TextIsTaken(cal, DIRECTION_FIELD, m, "expense");
    TextIsTaken(cal, NOTE_FIELD, m, "n");
    TextIsTaken(cal, REVERSES_FIELD, m, id);
    BlankOrDefault(cal, CATEGORY_FIELD, m);
    BlankOrDefault(cal, ACCOUNT_FIELD, m);
  }

  lemma OneFits(a: Row)
    requires AmountsOk(a) && IsIncome(a, "1", "")
    ensures ReversalFits(a)
  {
    hide ParseDec, Strip, ToFixed, CanonText, CanonDec, Cell, CellNumber, FitsFixed, Normal, Norm;
    OneIsCanonical();
    assert |Digits(1)| == 1;
    AmountOfText(a, "1", Dec(false, 1, 0));
    hide AmountsOk, ReversalFits, Digits;
    ShortAmountFits(a);
  }

  lemma OneIsBooked()
    ensures Books("1", "1")
  {
    hide ParseDec, Strip, CanonText, CanonDec;
    OneIsCanonical();
  }

  /** The reversal of a blank-account income of 1 is accepted. */
  lemma BlankReversalIsNew(env: Env, g: Group, ctx: Context, d: Dataset, s: Schema, a: Row, eventId: string, t: Times,
                           bytes: nat)
    requires LedgerAt(env, g, d, [a], bytes) && s.fields == LEDGER_FIELDS && env.cal.datetime("t").Some?
             && t.ledger == "t"
    requires IsIncome(a, "1", "") && IsHexId(a.eventId) && |a.eventId| <= 1024
    ensures var r := NewRow(env, g, ctx, d, s, Reverses(a.eventId), eventId, t);
            r.Ok? && Cell(r.value, REVERSES) == a.eventId
  {
    hide GroupOk, Replay, CatalogOf, RowsOf, LoadSchema, TotalSize, LEDGER_FIELDS, AllRows, LedgerOk, ReversalFits,
         IsHexId, AsksReversal, EventIdText, Distinct, AmountsOk, Cell, AmountAndDelta, OthersTaken, DurableRow,
         ReversalRow, DatasetIn, Reverses, PrepareLedger, IsIncome, ReversalTarget;
    OnlyVersion(env, g, d, [a], bytes);
    assert a in [a];
    LedgerFieldsDistinct();
    var raw, id := Reverses(a.eventId), a.eventId;
    ReversesAsks(id);
    OriginalIsTarget(a, "", "1");
    OneFits(a);
    ReversalIsTaken(env.cal, a, "1", id);
    ReversalAccepted(env.cal, ctx, s.fields, [a], raw, eventId, t.ledger, t.row, a);
    var values := PrepareLedger([a], raw, t.ledger).value;
    PreparedReverses(a, raw, t.ledger);
    StoredReverses(env.cal, ctx, s.fields, values, eventId, t.row);
  }

  lemma PreparedReverses(a: Row, raw: map<string, Value>, now: string)
    requires AsksReversal(raw) && ReversalTarget([a], raw) == Ok(a) && PrepareLedger([a], raw, now).Ok?
    ensures Get(PrepareLedger([a], raw, now).value, REVERSES) == Str(EventIdText(Get(raw, REVERSES)))
  {
    hide AsksReversal, EventIdText, ReversalTarget, AmountAndDelta, Cell, ReversalRow, PrepareLedger;
    PreparedAmounts([a], raw, now);
    ReversalRowAt(a, raw, EventIdText(Get(raw, REVERSES)), now);
  }

  /** The last row of a ledger undoes the row it names. */
  lemma LastUndoes(a: Row, b: Row)
    requires LedgerOk([a, b]) && IsHexId(a.eventId) && Cell(b, REVERSES) == a.eventId
    ensures Undoes(b, a)
  {
    hide Undoes, Cell, IsHexId, Trimmed, LedgerOk;
    assert [a, b] == [a] + [b];
    LastRow([a], b);
    OneRow(a, a.eventId);
  }

  lemma EventIdIsHex(env: Env, ctx: Context, csvId: string, raw: map<string, Value>)
    requires CollisionFree(env)
    ensures IsHexId(RowEventId(env, ctx, csvId, 1, raw))
  {
    hide IsHexId;
  }

  /** A ledger is created, an income of 1 is booked under the account of two spaces, and the
      income is reversed: the income stands under the blank account and its reversal under cash. */
  lemma BlankAccountRun(env: Env, create: Call, first: Call, second: Call) returns (d: Dataset, a: Row, b: Row)
    requires Roomy(env) && CreatesLedger(create)
    requires var csvId := env.datasetId(LedgerSeed(env, create.ctx));
             var id := RowEventId(env, first.ctx, csvId, 1, Income("1", "  "));
             Appends(first, create.ctx.chat, csvId, Income("1", "  ")) && |id| <= 1024
             && Appends(second, create.ctx.chat, csvId, Reverses(id))
    ensures IsIncome(a, "1", "") && Cell(b, REVERSES) == a.eventId && Undoes(b, a) && Cell(b, "account") == "cash"
    ensures LedgerAt(env, GroupAfter(env, [create, first, second], create.ctx.chat), d, [a, b], 5 * UNIT)
  {
    hide LedgerAt, Income, Books, SafeText, GroupAfter, FindRow, Run, Step, IsIncome, RowEventId, CollisionFree,
         AppendRow, AnswersWith, Reverses, Cell, LedgerOk, IsHexId, Undoes, AmountsInOrder;
    d := LedgerStarts(env, create);
    OneIsBooked();
    SafeTextOfBlank();
    NothingFound(RowEventId(env, first.ctx, d.csvId, 1, Income("1", "  ")));
    a := IncomeIsBooked(env, [create], d, [], 3 * UNIT, first, "1", "1", "  ", "");
    assert [] + [a] == [a] && [create] + [first] == [create, first];
    EventIdIsHex(env, first.ctx, d.csvId, Income("1", "  "));
    b := ReversalIsBooked(env, [create, first], d, a, first.ctx, second);
    assert [create, first] + [second] == [create, first, second];
    OnlyVersion(env, GroupAfter(env, [create, first, second], create.ctx.chat), d, [a, b], 5 * UNIT);
    LastUndoes(a, b);
    BlankIsCash(a, b);
  }

  lemma BlankIsCash(a: Row, b: Row)
    requires Undoes(b, a) && IsIncome(a, "1", "")
    ensures Cell(b, "account") == "cash"
  {
    hide Cell;
  }

  lemma ReversalIsBooked(env: Env, calls: seq<Call>, d: Dataset, a: Row, first: Context, call: Call) returns (b: Row)
    requires Roomy(env) && LedgerAt(env, GroupAfter(env, calls, call.ctx.chat), d, [a], 4 * UNIT)
    requires IsIncome(a, "1", "") && IsHexId(a.eventId) && |a.eventId| <= 1024
    requires a.eventId == RowEventId(env, first, d.csvId, 1, Income("1", "  "))
    requires Appends(call, call.ctx.chat, d.csvId, Reverses(a.eventId))
    ensures Cell(b, REVERSES) == a.eventId
    ensures LedgerAt(env, GroupAfter(env, calls + [call], call.ctx.chat), d, [a, b], 5 * UNIT)
  {
    hide GroupOk, LedgerAt, Income, NewRow, AppendRow, Screen, InGroup, CleanId, GroupAfter, FindRow, Run, Step,
         IsIncome, AnswersWith, CollisionFree, LEDGER_FIELDS, IsHexId, SuppliesSystemFields, Reverses, AsksReversal,
         EventIdText, Cell;
    var g := GroupAfter(env, calls, call.ctx.chat);
    var raw := Reverses(a.eventId);
    LedgerIdIsHex(env, g, d, [a], 4 * UNIT);
    ReversesAsks(a.eventId);
    AppendPasses(call, call.ctx.chat, d.csvId, raw);
    OneMoreCall(env, calls, call);
    AppendIsServed(env, g, d, [a], 4 * UNIT, call, raw);
    LedgerSchema(env, g, d, [a], 4 * UNIT);
    var s := LoadSchema(env, g, d.csvId, 1).value;
    var id := RowEventId(env, call.ctx, d.csvId, 1, raw);
    AsksNothing("1", "  ");
    DifferentSeeds(env, call.ctx, first, d.csvId, raw, Income("1", "  "));
    OneRow(a, id);
    hide RowEventId;
    BlankReversalIsNew(env, g, call.ctx, d, s, a, id, call.times, 4 * UNIT);
    AppendWithRoom(env, g, d, [a], 4 * UNIT, call.ctx, raw, call.times);
    b := NewRow(env, g, call.ctx, d, s, raw, id, call.times).value;
    assert [a] + [b] == [a, b];
  }

  lemma DifferentSeeds(env: Env, ctx: Context, other: Context, csvId: string, raw: map<string, Value>,
                       raw': map<string, Value>)
    requires CollisionFree(env) && raw != raw'
    ensures RowEventId(env, ctx, csvId, 1, raw) != RowEventId(env, other, csvId, 1, raw')
  {
    hide IsHexId;
  }
}
