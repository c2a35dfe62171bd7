/** The on-disk state of one conversation group and the operations that change it. A group is
    a set of files: the catalog log, one immutable schema file and one row log per dataset
    version. An operation is a function from the group it finds to the group it leaves, with
    a crash possible after every write. */
module CsvStore {
  import opened Text
  import opened Decimals
  import opened CsvFields

  const MAX_DATASETS_PER_GROUP: nat := 20
  const MAX_VERSIONS_PER_DATASET: nat := 5
  const MAX_ROW_BYTES: nat := 16 * 1024
  const MAX_SCHEMA_BYTES: nat := 256 * 1024
  const MAX_FILE_BYTES: nat := 10 * 1024 * 1024
  const MAX_GROUP_BYTES: nat := 100 * 1024 * 1024

  datatype Preset = Custom | Ledger

  datatype Context = Context(platform: string, chat: string, user: string, userName: string, message: string)

  datatype Schema = Schema(
    csvId: string, version: nat, name: string, description: string, preset: Preset,
    fields: seq<Field>, createdAt: string, previousHash: Option<string>)

  datatype CatalogEvent =
    | DatasetCreated(csvId: string, version: int, description: string, schemaHash: string,
                     createdAt: string, actorId: string, actorName: string, messageId: string,
                     name: string, preset: Preset)
    | VersionCreated(csvId: string, version: int, description: string, schemaHash: string,
                     createdAt: string, actorId: string, actorName: string, messageId: string)

  datatype DatasetSeed = DatasetSeed(scope: string, message: string, name: string, preset: Preset, fields: seq<Field>)

  datatype EventSeed = EventSeed(chat: string, message: string, csvId: string, version: nat, row: map<string, Value>)

  /** What the model leaves to the libraries: the calendar, the SHA-256 digests, and the
      encoded size of what is written. */
  datatype Env = Env(
    cal: Calendar,
    scope: string -> string,
    datasetId: DatasetSeed -> string,
    eventId: EventSeed -> string,
    schemaHash: Schema -> string,
    catalogSize: CatalogEvent -> nat,
    schemaSize: Schema -> nat,
    headerSize: seq<string> -> nat,
    rowSize: (seq<string>, Row) -> nat)

  /** An id is written in hexadecimal. The program cuts digests to exactly 32 digits; the model
      lets them be longer, so that different inputs can have different ids at all. */
  predicate IsHexId(s: string) {
    |s| >= 32 && forall c :: c in s ==> IsDigit(c) || 'a' <= c <= 'f'
  }

  /** Ids are hexadecimal, and no two inputs share a digest. */
  ghost predicate CollisionFree(env: Env) {
    && (forall a :: IsHexId(env.datasetId(a)))
    && (forall a :: IsHexId(env.eventId(a)))
    && (forall a, b :: env.datasetId(a) == env.datasetId(b) ==> a == b)
    && (forall a, b :: env.eventId(a) == env.eventId(b) ==> a == b)
    && (forall a, b :: env.schemaHash(a) == env.schemaHash(b) ==> a == b)
    && (forall a, b :: env.scope(a) == env.scope(b) ==> a == b)
  }

  // ---------------------------------------------------------------- files

  datatype Path = CatalogPath | SchemaPath(csvId: string, version: nat) | RowsPath(csvId: string, version: nat)

  datatype File =
    | CatalogFile(events: seq<CatalogEvent>)
    | SchemaFile(schema: Schema)
    | RowsFile(header: seq<string>, rows: seq<Row>)

  /** The files of a group, and the order in which they were created. */
  datatype Group = Group(files: map<Path, File>, listing: seq<Path>)

  const EMPTY_GROUP := Group(map[CatalogPath := CatalogFile([])], [CatalogPath])

  function Lookup(g: Group, p: Path): Option<File> { if p in g.files then Some(g.files[p]) else None }

  function Put(g: Group, p: Path, f: File): Group {
    Group(g.files[p := f], if p in g.files then g.listing else g.listing + [p])
  }

  /** `_create_file` leaves an existing file alone. */
  function CreateFile(g: Group, p: Path, f: File): Group { if p in g.files then g else Put(g, p, f) }

  function CatalogBytes(env: Env, events: seq<CatalogEvent>): nat {
    if events == [] then 0
    else CatalogBytes(env, events[..|events| - 1]) + env.catalogSize(events[|events| - 1])
  }

  function RowBytes(env: Env, header: seq<string>, rows: seq<Row>): nat {
    if rows == [] then env.headerSize(header)
    else RowBytes(env, header, rows[..|rows| - 1]) + env.rowSize(header, rows[|rows| - 1])
  }

  function FileSize(env: Env, f: File): nat {
    match f
    case CatalogFile(events) => CatalogBytes(env, events)
    case SchemaFile(s) => env.schemaSize(s)
    case RowsFile(header, rows) => RowBytes(env, header, rows)
  }

  function SizeOf(env: Env, g: Group, p: Path): nat { if p in g.files then FileSize(env, g.files[p]) else 0 }

  function ListedSize(env: Env, g: Group, paths: seq<Path>): nat {
    if paths == [] then 0 else ListedSize(env, g, paths[..|paths| - 1]) + SizeOf(env, g, paths[|paths| - 1])
  }

  /** What `_check_group_quota` adds up. */
  function TotalSize(env: Env, g: Group): nat { ListedSize(env, g, g.listing) }

  // ---------------------------------------------------------------- reading

  function SystemColumns(): seq<string> {
    ["_event_id", "_created_at", "_actor_user_id", "_actor_name", "_source_message_id", "_row_sha256"]
  }

  function FieldNames(fields: seq<Field>): seq<string> {
    if fields == [] then [] else FieldNames(fields[..|fields| - 1]) + [fields[|fields| - 1].name]
  }

  function Header(fields: seq<Field>): seq<string> { SystemColumns() + FieldNames(fields) + ["_extra_json"] }

  function ReadCatalog(env: Env, g: Group): Result<seq<CatalogEvent>, Reason> {
    match Lookup(g, CatalogPath)
    case Some(CatalogFile(events)) =>
      if CatalogBytes(env, events) <= MAX_FILE_BYTES then Ok(events) else Err(Integrity)
    case _ => Err(Integrity)
  }

  function LoadSchema(env: Env, g: Group, csvId: string, version: nat): Result<Schema, Reason> {
    match Lookup(g, SchemaPath(csvId, version))
    case Some(SchemaFile(s)) =>
      if env.schemaSize(s) <= MAX_SCHEMA_BYTES && s.csvId == csvId && s.version == version
         && |s.fields| <= MAX_FIELDS_PER_SCHEMA
      then Ok(s) else Err(Integrity)
    case _ => Err(Integrity)
  }

  predicate DistinctIds(rows: seq<Row>) {
    rows != [] ==>
      DistinctIds(rows[..|rows| - 1]) && FindRow(rows[..|rows| - 1], rows[|rows| - 1].eventId).None?
  }

  /** The first row with this event id. */
  function FindRow(rows: seq<Row>, eventId: string): Option<Row> {
    if rows == [] then None
    else
      match FindRow(rows[..|rows| - 1], eventId)
      case Some(r) => Some(r)
      case None => if rows[|rows| - 1].eventId == eventId then Some(rows[|rows| - 1]) else None
  }

  predicate AllHexIds(rows: seq<Row>) { forall r :: r in rows ==> IsHexId(r.eventId) }

  function ReadRows(env: Env, g: Group, csvId: string, version: nat, fields: seq<Field>): Result<seq<Row>, Reason> {
    match Lookup(g, RowsPath(csvId, version))
    case Some(RowsFile(header, rows)) =>
      if RowBytes(env, header, rows) <= MAX_FILE_BYTES && header == Header(fields)
         && AllHexIds(rows) && DistinctIds(rows)
      then Ok(rows) else Err(Integrity)
    case _ => Err(Integrity)
  }

  // ---------------------------------------------------------------- catalog replay

  /** A dataset as the catalog tells it. */
  datatype Dataset = Dataset(
    csvId: string, name: string, description: string, preset: Preset, createdAt: string,
    createdBy: string, latest: nat, events: seq<CatalogEvent>)

  type Logical = map<string, Dataset>

  function ReplayStep(logical: Logical, e: CatalogEvent): Result<Logical, Reason> {
    if !IsHexId(e.csvId) || !(1 <= e.version <= MAX_VERSIONS_PER_DATASET) then Err(Integrity)
    else if e.DatasetCreated? then
      if e.csvId in logical || e.version != 1 then Err(Integrity)
      else Ok(logical[e.csvId :=
        Dataset(e.csvId, e.name, e.description, e.preset, e.createdAt, e.actorName, 1, [e])])
    else if e.csvId !in logical || e.version != logical[e.csvId].latest + 1 then Err(Integrity)
    else
      var d := logical[e.csvId];
      Ok(logical[e.csvId := d.(latest := e.version, events := d.events + [e],
                               description := if e.description != "" then e.description else d.description)])
  }

  /** `_logical_catalog`. */
  function Replay(events: seq<CatalogEvent>): Result<Logical, Reason> {
    if events == [] then Ok(map[])
    else
      match Replay(events[..|events| - 1])
      case Err(e) => Err(e)
      case Ok(logical) => ReplayStep(logical, events[|events| - 1])
  }

  function ReadLogical(env: Env, g: Group): Result<Logical, Reason> {
    match ReadCatalog(env, g)
    case Err(e) => Err(e)
    case Ok(events) => Replay(events)
  }

  /** `_load_all_schemas`, for the first n versions. */
  function LoadSchemas(env: Env, g: Group, d: Dataset, n: nat): Result<seq<Schema>, Reason> {
    if n == 0 then Ok([])
    else
      match LoadSchemas(env, g, d, n - 1)
      case Err(e) => Err(e)
      case Ok(done) =>
        match LoadSchema(env, g, d.csvId, n)
        case Err(e) => Err(e)
        case Ok(s) =>
          if n <= |d.events| && env.schemaHash(s) == d.events[n - 1].schemaHash then Ok(done + [s]) else Err(Integrity)
  }

  /** `_all_raw_rows`, for the first n versions. */
  function AllRows(env: Env, g: Group, csvId: string, n: nat): Result<seq<Row>, Reason> {
    if n == 0 then Ok([])
    else
      match AllRows(env, g, csvId, n - 1)
      case Err(e) => Err(e)
      case Ok(done) =>
        match LoadSchema(env, g, csvId, n)
        case Err(e) => Err(e)
        case Ok(s) =>
          match ReadRows(env, g, csvId, n, s.fields)
          case Err(e) => Err(e)
          case Ok(rows) => Ok(done + rows)
  }

  // ---------------------------------------------------------------- what the tools answer

  datatype DatasetInfo = DatasetInfo(dataset: Dataset, versions: seq<seq<Field>>, rowCount: nat)

  datatype Balance = Balance(account: string, currency: string, amount: string)

  datatype Response =
    | DatasetResponse(idempotent: bool, info: DatasetInfo)
    | RowResponse(idempotent: bool, csvId: string, version: nat, row: Row,
                  shown: map<string, Value>, balance: Option<Balance>)

  function FieldsOf(schemas: seq<Schema>): seq<seq<Field>> {
    if schemas == [] then [] else FieldsOf(schemas[..|schemas| - 1]) + [schemas[|schemas| - 1].fields]
  }

  function CountRows(env: Env, g: Group, csvId: string, schemas: seq<Schema>): Result<nat, Reason> {
    if schemas == [] then Ok(0)
    else
      match CountRows(env, g, csvId, schemas[..|schemas| - 1])
      case Err(e) => Err(e)
      case Ok(n) =>
        var s := schemas[|schemas| - 1];
        match ReadRows(env, g, csvId, s.version, s.fields)
        case Err(e) => Err(e)
        case Ok(rows) => Ok(n + |rows|)
  }

  /** `_public_dataset`. */
  function PublicDataset(env: Env, g: Group, d: Dataset, schemas: seq<Schema>): Result<DatasetInfo, Reason> {
    match CountRows(env, g, d.csvId, schemas)
    case Err(e) => Err(e)
    case Ok(n) => Ok(DatasetInfo(d, FieldsOf(schemas), n))
  }

  function DatasetAnswer(env: Env, g: Group, d: Dataset, schemas: seq<Schema>, idempotent: bool)
    : Result<Response, Reason>
  {
    match PublicDataset(env, g, d, schemas)
    case Err(e) => Err(e)
    case Ok(info) => Ok(DatasetResponse(idempotent, info))
  }

  // ---------------------------------------------------------------- writing

  /** Where the process dies, if it does. A single file write is atomic in the model. */
  datatype Crash = Never | AfterSchemaFile | AfterRowsFile | AfterCatalog | AfterRow

  /** The clock readings one operation takes. */
  datatype Times = Times(schema: string, event: string, row: string, ledger: string)

  /** `_write_new_version`: the group left behind, and the failure if there was one. */
  function WriteVersion(env: Env, g: Group, s: Schema, crash: Crash): (Group, Option<Reason>) {
    if TotalSize(env, g) + env.schemaSize(s) + env.headerSize(Header(s.fields)) > MAX_GROUP_BYTES
    then (g, Some(GroupQuota))
    else
      var g1 := CreateFile(g, SchemaPath(s.csvId, s.version), SchemaFile(s));
      if crash.AfterSchemaFile? then (g1, Some(Crashed))
      else
        var g2 := CreateFile(g1, RowsPath(s.csvId, s.version), RowsFile(Header(s.fields), []));
        if crash.AfterRowsFile? then (g2, Some(Crashed))
        else
          match LoadSchema(env, g2, s.csvId, s.version)
          case Err(e) => (g2, Some(e))
          case Ok(stored) =>
            if env.schemaHash(stored) != env.schemaHash(s) then (g2, Some(Integrity))
            else if ReadRows(env, g2, s.csvId, s.version, stored.fields).Err? then (g2, Some(Integrity))
            else (g2, None)
  }

  function CatalogOf(g: Group): seq<CatalogEvent> {
    match Lookup(g, CatalogPath)
    case Some(CatalogFile(events)) => events
    case _ => []
  }

  /** `_append_catalog`. */
  function AppendCatalog(env: Env, g: Group, e: CatalogEvent, crash: Crash): (Group, Option<Reason>) {
    var events := CatalogOf(g);
    if TotalSize(env, g) + env.catalogSize(e) > MAX_GROUP_BYTES then (g, Some(GroupQuota))
    else if CatalogBytes(env, events) + env.catalogSize(e) > MAX_FILE_BYTES then (g, Some(FileQuota))
    else
      (Put(g, CatalogPath, CatalogFile(events + [e])), if crash.AfterCatalog? then Some(Crashed) else None)
  }

  /** Write the version, then announce it in the catalog. */
  function Publish(env: Env, g: Group, s: Schema, e: CatalogEvent, crash: Crash): (Group, Option<Reason>) {
    var w := WriteVersion(env, g, s, crash);
    if w.1.Some? then w else AppendCatalog(env, w.0, e, crash)
  }

  // ---------------------------------------------------------------- create

  const OCCURRED_FIELD := Field("occurred_at", DatetimeType, true, "", [], None, false)
  const ACCOUNT_FIELD := Field("account", TextType, true, "", [], Some(Str("cash")), false)
  const CURRENCY_FIELD := Field("currency", TextType, true, "", [], Some(Str("CNY")), false)
  const DIRECTION_FIELD := Field("direction", EnumType, true, "", ["income", "expense"], None, false)
  const AMOUNT_FIELD := Field("amount", DecimalType, true, "", [], None, false)
  const DELTA_FIELD := Field("amount_delta", DecimalType, true, "", [], None, true)
  const CATEGORY_FIELD := Field("category", TextType, false, "", [], None, false)
  const NOTE_FIELD := Field("note", TextType, false, "", [], None, false)
  const REVERSES_FIELD := Field("reverses_event_id", TextType, false, "", [], None, false)

  const LEDGER_FIELDS: seq<Field> :=
    [OCCURRED_FIELD, ACCOUNT_FIELD, CURRENCY_FIELD, DIRECTION_FIELD, AMOUNT_FIELD, DELTA_FIELD,
     CATEGORY_FIELD, NOTE_FIELD, REVERSES_FIELD]

  /** The fields of a new dataset. */
  function InitialFields(env: Env, preset: Preset, raw: seq<RawField>): Result<seq<Field>, Reason> {
    if preset.Ledger? then (if raw != [] then Err(LedgerFieldsGiven) else Ok(LEDGER_FIELDS))
    else
      match NormalizeFields(env.cal, raw, false)
      case Err(e) => Err(e)
      case Ok(fields) => if fields == [] then Err(NoFields) else Ok(fields)
  }

  function NewDatasetId(env: Env, ctx: Context, name: string, preset: Preset, fields: seq<Field>): string {
    env.datasetId(DatasetSeed(env.scope(ctx.chat), ctx.message, name, preset, fields))
  }

  /** Re-read the catalog after publishing and answer from it. */
  function AfterPublish(env: Env, g: Group, csvId: string, schemas: seq<Schema>): Result<Response, Reason> {
    match ReadLogical(env, g)
    case Err(e) => Err(e)
    case Ok(logical) =>
      if csvId in logical then DatasetAnswer(env, g, logical[csvId], schemas, false) else Err(Integrity)
  }

  /** `_create_dataset`. */
  function CreateDataset(env: Env, g: Group, ctx: Context, logical: Logical, name: string,
                         description: string, preset: Preset, raw: seq<RawField>, t: Times, crash: Crash)
    : (Group, Result<Response, Reason>)
  {
    if |logical| >= MAX_DATASETS_PER_GROUP then (g, Err(TooManyDatasets))
    else
      match InitialFields(env, preset, raw)
      case Err(e) => (g, Err(e))
      case Ok(fields) =>
        var csvId := NewDatasetId(env, ctx, name, preset, fields);
        if csvId in logical then
          match LoadSchemas(env, g, logical[csvId], logical[csvId].latest)
          case Err(e) => (g, Err(e))
          case Ok(schemas) => (g, DatasetAnswer(env, g, logical[csvId], schemas, true))
        else
          var s := Schema(csvId, 1, name, description, preset, fields, t.schema, None);
          var e := DatasetCreated(csvId, 1, description, env.schemaHash(s), t.event,
                                  ctx.user, ctx.userName, ctx.message, name, preset);
          var w := Publish(env, g, s, e, crash);
          if w.1.Some? then (w.0, Err(w.1.value))
          else (w.0, AfterPublish(env, w.0, csvId, [s]))
  }

  // ---------------------------------------------------------------- new versions

  /** The version event, after the first, that this message of this actor already created. */
  function ReplayedEvent(events: seq<CatalogEvent>, ctx: Context, i: nat): Option<nat>
    requires i <= |events|
    decreases |events| - i
  {
    if i == |events| then None
    else if i >= 1 && events[i].messageId == ctx.message && events[i].actorId == ctx.user then Some(i)
    else ReplayedEvent(events, ctx, i + 1)
  }

  /** The fields of a schema that an earlier one does not name. */
  function FieldsNotIn(fields: seq<Field>, names: set<string>): seq<Field> {
    if fields == [] then []
    else
      FieldsNotIn(fields[..|fields| - 1], names)
      + (if fields[|fields| - 1].name in names then [] else [fields[|fields| - 1]])
  }

  /** The first refusal of a stored extra value by an added field, if any. */
  function CheckRow(cal: Calendar, additions: seq<Field>, extra: map<string, Value>): Option<Reason> {
    if additions == [] then None
    else
      match CheckRow(cal, additions[..|additions| - 1], extra)
      case Some(e) => Some(e)
      case None =>
        var f := additions[|additions| - 1];
        if f.name in extra && CanonField(cal, f, extra[f.name]).Err?
        then Some(CanonField(cal, f, extra[f.name]).error) else None
  }

  function CheckRows(cal: Calendar, additions: seq<Field>, rows: seq<Row>): Option<Reason> {
    if rows == [] then None
    else
      match CheckRows(cal, additions, rows[..|rows| - 1])
      case Some(e) => Some(e)
      case None => CheckRow(cal, additions, rows[|rows| - 1].extra)
  }

  /** The part of `_create_version` after the replay check. */
  function AddVersion(env: Env, g: Group, ctx: Context, d: Dataset, schemas: seq<Schema>,
                      description: string, additions: seq<Field>, t: Times, crash: Crash)
    : (Group, Result<Response, Reason>)
  {
    if d.latest >= MAX_VERSIONS_PER_DATASET then (g, Err(TooManyVersions))
    else if schemas == [] then (g, Err(Integrity))
    else
      var previous := schemas[|schemas| - 1];
      if Names(additions) * Names(previous.fields) != {} then (g, Err(FieldDuplicated))
      else if |previous.fields| + |additions| > MAX_FIELDS_PER_SCHEMA then (g, Err(TooManyFields))
      else
        match AllRows(env, g, d.csvId, d.latest)
        case Err(e) => (g, Err(e))
        case Ok(rows) =>
          match CheckRows(env.cal, additions, rows)
          case Some(e) => (g, Err(e))
          case None =>
            var s := Schema(d.csvId, d.latest + 1, d.name,
                            if description != "" then description else d.description, d.preset,
                            previous.fields + additions, t.schema, Some(env.schemaHash(previous)));
            var e := VersionCreated(d.csvId, d.latest + 1, description, env.schemaHash(s), t.event,
                                    ctx.user, ctx.userName, ctx.message);
            var w := Publish(env, g, s, e, crash);
            if w.1.Some? then (w.0, Err(w.1.value))
            else (w.0, AfterPublish(env, w.0, d.csvId, schemas + [s]))
  }

  /** `_create_version`. */
  function CreateVersion(env: Env, g: Group, ctx: Context, logical: Logical, csvId: string, name: string,
                         description: string, preset: Preset, raw: seq<RawField>, t: Times, crash: Crash)
    : (Group, Result<Response, Reason>)
  {
    if csvId !in logical then (g, Err(CsvIdUnknown))
    else if name != logical[csvId].name then (g, Err(RenamesDataset))
    else if preset != Custom && preset != logical[csvId].preset then (g, Err(ChangesPreset))
    else
      match NormalizeFields(env.cal, raw, true)
      case Err(e) => (g, Err(e))
      case Ok(additions) =>
        if additions == [] then (g, Err(NoFields))
        else
          var d := logical[csvId];
          match LoadSchemas(env, g, d, d.latest)
          case Err(e) => (g, Err(e))
          case Ok(schemas) =>
            match ReplayedEvent(d.events, ctx, 0)
            case Some(i) =>
              if 1 <= i < |schemas|
                 && FieldsNotIn(schemas[i].fields, Names(schemas[i - 1].fields)) == additions
              then (g, DatasetAnswer(env, g, d, schemas, true))
              else (g, Err(ReplayDiffers))
            case None => AddVersion(env, g, ctx, d, schemas, description, additions, t, crash)
  }
}
