/** The workspace as a state machine: requests of any group in any order, each possibly cut
    short by a crash. */
module CsvSteps {
  import opened Text
  import opened Decimals
  import opened CsvFields
  import opened CsvStore
  import opened CsvAppend
  import opened CsvLedger
  import opened CsvInvariant
  import opened CsvPreserve

  /** All groups, by the digest of their chat id. */
  type Groups = map<string, Group>

  datatype Request =
    | CreateRequest(name: Value, description: Value, preset: string, versionOf: string, fields: seq<RawField>)
    | AppendRequest(csvId: string, row: map<string, Value>)

  /** One call: who asks, what, at which clock readings, and whether the process dies. */
  datatype Call = Call(ctx: Context, request: Request, times: Times, crash: Crash)

  predicate TrustedOk(s: string) { s != "" && Utf8Length(s) <= 512 && '\0' !in s && !StartsFormula(s) }

  /** `validate_group`. */
  predicate ContextOk(ctx: Context) {
    ctx.platform == "qiwe" && ctx.chat != ctx.user
    && TrustedOk(ctx.chat) && TrustedOk(ctx.user) && TrustedOk(ctx.message) && !StartsFormula(ctx.userName)
  }

  function CleanId(s: string): string { Lower(Strip(s)) }

  function ParsePreset(s: string): Option<Preset> {
    var p := if s == "" then "custom" else Strip(s);
    if p == "custom" then Some(Custom) else if p == "ledger" then Some(Ledger) else None
  }

  /** What is refused before the group is touched. */
  function Screen(call: Call): Option<Reason> {
    if !ContextOk(call.ctx) then Some(ContextInvalid)
    else
      match call.request
      case CreateRequest(name, description, preset, _, _) =>
        if SafeText(name, 160, true).Err? then Some(SafeText(name, 160, true).error)
        else if SafeText(description, 1200, false).Err? then Some(SafeText(description, 1200, false).error)
        else if ParsePreset(preset).None? then Some(PresetInvalid)
        else None
      case AppendRequest(csvId, row) =>
        if !IsHexId(CleanId(csvId)) then Some(CsvIdInvalid)
        else if SuppliesSystemFields(row) then Some(SystemFieldSupplied)
        else None
  }

  /** `create`, under the group lock. */
  function CreateIn(env: Env, g: Group, logical: Logical, call: Call): (Group, Result<Response, Reason>)
    requires Screen(call).None? && call.request.CreateRequest?
  {
    var r := call.request;
    var name := SafeText(r.name, 160, true).value;
    var description := SafeText(r.description, 1200, false).value;
    var preset := ParsePreset(r.preset).value;
    if Strip(r.versionOf) == "" then
      CreateDataset(env, g, call.ctx, logical, name, description, preset, r.fields, call.times, call.crash)
    else if !IsHexId(CleanId(r.versionOf)) then (g, Err(CsvIdInvalid))
    else CreateVersion(env, g, call.ctx, logical, CleanId(r.versionOf), name, description, preset, r.fields,
                       call.times, call.crash)
  }

  /** `append`, under the group lock. */
  function AppendIn(env: Env, g: Group, logical: Logical, call: Call): (Group, Result<Response, Reason>)
    requires call.request.AppendRequest?
  {
    var csvId := CleanId(call.request.csvId);
    if csvId !in logical then (g, Err(CsvIdUnknown))
    else AppendRow(env, g, call.ctx, logical[csvId], call.request.row, call.times, call.crash)
  }

  function InGroup(env: Env, g: Group, call: Call): (Group, Result<Response, Reason>)
    requires Screen(call).None?
  {
    match ReadLogical(env, g)
    case Err(e) => (g, Err(e))
    case Ok(logical) =>
      if call.request.CreateRequest? then CreateIn(env, g, logical, call) else AppendIn(env, g, logical, call)
  }

  /** `_ensure_group` creates a missing group with an empty catalog. */
  function GroupOf(groups: Groups, key: string): Group { if key in groups then groups[key] else EMPTY_GROUP }

  function Step(env: Env, groups: Groups, call: Call): (Groups, Result<Response, Reason>) {
    if Screen(call).Some? then (groups, Err(Screen(call).value))
    else
      var key := env.scope(call.ctx.chat);
      var out := InGroup(env, GroupOf(groups, key), call);
      (groups[key := out.0], out.1)
  }

  function Run(env: Env, groups: Groups, calls: seq<Call>): Groups {
    if calls == [] then groups
    else Step(env, Run(env, groups, calls[..|calls| - 1]), calls[|calls| - 1]).0
  }

  // ---------------------------------------------------------------- the invariant

  ghost predicate AllOk(env: Env, groups: Groups) { forall key :: key in groups ==> GroupOk(env, groups[key]) }

  lemma EmptyGroupOk(env: Env)
    ensures GroupOk(env, EMPTY_GROUP)
  {
    var g := EMPTY_GROUP;
    assert g.listing == [CatalogPath] && g.listing[..0] == [];
    assert ListedSize(env, g, []) == 0 && SizeOf(env, g, CatalogPath) == 0;
    assert CatalogOf(g) == [];
    assert forall csvId, n :: Lookup(g, RowsPath(csvId, n)) == None;
  }

  lemma InGroupKeeps(env: Env, g: Group, call: Call)
    requires CollisionFree(env) && GroupOk(env, g) && Screen(call).None?
    ensures GroupOk(env, InGroup(env, g, call).0)
  {
    hide GroupOk, ReadLogical, CollisionFree, Screen, CatalogOf, Replay;
    ReplayIsOk(env, g);
    if call.request.CreateRequest? {
      CreateInKeeps(env, g, call);
    } else {
      AppendInKeeps(env, g, call);
    }
  }

  lemma CreateInKeeps(env: Env, g: Group, call: Call)
    requires CollisionFree(env) && GroupOk(env, g) && Replay(CatalogOf(g)).Ok?
    requires Screen(call).None? && call.request.CreateRequest?
    ensures GroupOk(env, CreateIn(env, g, Replay(CatalogOf(g)).value, call).0)
  {
    hide GroupOk, CollisionFree, CatalogOf, Replay, SafeText, ParsePreset, CreateDataset, CreateVersion, ContextOk,
         Strip, IsHexId, CleanId;
    var r := call.request;
    var name := SafeText(r.name, 160, true).value;
    var description := SafeText(r.description, 1200, false).value;
    var preset := ParsePreset(r.preset).value;
    CreateDatasetKeeps(env, g, call.ctx, name, description, preset, r.fields, call.times, call.crash);
    CreateVersionKeeps(env, g, call.ctx, CleanId(r.versionOf), name, description, preset, r.fields, call.times,
                       call.crash);
  }

  lemma AppendInKeeps(env: Env, g: Group, call: Call)
    requires CollisionFree(env) && GroupOk(env, g) && Replay(CatalogOf(g)).Ok? && call.request.AppendRequest?
    ensures GroupOk(env, AppendIn(env, g, Replay(CatalogOf(g)).value, call).0)
  {
    hide GroupOk, CollisionFree, CatalogOf, Replay, AppendRow, DatasetOk, CleanId;
    var csvId := CleanId(call.request.csvId);
    var logical := Replay(CatalogOf(g)).value;
    if csvId in logical {
      LogicalBounds(env, g, csvId);
      AppendRowKeeps(env, g, call.ctx, logical[csvId], call.request.row, call.times, call.crash);
    }
  }

  lemma GroupOfOk(env: Env, groups: Groups, key: string)
    requires AllOk(env, groups)
    ensures GroupOk(env, GroupOf(groups, key))
  {
    hide GroupOk, EMPTY_GROUP;
    EmptyGroupOk(env);
  }

  /** Every call, whatever its outcome, keeps every group in order. */
  lemma StepKeeps(env: Env, groups: Groups, call: Call)
    requires CollisionFree(env) && AllOk(env, groups)
    ensures AllOk(env, Step(env, groups, call).0)
  {
    hide GroupOk, CollisionFree, Screen, InGroup, GroupOf;
    if Screen(call).None? {
      var key := env.scope(call.ctx.chat);
      GroupOfOk(env, groups, key);
      InGroupKeeps(env, GroupOf(groups, key), call);
    }
  }

  /** Every reachable workspace is in order. */
  lemma {:induction false} RunKeeps(env: Env, groups: Groups, calls: seq<Call>)
    requires CollisionFree(env) && AllOk(env, groups)
    ensures AllOk(env, Run(env, groups, calls))
  {
    hide AllOk, CollisionFree, Step;
    if calls == [] {
    } else {
      RunKeeps(env, groups, calls[..|calls| - 1]);
      StepKeeps(env, Run(env, groups, calls[..|calls| - 1]), calls[|calls| - 1]);
    }
  }

  // ---------------------------------------------------------------- append only

  /** Schemas never change; the catalog and the row logs only grow at their end. */
  predicate FileGrows(a: File, b: File) {
    match (a, b)
    case (CatalogFile(x), CatalogFile(y)) => x <= y
    case (SchemaFile(x), SchemaFile(y)) => x == y
    case (RowsFile(h, x), RowsFile(k, y)) => h == k && x <= y
    case _ => false
  }

  ghost predicate Grown(g: Group, h: Group) {
    forall p :: p in g.files ==> p in h.files && FileGrows(g.files[p], h.files[p])
  }

  lemma GrownTransitive(a: Group, b: Group, c: Group)
    requires Grown(a, b) && Grown(b, c)
    ensures Grown(a, c)
  {
    forall p | p in a.files ensures p in c.files && FileGrows(a.files[p], c.files[p]) {
      FileGrowsTransitive(a.files[p], b.files[p], c.files[p]);
    }
  }

  lemma FileGrowsTransitive(a: File, b: File, c: File)
    requires FileGrows(a, b) && FileGrows(b, c)
    ensures FileGrows(a, c)
  {
  }

  lemma WriteGrows(env: Env, g: Group, s: Schema, crash: Crash)
    ensures Grown(g, WriteVersion(env, g, s, crash).0)
  {
    hide TotalSize, LoadSchema, ReadRows, Header;
  }

  lemma CatalogGrows(env: Env, g: Group, e: CatalogEvent, crash: Crash)
    requires CatalogPath in g.files && g.files[CatalogPath].CatalogFile?
    ensures Grown(g, AppendCatalog(env, g, e, crash).0)
  {
    hide TotalSize, CatalogBytes;
    assert CatalogOf(g) <= CatalogOf(g) + [e];
  }

  lemma PublishGrows(env: Env, g: Group, s: Schema, e: CatalogEvent, crash: Crash)
    requires CatalogPath in g.files && g.files[CatalogPath].CatalogFile?
    ensures Grown(g, Publish(env, g, s, e, crash).0)
  {
    hide WriteVersion, AppendCatalog;
    var w := WriteVersion(env, g, s, crash);
    WriteGrows(env, g, s, crash);
    CatalogGrows(env, w.0, e, crash);
    GrownTransitive(g, w.0, AppendCatalog(env, w.0, e, crash).0);
  }

  lemma StoreGrows(env: Env, g: Group, csvId: string, s: Schema, row: Row)
    requires ReadRows(env, g, csvId, s.version, s.fields).Ok?
    ensures Grown(g, StoreRow(env, g, csvId, s, row).0)
  {
    hide TotalSize, Header, RowBytes, AllHexIds, DistinctIds;
    assert RowsOf(g, csvId, s.version) <= RowsOf(g, csvId, s.version) + [row];
  }

  lemma HasCatalog(env: Env, g: Group)
    requires GroupOk(env, g)
    ensures CatalogPath in g.files && g.files[CatalogPath].CatalogFile?
  {
    hide ListingOk, TotalSize, LogicalOk, Replay, CatalogBytes;
  }

  lemma SelfGrown(g: Group)
    ensures Grown(g, g)
  {
    forall p | p in g.files ensures FileGrows(g.files[p], g.files[p]) {
    }
  }

  lemma CreateInGrows(env: Env, g: Group, logical: Logical, call: Call)
    requires GroupOk(env, g) && Screen(call).None? && call.request.CreateRequest?
    ensures Grown(g, CreateIn(env, g, logical, call).0)
  {
    hide GroupOk, SafeText, ParsePreset, CreateDataset, CreateVersion, ContextOk, Strip, IsHexId, CleanId, Grown;
    var r := call.request;
    var name := SafeText(r.name, 160, true).value;
    var description := SafeText(r.description, 1200, false).value;
    var preset := ParsePreset(r.preset).value;
    SelfGrown(g);
    CreateDatasetGrows(env, g, call.ctx, logical, name, description, preset, r.fields, call.times, call.crash);
    CreateVersionGrows(env, g, call.ctx, logical, CleanId(r.versionOf), name, description, preset, r.fields,
                       call.times, call.crash);
  }

  lemma CreateDatasetGrows(env: Env, g: Group, ctx: Context, logical: Logical, name: string, description: string,
                           preset: Preset, raw: seq<RawField>, t: Times, crash: Crash)
    requires GroupOk(env, g)
    ensures Grown(g, CreateDataset(env, g, ctx, logical, name, description, preset, raw, t, crash).0)
  {
    hide GroupOk, InitialFields, Publish, AfterPublish, LoadSchemas, DatasetAnswer, Grown;
    SelfGrown(g);
    HasCatalog(env, g);
    if InitialFields(env, preset, raw).Ok? {
      var fields := InitialFields(env, preset, raw).value;
      var csvId := NewDatasetId(env, ctx, name, preset, fields);
      var s := Schema(csvId, 1, name, description, preset, fields, t.schema, None);
      var e := DatasetCreated(csvId, 1, description, env.schemaHash(s), t.event,
                              ctx.user, ctx.userName, ctx.message, name, preset);
      PublishGrows(env, g, s, e, crash);
    }
  }

  lemma CreateVersionGrows(env: Env, g: Group, ctx: Context, logical: Logical, csvId: string, name: string,
                           description: string, preset: Preset, raw: seq<RawField>, t: Times, crash: Crash)
    requires GroupOk(env, g)
    ensures Grown(g, CreateVersion(env, g, ctx, logical, csvId, name, description, preset, raw, t, crash).0)
  {
    hide GroupOk, NormalizeFields, AddVersion, LoadSchemas, DatasetAnswer, Grown, FieldsNotIn, ReplayedEvent, Names;
    SelfGrown(g);
    if csvId in logical && NormalizeFields(env.cal, raw, true).Ok? {
      var d := logical[csvId];
      if LoadSchemas(env, g, d, d.latest).Ok? {
        AddVersionGrows(env, g, ctx, d, LoadSchemas(env, g, d, d.latest).value, description,
                        NormalizeFields(env.cal, raw, true).value, t, crash);
      }
    }
  }

  lemma AddVersionGrows(env: Env, g: Group, ctx: Context, d: Dataset, schemas: seq<Schema>, description: string,
                        additions: seq<Field>, t: Times, crash: Crash)
    requires GroupOk(env, g)
    ensures Grown(g, AddVersion(env, g, ctx, d, schemas, description, additions, t, crash).0)
  {
    hide GroupOk, Publish, AfterPublish, Grown, AllRows, CheckRows, Names;
    SelfGrown(g);
    HasCatalog(env, g);
    if schemas != [] {
      var previous := schemas[|schemas| - 1];
      var s := Schema(d.csvId, d.latest + 1, d.name, if description != "" then description else d.description, d.preset,
                      previous.fields + additions, t.schema, Some(env.schemaHash(previous)));
      var e := VersionCreated(d.csvId, d.latest + 1, description, env.schemaHash(s), t.event, ctx.user, ctx.userName,
                              ctx.message);
      PublishGrows(env, g, s, e, crash);
    }
  }

  lemma AppendRowGrows(env: Env, g: Group, ctx: Context, d: Dataset, raw: map<string, Value>, t: Times, crash: Crash)
    ensures Grown(g, AppendRow(env, g, ctx, d, raw, t, crash).0)
  {
    hide LoadSchema, FindRow, NewRow, StoreRow, AppendAnswer, ReadBack, RowEventId, ReadRows, Grown;
    SelfGrown(g);
    if LoadSchema(env, g, d.csvId, d.latest).Ok? {
      var s := LoadSchema(env, g, d.csvId, d.latest).value;
      LoadedVersion(env, g, d.csvId, d.latest);
      if ReadRows(env, g, d.csvId, d.latest, s.fields).Ok? {
        var eventId := RowEventId(env, ctx, d.csvId, d.latest, raw);
        if NewRow(env, g, ctx, d, s, raw, eventId, t).Ok? {
          StoreGrows(env, g, d.csvId, s, NewRow(env, g, ctx, d, s, raw, eventId, t).value);
        }
      }
    }
  }

  lemma LoadedVersion(env: Env, g: Group, csvId: string, n: nat)
    requires LoadSchema(env, g, csvId, n).Ok?
    ensures LoadSchema(env, g, csvId, n).value.version == n && LoadSchema(env, g, csvId, n).value.csvId == csvId
  {
  }

  lemma InGroupGrows(env: Env, g: Group, call: Call)
    requires GroupOk(env, g) && Screen(call).None?
    ensures Grown(g, InGroup(env, g, call).0)
  {
    hide GroupOk, ReadLogical, Screen, CreateIn, AppendRow, Grown, CleanId;
    SelfGrown(g);
    if ReadLogical(env, g).Ok? {
      var logical := ReadLogical(env, g).value;
      if call.request.CreateRequest? {
        CreateInGrows(env, g, logical, call);
      } else if CleanId(call.request.csvId) in logical {
        AppendRowGrows(env, g, call.ctx, logical[CleanId(call.request.csvId)], call.request.row, call.times,
                       call.crash);
      }
    }
  }

  /** A call leaves every other group as it was and only extends the files of its own. */
  lemma StepFrame(env: Env, groups: Groups, call: Call, key: string)
    requires AllOk(env, groups) && key in groups
    ensures var after := Step(env, groups, call).0;
            key in after && Grown(groups[key], after[key])
            && (key != env.scope(call.ctx.chat) ==> after[key] == groups[key])
  {
    hide GroupOk, Screen, InGroup, Grown;
    SelfGrown(groups[key]);
    if Screen(call).None? && key == env.scope(call.ctx.chat) {
      InGroupGrows(env, groups[key], call);
    }
  }

  /** Over any run the files of a group are only extended, and a group nobody addresses keeps
      its files. */
  lemma {:induction false} RunFrame(env: Env, groups: Groups, calls: seq<Call>, key: string)
    requires CollisionFree(env) && AllOk(env, groups) && key in groups
    ensures var after := Run(env, groups, calls);
            key in after && Grown(groups[key], after[key])
            && ((forall c :: c in calls ==> env.scope(c.ctx.chat) != key) ==> after[key] == groups[key])
  {
    hide AllOk, CollisionFree, Step, Grown;
    SelfGrown(groups[key]);
    if calls == [] {
    } else {
      var init, last := calls[..|calls| - 1], calls[|calls| - 1];
      assert calls == init + [last];
      RunKeeps(env, groups, init);
      RunFrame(env, groups, init, key);
      var mid := Run(env, groups, init);
      StepFrame(env, mid, last, key);
      GrownTransitive(groups[key], mid[key], Step(env, mid, last).0[key]);
    }
  }
}
