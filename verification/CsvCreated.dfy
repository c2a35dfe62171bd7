/** What a create stores: the fields as they were given, one for one, and who asked for them,
    when and under which name. */
module CsvCreated {
  import opened Text
  import opened CsvFields
  import opened CsvMeaning
  import opened CsvStore
  import opened CsvAppend
  import opened CsvInvariant
  import opened CsvPreserve
  import opened CsvSteps
  import opened CsvReplay
  import opened CsvEffects
  import opened CsvFiltering
  import opened CsvStored

  // ---------------------------------------------------------------- fields as given

  /** A text as given: nothing for no value. */
  function Written(v: Value): string { if v.Null? then "" else if v.Str? then v.s else PyStr(v) }

  /** The field that a description stands for. */
  function FieldFor(raw: RawField): Field {
    Field(Strip(raw.name), raw.ftype, raw.required, Strip(Written(raw.description)), EnumFor(raw.enum), raw.default,
          false)
  }

  function EnumFor(enum: Option<seq<Value>>): (texts: seq<string>) {
    match enum
    case None => []
    case Some(values) => seq(|values|, i requires 0 <= i < |values| => Strip(Written(values[i])))
  }

  function FieldsFor(raw: seq<RawField>): seq<Field> { seq(|raw|, i requires 0 <= i < |raw| => FieldFor(raw[i])) }

  /** An enum has between 1 and 100 different texts, and no other type has any. */
  predicate EnumTaken(raw: RawField) {
    if !raw.ftype.EnumType? then raw.enum.None?
    else
      raw.enum.Some? && 1 <= |raw.enum.value| <= 100 && TextsAllowed(raw.enum.value)
  }

  predicate TextsAllowed(values: seq<Value>) {
    && (forall i :: 0 <= i < |values| ==>
          values[i].Str? && Strip(values[i].s) != "" && TextTaken(values[i].s, 256))
    && forall i, j :: 0 <= i < j < |values| ==> Strip(Written(values[i])) != Strip(Written(values[j]))
  }

  /** A description that a create accepts; fields added to a dataset are optional. */
  ghost predicate FieldAllowed(cal: Calendar, raw: RawField, added: bool) {
    && LegalKey(Strip(raw.name)) && !(added && raw.required)
    && TextTaken(Written(raw.description), 500) && EnumTaken(raw)
    && (raw.default.Some? ==> FieldTaken(cal, FieldFor(raw), raw.default.value))
  }

  /** At most 32 acceptable descriptions under different names. */
  ghost predicate FieldsAllowed(cal: Calendar, raw: seq<RawField>, added: bool) {
    && |raw| <= 32
    && (forall i :: 0 <= i < |raw| ==> FieldAllowed(cal, raw[i], added))
    && NamesDiffer(raw)
  }

  predicate NamesDiffer(raw: seq<RawField>) {
    forall i, j :: 0 <= i < j < |raw| ==> Strip(raw[i].name) != Strip(raw[j].name)
  }

  lemma AnyText(v: Value, maximum: nat)
    ensures SafeText(v, maximum, false).Ok? <==> TextTaken(Written(v), maximum)
    ensures SafeText(v, maximum, false).Ok? ==> SafeText(v, maximum, false).value == Strip(Written(v))
    ensures SafeText(v, maximum, true).Ok? <==> v.Str? && Strip(v.s) != "" && TextTaken(v.s, maximum)
    ensures SafeText(v, maximum, true).Ok? ==> SafeText(v, maximum, true).value == Strip(Written(v))
  {
    hide Strip, Utf8Length, StartsFormula;
    TextOfText(v);
  }

  lemma {:induction false} EnumMeans(values: seq<Value>)
    ensures CleanEnum(values).Ok? <==> TextsAllowed(values)
    ensures CleanEnum(values).Ok? ==> CleanEnum(values).value == EnumFor(Some(values))
  {
    hide SafeText, Strip, TextTaken, Written;
    if values == [] {
    } else {
      var n := |values| - 1;
      EnumMeans(values[..n]);
      AnyText(values[n], 256);
      assert values == values[..n] + [values[n]];
      AllowedSnoc(values[..n], values[n]);
      EnumSnoc(values[..n], values[n]);
    }
  }

  lemma AllowedSnoc(values: seq<Value>, v: Value)
    ensures TextsAllowed(values + [v])
            <==> TextsAllowed(values) && v.Str? && Strip(v.s) != "" && TextTaken(v.s, 256)
                 && Strip(Written(v)) !in EnumFor(Some(values))
  {
    hide Strip, TextTaken, Written;
    var more := values + [v];
    assert forall i :: 0 <= i < |values| ==> more[i] == values[i];
    assert more[|values|] == v;
    var texts := EnumFor(Some(values));
    assert forall i :: 0 <= i < |values| ==> texts[i] == Strip(Written(values[i]));
    assert Strip(Written(v)) in texts <==> exists i :: 0 <= i < |values| && texts[i] == Strip(Written(v));
  }

  lemma EnumSnoc(values: seq<Value>, v: Value)
    ensures EnumFor(Some(values + [v])) == EnumFor(Some(values)) + [Strip(Written(v))]
  {
  }

  lemma EnumIsTaken(raw: RawField)
    ensures EnumValues(raw).Ok? <==> EnumTaken(raw)
    ensures EnumValues(raw).Ok? ==> EnumValues(raw).value == EnumFor(raw.enum)
  {
    hide TextsAllowed;
    if raw.enum.Some? { EnumMeans(raw.enum.value); }
  }

  lemma LegalNameKey(name: string)
    ensures LegalKey(name) <==> NameOk(name) && name[0] != '_' && !StartsFormula(name)
  {
    LegalKeys(name);
  }

  /** A description is accepted exactly when it should be, under a new name, and stored as given. */
  lemma FieldIsStoredAsGiven(cal: Calendar, raw: RawField, added: bool, seen: seq<Field>)
    ensures NormalizeField(cal, raw, added, seen).Ok? <==>
              FieldAllowed(cal, raw, added) && Strip(raw.name) !in Names(seen)
    ensures NormalizeField(cal, raw, added, seen).Ok? ==> NormalizeField(cal, raw, added, seen).value == FieldFor(raw)
  {
    hide Strip, SafeText, EnumValues, EnumTaken, EnumFor, NameOk, LegalKey, CanonField, FieldTaken, Names,
         StartsFormula, TextTaken;
    LegalNameKey(Strip(raw.name));
    AnyText(raw.description, 500);
    EnumIsTaken(raw);
    if raw.default.Some? { FieldIsTaken(cal, FieldFor(raw), raw.default.value); }
  }

  lemma {:induction false} NamesGiven(raw: seq<RawField>, name: string)
    ensures name in Names(FieldsFor(raw)) <==> exists i :: 0 <= i < |raw| && Strip(raw[i].name) == name
  {
    hide Strip, EnumFor, Written;
    if raw == [] {
    } else {
      var n := |raw| - 1;
      NamesGiven(raw[..n], name);
      assert FieldsFor(raw)[..n] == FieldsFor(raw[..n]);
      assert forall i :: 0 <= i < n ==> raw[..n][i] == raw[i];
    }
  }

  lemma DifferSnoc(raw: seq<RawField>, r: RawField)
    ensures NamesDiffer(raw + [r]) <==> NamesDiffer(raw) && Strip(r.name) !in Names(FieldsFor(raw))
    ensures FieldsFor(raw + [r]) == FieldsFor(raw) + [FieldFor(r)]
  {
    hide Strip, Names, EnumFor, Written;
    NamesGiven(raw, Strip(r.name));
    var more := raw + [r];
    assert forall i :: 0 <= i < |raw| ==> more[i] == raw[i];
    assert more[|raw|] == r;
  }

  lemma {:induction false} AllStoredAsGiven(cal: Calendar, raw: seq<RawField>, added: bool)
    ensures NormalizeAll(cal, raw, added).Ok? <==>
              (forall i :: 0 <= i < |raw| ==> FieldAllowed(cal, raw[i], added)) && NamesDiffer(raw)
    ensures NormalizeAll(cal, raw, added).Ok? ==> NormalizeAll(cal, raw, added).value == FieldsFor(raw)
  {
    hide NormalizeField, FieldAllowed, FieldFor, Names, Strip;
    if raw == [] {
    } else {
      var n := |raw| - 1;
      var init, last := raw[..n], raw[n];
      assert raw == init + [last];
      AllStoredAsGiven(cal, init, added);
      DifferSnoc(init, last);
      FieldIsStoredAsGiven(cal, last, added, FieldsFor(init));
    }
  }

  /** Descriptions are accepted exactly when they should be, and stored in the order given. */
  lemma StoredAsGiven(cal: Calendar, raw: seq<RawField>, added: bool)
    ensures NormalizeFields(cal, raw, added).Ok? <==> FieldsAllowed(cal, raw, added)
    ensures NormalizeFields(cal, raw, added).Ok? ==> NormalizeFields(cal, raw, added).value == FieldsFor(raw)
  {
    hide NormalizeAll, FieldAllowed, NamesDiffer, FieldFor;
    AllStoredAsGiven(cal, raw, added);
  }

  // ---------------------------------------------------------------- what a create asks for

  function PresetFor(call: Call): Preset
    requires call.request.CreateRequest?
  {
    if Strip(call.request.preset) == "ledger" then Ledger else Custom
  }

  /** A call from a group chat, with three short harmless ids. */
  predicate Caller(ctx: Context) {
    && ctx.platform == "qiwe" && ctx.chat != ctx.user && IdOk(ctx.chat) && IdOk(ctx.user) && IdOk(ctx.message)
    && !StartsFormula(ctx.userName)
  }

  predicate IdOk(id: string) { id != "" && Utf8Length(id) <= 512 && '\0' !in id && !StartsFormula(id) }

  /** An append is looked at if its dataset id is one, and no key of its row is a system column. */
  predicate AppendAsked(call: Call)
    requires call.request.AppendRequest?
  {
    && Caller(call.ctx) && IsHexId(Lower(Strip(call.request.csvId)))
    && call.request.row.Keys !! {"_event_id", "_created_at", "_actor_user_id", "_actor_name", "_source_message_id",
                                 "_row_sha256", "_extra_json"}
  }

  lemma AppendAskedMeans(call: Call)
    requires call.request.AppendRequest?
    ensures Screen(call).None? <==> AppendAsked(call)
  {
    hide Strip, Lower, IsHexId, Utf8Length, StartsFormula;
    assert forall k :: k in SystemColumns() <==>
             k in {"_event_id", "_created_at", "_actor_user_id", "_actor_name", "_source_message_id", "_row_sha256"};
  }

  /** What is checked before the group is looked at: who asks, the name, the description and the preset. */
  predicate Asked(call: Call)
    requires call.request.CreateRequest?
  {
    var r := call.request;
    && Caller(call.ctx) && r.name.Str? && Strip(r.name.s) != "" && TextTaken(r.name.s, 160)
    && TextTaken(Written(r.description), 1200)
    && (r.preset == "" || Strip(r.preset) == "custom" || Strip(r.preset) == "ledger")
  }

  lemma AskedMeans(call: Call)
    requires call.request.CreateRequest?
    ensures Screen(call).None? <==> Asked(call)
    ensures Screen(call).None? ==>
              NameOf(call) == Strip(Written(call.request.name))
              && DescriptionOf(call) == Strip(Written(call.request.description)) && PresetOf(call) == PresetFor(call)
  {
    hide SafeText, Strip, TextTaken, StartsFormula, Utf8Length;
    AnyText(call.request.name, 160);
    AnyText(call.request.description, 1200);
    assert Strip("") == "" by { NothingStripped(); }
    assert Strip("custom") == "custom" by { CustomStripped(); }
  }

  lemma CustomStripped()
    ensures Strip("custom") == "custom"
  {
    StripFixes("custom");
  }

  // ---------------------------------------------------------------- what publishing stores

  /** The one event that a group has more than another. */
  predicate OneMore(g: Group, h: Group) {
    CatalogOf(g) <= CatalogOf(h) && |CatalogOf(h)| == |CatalogOf(g)| + 1
  }

  function NewEvent(g: Group, h: Group): CatalogEvent
    requires OneMore(g, h)
  {
    CatalogOf(h)[|CatalogOf(g)|]
  }

  /** A published version is in the catalog and can be loaded as it was written; it has no rows. */
  lemma PublishedExactly(env: Env, g: Group, s: Schema, e: CatalogEvent, crash: Crash)
    requires CollisionFree(env) && GroupOk(env, g) && Distinct(s.fields)
    requires !Announced(Replay(CatalogOf(g)).value, s.csvId, s.version)
    requires CatalogOf(Publish(env, g, s, e, crash).0) != CatalogOf(g)
    ensures var h := Publish(env, g, s, e, crash).0;
            OneMore(g, h) && NewEvent(g, h) == e && CatalogOf(h) == CatalogOf(g) + [e]
            && LoadSchema(env, h, s.csvId, s.version) == Ok(s) && RowsOf(h, s.csvId, s.version) == []
  {
    hide WriteVersion, GroupOk, Replay, CatalogOf, Distinct, FieldsAt, RowsOf, ListingOk, TotalSize, CatalogBytes,
         OnlyAdds, SameVersions, Lookup, LoadSchema, AppendCatalog, ReadRows, RowsOk, Announced;
    PublishEffect(env, g, s, e, crash);
    LastEvent(CatalogOf(g), e);
    var w := WriteVersion(env, g, s, crash).0;
    WriteKeeps(env, g, s, crash);
    WrittenFacts(env, g, s, crash);
    AppendCatalogEffect(env, w, e, crash);
    VersionStands(env, w, Publish(env, g, s, e, crash).0, s, e);
  }

  lemma VersionStands(env: Env, w: Group, h: Group, s: Schema, e: CatalogEvent)
    requires CollisionFree(env) && CatalogGrew(w, h, e)
    requires VersionOk(env, w, s.csvId, s.version, env.schemaHash(s)) && RowsOf(w, s.csvId, s.version) == []
    ensures LoadSchema(env, h, s.csvId, s.version) == Ok(s) && RowsOf(h, s.csvId, s.version) == []
  {
    hide ReadRows, RowsOk, Distinct, CatalogOf;
    assert Lookup(h, SchemaPath(s.csvId, s.version)) == Lookup(w, SchemaPath(s.csvId, s.version));
    assert Lookup(h, RowsPath(s.csvId, s.version)) == Lookup(w, RowsPath(s.csvId, s.version));
  }

  // ---------------------------------------------------------------- a new dataset

  function FieldsAsked(call: Call): seq<Field>
    requires call.request.CreateRequest?
  {
    if PresetFor(call).Ledger? then LEDGER_FIELDS else FieldsFor(call.request.fields)
  }

  /** The schema that a create of a new dataset asks for. */
  function SchemaAsked(call: Call, csvId: string): Schema
    requires call.request.CreateRequest?
  {
    Schema(csvId, 1, Strip(Written(call.request.name)), Strip(Written(call.request.description)), PresetFor(call),
           FieldsAsked(call), call.times.schema, None)
  }

  /** A ledger brings its own fields; any other dataset needs acceptable ones. */
  ghost predicate DatasetAllowed(env: Env, call: Call)
    requires call.request.CreateRequest?
  {
    if PresetFor(call).Ledger? then call.request.fields == []
    else call.request.fields != [] && FieldsAllowed(env.cal, call.request.fields, false)
  }

  /** The group has one dataset more, as it was asked for, without rows. */
  ghost predicate DatasetStored(env: Env, g: Group, call: Call, h: Group)
    requires call.request.CreateRequest?
  {
    && OneMore(g, h) && DatasetAllowed(env, call)
    && var e, s := NewEvent(g, h), SchemaAsked(call, NewEvent(g, h).csvId);
    && e == DatasetCreated(e.csvId, 1, s.description, env.schemaHash(s), call.times.event, call.ctx.user,
                           call.ctx.userName, call.ctx.message, s.name, s.preset)
    && DatasetIn(g, e.csvId).None?
    && DatasetIn(h, e.csvId) == Some(Dataset(e.csvId, s.name, s.description, s.preset, call.times.event,
                                             call.ctx.userName, 1, [e]))
    && LoadSchema(env, h, e.csvId, 1) == Ok(s) && RowsOf(h, e.csvId, 1) == []
  }

  lemma InitialAsked(env: Env, call: Call)
    requires Screen(call).None? && call.request.CreateRequest?
    ensures InitialFields(env, PresetOf(call), call.request.fields).Ok? <==> DatasetAllowed(env, call)
    ensures InitialFields(env, PresetOf(call), call.request.fields).Ok? ==>
              InitialFields(env, PresetOf(call), call.request.fields).value == FieldsAsked(call)
  {
    hide Screen, NormalizeFields, FieldsAllowed, LEDGER_FIELDS, FieldFor, PresetOf, PresetFor;
    AskedMeans(call);
    StoredAsGiven(env.cal, call.request.fields, false);
  }

  lemma DatasetIsStored(env: Env, g: Group, call: Call)
    requires CollisionFree(env) && GroupOk(env, g) && Screen(call).None? && CreatesDataset(call)
    requires CatalogOf(InGroup(env, g, call).0) != CatalogOf(g)
    ensures DatasetStored(env, g, call, InGroup(env, g, call).0)
    ensures RequestedId(env, call) == Some(NewEvent(g, InGroup(env, g, call).0).csvId)
  {
    hide GroupOk, Screen, Replay, CatalogOf, ReadLogical, InitialFields, CollisionFree, Strip, CreateIn, NewDatasetId,
         Publish, LoadSchemas, DatasetAnswer, AfterPublish, DatasetIn, Written, LEDGER_FIELDS, FieldsFor, LoadSchema,
         RowsOf, DatasetAllowed, OneMore, Distinct, Announced, NameOf, DescriptionOf, PresetOf, PresetFor;
    ReplayIsOk(env, g);
    CreateInIs(env, g, Replay(CatalogOf(g)).value, call);
    AskedMeans(call);
    InitialAsked(env, call);
    InitialFieldsOk(env, PresetOf(call), call.request.fields);
    var csvId := RequestedId(env, call).value;
    var s := SchemaAsked(call, csvId);
    var e := DatasetCreated(csvId, 1, s.description, env.schemaHash(s), call.times.event, call.ctx.user,
                            call.ctx.userName, call.ctx.message, s.name, s.preset);
    InGroupKeeps(env, g, call);
    NotAnnounced(g, csvId);
    PublishedExactly(env, g, s, e, call.crash);
    FirstReplayed(env, g, InGroup(env, g, call).0, e);
  }

  lemma NotAnnounced(g: Group, csvId: string)
    requires Replay(CatalogOf(g)).Ok?
    ensures csvId !in Replay(CatalogOf(g)).value ==>
              !Announced(Replay(CatalogOf(g)).value, csvId, 1) && DatasetIn(g, csvId).None?
  {
    hide Replay, CatalogOf;
  }

  lemma FirstReplayed(env: Env, g: Group, h: Group, e: CatalogEvent)
    requires Replay(CatalogOf(g)).Ok? && GroupOk(env, h) && CatalogOf(h) == CatalogOf(g) + [e] && e.DatasetCreated?
    ensures DatasetIn(h, e.csvId)
         == Some(Dataset(e.csvId, e.name, e.description, e.preset, e.createdAt, e.actorName, 1, [e]))
  {
    hide Replay, CatalogOf, GroupOk;
    ReplayIsOk(env, h);
    CreatedDataset(CatalogOf(g), e);
  }

  // ---------------------------------------------------------------- a new version

  /** What a request for a new version must fit: the name and preset of its dataset, at most five
      versions and 32 fields, new names only, and every extra value stored under such a name. */
  ghost predicate VersionAllowed(env: Env, g: Group, call: Call, d: Dataset)
    requires call.request.CreateRequest?
  {
    var previous := FieldsAt(env, g, d.csvId, d.latest);
    && Strip(Written(call.request.name)) == d.name && (PresetFor(call).Custom? || PresetFor(call) == d.preset)
    && call.request.fields != [] && FieldsAllowed(env.cal, call.request.fields, true)
    && d.latest < 5 && |previous| + |call.request.fields| <= 32
    && (forall f :: f in FieldsFor(call.request.fields) ==> !Declares(previous, f.name))
    && Inheritable(env, g, d, FieldsFor(call.request.fields))
  }

  /** The schema of the version that is asked for: the previous fields, then the new ones. */
  function VersionAsked(env: Env, g: Group, call: Call, d: Dataset): Schema
    requires call.request.CreateRequest? && LoadSchema(env, g, d.csvId, d.latest).Ok?
  {
    var description := Strip(Written(call.request.description));
    Schema(d.csvId, d.latest + 1, d.name, if description != "" then description else d.description, d.preset,
           FieldsAt(env, g, d.csvId, d.latest) + FieldsFor(call.request.fields), call.times.schema,
           Some(env.schemaHash(LoadSchema(env, g, d.csvId, d.latest).value)))
  }

  /** The dataset has one version more, as it was asked for, without rows. */
  ghost predicate VersionStored(env: Env, g: Group, call: Call, h: Group)
    requires call.request.CreateRequest?
  {
    var id := CleanId(call.request.versionOf);
    && OneMore(g, h) && DatasetIn(g, id).Some?
    && var d := DatasetIn(g, id).value;
    && d.csvId == id && LoadSchema(env, g, id, d.latest).Ok? && VersionAllowed(env, g, call, d)
    && var e, s := NewEvent(g, h), VersionAsked(env, g, call, d);
    && e == VersionCreated(id, d.latest + 1, Strip(Written(call.request.description)), env.schemaHash(s),
                           call.times.event, call.ctx.user, call.ctx.userName, call.ctx.message)
    && DatasetIn(h, id) == Some(d.(latest := d.latest + 1, events := d.events + [e], description := s.description))
    && LoadSchema(env, h, id, d.latest + 1) == Ok(s) && RowsOf(h, id, d.latest + 1) == []
  }

  lemma NextReplayed(env: Env, g: Group, h: Group, e: CatalogEvent)
    requires Replay(CatalogOf(g)).Ok? && GroupOk(env, h) && CatalogOf(h) == CatalogOf(g) + [e] && e.VersionCreated?
    ensures DatasetIn(g, e.csvId).Some? && e.version == DatasetIn(g, e.csvId).value.latest + 1
    ensures var d := DatasetIn(g, e.csvId).value;
            DatasetIn(h, e.csvId)
              == Some(d.(latest := d.latest + 1, events := d.events + [e],
                         description := if e.description != "" then e.description else d.description))
  {
    hide Replay, CatalogOf, GroupOk, IsHexId;
    ReplayIsOk(env, h);
    ReplayGrows(CatalogOf(g), e);
  }

  lemma {:induction false} NamesDeclared(fields: seq<Field>, name: string)
    ensures name in Names(fields) <==> Declares(fields, name)
  {
    if fields == [] {
    } else {
      var n := |fields| - 1;
      NamesDeclared(fields[..n], name);
      assert forall i :: 0 <= i < n ==> fields[..n][i] == fields[i];
    }
  }

  /** Every stored extra value under the name of an added field is acceptable to it. */
  ghost predicate Inheritable(env: Env, g: Group, d: Dataset, additions: seq<Field>) {
    forall n, r :: 1 <= n <= d.latest && r in RowsOf(g, d.csvId, n) ==> ExtrasTaken(env.cal, additions, r)
  }

  ghost predicate ExtrasTaken(cal: Calendar, additions: seq<Field>, r: Row) {
    forall f :: f in additions && f.name in r.extra ==> FieldTaken(cal, f, r.extra[f.name])
  }

  lemma {:induction false} RowChecked(cal: Calendar, additions: seq<Field>, r: Row)
    ensures CheckRow(cal, additions, r.extra).None? <==> ExtrasTaken(cal, additions, r)
  {
    hide CanonField, FieldTaken;
    if additions == [] {
    } else {
      var n := |additions| - 1;
      var init, last := additions[..n], additions[n];
      assert additions == init + [last];
      RowChecked(cal, init, r);
      if last.name in r.extra { FieldIsTaken(cal, last, r.extra[last.name]); }
    }
  }

  lemma {:induction false} RowsChecked(cal: Calendar, additions: seq<Field>, rows: seq<Row>)
    ensures CheckRows(cal, additions, rows).None? <==> forall r :: r in rows ==> ExtrasTaken(cal, additions, r)
  {
    hide CheckRow, ExtrasTaken;
    if rows == [] {
    } else {
      var n := |rows| - 1;
      assert rows == rows[..n] + [rows[n]];
      RowsChecked(cal, additions, rows[..n]);
      RowChecked(cal, additions, rows[n]);
    }
  }

  lemma {:induction false} AllRowsAre(env: Env, g: Group, csvId: string, m: nat, r: Row)
    requires AllRows(env, g, csvId, m).Ok?
    ensures r in AllRows(env, g, csvId, m).value <==> exists n :: 1 <= n <= m && r in RowsOf(g, csvId, n)
  {
    hide RowsOf, LoadSchema, ReadRows;
    if m == 0 {
    } else {
      RowsOfVersion(env, g, csvId, m, LoadSchema(env, g, csvId, m).value.fields);
      AllRowsAre(env, g, csvId, m - 1, r);
    }
  }

  /** The check of stored rows before a version is added means just that. */
  lemma CheckMeans(env: Env, g: Group, d: Dataset, additions: seq<Field>)
    requires AllRows(env, g, d.csvId, d.latest).Ok?
    ensures CheckRows(env.cal, additions, AllRows(env, g, d.csvId, d.latest).value).None?
            <==> Inheritable(env, g, d, additions)
  {
    hide AllRows, CheckRows, RowsOf, ExtrasTaken;
    var rows := AllRows(env, g, d.csvId, d.latest).value;
    RowsChecked(env.cal, additions, rows);
    forall r
      ensures r in rows <==> exists n :: 1 <= n <= d.latest && r in RowsOf(g, d.csvId, n)
    {
      AllRowsAre(env, g, d.csvId, d.latest, r);
    }
  }

  lemma NoSharedName(previous: seq<Field>, additions: seq<Field>)
    ensures Names(additions) * Names(previous) == {} <==>
              forall f :: f in additions ==> !Declares(previous, f.name)
  {
    hide Names, Declares;
    var shared := Names(additions) * Names(previous);
    forall f | f in additions
      ensures Declares(previous, f.name) <==> f.name in shared
    {
      var i :| 0 <= i < |additions| && additions[i] == f;
      NamesDeclared(previous, f.name);
      NameAt(additions, i);
    }
    if x :| x in shared {
      NamesDeclared(additions, x);
      NameOfField(additions, x);
      NamesDeclared(previous, x);
    }
  }

  lemma NameOfField(fields: seq<Field>, name: string)
    requires Declares(fields, name)
    ensures exists f :: f in fields && f.name == name
  {
    var i :| 0 <= i < |fields| && fields[i].name == name;
    assert fields[i] in fields;
  }

  /** No version of the dataset was already created by this message of this actor. */
  predicate Unanswered(d: Dataset, ctx: Context) {
    forall i :: 1 <= i < |d.events| ==> d.events[i].messageId != ctx.message || d.events[i].actorId != ctx.user
  }

  lemma {:induction false} UnansweredMeans(d: Dataset, ctx: Context, i: nat)
    requires i <= |d.events|
    ensures ReplayedEvent(d.events, ctx, i).None? <==>
              forall j :: i <= j < |d.events| && 1 <= j ==>
                d.events[j].messageId != ctx.message || d.events[j].actorId != ctx.user
    decreases |d.events| - i
  {
    if i < |d.events| { UnansweredMeans(d, ctx, i + 1); }
  }

  function VersionEvent(env: Env, g: Group, call: Call, d: Dataset): CatalogEvent
    requires call.request.CreateRequest? && LoadSchema(env, g, d.csvId, d.latest).Ok?
  {
    VersionCreated(d.csvId, d.latest + 1, Strip(Written(call.request.description)),
                   env.schemaHash(VersionAsked(env, g, call, d)), call.times.event,
                   call.ctx.user, call.ctx.userName, call.ctx.message)
  }

  /** The checks of a version request, between the replay check and publishing. */
  lemma VersionIsAdded(env: Env, g: Group, call: Call, d: Dataset, schemas: seq<Schema>)
    requires GroupOk(env, g) && DatasetIn(g, d.csvId) == Some(d) && Screen(call).None? && call.request.CreateRequest?
    requires LoadSchemas(env, g, d, d.latest) == Ok(schemas) && LoadSchema(env, g, d.csvId, d.latest).Ok?
    requires NameOf(call) == d.name && (PresetOf(call) == Custom || PresetOf(call) == d.preset)
    requires call.request.fields != [] && FieldsAllowed(env.cal, call.request.fields, true)
    ensures var out := AddVersion(env, g, call.ctx, d, schemas, DescriptionOf(call), FieldsFor(call.request.fields),
                                  call.times, call.crash);
            (!VersionAllowed(env, g, call, d) ==> out.0 == g && out.1.Err?)
            && (VersionAllowed(env, g, call, d) ==>
                  out.0 == Publish(env, g, VersionAsked(env, g, call, d), VersionEvent(env, g, call, d), call.crash).0)
  {
    hide GroupOk, Screen, Replay, CatalogOf, LoadSchemas, AllRows, CheckRows, Publish, AfterPublish, Strip,
         FieldsAllowed, FieldsFor, Names, Inheritable, DatasetOk, ChainOk, NameOf, DescriptionOf, PresetOf, LoadSchema,
         Declares;
    AskedMeans(call);
    LogicalBounds(env, g, d.csvId);
    DatasetChain(env, g, d);
    ChainReads(env, g, d, d.latest);
    SchemaListAt(env, g, d, d.latest, d.latest - 1);
    var additions := FieldsFor(call.request.fields);
    CheckMeans(env, g, d, additions);
    NoSharedName(FieldsAt(env, g, d.csvId, d.latest), additions);
    assert |additions| == |call.request.fields| by { AsMany(call.request.fields); }
  }

  lemma AsMany(raw: seq<RawField>)
    ensures |FieldsFor(raw)| == |raw|
  {
  }

  /** A version request reaches its dataset: it names one, and fits its name and preset. */
  predicate NamesDataset(g: Group, call: Call)
    requires call.request.CreateRequest?
  {
    var id := CleanId(call.request.versionOf);
    IsHexId(id) && DatasetIn(g, id).Some?
  }

  lemma UnusableId(env: Env, g: Group, logical: Logical, call: Call)
    requires Screen(call).None? && CreatesVersion(call)
    ensures !IsHexId(CleanId(call.request.versionOf)) ==> CreateIn(env, g, logical, call) == (g, Err(CsvIdInvalid))
  {
    hide SafeText, ParsePreset, CreateVersion, ContextOk, IsHexId;
  }

  /** A request for a version that was not answered before publishes that version if it is
      allowed, and else changes nothing and is refused. */
  lemma VersionIsPublished(env: Env, g: Group, call: Call)
    requires CollisionFree(env) && GroupOk(env, g) && Screen(call).None? && CreatesVersion(call)
    ensures !NamesDataset(g, call) ==> InGroup(env, g, call).0 == g && InGroup(env, g, call).1.Err?
    ensures NamesDataset(g, call) ==>
              var d := DatasetIn(g, CleanId(call.request.versionOf)).value;
              d.csvId == CleanId(call.request.versionOf) && LoadSchema(env, g, d.csvId, d.latest).Ok?
              && (!Unanswered(d, call.ctx) ==> InGroup(env, g, call).0 == g)
              && (!VersionAllowed(env, g, call, d) && Unanswered(d, call.ctx) ==>
                    InGroup(env, g, call).0 == g && InGroup(env, g, call).1.Err?)
              && (VersionAllowed(env, g, call, d) && Unanswered(d, call.ctx) ==>
                    InGroup(env, g, call).0
                      == Publish(env, g, VersionAsked(env, g, call, d), VersionEvent(env, g, call, d), call.crash).0)
  {
    hide GroupOk, Screen, Replay, CatalogOf, LoadSchemas, Publish, Strip, FieldsAllowed, FieldsFor, Names, DatasetOk,
         ChainOk, NameOf, DescriptionOf, PresetOf, LoadSchema, ReadLogical, AddVersion, NormalizeFields, CleanId,
         IsHexId, CreateIn, FieldsNotIn, ReplayedEvent, DatasetAnswer, VersionAsked, VersionEvent, Inheritable,
         Written;
    ReplayIsOk(env, g);
    UnusableId(env, g, Replay(CatalogOf(g)).value, call);
    var id := CleanId(call.request.versionOf);
    AskedMeans(call);
    StoredAsGiven(env.cal, call.request.fields, true);
    if IsHexId(id) {
      VersionInIs(env, g, Replay(CatalogOf(g)).value, call);
      if id in Replay(CatalogOf(g)).value {
        LogicalBounds(env, g, id);
        var d := Replay(CatalogOf(g)).value[id];
        DatasetChain(env, g, d);
        ChainReads(env, g, d, d.latest);
        UnansweredMeans(d, call.ctx, 0);
        assert FieldsFor(call.request.fields) == [] <==> call.request.fields == [] by { AsMany(call.request.fields); }
        if call.request.fields != [] && FieldsAllowed(env.cal, call.request.fields, true)
           && NameOf(call) == d.name && (PresetOf(call) == Custom || PresetOf(call) == d.preset) {
          VersionIsAdded(env, g, call, d, LoadSchemas(env, g, d, d.latest).value);
        }
      }
    }
  }

  lemma VersionIsStored(env: Env, g: Group, call: Call)
    requires CollisionFree(env) && GroupOk(env, g) && Screen(call).None? && CreatesVersion(call)
    requires CatalogOf(InGroup(env, g, call).0) != CatalogOf(g)
    ensures VersionStored(env, g, call, InGroup(env, g, call).0)
  {
    hide GroupOk, Screen, CatalogOf, Strip, FieldsAllowed, FieldsFor, DatasetOk, LoadSchema, CleanId, IsHexId, InGroup,
         Publish, VersionAllowed, RowsOf, OneMore, Written, DatasetIn, CollisionFree, FieldsAt;
    VersionIsPublished(env, g, call);
    var d := DatasetIn(g, CleanId(call.request.versionOf)).value;
    var s, e := VersionAsked(env, g, call, d), VersionEvent(env, g, call, d);
    VersionNamesDiffer(env, g, call, d);
    PublishedExactly(env, g, s, e, call.crash);
    InGroupKeeps(env, g, call);
    ReplayIsOk(env, g);
    NextReplayed(env, g, InGroup(env, g, call).0, e);
  }

  lemma VersionNamesDiffer(env: Env, g: Group, call: Call, d: Dataset)
    requires GroupOk(env, g) && DatasetIn(g, d.csvId) == Some(d) && LoadSchema(env, g, d.csvId, d.latest).Ok?
    requires call.request.CreateRequest? && VersionAllowed(env, g, call, d)
    ensures Distinct(VersionAsked(env, g, call, d).fields) && Replay(CatalogOf(g)).Ok?
    ensures !Announced(Replay(CatalogOf(g)).value, d.csvId, d.latest + 1)
  {
    hide GroupOk, CatalogOf, Replay, FieldsAllowed, FieldsFor, DatasetOk, LoadSchema, Distinct, Names, ChainOk,
         Declares, Inheritable, FieldsAt;
    LogicalBounds(env, g, d.csvId);
    DatasetChain(env, g, d);
    PreviousDistinct(env, g, d);
    StoredAsGiven(env.cal, call.request.fields, true);
    NewFieldsOk(env.cal, call.request.fields);
    var previous, additions := FieldsAt(env, g, d.csvId, d.latest), FieldsFor(call.request.fields);
    NoSharedName(previous, additions);
    DistinctConcat(previous, additions);
    NothingShared(Names(additions), Names(previous));
  }

  // ---------------------------------------------------------------- when a version is announced

  /** Files that a crash left behind are taken over only if they are just what would be written. */
  predicate LeftoverFits(g: Group, s: Schema) {
    && (SchemaPath(s.csvId, s.version) in g.files ==> g.files[SchemaPath(s.csvId, s.version)] == SchemaFile(s))
    && (RowsPath(s.csvId, s.version) in g.files ==>
          g.files[RowsPath(s.csvId, s.version)] == RowsFile(Header(s.fields), []))
  }

  /** What the files of a version add to a group that may hold some of them already. */
  function Added(env: Env, g: Group, s: Schema): nat {
    (if SchemaPath(s.csvId, s.version) in g.files then 0 else env.schemaSize(s))
    + (if RowsPath(s.csvId, s.version) in g.files then 0 else env.headerSize(Header(s.fields)))
  }

  /** 256 KiB for a schema, 10 MiB for a file, 100 MiB for the group. */
  predicate HasRoom(env: Env, g: Group, s: Schema, e: CatalogEvent) {
    && env.schemaSize(s) <= 256 * 1024 && env.headerSize(Header(s.fields)) <= 10 * 1024 * 1024
    && TotalSize(env, g) + env.schemaSize(s) + env.headerSize(Header(s.fields)) <= 100 * 1024 * 1024
    && TotalSize(env, g) + Added(env, g, s) + env.catalogSize(e) <= 100 * 1024 * 1024
    && CatalogBytes(env, CatalogOf(g)) + env.catalogSize(e) <= 10 * 1024 * 1024
  }

  lemma CreatedSize(env: Env, g: Group, p: Path, f: File)
    requires ListingOk(g)
    ensures ListingOk(CreateFile(g, p, f))
    ensures TotalSize(env, CreateFile(g, p, f)) == TotalSize(env, g) + if p in g.files then 0 else FileSize(env, f)
  {
    hide FileSize, TotalSize, ListingOk;
    PutSize(env, g, p, f);
  }

  lemma NothingInRows(env: Env, header: seq<string>)
    ensures RowBytes(env, header, []) == env.headerSize(header) && AllHexIds([]) && DistinctIds([])
  {
  }

  /** The two files are written, or found as they should be, and read back. */
  lemma WrittenIfFits(env: Env, g: Group, s: Schema, crash: Crash)
    requires CollisionFree(env) && ListingOk(g) && |s.fields| <= 32 && RowsOf(g, s.csvId, s.version) == []
    requires !crash.AfterSchemaFile? && !crash.AfterRowsFile?
    ensures var w := WriteVersion(env, g, s, crash);
            (w.1.None? <==>
               LeftoverFits(g, s) && env.schemaSize(s) <= 256 * 1024
               && env.headerSize(Header(s.fields)) <= 10 * 1024 * 1024
               && TotalSize(env, g) + env.schemaSize(s) + env.headerSize(Header(s.fields)) <= 100 * 1024 * 1024)
            && (w.1.None? ==> TotalSize(env, w.0) == TotalSize(env, g) + Added(env, g, s))
  {
    hide TotalSize, ListingOk, Header, RowBytes, AllHexIds, DistinctIds;
    var g1 := CreateFile(g, SchemaPath(s.csvId, s.version), SchemaFile(s));
    CreatedSize(env, g, SchemaPath(s.csvId, s.version), SchemaFile(s));
    CreatedSize(env, g1, RowsPath(s.csvId, s.version), RowsFile(Header(s.fields), []));
    NothingInRows(env, Header(s.fields));
  }

  /** A version is announced exactly when it has room and no other leftover is in its place. */
  lemma PublishedIfRoom(env: Env, g: Group, s: Schema, e: CatalogEvent, crash: Crash)
    requires CollisionFree(env) && GroupOk(env, g) && |s.fields| <= 32
    requires !Announced(Replay(CatalogOf(g)).value, s.csvId, s.version)
    requires !crash.AfterSchemaFile? && !crash.AfterRowsFile?
    ensures CatalogOf(Publish(env, g, s, e, crash).0) != CatalogOf(g) <==> LeftoverFits(g, s) && HasRoom(env, g, s, e)
  {
    hide WriteVersion, TotalSize, CatalogBytes, Replay, Announced, LogicalOk, ListingOk, RowsOf, Header, Added,
         LeftoverFits, DatasetOk, OnlyAdds;
    EmptyOrphan(env, g, s.csvId, s.version);
    WrittenIfFits(env, g, s, crash);
    WriteFiles(env, g, s, crash);
    SameCatalog(g, WriteVersion(env, g, s, crash).0, s.csvId, s.version);
    LastEvent(CatalogOf(g), e);
  }

  lemma EmptyOrphan(env: Env, g: Group, csvId: string, n: nat)
    requires GroupOk(env, g) && !Announced(Replay(CatalogOf(g)).value, csvId, n)
    ensures RowsOf(g, csvId, n) == [] && ListingOk(g)
  {
    hide TotalSize, CatalogBytes, Replay, Announced, ListingOk, RowsOf, DatasetOk;
  }

  /** A create of a dataset that the group does not have announces it exactly when the descriptions
      are acceptable, the group has fewer than 20 datasets, and there is room. */
  lemma DatasetIsAnnounced(env: Env, g: Group, call: Call, csvId: string)
    requires CollisionFree(env) && GroupOk(env, g) && Screen(call).None? && CreatesDataset(call)
    requires !call.crash.AfterSchemaFile? && !call.crash.AfterRowsFile?
    requires csvId == NewDatasetId(env, call.ctx, NameOf(call), PresetOf(call), FieldsAsked(call))
    requires DatasetIn(g, csvId).None?
    ensures CatalogOf(InGroup(env, g, call).0) != CatalogOf(g) <==>
              DatasetAllowed(env, call) && Replay(CatalogOf(g)).Ok? && |Replay(CatalogOf(g)).value| < 20
              && var s := SchemaAsked(call, csvId);
                 var e := DatasetCreated(csvId, 1, s.description, env.schemaHash(s), call.times.event, call.ctx.user,
                                         call.ctx.userName, call.ctx.message, s.name, s.preset);
                 LeftoverFits(g, s) && HasRoom(env, g, s, e)
  {
    hide GroupOk, Screen, Replay, CatalogOf, ReadLogical, InitialFields, CollisionFree, Strip, CreateIn, NewDatasetId,
         Publish, LoadSchemas, DatasetAnswer, AfterPublish, Written, LEDGER_FIELDS, FieldsFor, DatasetAllowed,
         Distinct, Announced, NameOf, DescriptionOf, PresetOf, PresetFor, LeftoverFits, HasRoom, FieldsAsked;
    ReplayIsOk(env, g);
    CreateInIs(env, g, Replay(CatalogOf(g)).value, call);
    AskedMeans(call);
    InitialAsked(env, call);
    NotAnnounced(g, csvId);
    if DatasetAllowed(env, call) {
      FewFields(env, call);
      var s := SchemaAsked(call, csvId);
      var e := DatasetCreated(csvId, 1, s.description, env.schemaHash(s), call.times.event, call.ctx.user,
                              call.ctx.userName, call.ctx.message, s.name, s.preset);
      PublishedIfRoom(env, g, s, e, call.crash);
    }
  }

  lemma FewFields(env: Env, call: Call)
    requires call.request.CreateRequest? && DatasetAllowed(env, call)
    ensures |FieldsAsked(call)| <= 32
  {
    hide FieldAllowed, NamesDiffer, PresetFor;
  }

  /** A request for a version, not answered before, announces it exactly when it is allowed and
      there is room. */
  lemma VersionIsAnnounced(env: Env, g: Group, call: Call)
    requires CollisionFree(env) && GroupOk(env, g) && Screen(call).None? && CreatesVersion(call)
             && NamesDataset(g, call)
    requires !call.crash.AfterSchemaFile? && !call.crash.AfterRowsFile?
    requires Unanswered(DatasetIn(g, CleanId(call.request.versionOf)).value, call.ctx)
    ensures var d := DatasetIn(g, CleanId(call.request.versionOf)).value;
            LoadSchema(env, g, d.csvId, d.latest).Ok?
            && (CatalogOf(InGroup(env, g, call).0) != CatalogOf(g) <==>
                  VersionAllowed(env, g, call, d) && LeftoverFits(g, VersionAsked(env, g, call, d))
                  && HasRoom(env, g, VersionAsked(env, g, call, d), VersionEvent(env, g, call, d)))
  {
    hide GroupOk, Screen, CatalogOf, Strip, DatasetOk, LoadSchema, CleanId, IsHexId, Replay, Announced, InGroup,
         Publish, VersionAllowed, RowsOf, Written, DatasetIn, CollisionFree, FieldsAt, HasRoom, LeftoverFits,
         Unanswered, Distinct;
    VersionIsPublished(env, g, call);
    var d := DatasetIn(g, CleanId(call.request.versionOf)).value;
    if VersionAllowed(env, g, call, d) {
      VersionNamesDiffer(env, g, call, d);
      FewVersionFields(env, g, call, d);
      PublishedIfRoom(env, g, VersionAsked(env, g, call, d), VersionEvent(env, g, call, d), call.crash);
    }
  }

  lemma FewVersionFields(env: Env, g: Group, call: Call, d: Dataset)
    requires call.request.CreateRequest? && LoadSchema(env, g, d.csvId, d.latest).Ok? && VersionAllowed(env, g, call, d)
    ensures |VersionAsked(env, g, call, d).fields| <= 32
  {
    hide LoadSchema, FieldsAt, FieldsAllowed, Inheritable, Strip, Written, Declares;
    AsMany(call.request.fields);
  }

  // ---------------------------------------------------------------- every create

  /** What a create announced is stored as it was asked for. */
  lemma CreateStores(env: Env, g: Group, call: Call)
    requires CollisionFree(env) && GroupOk(env, g) && Screen(call).None? && call.request.CreateRequest?
    requires CatalogOf(InGroup(env, g, call).0) != CatalogOf(g)
    ensures if CreatesDataset(call) then DatasetStored(env, g, call, InGroup(env, g, call).0)
            else VersionStored(env, g, call, InGroup(env, g, call).0)
  {
    hide GroupOk, Screen, CatalogOf, Strip, DatasetStored, VersionStored, InGroup;
    if CreatesDataset(call) { DatasetIsStored(env, g, call); } else { VersionIsStored(env, g, call); }
  }

  /** What a create call may do: announce one event or none, answer accordingly, and store what was
      asked for. */
  ghost predicate CreateCallOutcome(env: Env, g: Group, call: Call, h: Group, r: Result<Response, Reason>)
    requires call.request.CreateRequest?
  {
    && CreateOutcome(env, g, call.ctx, CreatesDataset(call), call.crash, h, r)
    && (CatalogOf(h) != CatalogOf(g) ==>
          if CreatesDataset(call) then DatasetStored(env, g, call, h) else VersionStored(env, g, call, h))
  }

  lemma CreateCallEffect(env: Env, g: Group, call: Call)
    requires CollisionFree(env) && GroupOk(env, g) && Screen(call).None? && call.request.CreateRequest?
    ensures CreateCallOutcome(env, g, call, InGroup(env, g, call).0, InGroup(env, g, call).1)
  {
    hide GroupOk, Screen, CatalogOf, InGroup, DatasetStored, VersionStored, CreateOutcome, CollisionFree,
         CreatesDataset;
    CreateEffect(env, g, call);
    if CatalogOf(InGroup(env, g, call).0) != CatalogOf(g) { CreateStores(env, g, call); }
  }

  /** The announced version holds the field that was described, in its place behind the previous
      ones; the answer ends with the fields of that version. */
  predicate HoldsField(env: Env, g: Group, call: Call, h: Group, r: Result<Response, Reason>, i: nat)
    requires call.request.CreateRequest? && i < |call.request.fields|
  {
    && OneMore(g, h) && NewEvent(g, h).version >= 1
    && var e := NewEvent(g, h);
    var before := if CreatesDataset(call) then [] else FieldsAt(env, g, e.csvId, e.version - 1);
    LoadSchema(env, h, e.csvId, e.version).Ok?
    && var fields := LoadSchema(env, h, e.csvId, e.version).value.fields;
    before <= fields && |fields| == |before| + |call.request.fields|
    && FieldGiven(call.request.fields[i], fields[|before| + i])
    && (r.Ok? ==>
          r.value.DatasetResponse? && |r.value.info.versions| == e.version
          && r.value.info.versions[e.version - 1] == fields)
  }

  lemma FieldIsHeld(env: Env, g: Group, call: Call, i: nat)
    requires CollisionFree(env) && GroupOk(env, g) && Screen(call).None? && call.request.CreateRequest?
    requires i < |call.request.fields| && CatalogOf(InGroup(env, g, call).0) != CatalogOf(g)
    ensures HoldsField(env, g, call, InGroup(env, g, call).0, InGroup(env, g, call).1, i)
  {
    hide GroupOk, Screen, CatalogOf, Strip, InGroup, FieldFor, LEDGER_FIELDS, LoadSchema, DatasetIn, CleanId, Written,
         VersionAllowed, CollisionFree, EMPTY_GROUP, CreatesDataset, PresetFor, RowsOf, FieldGiven, FieldsAllowed;
    CreateStores(env, g, call);
    CreateEffect(env, g, call);
    GivenField(call.request.fields[i]);
    var h := InGroup(env, g, call).0;
    var e := NewEvent(g, h);
    assert FieldsAt(env, h, e.csvId, e.version) == LoadSchema(env, h, e.csvId, e.version).value.fields;
    assert FieldsFor(call.request.fields)[i] == FieldFor(call.request.fields[i]);
  }

  /** Whatever the workspace holds: a create that announces a dataset or a version stores each field
      as it was described, and no description without a field. */
  lemma CreatedFields(env: Env, groups: Groups, call: Call, i: nat)
    requires CollisionFree(env) && AllOk(env, groups) && Screen(call).None? && call.request.CreateRequest?
    requires i < |call.request.fields|
    requires var key := env.scope(call.ctx.chat);
             CatalogOf(GroupOf(Step(env, groups, call).0, key)) != CatalogOf(GroupOf(groups, key))
    ensures var key := env.scope(call.ctx.chat);
            HoldsField(env, GroupOf(groups, key), call, GroupOf(Step(env, groups, call).0, key),
                       Step(env, groups, call).1, i)
  {
    hide GroupOk, Screen, CatalogOf, InGroup, AllOk, CollisionFree, EMPTY_GROUP, HoldsField;
    var key := env.scope(call.ctx.chat);
    GroupOfOk(env, groups, key);
    FieldIsHeld(env, GroupOf(groups, key), call, i);
  }

  /** A stored field is the description given for it, text by text. */
  predicate FieldGiven(raw: RawField, f: Field) {
    && f.name == Strip(raw.name) && f.ftype == raw.ftype && f.required == raw.required && f.default == raw.default
    && !f.generated && (raw.description.Str? ==> f.description == Strip(raw.description.s))
    && (raw.description.Null? ==> f.description == "")
    && |f.enum| == (if raw.enum.None? then 0 else |raw.enum.value|)
    && forall j :: 0 <= j < |f.enum| && raw.enum.value[j].Str? ==> f.enum[j] == Strip(raw.enum.value[j].s)
  }

  lemma GivenField(raw: RawField)
    ensures FieldGiven(raw, FieldFor(raw))
  {
    hide Strip;
    assert Strip("") == "" by { NothingStripped(); }
  }

  // ---------------------------------------------------------------- a repeated version request

  /** The first version after the initial one that this message of this actor created. */
  predicate CreatedBy(d: Dataset, ctx: Context, i: nat) {
    && 1 <= i < |d.events| && d.events[i].messageId == ctx.message && d.events[i].actorId == ctx.user
    && forall j :: 1 <= j < i ==> d.events[j].messageId != ctx.message || d.events[j].actorId != ctx.user
  }

  lemma {:induction false} CreatedByMeans(d: Dataset, ctx: Context, i: nat, k: nat)
    requires k <= i && CreatedBy(d, ctx, i)
    ensures ReplayedEvent(d.events, ctx, k) == Some(i)
    decreases i - k
  {
    if k < i { CreatedByMeans(d, ctx, i, k + 1); }
  }

  /** A message that already created a version is answered if and only if it asks for the very same
      fields again, for the same name and preset; nothing changes. */
  lemma VersionRepeated(env: Env, g: Group, call: Call, i: nat)
    requires CollisionFree(env) && GroupOk(env, g) && Screen(call).None? && CreatesVersion(call)
             && NamesDataset(g, call)
    requires CreatedBy(DatasetIn(g, CleanId(call.request.versionOf)).value, call.ctx, i)
    ensures var d := DatasetIn(g, CleanId(call.request.versionOf)).value;
            InGroup(env, g, call).0 == g
            && (InGroup(env, g, call).1.Ok? <==>
                  Strip(Written(call.request.name)) == d.name
                  && (PresetFor(call).Custom? || PresetFor(call) == d.preset)
                  && call.request.fields != [] && FieldsAllowed(env.cal, call.request.fields, true)
                  && FieldsAt(env, g, d.csvId, i + 1)
                       == FieldsAt(env, g, d.csvId, i) + FieldsFor(call.request.fields))
            && (InGroup(env, g, call).1.Ok? ==>
                  AnswersDataset(env, g, d.csvId, InGroup(env, g, call).1))
  {
    hide GroupOk, Screen, Replay, CatalogOf, LoadSchemas, Strip, FieldsAllowed, FieldsFor, Names, DatasetOk, ChainOk,
         NameOf, DescriptionOf, PresetOf, LoadSchema, ReadLogical, AddVersion, NormalizeFields, CleanId, IsHexId,
         CreateIn, FieldsNotIn, ReplayedEvent, DatasetAnswer, Written, Describes, FieldsAt, CreatedBy;
    ReplayIsOk(env, g);
    var id := CleanId(call.request.versionOf);
    AskedMeans(call);
    StoredAsGiven(env.cal, call.request.fields, true);
    VersionInIs(env, g, Replay(CatalogOf(g)).value, call);
    var d := Replay(CatalogOf(g)).value[id];
    LogicalBounds(env, g, id);
    CreatedByMeans(d, call.ctx, i, 0);
    ShownAgain(env, g, id);
    SchemaListLength(env, g, d, d.latest);
    CreatedIsVersion(d, call.ctx, i);
    SchemaListAt(env, g, d, d.latest, i);
    SchemaListAt(env, g, d, d.latest, i - 1);
    AddedAt(env, g, d, i);
    assert FieldsFor(call.request.fields) == [] <==> call.request.fields == [] by { AsMany(call.request.fields); }
  }

  lemma CreatedIsVersion(d: Dataset, ctx: Context, i: nat)
    requires CreatedBy(d, ctx, i)
    ensures 1 <= i < |d.events|
  {
  }

  /** What a version does not share with the one before is what it added. */
  lemma AddedAt(env: Env, g: Group, d: Dataset, i: nat)
    requires DatasetOk(env, g, d.csvId, d) && 1 <= i < d.latest == |d.events|
    ensures var a, b := FieldsAt(env, g, d.csvId, i), FieldsAt(env, g, d.csvId, i + 1);
            a <= b && forall more :: FieldsNotIn(b, Names(a)) == more <==> b == a + more
  {
    hide FieldsNotIn, Names, FieldsAt, VersionOk, Distinct, LEDGER_FIELDS, AllProject, LedgerFilesOk, ChainOk;
    DatasetChain(env, g, d);
    ChainPrefix(env, g, d, i + 1, d.latest);
    GrowsBy(env, g, d, i + 1);
    var a, b := FieldsAt(env, g, d.csvId, i), FieldsAt(env, g, d.csvId, i + 1);
    var rest := b[|a|..];
    assert b == a + rest;
    AddedFields(a, rest);
    forall more | b == a + more
      ensures more == rest
    {
      assert (a + more)[|a|..] == more;
    }
  }

  lemma GrowsBy(env: Env, g: Group, d: Dataset, n: nat)
    requires 2 <= n <= |d.events| && ChainOk(env, g, d, n)
    ensures FieldsAt(env, g, d.csvId, n - 1) <= FieldsAt(env, g, d.csvId, n) && Distinct(FieldsAt(env, g, d.csvId, n))
  {
    hide LoadSchema, ReadRows, RowsOk, Distinct, LEDGER_FIELDS, RowsOf;
  }
}
