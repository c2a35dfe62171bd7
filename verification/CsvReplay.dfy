/** Repeating a request: which repetitions are recognised, and that a recognised one changes
    nothing. */
module CsvReplay {
  import opened Text
  import opened Decimals
  import opened CsvFields
  import opened CsvStore
  import opened CsvAppend
  import opened CsvLedger
  import opened CsvInvariant
  import opened CsvPreserve
  import opened CsvSteps
  import opened CsvBalance

  // ---------------------------------------------------------------- what growth preserves

  /** A dataset later in the log: same identity, at least as many versions. */
  predicate Continues(d: Dataset, d': Dataset) {
    && d.csvId == d'.csvId && d.name == d'.name && d.preset == d'.preset && d.createdAt == d'.createdAt
    && d.latest <= d'.latest && d.events <= d'.events
  }

  lemma StepContinues(logical: Logical, e: CatalogEvent, csvId: string)
    requires ReplayStep(logical, e).Ok? && csvId in logical
    ensures csvId in ReplayStep(logical, e).value
    ensures Continues(logical[csvId], ReplayStep(logical, e).value[csvId])
  {
    hide IsHexId;
  }

  lemma {:induction false} ReplayContinues(events: seq<CatalogEvent>, more: seq<CatalogEvent>, csvId: string)
    requires Replay(events).Ok? && Replay(events + more).Ok? && csvId in Replay(events).value
    ensures csvId in Replay(events + more).value
    ensures Continues(Replay(events).value[csvId], Replay(events + more).value[csvId])
  {
    hide ReplayStep;
    if more == [] {
      assert events + more == events;
    } else {
      var init, last := more[..|more| - 1], more[|more| - 1];
      assert (events + more)[..|events + more| - 1] == events + init;
      ReplayContinues(events, init, csvId);
      StepContinues(Replay(events + init).value, last, csvId);
    }
  }

  lemma LogicalContinues(env: Env, g: Group, h: Group, csvId: string)
    requires GroupOk(env, g) && GroupOk(env, h) && Grown(g, h)
    requires Replay(CatalogOf(g)).Ok? && Replay(CatalogOf(h)).Ok? && csvId in Replay(CatalogOf(g)).value
    ensures csvId in Replay(CatalogOf(h)).value
    ensures Continues(Replay(CatalogOf(g)).value[csvId], Replay(CatalogOf(h)).value[csvId])
  {
    hide Replay, LogicalOk, ListingOk, TotalSize, CatalogBytes, Continues;
    assert FileGrows(g.files[CatalogPath], h.files[CatalogPath]);
    var events, later := CatalogOf(g), CatalogOf(h);
    assert later == events + later[|events|..];
    ReplayContinues(events, later[|events|..], csvId);
  }

  lemma SchemaStays(env: Env, g: Group, h: Group, csvId: string, n: nat)
    requires Grown(g, h) && LoadSchema(env, g, csvId, n).Ok?
    ensures LoadSchema(env, h, csvId, n) == LoadSchema(env, g, csvId, n)
  {
    assert FileGrows(g.files[SchemaPath(csvId, n)], h.files[SchemaPath(csvId, n)]);
  }

  lemma RowsStay(g: Group, h: Group, csvId: string, n: nat)
    requires Grown(g, h)
    ensures RowsOf(g, csvId, n) <= RowsOf(h, csvId, n)
  {
    if RowsPath(csvId, n) in g.files {
      assert FileGrows(g.files[RowsPath(csvId, n)], h.files[RowsPath(csvId, n)]);
    }
  }

  lemma {:induction false} FoundInPrefix(a: seq<Row>, b: seq<Row>, id: string)
    requires a <= b && FindRow(a, id).Some?
    ensures FindRow(b, id) == FindRow(a, id)
    decreases |b|
  {
    if |a| < |b| {
      FoundInPrefix(a, b[..|b| - 1], id);
    } else {
      assert a == b;
    }
  }

  // ---------------------------------------------------------------- appends

  /** A group that an append changed, or that answered it, holds the row of that request. */
  lemma AppendLeavesRow(env: Env, g: Group, ctx: Context, d: Dataset, raw: map<string, Value>, t: Times, crash: Crash)
    requires AppendRow(env, g, ctx, d, raw, t, crash).0 != g || AppendRow(env, g, ctx, d, raw, t, crash).1.Ok?
    ensures var h := AppendRow(env, g, ctx, d, raw, t, crash).0;
            FindRow(RowsOf(h, d.csvId, d.latest), RowEventId(env, ctx, d.csvId, d.latest, raw)).Some?
  {
    hide LoadSchema, FindRow, NewRow, StoreRow, AppendAnswer, ReadBack, RowEventId, ReadRows, RowsOf;
    LoadedVersionIf(env, g, d.csvId, d.latest);
    var s := LoadSchema(env, g, d.csvId, d.latest).value;
    var eventId := RowEventId(env, ctx, d.csvId, d.latest, raw);
    RowsOfVersion(env, g, d.csvId, d.latest, s.fields);
    if FindRow(RowsOf(g, d.csvId, d.latest), eventId).None? {
      NewRowFits(env, g, ctx, d, s, raw, eventId, t);
      StoredRowFound(env, g, d.csvId, s, NewRow(env, g, ctx, d, s, raw, eventId, t).value);
    }
  }

  lemma LoadedVersionIf(env: Env, g: Group, csvId: string, n: nat)
    ensures LoadSchema(env, g, csvId, n).Ok? ==> LoadSchema(env, g, csvId, n).value.version == n
  {
  }

  lemma StoredRowFound(env: Env, g: Group, csvId: string, s: Schema, row: Row)
    ensures StoreRow(env, g, csvId, s, row).1.None? || StoreRow(env, g, csvId, s, row).0 == g
    ensures StoreRow(env, g, csvId, s, row).1.None? ==>
              FindRow(RowsOf(StoreRow(env, g, csvId, s, row).0, csvId, s.version), row.eventId).Some?
  {
    hide TotalSize, Header, RowBytes, FindRow;
    var rows := RowsOf(g, csvId, s.version);
    FoundRow(rows + [row], row.eventId);
    assert row in rows + [row];
  }

  /** A request whose row is already stored answers with that row and changes nothing. */
  lemma AppendAgain(env: Env, g: Group, ctx: Context, d: Dataset, s: Schema, raw: map<string, Value>, t: Times,
                    crash: Crash)
    requires LoadSchema(env, g, d.csvId, d.latest) == Ok(s) && ReadRows(env, g, d.csvId, d.latest, s.fields).Ok?
    requires FindRow(RowsOf(g, d.csvId, d.latest), RowEventId(env, ctx, d.csvId, d.latest, raw)).Some?
    ensures var row := FindRow(RowsOf(g, d.csvId, d.latest), RowEventId(env, ctx, d.csvId, d.latest, raw)).value;
            AppendRow(env, g, ctx, d, raw, t, crash) == (g, AppendAnswer(env, g, d, s, row, true))
  {
    hide LoadSchema, FindRow, AppendNew, AppendAnswer, RowEventId, ReadRows, RowsOf;
    RowsOfVersion(env, g, d.csvId, d.latest, s.fields);
  }

  /** The balance that the answer for a row of a ledger reports can be written. */
  predicate BalanceFits(env: Env, g: Group, d: Dataset, row: Row) {
    AllRows(env, g, d.csvId, d.latest).Ok?
    && FitsFixed(BalanceOf(AllRows(env, g, d.csvId, d.latest).value, Cell(row, "account"), Cell(row, "currency")))
  }

  /** The answer for a stored row: the row, with the balance of its account as the group now has
      it, unless it belongs to a ledger and that balance cannot be written. */
  predicate AnswersWith(env: Env, g: Group, d: Dataset, r: Result<Response, Reason>, row: Row, idempotent: bool) {
    if d.preset.Ledger? && !BalanceFits(env, g, d, row) then r == Err(BalanceTooLong)
    else
      && r.Ok? && r.value.RowResponse? && r.value.row == row && r.value.idempotent == idempotent
      && r.value.csvId == d.csvId && r.value.version == d.latest
      && VisibleRow(env.cal, row, FieldsAt(env, g, d.csvId, d.latest), FieldsAt(env, g, d.csvId, d.latest))
           == Ok(r.value.shown)
      && (!d.preset.Ledger? ==> r.value.balance.None?)
      && (d.preset.Ledger? ==>
            AllRows(env, g, d.csvId, d.latest).Ok? && r.value.balance.Some?
            && LedgerBalance(AllRows(env, g, d.csvId, d.latest).value, row) == Ok(r.value.balance.value)
            && r.value.balance.value.account == Cell(row, "account")
            && r.value.balance.value.currency == Cell(row, "currency"))
  }

  /** The answer for a stored row is the row; exactly an oversized balance refuses it. In
      particular a repeated reversal is not rejected as already reversed. */
  lemma AnswerForStoredRow(env: Env, g: Group, d: Dataset, s: Schema, row: Row, idempotent: bool)
    requires DatasetOk(env, g, d.csvId, d) && LoadSchema(env, g, d.csvId, d.latest) == Ok(s)
    requires row in RowsOf(g, d.csvId, d.latest)
    ensures AnswersWith(env, g, d, AppendAnswer(env, g, d, s, row, idempotent), row, idempotent)
  {
    hide LoadSchema, ReadRows, RowsOf, AllProject, LedgerFilesOk, VisibleRow, Projects, RowFits, BalanceOf, CanonDec,
         LEDGER_FIELDS, AllRows, Names, Distinct, FitsFixed, LedgerBalance, Cell;
    DatasetChain(env, g, d);
    LatestFacts(env, g, d, s);
    RowsOfVersion(env, g, d.csvId, d.latest, s.fields);
    RowShows(env.cal, row, s.fields, s.fields);
    OwnFieldsProject(env.cal, row, s.fields);
    ChainReads(env, g, d, d.latest);
    BalanceRefused(AllRows(env, g, d.csvId, d.latest).value, row);
    BalanceNames(AllRows(env, g, d.csvId, d.latest).value, row);
  }

  lemma BalanceNames(rows: seq<Row>, row: Row)
    ensures LedgerBalance(rows, row).Ok? ==>
              LedgerBalance(rows, row).value.account == Cell(row, "account")
              && LedgerBalance(rows, row).value.currency == Cell(row, "currency")
  {
    hide BalanceOf, CanonDec, Cell;
  }

  // ---------------------------------------------------------------- new versions

  lemma {:induction false} ReplayedInPrefix(events: seq<CatalogEvent>, later: seq<CatalogEvent>, ctx: Context, i: nat)
    requires events <= later && i <= |events| && ReplayedEvent(events, ctx, i).Some?
    ensures ReplayedEvent(later, ctx, i) == ReplayedEvent(events, ctx, i)
    decreases |events| - i
  {
    if i < |events| && !(i >= 1 && events[i].messageId == ctx.message && events[i].actorId == ctx.user) {
      ReplayedInPrefix(events, later, ctx, i + 1);
    }
  }

  lemma {:induction false} ReplayedLast(events: seq<CatalogEvent>, e: CatalogEvent, ctx: Context, i: nat)
    requires i <= |events| && |events| >= 1 && ReplayedEvent(events, ctx, i).None?
    requires e.messageId == ctx.message && e.actorId == ctx.user
    ensures ReplayedEvent(events + [e], ctx, i) == Some(|events|)
    decreases |events| - i
  {
    if i == |events| {
    } else {
      assert (events + [e])[i] == events[i];
      ReplayedLast(events, e, ctx, i + 1);
    }
  }

  lemma {:induction false} ReplayedIndex(events: seq<CatalogEvent>, ctx: Context, i: nat)
    requires i <= |events|
    ensures ReplayedEvent(events, ctx, i).Some? ==> 1 <= ReplayedEvent(events, ctx, i).value < |events|
    decreases |events| - i
  {
    if i == |events| {
    } else {
      ReplayedIndex(events, ctx, i + 1);
    }
  }

  lemma {:induction false} FieldsNotInOwn(fields: seq<Field>, names: set<string>)
    requires Names(fields) <= names
    ensures FieldsNotIn(fields, names) == []
  {
    if fields == [] {
    } else {
      FieldsNotInOwn(fields[..|fields| - 1], names);
    }
  }

  lemma {:induction false} FieldsNotInAll(fields: seq<Field>, names: set<string>)
    requires Names(fields) !! names
    ensures FieldsNotIn(fields, names) == fields
  {
    if fields == [] {
    } else {
      FieldsNotInAll(fields[..|fields| - 1], names);
      assert fields[..|fields| - 1] + [fields[|fields| - 1]] == fields;
    }
  }

  lemma {:induction false} FieldsNotInConcat(a: seq<Field>, b: seq<Field>, names: set<string>)
    ensures FieldsNotIn(a + b, names) == FieldsNotIn(a, names) + FieldsNotIn(b, names)
  {
    if b == [] {
      assert a + b == a;
      assert FieldsNotIn(a, names) + [] == FieldsNotIn(a, names);
    } else {
      assert (a + b)[..|a + b| - 1] == a + b[..|b| - 1];
      FieldsNotInConcat(a, b[..|b| - 1], names);
    }
  }

  /** The fields that a version added are exactly the ones its predecessor does not name. */
  lemma AddedFields(previous: seq<Field>, additions: seq<Field>)
    requires Distinct(previous + additions)
    ensures FieldsNotIn(previous + additions, Names(previous)) == additions
  {
    hide Names, FieldsNotIn, Distinct;
    DistinctConcat(previous, additions);
    FieldsNotInConcat(previous, additions, Names(previous));
    FieldsNotInOwn(previous, Names(previous));
    FieldsNotInAll(additions, Names(previous));
  }

  /** The catalog records that this message of this actor added exactly these fields. */
  predicate RecordsVersion(env: Env, g: Group, d: Dataset, ctx: Context, additions: seq<Field>) {
    match ReplayedEvent(d.events, ctx, 0)
    case None => false
    case Some(i) =>
      1 <= i < d.latest
      && FieldsNotIn(FieldsAt(env, g, d.csvId, i + 1), Names(FieldsAt(env, g, d.csvId, i))) == additions
  }

  lemma {:induction false} SchemaListAt(env: Env, g: Group, d: Dataset, n: nat, i: nat)
    requires LoadSchemas(env, g, d, n).Ok? && i < n
    ensures |LoadSchemas(env, g, d, n).value| == n
    ensures LoadSchema(env, g, d.csvId, i + 1) == Ok(LoadSchemas(env, g, d, n).value[i])
    ensures FieldsAt(env, g, d.csvId, i + 1) == LoadSchemas(env, g, d, n).value[i].fields
  {
    hide LoadSchema;
    SchemaListLength(env, g, d, n);
    if i == n - 1 {
    } else {
      SchemaListAt(env, g, d, n - 1, i);
    }
  }

  lemma {:induction false} SchemaListLength(env: Env, g: Group, d: Dataset, n: nat)
    requires LoadSchemas(env, g, d, n).Ok?
    ensures |LoadSchemas(env, g, d, n).value| == n
  {
    hide LoadSchema;
    if n == 0 {
    } else {
      SchemaListLength(env, g, d, n - 1);
    }
  }

  /** A recorded version request is answered from the catalog and changes nothing. */
  lemma VersionAgain(env: Env, g: Group, ctx: Context, logical: Logical, csvId: string, name: string,
                     description: string, preset: Preset, raw: seq<RawField>, t: Times, crash: Crash)
    requires csvId in logical && name == logical[csvId].name && (preset == Custom || preset == logical[csvId].preset)
    requires NormalizeFields(env.cal, raw, true).Ok? && NormalizeFields(env.cal, raw, true).value != []
    requires LoadSchemas(env, g, logical[csvId], logical[csvId].latest).Ok?
    requires RecordsVersion(env, g, logical[csvId], ctx, NormalizeFields(env.cal, raw, true).value)
    ensures var schemas := LoadSchemas(env, g, logical[csvId], logical[csvId].latest).value;
            CreateVersion(env, g, ctx, logical, csvId, name, description, preset, raw, t, crash)
              == (g, DatasetAnswer(env, g, logical[csvId], schemas, true))
  {
    hide NormalizeFields, LoadSchemas, AddVersion, DatasetAnswer, FieldsNotIn, ReplayedEvent, Names, FieldsAt;
    var d := logical[csvId];
    var i := ReplayedEvent(d.events, ctx, 0).value;
    SchemaListAt(env, g, d, d.latest, i);
    SchemaListAt(env, g, d, d.latest, i - 1);
  }

  /** The record stays as the group grows. */
  lemma RecordStays(env: Env, g: Group, h: Group, d: Dataset, d': Dataset, ctx: Context, additions: seq<Field>)
    requires Grown(g, h) && Continues(d, d') && RecordsVersion(env, g, d, ctx, additions)
    requires LoadSchemas(env, g, d, d.latest).Ok?
    ensures RecordsVersion(env, h, d', ctx, additions)
  {
    hide LoadSchemas, FieldsNotIn, ReplayedEvent, Names, LoadSchema, Grown;
    var i := ReplayedEvent(d.events, ctx, 0).value;
    ReplayedInPrefix(d.events, d'.events, ctx, 0);
    SchemaListAt(env, g, d, d.latest, i);
    SchemaListAt(env, g, d, d.latest, i - 1);
    SchemaStays(env, g, h, d.csvId, i + 1);
    SchemaStays(env, g, h, d.csvId, i);
  }

  // ---------------------------------------------------------------- repeating a call

  /** Two calls that a client cannot tell apart from a retry: same request, chat, message and
      actor; the actor's display name, the clock and the crash point may differ. */
  predicate Retries(call: Call, again: Call) {
    again.request == call.request && again.ctx.chat == call.ctx.chat && again.ctx.message == call.ctx.message
    && again.ctx.user == call.ctx.user
  }

  function DatasetIn(g: Group, csvId: string): Option<Dataset> {
    match Replay(CatalogOf(g))
    case Err(_) => None
    case Ok(logical) => if csvId in logical then Some(logical[csvId]) else None
  }

  /** The call took effect: it changed the group or was answered. */
  predicate TookEffect(env: Env, g: Group, call: Call)
    requires Screen(call).None?
  {
    InGroup(env, g, call).0 != g || InGroup(env, g, call).1.Ok?
  }

  /** The call announced something in the catalog, or was answered. A crash after the catalog
      event is included; the caller then saw no answer. */
  predicate Accepted(env: Env, g: Group, call: Call)
    requires Screen(call).None?
  {
    CatalogOf(InGroup(env, g, call).0) != CatalogOf(g) || InGroup(env, g, call).1.Ok?
  }

  /** The call is answered with the dataset as the catalog has it, and as a repetition. */
  predicate AnswersDataset(env: Env, g: Group, csvId: string, r: Result<Response, Reason>) {
    && r.Ok? && r.value.DatasetResponse? && r.value.idempotent
    && DatasetIn(g, csvId) == Some(r.value.info.dataset) && Describes(env, g, r.value.info)
  }

  /** The rows of the first n versions. */
  function RowTotal(g: Group, csvId: string, n: nat): nat {
    if n == 0 then 0 else RowTotal(g, csvId, n - 1) + |RowsOf(g, csvId, n)|
  }

  /** The answer lists the fields of every version, oldest first, and counts all rows. */
  predicate Describes(env: Env, g: Group, info: DatasetInfo) {
    var d := info.dataset;
    && |info.versions| == d.latest
    && (forall n :: 1 <= n <= d.latest ==> info.versions[n - 1] == FieldsAt(env, g, d.csvId, n))
    && info.rowCount == RowTotal(g, d.csvId, d.latest)
  }

  function RowOfCall(env: Env, g: Group, call: Call, d: Dataset): Option<Row>
    requires call.request.AppendRequest?
  {
    FindRow(RowsOf(g, d.csvId, d.latest), RowEventId(env, call.ctx, d.csvId, d.latest, call.request.row))
  }

  /** An append that took effect found its dataset and left its row. */
  lemma AppendCallLeavesRow(env: Env, g: Group, call: Call)
    requires GroupOk(env, g) && Screen(call).None? && call.request.AppendRequest? && TookEffect(env, g, call)
    ensures DatasetIn(g, CleanId(call.request.csvId)).Some?
    ensures var d := DatasetIn(g, CleanId(call.request.csvId)).value;
            d.csvId == CleanId(call.request.csvId) && RowOfCall(env, InGroup(env, g, call).0, call, d).Some?
  {
    hide GroupOk, Screen, CleanId, AppendRow, Replay, CatalogOf, ReadLogical, FindRow, RowEventId, DatasetOk;
    ReplayIsOk(env, g);
    var csvId := CleanId(call.request.csvId);
    var logical := Replay(CatalogOf(g)).value;
    LogicalBounds(env, g, csvId);
    AppendLeavesRow(env, g, call.ctx, logical[csvId], call.request.row, call.times, call.crash);
  }

  /** In any later group whose latest version of the dataset is still the same, the retry of an
      append that took effect changes nothing and answers with the stored row. */
  lemma AppendRetryInGroup(env: Env, g: Group, call: Call, m: Group, again: Call)
    requires CollisionFree(env) && GroupOk(env, g) && GroupOk(env, m)
    requires Screen(call).None? && call.request.AppendRequest? && Screen(again).None? && Retries(call, again)
    requires TookEffect(env, g, call) && Grown(InGroup(env, g, call).0, m)
    requires var csvId := CleanId(call.request.csvId);
             DatasetIn(g, csvId).Some? && DatasetIn(m, csvId).Some?
             && DatasetIn(m, csvId).value.latest == DatasetIn(g, csvId).value.latest
    ensures InGroup(env, m, again).0 == m
    ensures RowOfCall(env, InGroup(env, g, call).0, call, DatasetIn(g, CleanId(call.request.csvId)).value).Some?
    ensures var csvId := CleanId(call.request.csvId);
            AnswersWith(env, m, DatasetIn(m, csvId).value, InGroup(env, m, again).1,
                        RowOfCall(env, InGroup(env, g, call).0, call, DatasetIn(g, csvId).value).value, true)
  {
    hide GroupOk, Screen, CleanId, AppendRow, Replay, CatalogOf, ReadLogical, FindRow, Grown, TookEffect, AppendAnswer,
         DatasetOk, ChainOk, RowsOf, LoadSchema, ReadRows, CollisionFree, CreateIn;
    var csvId := CleanId(call.request.csvId);
    var h := InGroup(env, g, call).0;
    AppendCallLeavesRow(env, g, call);
    var d, d' := DatasetIn(g, csvId).value, DatasetIn(m, csvId).value;
    var row := RowOfCall(env, h, call, d).value;
    ReplayIsOk(env, m);
    LogicalBounds(env, m, csvId);
    RowsStay(h, m, csvId, d.latest);
    FoundInPrefix(RowsOf(h, csvId, d.latest), RowsOf(m, csvId, d.latest),
                  RowEventId(env, call.ctx, csvId, d.latest, call.request.row));
    FoundRow(RowsOf(m, csvId, d.latest), RowEventId(env, call.ctx, csvId, d.latest, call.request.row));
    DatasetChain(env, m, d');
    ChainReads(env, m, d', d'.latest);
    var s := LoadSchema(env, m, csvId, d'.latest).value;
    LatestFacts(env, m, d', s);
    AppendAgain(env, m, again.ctx, d', s, again.request.row, again.times, again.crash);
    AnswerForStoredRow(env, m, d', s, row, true);
  }

  /** Retrying an append, after any other calls that leave the latest version as it was,
      changes nothing at all and answers with the row that was stored, unless the balance of
      its account can no longer be written. */
  lemma AppendIsIdempotent(env: Env, groups: Groups, call: Call, later: seq<Call>, again: Call)
    requires CollisionFree(env) && AllOk(env, groups)
    requires Screen(call).None? && call.request.AppendRequest? && Screen(again).None? && Retries(call, again)
    requires TookEffect(env, GroupOf(groups, env.scope(call.ctx.chat)), call)
    requires var key, csvId := env.scope(call.ctx.chat), CleanId(call.request.csvId);
             var m := GroupOf(Run(env, Step(env, groups, call).0, later), key);
             DatasetIn(GroupOf(groups, key), csvId).Some? && DatasetIn(m, csvId).Some? ==>
               DatasetIn(m, csvId).value.latest == DatasetIn(GroupOf(groups, key), csvId).value.latest
    ensures var key := env.scope(call.ctx.chat);
            var g := GroupOf(groups, key);
            var mid := Run(env, Step(env, groups, call).0, later);
            var d, d' :=
                DatasetIn(g, CleanId(call.request.csvId)), DatasetIn(GroupOf(mid, key), CleanId(call.request.csvId));
            Step(env, mid, again).0 == mid
            && d.Some? && d'.Some? && RowOfCall(env, InGroup(env, g, call).0, call, d.value).Some?
            && AnswersWith(env, GroupOf(mid, key), d'.value, Step(env, mid, again).1,
                           RowOfCall(env, InGroup(env, g, call).0, call, d.value).value, true)
  {
    hide GroupOk, Screen, CleanId, InGroup, DatasetIn, Grown, TookEffect, CollisionFree, Run, RowOfCall, AnswersWith,
         Continues, AllOk, EMPTY_GROUP;
    var key, csvId := env.scope(call.ctx.chat), CleanId(call.request.csvId);
    var g := GroupOf(groups, key);
    var after := Step(env, groups, call).0;
    var mid := Run(env, after, later);
    GroupOfOk(env, groups, key);
    StepKeeps(env, groups, call);
    RunKeeps(env, after, later);
    RunFrame(env, after, later, key);
    GroupOfOk(env, mid, key);
    InGroupKeeps(env, g, call);
    InGroupGrows(env, g, call);
    GrownTransitive(g, after[key], mid[key]);
    AppendCallLeavesRow(env, g, call);
    DatasetStays(env, g, mid[key], csvId);
    AppendRetryInGroup(env, g, call, mid[key], again);
    assert mid[key := mid[key]] == mid;
  }

  lemma DatasetStays(env: Env, g: Group, h: Group, csvId: string)
    requires GroupOk(env, g) && GroupOk(env, h) && Grown(g, h) && DatasetIn(g, csvId).Some?
    ensures DatasetIn(h, csvId).Some? && Continues(DatasetIn(g, csvId).value, DatasetIn(h, csvId).value)
  {
    hide GroupOk, Grown, Continues, Replay, CatalogOf;
    ReplayIsOk(env, g);
    ReplayIsOk(env, h);
    LogicalContinues(env, g, h, csvId);
  }

  // ---------------------------------------------------------------- retrying a create

  function NameOf(call: Call): string
    requires Screen(call).None? && call.request.CreateRequest?
  {
    SafeText(call.request.name, 160, true).value
  }

  function PresetOf(call: Call): Preset
    requires Screen(call).None? && call.request.CreateRequest?
  {
    ParsePreset(call.request.preset).value
  }

  function DescriptionOf(call: Call): string
    requires Screen(call).None? && call.request.CreateRequest?
  {
    SafeText(call.request.description, 1200, false).value
  }

  predicate CreatesDataset(call: Call) { call.request.CreateRequest? && Strip(call.request.versionOf) == "" }

  /** The id a create request stands for. */
  function RequestedId(env: Env, call: Call): Option<string>
    requires Screen(call).None? && call.request.CreateRequest?
  {
    match InitialFields(env, PresetOf(call), call.request.fields)
    case Err(_) => None
    case Ok(fields) => Some(NewDatasetId(env, call.ctx, NameOf(call), PresetOf(call), fields))
  }

  lemma CreateInIs(env: Env, g: Group, logical: Logical, call: Call)
    requires Screen(call).None? && CreatesDataset(call)
    ensures CreateIn(env, g, logical, call)
         == CreateDataset(env, g, call.ctx, logical, NameOf(call), DescriptionOf(call),
                          PresetOf(call), call.request.fields, call.times, call.crash)
  {
    hide SafeText, ParsePreset, CreateDataset, ContextOk;
  }

  /** What publishing leaves in the catalog: nothing new, or exactly the event. */
  lemma PublishEffect(env: Env, g: Group, s: Schema, e: CatalogEvent, crash: Crash)
    ensures var h := Publish(env, g, s, e, crash).0;
            CatalogOf(h) == CatalogOf(g)
            || (CatalogOf(h) == CatalogOf(g) + [e] && WriteVersion(env, g, s, crash).1.None?
                && h == AppendCatalog(env, WriteVersion(env, g, s, crash).0, e, crash).0)
    ensures Publish(env, g, s, e, crash).1.None? ==> CatalogOf(Publish(env, g, s, e, crash).0) == CatalogOf(g) + [e]
  {
    hide WriteVersion, TotalSize, CatalogBytes, OnlyAdds;
    WriteFiles(env, g, s, crash);
    SameCatalog(g, WriteVersion(env, g, s, crash).0, s.csvId, s.version);
  }

  lemma CreatedIsListed(events: seq<CatalogEvent>, e: CatalogEvent)
    requires Replay(events).Ok? && Replay(events + [e]).Ok?
    ensures e.csvId in Replay(events + [e]).value
  {
    hide IsHexId, Replay;
    ReplayGrows(events, e);
  }

  /** A create that was announced or answered left its dataset in the catalog. */
  lemma CreateLeavesDataset(env: Env, g: Group, call: Call)
    requires CollisionFree(env) && GroupOk(env, g) && Screen(call).None? && CreatesDataset(call)
    requires Accepted(env, g, call)
    ensures RequestedId(env, call).Some?
    ensures DatasetIn(InGroup(env, g, call).0, RequestedId(env, call).value).Some?
  {
    hide GroupOk, Screen, Replay, CatalogOf, ReadLogical, SafeText, ParsePreset, InitialFields, CollisionFree, Strip,
         CreateIn, CreateDataset, NewDatasetId;
    InGroupKeeps(env, g, call);
    ReplayIsOk(env, g);
    var logical := Replay(CatalogOf(g)).value;
    CreateInIs(env, g, logical, call);
    var h := InGroup(env, g, call).0;
    ReplayIsOk(env, h);
    CreateDatasetLeaves(env, g, call.ctx, NameOf(call), DescriptionOf(call), PresetOf(call), call.request.fields,
                        call.times, call.crash);
  }

  lemma CreateDatasetLeaves(env: Env, g: Group, ctx: Context, name: string, description: string, preset: Preset,
                            raw: seq<RawField>, t: Times, crash: Crash)
    requires Replay(CatalogOf(g)).Ok?
    requires var out :=
             CreateDataset(env, g, ctx, Replay(CatalogOf(g)).value, name, description, preset, raw, t, crash);
             Replay(CatalogOf(out.0)).Ok? && (CatalogOf(out.0) != CatalogOf(g) || out.1.Ok?)
    ensures InitialFields(env, preset, raw).Ok?
    ensures var out := CreateDataset(env, g, ctx, Replay(CatalogOf(g)).value, name, description, preset, raw, t, crash);
            NewDatasetId(env, ctx, name, preset, InitialFields(env, preset, raw).value)
              in Replay(CatalogOf(out.0)).value
  {
    hide Replay, CatalogOf, InitialFields, Publish, DatasetAnswer, LoadSchemas, AfterPublish, NewDatasetId;
    var fields := InitialFields(env, preset, raw).value;
    var csvId := NewDatasetId(env, ctx, name, preset, fields);
    if csvId !in Replay(CatalogOf(g)).value {
      var s := Schema(csvId, 1, name, description, preset, fields, t.schema, None);
      var e := DatasetCreated(csvId, 1, description, env.schemaHash(s), t.event,
                              ctx.user, ctx.userName, ctx.message, name, preset);
      PublishEffect(env, g, s, e, crash);
      CreatedIsListed(CatalogOf(g), e);
    }
  }

  /** Retrying a create that was announced, after any other calls and even when the first answer
      was lost, changes nothing; it is answered with the dataset unless the group has reached
      twenty datasets, when the cap refuses it. */
  lemma CreateIsIdempotent(env: Env, groups: Groups, call: Call, later: seq<Call>, again: Call)
    requires CollisionFree(env) && AllOk(env, groups)
    requires Screen(call).None? && CreatesDataset(call) && Screen(again).None? && Retries(call, again)
    requires Accepted(env, GroupOf(groups, env.scope(call.ctx.chat)), call)
    ensures RequestedId(env, call).Some?
    ensures var mid := Run(env, Step(env, groups, call).0, later);
            var m := GroupOf(mid, env.scope(call.ctx.chat));
            Step(env, mid, again).0 == mid && Replay(CatalogOf(m)).Ok?
            && (if |Replay(CatalogOf(m)).value| >= MAX_DATASETS_PER_GROUP
                then Step(env, mid, again).1 == Err(TooManyDatasets)
                else AnswersDataset(env, m, RequestedId(env, call).value, Step(env, mid, again).1))
  {
    hide GroupOk, Screen, InGroup, DatasetIn, Grown, CollisionFree, Run, Continues, AllOk, EMPTY_GROUP, RequestedId,
         Strip, Replay, CatalogOf, Accepted, AnswersDataset;
    var key := env.scope(call.ctx.chat);
    var g := GroupOf(groups, key);
    var after := Step(env, groups, call).0;
    var mid := Run(env, after, later);
    GroupOfOk(env, groups, key);
    StepKeeps(env, groups, call);
    RunKeeps(env, after, later);
    RunFrame(env, after, later, key);
    GroupOfOk(env, mid, key);
    InGroupKeeps(env, g, call);
    CreateLeavesDataset(env, g, call);
    DatasetStays(env, after[key], mid[key], RequestedId(env, call).value);
    SameRequestedId(env, call, again);
    CreateRetryInGroup(env, mid[key], again);
    assert mid[key := mid[key]] == mid;
  }

  lemma SameRequestedId(env: Env, call: Call, again: Call)
    requires Screen(call).None? && CreatesDataset(call) && Screen(again).None? && Retries(call, again)
    ensures CreatesDataset(again) && RequestedId(env, again) == RequestedId(env, call)
  {
    hide SafeText, ParsePreset, InitialFields, ContextOk, Strip;
  }

  lemma CreateRetryInGroup(env: Env, m: Group, again: Call)
    requires GroupOk(env, m) && Screen(again).None? && CreatesDataset(again)
    requires RequestedId(env, again).Some? && DatasetIn(m, RequestedId(env, again).value).Some?
    ensures InGroup(env, m, again).0 == m && Replay(CatalogOf(m)).Ok?
    ensures if |Replay(CatalogOf(m)).value| >= MAX_DATASETS_PER_GROUP
            then InGroup(env, m, again).1 == Err(TooManyDatasets)
            else AnswersDataset(env, m, RequestedId(env, again).value, InGroup(env, m, again).1)
  {
    hide GroupOk, Screen, Replay, CatalogOf, ReadLogical, SafeText, ParsePreset, InitialFields, Publish, DatasetAnswer,
         LoadSchemas, Strip, CreateIn, ChainOk, DatasetOk;
    ReplayIsOk(env, m);
    var logical := Replay(CatalogOf(m)).value;
    var csvId := RequestedId(env, again).value;
    CreateInIs(env, m, logical, again);
    LogicalBounds(env, m, csvId);
    var d := logical[csvId];
    DatasetChain(env, m, d);
    ChainReads(env, m, d, d.latest);
    AnswerForDataset(env, m, d, true);
  }

  lemma {:induction false} CountsRows(env: Env, g: Group, d: Dataset, n: nat)
    requires n <= |d.events| && ChainOk(env, g, d, n) && LoadSchemas(env, g, d, n).Ok?
    ensures AllRows(env, g, d.csvId, n).Ok? && |AllRows(env, g, d.csvId, n).value| == RowTotal(g, d.csvId, n)
    ensures CountRows(env, g, d.csvId, LoadSchemas(env, g, d, n).value) == Ok(RowTotal(g, d.csvId, n))
  {
    hide ReadRows, RowsOk, Distinct, LEDGER_FIELDS, Extends, FieldsAt, RowsOf;
    ChainReads(env, g, d, n);
    if n == 0 {
    } else {
      CountsRows(env, g, d, n - 1);
      var schemas := LoadSchemas(env, g, d, n).value;
      assert schemas[..|schemas| - 1] == LoadSchemas(env, g, d, n - 1).value;
      RowsOfVersion(env, g, d.csvId, n, schemas[n - 1].fields);
    }
  }

  lemma AnswerForDataset(env: Env, g: Group, d: Dataset, idempotent: bool)
    requires d.latest <= |d.events| && ChainOk(env, g, d, d.latest) && LoadSchemas(env, g, d, d.latest).Ok?
    ensures var a := DatasetAnswer(env, g, d, LoadSchemas(env, g, d, d.latest).value, idempotent);
            a.Ok? && a.value.DatasetResponse? && a.value.idempotent == idempotent && a.value.info.dataset == d
            && Describes(env, g, a.value.info)
  {
    hide ChainOk, LoadSchemas, CountRows, AllRows, FieldsOf, FieldsAt, RowTotal;
    CountsRows(env, g, d, d.latest);
    var schemas := LoadSchemas(env, g, d, d.latest).value;
    SchemaListLength(env, g, d, d.latest);
    FieldsOfAll(schemas);
    forall n | 1 <= n <= d.latest
      ensures FieldsOf(schemas)[n - 1] == FieldsAt(env, g, d.csvId, n)
    {
      SchemaListAt(env, g, d, d.latest, n - 1);
    }
  }

  lemma {:induction false} FieldsOfAll(schemas: seq<Schema>)
    ensures |FieldsOf(schemas)| == |schemas|
    ensures forall i :: 0 <= i < |schemas| ==> FieldsOf(schemas)[i] == schemas[i].fields
  {
    if schemas == [] {
    } else {
      FieldsOfAll(schemas[..|schemas| - 1]);
    }
  }

  // ---------------------------------------------------------------- retrying a version

  predicate CreatesVersion(call: Call) { call.request.CreateRequest? && Strip(call.request.versionOf) != "" }

  lemma VersionInIs(env: Env, g: Group, logical: Logical, call: Call)
    requires Screen(call).None? && CreatesVersion(call) && IsHexId(CleanId(call.request.versionOf))
    ensures CreateIn(env, g, logical, call)
         == CreateVersion(env, g, call.ctx, logical, CleanId(call.request.versionOf), NameOf(call),
                          DescriptionOf(call),
                          PresetOf(call), call.request.fields, call.times, call.crash)
  {
    hide SafeText, ParsePreset, CreateVersion, ContextOk, IsHexId;
  }

  /** What a version request needs besides the record to be recognised. */
  predicate FitsDataset(env: Env, call: Call, d: Dataset)
    requires Screen(call).None? && call.request.CreateRequest?
  {
    && NameOf(call) == d.name && (PresetOf(call) == Custom || PresetOf(call) == d.preset)
    && NormalizeFields(env.cal, call.request.fields, true).Ok?
    && NormalizeFields(env.cal, call.request.fields, true).value != []
  }

  /** The dataset a version request names, with the record of that request in its catalog. */
  predicate VersionRecorded(env: Env, g: Group, call: Call)
    requires Screen(call).None? && call.request.CreateRequest?
  {
    && IsHexId(CleanId(call.request.versionOf))
    && DatasetIn(g, CleanId(call.request.versionOf)).Some?
    && var d := DatasetIn(g, CleanId(call.request.versionOf)).value;
    && FitsDataset(env, call, d)
    && RecordsVersion(env, g, d, call.ctx, NormalizeFields(env.cal, call.request.fields, true).value)
  }

  lemma VersionRetryInGroup(env: Env, m: Group, again: Call)
    requires GroupOk(env, m) && Screen(again).None? && CreatesVersion(again) && VersionRecorded(env, m, again)
    ensures InGroup(env, m, again).0 == m
    ensures AnswersDataset(env, m, CleanId(again.request.versionOf), InGroup(env, m, again).1)
  {
    hide GroupOk, Screen, Replay, CatalogOf, ReadLogical, SafeText, ParsePreset, DatasetAnswer, RecordsVersion,
         LoadSchemas, Strip, CreateIn, ChainOk, DatasetOk, NormalizeFields, CreateVersion, CleanId, IsHexId;
    ReplayIsOk(env, m);
    var logical := Replay(CatalogOf(m)).value;
    var csvId := CleanId(again.request.versionOf);
    VersionInIs(env, m, logical, again);
    LogicalBounds(env, m, csvId);
    var d := logical[csvId];
    DatasetChain(env, m, d);
    ChainReads(env, m, d, d.latest);
    VersionAgain(env, m, again.ctx, logical, csvId, NameOf(again), DescriptionOf(again),
                 PresetOf(again), again.request.fields, again.times, again.crash);
    AnswerForDataset(env, m, d, true);
  }

  /** A version that was just announced is recorded under its request. */
  lemma AnnouncedVersionRecorded(env: Env, h: Group, d: Dataset, d': Dataset, e: CatalogEvent, ctx: Context,
                                 additions: seq<Field>)
    requires |d.events| == d.latest >= 1 && d'.csvId == d.csvId && d'.latest == d.latest + 1
    requires d'.events == d.events + [e] && e.messageId == ctx.message && e.actorId == ctx.user
    requires ReplayedEvent(d.events, ctx, 0).None?
    requires FieldsAt(env, h, d.csvId, d.latest + 1) == FieldsAt(env, h, d.csvId, d.latest) + additions
    requires Distinct(FieldsAt(env, h, d.csvId, d.latest) + additions)
    ensures RecordsVersion(env, h, d', ctx, additions)
  {
    hide ReplayedEvent, FieldsAt, FieldsNotIn, Names, Distinct;
    ReplayedLast(d.events, e, ctx, 0);
    AddedFields(FieldsAt(env, h, d.csvId, d.latest), additions);
  }

  /** After a version was published, the catalog records its request. */
  lemma PublishedVersionRecorded(env: Env, g: Group, ctx: Context, s: Schema, e: CatalogEvent, additions: seq<Field>,
                                 crash: Crash)
    requires CollisionFree(env) && GroupOk(env, g) && Replay(CatalogOf(g)).Ok?
    requires e.VersionCreated? && e.csvId == s.csvId && e.schemaHash == env.schemaHash(s) && e.version == s.version
    requires e.messageId == ctx.message && e.actorId == ctx.user
    requires e.csvId in Replay(CatalogOf(g)).value
    requires var d := Replay(CatalogOf(g)).value[e.csvId];
             d.latest < MAX_VERSIONS_PER_DATASET && s.version == d.latest + 1 && ReplayedEvent(d.events, ctx, 0).None?
             && s.fields == FieldsAt(env, g, e.csvId, d.latest) + additions
    requires Distinct(s.fields)
    requires CatalogOf(Publish(env, g, s, e, crash).0) != CatalogOf(g)
    ensures var h := Publish(env, g, s, e, crash).0;
            var d := Replay(CatalogOf(g)).value[e.csvId];
            DatasetIn(h, e.csvId).Some? && Continues(d, DatasetIn(h, e.csvId).value)
            && RecordsVersion(env, h, DatasetIn(h, e.csvId).value, ctx, additions)
  {
    hide WriteVersion, AppendCatalog, GroupOk, Replay, ReplayStep, CatalogOf, IsHexId, Distinct, VersionOk, FieldsAt,
         RowsOf, DatasetOk, ListingOk, TotalSize, CatalogBytes, OnlyAdds, SameVersions, RecordsVersion, Lookup,
         ReplayedEvent, LoadSchema;
    var logical := Replay(CatalogOf(g)).value;
    var d := logical[e.csvId];
    var w := WriteVersion(env, g, s, crash).0;
    PublishEffect(env, g, s, e, crash);
    WriteKeeps(env, g, s, crash);
    WrittenFacts(env, g, s, crash);
    ReplayedIdIsHex(CatalogOf(g), e.csvId);
    LogicalBounds(env, g, e.csvId);
    UnannouncedFrame(g, w, logical, s.csvId, s.version, e.csvId);
    ChainFrame(env, g, w, d, d.latest);
    NewVersionReplays(logical, e);
    AppendCatalogEffect(env, w, e, crash);
    var h := AppendCatalog(env, w, e, crash).0;
    ReplayGrows(CatalogOf(w), e);
    CatalogFrame(w, h, e, e.csvId, s.version);
    FieldsFrame(env, w, h, e.csvId, s.version);
    FieldsFrame(env, w, h, e.csvId, d.latest);
    var d' := Replay(CatalogOf(h)).value[e.csvId];
    AnnouncedVersionRecorded(env, h, d, d', e, ctx, additions);
  }

  lemma FieldsFrame(env: Env, g: Group, h: Group, csvId: string, n: nat)
    requires SameVersions(g, h, csvId, n) || SameVersions(g, h, csvId, n + 1)
    ensures n >= 1 ==> FieldsAt(env, g, csvId, n) == FieldsAt(env, h, csvId, n)
  {
    hide LoadSchema, FieldsAt, Lookup;
    if n >= 1 {
      assert Lookup(g, SchemaPath(csvId, n)) == Lookup(h, SchemaPath(csvId, n));
      assert Lookup(g, RowsPath(csvId, n)) == Lookup(h, RowsPath(csvId, n));
      VersionFrame(env, g, h, csvId, n);
    }
  }

  lemma AddVersionRecorded(env: Env, g: Group, ctx: Context, d: Dataset, schemas: seq<Schema>, description: string,
                           additions: seq<Field>, t: Times, crash: Crash)
    requires CollisionFree(env) && GroupOk(env, g) && Replay(CatalogOf(g)).Ok?
    requires d.csvId in Replay(CatalogOf(g)).value && Replay(CatalogOf(g)).value[d.csvId] == d
    requires LoadSchemas(env, g, d, d.latest) == Ok(schemas)
    requires Distinct(additions) && ReplayedEvent(d.events, ctx, 0).None?
    requires var out := AddVersion(env, g, ctx, d, schemas, description, additions, t, crash);
             CatalogOf(out.0) != CatalogOf(g) || out.1.Ok?
    ensures var h := AddVersion(env, g, ctx, d, schemas, description, additions, t, crash).0;
            DatasetIn(h, d.csvId).Some? && Continues(d, DatasetIn(h, d.csvId).value)
            && RecordsVersion(env, h, DatasetIn(h, d.csvId).value, ctx, additions)
  {
    hide GroupOk, Replay, CatalogOf, Distinct, DatasetOk, AllRows, CheckRows, Names, Publish, AfterPublish,
         LoadSchemas, ChainOk, LoadSchema, RecordsVersion, ReplayedEvent;
    LogicalBounds(env, g, d.csvId);
    DatasetChain(env, g, d);
    ChainReads(env, g, d, d.latest);
    var previous := schemas[|schemas| - 1];
    assert previous.fields == FieldsAt(env, g, d.csvId, d.latest);
    DistinctConcat(previous.fields, additions);
    NothingShared(Names(additions), Names(previous.fields));
    PreviousDistinct(env, g, d);
    var s := Schema(d.csvId, d.latest + 1, d.name, if description != "" then description else d.description, d.preset,
                    previous.fields + additions, t.schema, Some(env.schemaHash(previous)));
    var e := VersionCreated(d.csvId, d.latest + 1, description, env.schemaHash(s), t.event, ctx.user, ctx.userName,
                            ctx.message);
    PublishEffect(env, g, s, e, crash);
    PublishedVersionRecorded(env, g, ctx, s, e, additions, crash);
  }

  /** A version request that was announced or answered is recorded, whether it was new or a
      retry itself. */
  lemma CreateVersionRecorded(env: Env, g: Group, ctx: Context, csvId: string, name: string, description: string,
                              preset: Preset, raw: seq<RawField>, t: Times, crash: Crash)
    requires CollisionFree(env) && GroupOk(env, g) && Replay(CatalogOf(g)).Ok?
    requires var out := CreateVersion(env, g, ctx, Replay(CatalogOf(g)).value, csvId, name, description, preset, raw, t,
                                      crash);
             CatalogOf(out.0) != CatalogOf(g) || out.1.Ok?
    ensures csvId in Replay(CatalogOf(g)).value && NormalizeFields(env.cal, raw, true).Ok?
    ensures NormalizeFields(env.cal, raw, true).value != []
    ensures var h :=
            CreateVersion(env, g, ctx, Replay(CatalogOf(g)).value, csvId, name, description, preset, raw, t, crash).0;
            var d := Replay(CatalogOf(g)).value[csvId];
            name == d.name && (preset == Custom || preset == d.preset)
            && DatasetIn(h, csvId).Some? && Continues(d, DatasetIn(h, csvId).value)
            && RecordsVersion(env, h, DatasetIn(h, csvId).value, ctx, NormalizeFields(env.cal, raw, true).value)
  {
    hide NormalizeFields, LoadSchemas, GroupOk, Replay, CatalogOf, AddVersion, DatasetAnswer, FieldsNotIn,
         ReplayedEvent, Distinct, AllOptional, Names, DatasetOk, FieldsAt;
    var logical := Replay(CatalogOf(g)).value;
    var d := logical[csvId];
    NewFieldsOk(env.cal, raw);
    LogicalBounds(env, g, csvId);
    var schemas := LoadSchemas(env, g, d, d.latest).value;
    var additions := NormalizeFields(env.cal, raw, true).value;
    SchemaListLength(env, g, d, d.latest);
    if ReplayedEvent(d.events, ctx, 0).Some? {
      var i := ReplayedEvent(d.events, ctx, 0).value;
      ReplayedIndex(d.events, ctx, 0);
      SchemaListAt(env, g, d, d.latest, i);
      SchemaListAt(env, g, d, d.latest, i - 1);
    } else {
      hide RecordsVersion;
      AddVersionRecorded(env, g, ctx, d, schemas, description, additions, t, crash);
    }
  }

  lemma VersionCallRecorded(env: Env, g: Group, call: Call)
    requires CollisionFree(env) && GroupOk(env, g) && Screen(call).None? && CreatesVersion(call)
    requires Accepted(env, g, call)
    ensures VersionRecorded(env, InGroup(env, g, call).0, call)
  {
    hide GroupOk, Screen, Replay, CatalogOf, ReadLogical, SafeText, ParsePreset, CreateVersion, CollisionFree, Strip,
         NormalizeFields, RecordsVersion, IsHexId, CleanId, CreateIn;
    ReplayIsOk(env, g);
    var logical := Replay(CatalogOf(g)).value;
    var csvId := CleanId(call.request.versionOf);
    BadIdRefused(env, g, logical, call);
    VersionInIs(env, g, logical, call);
    CreateVersionRecorded(env, g, call.ctx, csvId, NameOf(call), DescriptionOf(call), PresetOf(call),
                          call.request.fields, call.times, call.crash);
  }

  lemma BadIdRefused(env: Env, g: Group, logical: Logical, call: Call)
    requires Screen(call).None? && CreatesVersion(call)
    requires CreateIn(env, g, logical, call).0 != g || CreateIn(env, g, logical, call).1.Ok?
    ensures IsHexId(CleanId(call.request.versionOf))
  {
    hide SafeText, ParsePreset, CreateVersion, ContextOk, IsHexId;
  }

  lemma VersionRecordStays(env: Env, g: Group, h: Group, call: Call, again: Call)
    requires GroupOk(env, g) && GroupOk(env, h) && Grown(g, h)
    requires Screen(call).None? && CreatesVersion(call) && Screen(again).None? && Retries(call, again)
    requires VersionRecorded(env, g, call)
    ensures CreatesVersion(again) && VersionRecorded(env, h, again)
  {
    hide GroupOk, Screen, Grown, DatasetIn, SafeText, ParsePreset, NormalizeFields, RecordsVersion, IsHexId, CleanId,
         DatasetOk;
    var csvId := CleanId(call.request.versionOf);
    var d := DatasetIn(g, csvId).value;
    var additions := NormalizeFields(env.cal, call.request.fields, true).value;
    DatasetStays(env, g, h, csvId);
    DatasetSchemas(env, g, csvId);
    RecordStays(env, g, h, d, DatasetIn(h, csvId).value, call.ctx, additions);
    SameRecord(env, h, DatasetIn(h, csvId).value, call.ctx, again.ctx, additions);
  }

  lemma DatasetSchemas(env: Env, g: Group, csvId: string)
    requires GroupOk(env, g) && DatasetIn(g, csvId).Some?
    ensures var d := DatasetIn(g, csvId).value; LoadSchemas(env, g, d, d.latest).Ok?
  {
    hide GroupOk, Replay, CatalogOf, DatasetOk, ChainOk, LoadSchemas;
    LogicalBounds(env, g, csvId);
    DatasetChain(env, g, DatasetIn(g, csvId).value);
    ChainReads(env, g, DatasetIn(g, csvId).value, DatasetIn(g, csvId).value.latest);
  }

  lemma {:induction false} SameReplayed(events: seq<CatalogEvent>, ctx: Context, ctx': Context, i: nat)
    requires i <= |events| && ctx.message == ctx'.message && ctx.user == ctx'.user
    ensures ReplayedEvent(events, ctx, i) == ReplayedEvent(events, ctx', i)
    decreases |events| - i
  {
    if i == |events| {
    } else {
      SameReplayed(events, ctx, ctx', i + 1);
    }
  }

  lemma SameRecord(env: Env, h: Group, d: Dataset, ctx: Context, ctx': Context, additions: seq<Field>)
    requires ctx.message == ctx'.message && ctx.user == ctx'.user && RecordsVersion(env, h, d, ctx, additions)
    ensures RecordsVersion(env, h, d, ctx', additions)
  {
    hide ReplayedEvent, FieldsAt, FieldsNotIn, Names;
    SameReplayed(d.events, ctx, ctx', 0);
  }

  /** Retrying a version request that was announced, after any other calls and even when the
      first answer was lost, changes nothing and is answered from the catalog. */
  lemma VersionIsIdempotent(env: Env, groups: Groups, call: Call, later: seq<Call>, again: Call)
    requires CollisionFree(env) && AllOk(env, groups)
    requires Screen(call).None? && CreatesVersion(call) && Screen(again).None? && Retries(call, again)
    requires Accepted(env, GroupOf(groups, env.scope(call.ctx.chat)), call)
    ensures var mid := Run(env, Step(env, groups, call).0, later);
            Step(env, mid, again).0 == mid
            && AnswersDataset(env, GroupOf(mid, env.scope(call.ctx.chat)), CleanId(call.request.versionOf),
                              Step(env, mid, again).1)
  {
    hide GroupOk, Screen, InGroup, Grown, CollisionFree, Run, AllOk, EMPTY_GROUP, Strip, VersionRecorded, Accepted,
         AnswersDataset;
    var key := env.scope(call.ctx.chat);
    var g := GroupOf(groups, key);
    var after := Step(env, groups, call).0;
    var mid := Run(env, after, later);
    GroupOfOk(env, groups, key);
    StepKeeps(env, groups, call);
    RunKeeps(env, after, later);
    RunFrame(env, after, later, key);
    GroupOfOk(env, mid, key);
    InGroupKeeps(env, g, call);
    VersionCallRecorded(env, g, call);
    VersionRecordStays(env, after[key], mid[key], call, again);
    VersionRetryInGroup(env, mid[key], again);
    assert mid[key := mid[key]] == mid;
  }
}
