/** What holds in every workspace that calls and crashes can reach from an empty one. */
module CsvReachable {
  import opened Text
  import opened Decimals
  import opened CsvFields
  import opened CsvStore
  import opened CsvAppend
  import opened CsvLedger
  import opened CsvInvariant
  import opened CsvPreserve
  import opened CsvSteps
  import opened DecimalSums
  import opened CsvBalance
  import opened CsvReplay
  import opened CsvEffects

  /** A dataset of a group of a reachable workspace. */
  ghost predicate Reached(env: Env, calls: seq<Call>, key: string, g: Group, csvId: string, d: Dataset) {
    && CollisionFree(env)
    && key in Run(env, map[], calls) && Run(env, map[], calls)[key] == g
    && Replay(CatalogOf(g)).Ok? && csvId in Replay(CatalogOf(g)).value && Replay(CatalogOf(g)).value[csvId] == d
  }

  lemma ReachedOk(env: Env, calls: seq<Call>, key: string, g: Group, csvId: string, d: Dataset)
    requires Reached(env, calls, key, g, csvId, d)
    ensures GroupOk(env, g) && DatasetOk(env, g, csvId, d) && d.csvId == csvId && |d.events| == d.latest >= 1
    ensures ChainOk(env, g, d, d.latest) && |Replay(CatalogOf(g)).value| <= MAX_DATASETS_PER_GROUP
  {
    hide GroupOk, Run, Replay, CatalogOf, DatasetOk, ChainOk, CollisionFree;
    assert AllOk(env, map[]);
    RunKeeps(env, map[], calls);
    LogicalBounds(env, g, csvId);
    DatasetChain(env, g, d);
  }

  /** Event sourcing: the catalog replays; there is one schema event per version; every stored
      schema is the announced one; each version properly extends the previous one, with
      distinct names. */
  lemma SchemaHistory(env: Env, calls: seq<Call>, key: string, g: Group, csvId: string, d: Dataset, n: nat)
    requires Reached(env, calls, key, g, csvId, d) && 1 <= n <= d.latest
    ensures |d.events| == d.latest && LoadSchema(env, g, csvId, n).Ok?
    ensures var s := LoadSchema(env, g, csvId, n).value;
            env.schemaHash(s) == d.events[n - 1].schemaHash && s.version == n && Distinct(s.fields)
            && (n > 1 ==> FieldsAt(env, g, csvId, n - 1) < s.fields)
            && (d.preset.Ledger? ==> LEDGER_FIELDS <= s.fields)
  {
    hide GroupOk, Run, Replay, CatalogOf, DatasetOk, ChainOk, CollisionFree, Distinct, LEDGER_FIELDS, ReadRows, RowsOk,
         Reached;
    ReachedOk(env, calls, key, g, csvId, d);
    ChainAt(env, g, d, n, d.latest);
  }

  /** The quotas: datasets, versions, fields, bytes per rows file, bytes in all. */
  lemma QuotasHold(env: Env, calls: seq<Call>, key: string, g: Group, csvId: string, d: Dataset, n: nat)
    requires Reached(env, calls, key, g, csvId, d) && 1 <= n <= d.latest
    ensures |Replay(CatalogOf(g)).value| <= 20 && d.latest <= 5 && |FieldsAt(env, g, csvId, n)| <= 32
    ensures RowBytes(env, Header(FieldsAt(env, g, csvId, n)), RowsOf(g, csvId, n)) <= 10 * 1024 * 1024
    ensures CatalogBytes(env, CatalogOf(g)) <= 10 * 1024 * 1024 && TotalSize(env, g) <= 100 * 1024 * 1024
  {
    hide Run, ChainOk, CollisionFree, Reached, Replay, LogicalOk, ListingOk, TotalSize, CatalogBytes, AllProject,
         LedgerFilesOk, CatalogOf, VersionOk, RowBytes, Header;
    ReachedOk(env, calls, key, g, csvId, d);
    ChainAt(env, g, d, n, d.latest);
    VersionSizes(env, g, csvId, n, d.events[n - 1].schemaHash);
  }

  lemma VersionSizes(env: Env, g: Group, csvId: string, n: nat, hash: string)
    requires VersionOk(env, g, csvId, n, hash)
    ensures |FieldsAt(env, g, csvId, n)| <= MAX_FIELDS_PER_SCHEMA
    ensures RowBytes(env, Header(FieldsAt(env, g, csvId, n)), RowsOf(g, csvId, n)) <= MAX_FILE_BYTES
  {
    hide RowBytes, Header, RowsOk, AllHexIds, DistinctIds, Distinct;
  }

  /** Every reachable ledger is in order across all its versions, so the ledger laws apply to it. */
  lemma LedgerInOrder(env: Env, calls: seq<Call>, key: string, g: Group, csvId: string, d: Dataset)
    requires Reached(env, calls, key, g, csvId, d) && d.preset.Ledger?
    ensures AllRows(env, g, csvId, d.latest).Ok?
    ensures LedgerOk(AllRows(env, g, csvId, d.latest).value) && AmountsInOrder(AllRows(env, g, csvId, d.latest).value)
  {
    hide GroupOk, Run, Replay, CatalogOf, ChainOk, CollisionFree, Reached, AllRows, LedgerOk, AllProject,
         AmountsInOrder;
    ReachedOk(env, calls, key, g, csvId, d);
  }

  /** In every reachable ledger, across versions, a reversal undoes an earlier kind of row: it
      names a stored original that it undoes. */
  lemma ReachableReversal(env: Env, calls: seq<Call>, key: string, g: Group, csvId: string, d: Dataset, r: Row)
    requires Reached(env, calls, key, g, csvId, d) && d.preset.Ledger?
    requires AllRows(env, g, csvId, d.latest).Ok?
    requires r in AllRows(env, g, csvId, d.latest).value && IsReversal(r)
    ensures var rows := AllRows(env, g, csvId, d.latest).value;
            FindRow(rows, Cell(r, REVERSES)).Some?
            && Undoes(r, FindRow(rows, Cell(r, REVERSES)).value)
            && !IsReversal(FindRow(rows, Cell(r, REVERSES)).value)
  {
    hide Reached, AllRows, LedgerOk, AmountsInOrder, Undoes, Cell, IsReversal, FindRow;
    LedgerInOrder(env, calls, key, g, csvId, d);
    ReversalTargetOf(AllRows(env, g, csvId, d.latest).value, r);
  }

  /** And no two reversals name the same row, so each event is reversed at most once. */
  lemma ReachableReversals(env: Env, calls: seq<Call>, key: string, g: Group, csvId: string, d: Dataset, i: nat, j: nat)
    requires Reached(env, calls, key, g, csvId, d) && d.preset.Ledger?
    requires AllRows(env, g, csvId, d.latest).Ok?
    requires var rows := AllRows(env, g, csvId, d.latest).value;
             i < j < |rows| && IsReversal(rows[i]) && IsReversal(rows[j])
    ensures var rows := AllRows(env, g, csvId, d.latest).value;
            Cell(rows[i], REVERSES) != Cell(rows[j], REVERSES)
  {
    hide Reached, AllRows, LedgerOk, AmountsInOrder, Cell, IsReversal;
    LedgerInOrder(env, calls, key, g, csvId, d);
    ReversedOnce(AllRows(env, g, csvId, d.latest).value, i, j);
  }

  /** A request is taken for a retry exactly when its row is among those of the latest version. */
  lemma RetryNeedsLatestVersion(env: Env, g: Group, ctx: Context, d: Dataset, raw: map<string, Value>, t: Times,
                                crash: Crash)
    requires AppendRow(env, g, ctx, d, raw, t, crash).1.Ok?
    ensures IsRetryAnswer(AppendRow(env, g, ctx, d, raw, t, crash).1)
       <==> FindRow(RowsOf(g, d.csvId, d.latest), RowEventId(env, ctx, d.csvId, d.latest, raw)).Some?
  {
    hide RowsOf, AllRows, FindRow, LoadSchema, ReadRows, NewRow, StoreRow, VisibleRow, LedgerBalance, RowEventId;
    var fields := LoadSchema(env, g, d.csvId, d.latest).value.fields;
    RowsOfVersion(env, g, d.csvId, d.latest, fields);
  }

  /** Rows of older versions never count: no stored row of another version has the id of the
      request, so after a new version the same request is a new one. */
  lemma OlderRowsNeverCount(env: Env, g: Group, ctx: Context, d: Dataset, raw: map<string, Value>, n: nat)
    requires CollisionFree(env) && DatasetOk(env, g, d.csvId, d) && 1 <= n < d.latest
    ensures FindRow(RowsOf(g, d.csvId, n), RowEventId(env, ctx, d.csvId, d.latest, raw)).None?
  {
    hide CollisionFree, VersionOk, ChainOk, FieldsAt, RowsOf, LEDGER_FIELDS, AllRows, FindRow, AllProject,
         LedgerFilesOk;
    DatasetChain(env, g, d);
    ChainAt(env, g, d, n, d.latest);
    VersionIdsDiffer(env, g, d.csvId, n, d.events[n - 1].schemaHash,
                     EventSeed(ctx.chat, ctx.message, d.csvId, d.latest, raw));
  }

  predicate IsRetryAnswer(r: Result<Response, Reason>) { r.Ok? && r.value.RowResponse? && r.value.idempotent }

  // ---------------------------------------------------------------- the catalog over time

  lemma {:induction false} PrefixReplays(events: seq<CatalogEvent>, i: nat)
    requires Replay(events).Ok? && i <= |events|
    ensures Replay(events[..i]).Ok?
  {
    hide ReplayStep;
    if i == |events| {
      assert events[..i] == events;
    } else {
      PrefixReplays(events[..|events| - 1], i);
      assert events[..|events| - 1][..i] == events[..i];
    }
  }

  /** The catalog can be replayed up to any event, and from there on a dataset keeps its
      identity, its name and its preset and only gains versions. */
  lemma CatalogReplays(env: Env, calls: seq<Call>, key: string, i: nat, j: nat, csvId: string)
    requires CollisionFree(env) && key in Run(env, map[], calls)
    requires i <= j <= |CatalogOf(Run(env, map[], calls)[key])|
    ensures var events := CatalogOf(Run(env, map[], calls)[key]);
            Replay(events[..i]).Ok? && Replay(events[..j]).Ok?
            && (csvId in Replay(events[..i]).value ==>
                  csvId in Replay(events[..j]).value
                  && Continues(Replay(events[..i]).value[csvId], Replay(events[..j]).value[csvId]))
  {
    hide GroupOk, Run, Replay, CatalogOf, CollisionFree, Continues;
    ReachedGroupOk(env, calls, key);
    var events := CatalogOf(Run(env, map[], calls)[key]);
    ReplayIsOk(env, Run(env, map[], calls)[key]);
    PrefixReplays(events, i);
    PrefixReplays(events, j);
    assert events[..j] == events[..i] + events[i..j];
    if csvId in Replay(events[..i]).value { ReplayContinues(events[..i], events[i..j], csvId); }
  }

  lemma ReachedGroupOk(env: Env, calls: seq<Call>, key: string)
    requires CollisionFree(env) && key in Run(env, map[], calls)
    ensures GroupOk(env, Run(env, map[], calls)[key])
  {
    hide GroupOk, Run, CollisionFree;
    RunKeeps(env, map[], calls);
  }

  // ---------------------------------------------------------------- event ids

  /** A stored row belongs to an announced version, whose rows carry seeded ids. */
  lemma StoredIsAnnounced(env: Env, g: Group, csvId: string, n: nat, r: Row)
    requires GroupOk(env, g) && r in RowsOf(g, csvId, n)
    ensures Seeded(env, csvId, n, r) && DistinctIds(RowsOf(g, csvId, n))
  {
    hide Replay, CatalogOf, DatasetOk, ChainOk, VersionOk, Seeded, DistinctIds, RowsOf, TotalSize, CatalogBytes,
         ListingOk, Announced;
    var logical := Replay(CatalogOf(g)).value;
    assert Announced(logical, csvId, n);
    AnnouncedRows(env, g, csvId, n, r);
  }

  lemma AnnouncedRows(env: Env, g: Group, csvId: string, n: nat, r: Row)
    requires GroupOk(env, g) && Replay(CatalogOf(g)).Ok? && Announced(Replay(CatalogOf(g)).value, csvId, n)
    requires r in RowsOf(g, csvId, n)
    ensures Seeded(env, csvId, n, r) && DistinctIds(RowsOf(g, csvId, n))
  {
    hide GroupOk, Replay, CatalogOf, DatasetOk, ChainOk, VersionOk, Seeded, DistinctIds, RowsOf;
    LogicalBounds(env, g, csvId);
    var d := Replay(CatalogOf(g)).value[csvId];
    DatasetChain(env, g, d);
    ChainAt(env, g, d, n, d.latest);
    VersionRows(env, g, csvId, n, d.events[n - 1].schemaHash, r);
  }

  lemma VersionRows(env: Env, g: Group, csvId: string, n: nat, hash: string, r: Row)
    requires VersionOk(env, g, csvId, n, hash) && r in RowsOf(g, csvId, n)
    ensures Seeded(env, csvId, n, r) && DistinctIds(RowsOf(g, csvId, n))
  {
    hide RowBytes, Header, AllHexIds, DistinctIds, Distinct, Seeded, RowFits;
  }

  lemma {:induction false} SameIdSameRow(rows: seq<Row>, a: Row, b: Row)
    requires DistinctIds(rows) && a in rows && b in rows && a.eventId == b.eventId
    ensures a == b
  {
    hide FindRow;
    var init, last := rows[..|rows| - 1], rows[|rows| - 1];
    FoundRow(init, last.eventId);
    if a in init && b in init { SameIdSameRow(init, a, b); }
  }

  lemma SameIdInGroup(env: Env, g: Group, csvId: string, n: nat, r: Row, csvId': string, n': nat, r': Row)
    requires CollisionFree(env) && GroupOk(env, g)
    requires r in RowsOf(g, csvId, n) && r' in RowsOf(g, csvId', n') && r.eventId == r'.eventId
    ensures csvId == csvId' && n == n' && r == r'
  {
    hide GroupOk, RowsOf, DistinctIds;
    StoredIsAnnounced(env, g, csvId, n, r);
    StoredIsAnnounced(env, g, csvId', n', r');
    SameIdSameRow(RowsOf(g, csvId, n), r, r');
  }

  /** An event id identifies one stored row of the whole group, and with it the dataset and the
      version, even among files that no catalog event announces. */
  lemma EventIdsAreGlobal(env: Env, calls: seq<Call>, key: string, csvId: string, n: nat, r: Row,
                          csvId': string, n': nat, r': Row)
    requires CollisionFree(env) && key in Run(env, map[], calls)
    requires r in RowsOf(Run(env, map[], calls)[key], csvId, n)
    requires r' in RowsOf(Run(env, map[], calls)[key], csvId', n') && r.eventId == r'.eventId
    ensures csvId == csvId' && n == n' && r == r'
  {
    hide GroupOk, Run, RowsOf, CollisionFree;
    ReachedGroupOk(env, calls, key);
    SameIdInGroup(env, Run(env, map[], calls)[key], csvId, n, r, csvId', n', r');
  }

  /** Two appends, at any two moments, are answered with the same event exactly when they agree
      in chat, message, dataset, version and row. Who sent them and when does not matter. */
  lemma SameEventSameRequest(env: Env, g: Group, call: Call, g': Group, call': Call)
    requires CollisionFree(env) && GroupOk(env, g) && GroupOk(env, g')
    requires Screen(call).None? && call.request.AppendRequest? && InGroup(env, g, call).1.Ok?
    requires Screen(call').None? && call'.request.AppendRequest? && InGroup(env, g', call').1.Ok?
    ensures InGroup(env, g, call).1.value.RowResponse? && InGroup(env, g', call').1.value.RowResponse?
    ensures DatasetIn(g, CleanId(call.request.csvId)).Some? && DatasetIn(g', CleanId(call'.request.csvId)).Some?
    ensures var d, d' :=
            DatasetIn(g, CleanId(call.request.csvId)).value, DatasetIn(g', CleanId(call'.request.csvId)).value;
            (InGroup(env, g, call).1.value.row.eventId == InGroup(env, g', call').1.value.row.eventId
             <==> call.ctx.chat == call'.ctx.chat && call.ctx.message == call'.ctx.message && d.csvId == d'.csvId
                  && d.latest == d'.latest && call.request.row == call'.request.row)
  {
    hide GroupOk, Screen, InGroup, CleanId, DatasetIn, RowsOf, AnswersWith, IsHexId;
    AnsweredRowIsStored(env, g, call);
    AnsweredRowIsStored(env, g', call');
  }

  // ---------------------------------------------------------------- reported balances

  /** The answer reports the balance of the row's account in the ledger as stored; while no
      reversed row was unclean and the running totals stay small, that is exactly what the
      unreversed originals of the account add up to. */
  predicate ReportsLedger(rows: seq<Row>, row: Row, balance: Balance, f: nat) {
    && LedgerOk(rows) && AmountsInOrder(rows) && row in rows
    && LedgerBalance(rows, row) == Ok(balance)
    && (ReversedAreClean(rows) && SmallTotals(DeltasOf(rows, Cell(row, "account"), Cell(row, "currency")), f) ==>
          TextValue(balance.amount) == SumOpen(Delta, rows, rows, Cell(row, "account"), Cell(row, "currency")))
  }

  lemma LedgerReported(rows: seq<Row>, row: Row, balance: Balance, f: nat)
    requires LedgerOk(rows) && AmountsInOrder(rows) && row in rows && LedgerBalance(rows, row) == Ok(balance)
    ensures ReportsLedger(rows, row, balance, f)
  {
    hide LedgerOk, AmountsInOrder, LedgerBalance, ReversedAreClean, SmallTotals, DeltasOf, TextValue, SumOpen, Cell,
         Delta;
    if ReversedAreClean(rows) && SmallTotals(DeltasOf(rows, Cell(row, "account"), Cell(row, "currency")), f) {
      BalanceIsExact(rows, row, f);
    }
  }

  /** An answered append left its row among the stored ones. */
  lemma AnsweredRowIsStored(env: Env, g: Group, call: Call)
    requires CollisionFree(env) && GroupOk(env, g) && Screen(call).None? && call.request.AppendRequest?
    requires InGroup(env, g, call).1.Ok?
    ensures var h, r := InGroup(env, g, call).0, InGroup(env, g, call).1;
            var found := DatasetIn(h, CleanId(call.request.csvId));
            found.Some? && found == DatasetIn(g, CleanId(call.request.csvId)) && r.value.RowResponse?
            && r.value.row in RowsOf(h, found.value.csvId, found.value.latest)
            && r.value.row.eventId
                 == RowEventId(env, call.ctx, found.value.csvId, found.value.latest, call.request.row)
            && AnswersWith(env, h, found.value, r, r.value.row, r.value.idempotent)
  {
    hide GroupOk, Screen, Replay, CatalogOf, InGroup, CleanId, FindRow, RowsOf, LoadSchema, NewRow, RowAdded,
         BalanceFits, LedgerBalance, AllRows, CollisionFree, RowEventId;
    AppendCallEffect(env, g, call);
    var h := InGroup(env, g, call).0;
    var d := DatasetIn(g, CleanId(call.request.csvId)).value;
    var id := RowEventId(env, call.ctx, d.csvId, d.latest, call.request.row);
    FoundRow(RowsOf(g, d.csvId, d.latest), id);
    if FindRow(RowsOf(g, d.csvId, d.latest), id).None? {
      var row := NewRow(env, g, call.ctx, d, LoadSchema(env, g, d.csvId, d.latest).value, call.request.row, id,
                        call.times).value;
      NewRowFits(env, g, call.ctx, d, LoadSchema(env, g, d.csvId, d.latest).value, call.request.row, id, call.times);
      AddedRows(g, h, d.csvId, d.latest, row);
      RowLeavesCatalog(env, g, h, d, row);
    }
  }

  /** In every run, the balance in the answer of an append to a ledger is the one of the ledger
      that the append leaves behind. */
  lemma ReportedBalance(env: Env, calls: seq<Call>, call: Call, f: nat)
    requires CollisionFree(env) && Screen(call).None? && call.request.AppendRequest?
    requires Step(env, Run(env, map[], calls), call).1.Ok?
    ensures var h := GroupOf(Step(env, Run(env, map[], calls), call).0, env.scope(call.ctx.chat));
            var r := Step(env, Run(env, map[], calls), call).1.value;
            var found := DatasetIn(h, CleanId(call.request.csvId));
            found.Some? && r.RowResponse?
            && (found.value.preset.Ledger? ==>
                  AllRows(env, h, found.value.csvId, found.value.latest).Ok? && r.balance.Some?
                  && ReportsLedger(AllRows(env, h, found.value.csvId, found.value.latest).value, r.row,
                                   r.balance.value, f))
  {
    hide GroupOk, Screen, Run, InGroup, CleanId, DatasetIn, RowsOf, AllRows, BalanceFits, LedgerBalance, CollisionFree,
         ReportsLedger, LedgerOk, AmountsInOrder, AllOk, EMPTY_GROUP;
    var groups, key := Run(env, map[], calls), env.scope(call.ctx.chat);
    assert AllOk(env, map[]) by { NoGroups(env); }
    RunKeeps(env, map[], calls);
    GroupOfOk(env, groups, key);
    var g := GroupOf(groups, key);
    InGroupKeeps(env, g, call);
    AnsweredRowIsStored(env, g, call);
    var h, r := InGroup(env, g, call).0, InGroup(env, g, call).1.value;
    var d := DatasetIn(h, CleanId(call.request.csvId)).value;
    if d.preset.Ledger? {
      StoredInLedger(env, h, CleanId(call.request.csvId), r.row);
      LedgerReported(AllRows(env, h, d.csvId, d.latest).value, r.row, r.balance.value, f);
    }
  }

  lemma NoGroups(env: Env)
    ensures AllOk(env, map[])
  {
  }

  lemma StoredInLedger(env: Env, h: Group, csvId: string, row: Row)
    requires GroupOk(env, h) && DatasetIn(h, csvId).Some? && DatasetIn(h, csvId).value.preset.Ledger?
    requires var d := DatasetIn(h, csvId).value; row in RowsOf(h, d.csvId, d.latest)
    ensures var d := DatasetIn(h, csvId).value;
            AllRows(env, h, d.csvId, d.latest).Ok?
            && LedgerOk(AllRows(env, h, d.csvId, d.latest).value)
            && AmountsInOrder(AllRows(env, h, d.csvId, d.latest).value)
            && row in AllRows(env, h, d.csvId, d.latest).value
  {
    hide GroupOk, Replay, CatalogOf, DatasetOk, ChainOk, RowsOf, AllRows, LedgerOk, AmountsInOrder, AllProject;
    LogicalBounds(env, h, csvId);
    var d := DatasetIn(h, csvId).value;
    DatasetChain(env, h, d);
    ChainReads(env, h, d, d.latest);
  }
}
