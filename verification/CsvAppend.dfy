/** Appending a row: ledger rows with derived deltas and single-use reversals, the durable
    form of a row, and the answer with the ledger balance. */
module CsvAppend {
  import opened Text
  import opened Decimals
  import opened CsvFields
  import opened CsvStore

  // ---------------------------------------------------------------- ledger rows

  const REVERSES := "reverses_event_id"

  /** `_validate_event_id` on a truthy value. */
  function EventIdText(v: Value): string { Lower(Strip(PyStr(v))) }

  predicate OverridesReversal(raw: map<string, Value>) {
    "account" in raw || "currency" in raw || "direction" in raw || "amount" in raw || "amount_delta" in raw
  }

  function OrElse(v: Value, other: Value): Value { if Truthy(v) then v else other }

  predicate ReversedBy(rows: seq<Row>, id: string) { exists r :: r in rows && Cell(r, REVERSES) == id }

  function Opposite(direction: string): string { if direction == "income" then "expense" else "income" }

  /** The row that undoes an earlier one: same account, currency and amount, the other direction. */
  function ReversalRow(original: Row, raw: map<string, Value>, id: string, now: string): map<string, Value> {
    map["occurred_at" := OrElse(Get(raw, "occurred_at"), Str(now)),
        "account" := Str(Cell(original, "account")),
        "currency" := Str(Cell(original, "currency")),
        "direction" := Str(Opposite(Cell(original, "direction"))),
        "amount" := Str(Cell(original, "amount")),
        "category" := OrElse(Get(raw, "category"), Str(Cell(original, "category"))),
        "note" := OrElse(Get(raw, "note"), Str("Reversal of " + id)),
        REVERSES := Str(id)]
  }

  function SetDefault(m: map<string, Value>, key: string, v: Value): map<string, Value> {
    if key in m then m else m[key := v]
  }

  /** Which row a request asks to reverse, if any. */
  function ReversalTarget(rows: seq<Row>, raw: map<string, Value>): Result<Row, Reason> {
    var id := EventIdText(Get(raw, REVERSES));
    if !IsHexId(id) then Err(EventIdInvalid)
    else if OverridesReversal(raw) then Err(ReversalOverrides)
    else
      match FindRow(rows, id)
      case None => Err(ReversalTargetMissing)
      case Some(original) =>
        if Cell(original, REVERSES) != "" then Err(ReversalOfReversal)
        else if ReversedBy(rows, id) then Err(AlreadyReversed)
        else Ok(original)
  }

  predicate AsksReversal(raw: map<string, Value>) { Truthy(Get(raw, REVERSES)) }

  /** The row before direction and amount are checked. */
  function DraftRow(rows: seq<Row>, raw: map<string, Value>, now: string): Result<map<string, Value>, Reason> {
    if AsksReversal(raw) then
      match ReversalTarget(rows, raw)
      case Err(e) => Err(e)
      case Ok(original) => Ok(ReversalRow(original, raw, EventIdText(Get(raw, REVERSES)), now))
    else if "amount_delta" in raw then Err(DeltaSupplied)
    else
      Ok(SetDefault(SetDefault(SetDefault(raw, "occurred_at", Str(now)), "account", Str("cash")),
                    "currency", Str("CNY")))
  }

  predicate IsDirection(v: Value) { v == Str("income") || v == Str("expense") }

  /** The delta is the amount for income; for an expense it is the amount negated in the
      28-digit context. */
  function DeltaOf(direction: Value, amount: Dec): Dec {
    if direction == Str("income") then amount else NegCtx(amount)
  }

  /** The canonical amount and delta of a row. */
  function AmountAndDelta(direction: Value, amount: Value): Result<(string, string), Reason> {
    match CanonNumber(amount)
    case Err(e) => Err(e)
    case Ok(text) =>
      match ParseDec(Strip(text))
      case None => Err(AmountInvalid)
      case Some(d) =>
        if Signed(d) <= 0 then Err(AmountInvalid)
        else
          match CanonDec(d)
          case None => Err(NotDecimal)
          case Some(a) =>
            match CanonDec(DeltaOf(direction, d))
            case None => Err(NotDecimal)
            case Some(delta) => Ok((a, delta))
  }

  /** `_prepare_ledger_row`. */
  function PrepareLedger(rows: seq<Row>, raw: map<string, Value>, now: string): Result<map<string, Value>, Reason> {
    match DraftRow(rows, raw, now)
    case Err(e) => Err(e)
    case Ok(draft) =>
      if !IsDirection(Get(draft, "direction")) then Err(DirectionInvalid)
      else
        match AmountAndDelta(Get(draft, "direction"), Get(draft, "amount"))
        case Err(e) => Err(e)
        case Ok(pair) => Ok(draft["amount" := Str(pair.0)]["amount_delta" := Str(pair.1)])
  }

  // ---------------------------------------------------------------- durable rows

  /** `_prepare_durable_row`. */
  function DurableRow(cal: Calendar, ctx: Context, fields: seq<Field>, values: map<string, Value>,
                      eventId: string, now: string): Result<Row, Reason>
  {
    match KnownValues(cal, fields, values)
    case Err(e) => Err(e)
    case Ok(known) =>
      if ExtraOk(fields, values)
      then Ok(Row(eventId, now, ctx.user, ctx.userName, ctx.message, known, ExtraOf(fields, values)))
      else Err(ExtraInvalid)
  }

  /** Every key of a request must be a business key. */
  predicate SuppliesSystemFields(raw: map<string, Value>) {
    exists k :: k in raw && (k in SystemColumns() || k == "_extra_json")
  }

  /** The values of a row before they are made durable. */
  function RowValues(preset: Preset, rows: seq<Row>, raw: map<string, Value>, now: string)
    : Result<map<string, Value>, Reason>
  {
    if preset.Ledger? then PrepareLedger(rows, raw, now) else Ok(raw)
  }

  // ---------------------------------------------------------------- balance and answer

  function CellNumber(row: Row, name: string): Dec {
    match ParseDec(Strip(Cell(row, name)))
    case None => ZERO
    case Some(d) => d
  }

  /** The deltas of one account and currency, in stored order. */
  function DeltasOf(rows: seq<Row>, account: string, currency: string): seq<Dec> {
    if rows == [] then []
    else
      var r := rows[|rows| - 1];
      DeltasOf(rows[..|rows| - 1], account, currency)
      + (if Cell(r, "account") == account && Cell(r, "currency") == currency
         then [CellNumber(r, "amount_delta")] else [])
  }

  /** The balance of an account: a running sum in the 28-digit context. */
  function BalanceOf(rows: seq<Row>, account: string, currency: string): Dec {
    SumCtx(DeltasOf(rows, account, currency))
  }

  function LedgerBalance(rows: seq<Row>, row: Row): Result<Balance, Reason> {
    var account, currency := Cell(row, "account"), Cell(row, "currency");
    match CanonDec(BalanceOf(rows, account, currency))
    case None => Err(BalanceTooLong)
    case Some(amount) => Ok(Balance(account, currency, amount))
  }

  /** `_append_result`. */
  function AppendAnswer(env: Env, g: Group, d: Dataset, s: Schema, row: Row, idempotent: bool)
    : Result<Response, Reason>
  {
    match VisibleRow(env.cal, row, s.fields, s.fields)
    case Err(e) => Err(e)
    case Ok(shown) =>
      if !d.preset.Ledger? then Ok(RowResponse(idempotent, d.csvId, s.version, row, shown, None))
      else
        match AllRows(env, g, d.csvId, d.latest)
        case Err(e) => Err(e)
        case Ok(rows) =>
          match LedgerBalance(rows, row)
          case Err(e) => Err(e)
          case Ok(balance) => Ok(RowResponse(idempotent, d.csvId, s.version, row, shown, Some(balance)))
  }

  // ---------------------------------------------------------------- append

  function RowEventId(env: Env, ctx: Context, csvId: string, version: nat, raw: map<string, Value>): string {
    env.eventId(EventSeed(ctx.chat, ctx.message, csvId, version, raw))
  }

  function RowsOf(g: Group, csvId: string, version: nat): seq<Row> {
    match Lookup(g, RowsPath(csvId, version))
    case Some(RowsFile(_, rows)) => rows
    case _ => []
  }

  function AddRow(g: Group, csvId: string, version: nat, fields: seq<Field>, row: Row): Group {
    Put(g, RowsPath(csvId, version), RowsFile(Header(fields), RowsOf(g, csvId, version) + [row]))
  }

  /** Quotas, then the write. */
  function StoreRow(env: Env, g: Group, csvId: string, s: Schema, row: Row): (Group, Option<Reason>) {
    var header := Header(s.fields);
    var bytes := env.rowSize(header, row);
    if bytes > MAX_ROW_BYTES then (g, Some(RowTooLarge))
    else if TotalSize(env, g) + bytes > MAX_GROUP_BYTES then (g, Some(GroupQuota))
    else if RowBytes(env, header, RowsOf(g, csvId, s.version)) + bytes > MAX_FILE_BYTES then (g, Some(FileQuota))
    else (AddRow(g, csvId, s.version, s.fields, row), None)
  }

  /** The rows a request has to look at: a reversal searches every version. */
  function RowsToSearch(env: Env, g: Group, d: Dataset, raw: map<string, Value>): Result<seq<Row>, Reason> {
    if d.preset.Ledger? && AsksReversal(raw) then AllRows(env, g, d.csvId, d.latest) else Ok([])
  }

  /** The row that a request would store. */
  function NewRow(env: Env, g: Group, ctx: Context, d: Dataset, s: Schema, raw: map<string, Value>,
                  eventId: string, t: Times): Result<Row, Reason>
  {
    match RowsToSearch(env, g, d, raw)
    case Err(e) => Err(e)
    case Ok(rows) =>
      match RowValues(d.preset, rows, raw, t.ledger)
      case Err(e) => Err(e)
      case Ok(values) => DurableRow(env.cal, ctx, s.fields, values, eventId, t.row)
  }

  /** The part of `append` after the schema and the existing rows are read. */
  function AppendNew(env: Env, g: Group, ctx: Context, d: Dataset, s: Schema, raw: map<string, Value>,
                     eventId: string, t: Times, crash: Crash): (Group, Result<Response, Reason>)
  {
    match NewRow(env, g, ctx, d, s, raw, eventId, t)
    case Err(e) => (g, Err(e))
    case Ok(row) =>
      var w := StoreRow(env, g, d.csvId, s, row);
      if w.1.Some? then (w.0, Err(w.1.value))
      else if crash.AfterRow? then (w.0, Err(Crashed))
      else (w.0, ReadBack(env, w.0, d, s, row))
  }

  /** Verify that the row can be read back, then answer. */
  function ReadBack(env: Env, g: Group, d: Dataset, s: Schema, row: Row): Result<Response, Reason> {
    match ReadRows(env, g, d.csvId, s.version, s.fields)
    case Err(e) => Err(e)
    case Ok(rows) =>
      match FindRow(rows, row.eventId)
      case None => Err(Integrity)
      case Some(stored) => if stored == row then AppendAnswer(env, g, d, s, stored, false) else Err(Integrity)
  }

  /** `append`, under the group lock. */
  function AppendRow(env: Env, g: Group, ctx: Context, d: Dataset, raw: map<string, Value>, t: Times, crash: Crash)
    : (Group, Result<Response, Reason>)
  {
    match LoadSchema(env, g, d.csvId, d.latest)
    case Err(e) => (g, Err(e))
    case Ok(s) =>
      match ReadRows(env, g, d.csvId, d.latest, s.fields)
      case Err(e) => (g, Err(e))
      case Ok(existing) =>
        var eventId := RowEventId(env, ctx, d.csvId, d.latest, raw);
        match FindRow(existing, eventId)
        case Some(row) => (g, AppendAnswer(env, g, d, s, row, true))
        case None => AppendNew(env, g, ctx, d, s, raw, eventId, t, crash)
  }
}
