/** Which appends are accepted: the exact condition on the request, for a dataset of one's own and
    for a ledger entry. */
module CsvAccepted {
  import opened Text
  import opened Decimals
  import opened DecimalSums
  import opened CsvFields
  import opened CsvMeaning
  import opened CsvStore
  import opened CsvAppend
  import opened CsvInvariant
  import opened CsvPreserve
  import opened CsvSteps
  import opened CsvReplay
  import opened CsvEffects
  import opened CsvReading
  import opened CsvStored

  // ---------------------------------------------------------------- a ledger entry

  /** The number a text stands for, in its normal form. */
  function NumberIn(s: string): Dec {
    match ParseDec(Strip(s)) case None => ZERO case Some(d) => Norm(d)
  }

  /** Python writes the number in at most 1024 characters, and it needs at most 1024 digits. */
  predicate Writable(d: Dec) { |ToSci(d)| <= 1024 && FitsFixed(d) }

  /** A positive number whose text can be stored; for an expense, that of its rounded negation too. */
  predicate AmountTaken(direction: Value, amount: Value) {
    && !amount.Null? && !amount.Bool? && NumberTaken(PyStr(amount))
    && var d := NumberIn(PyStr(amount));
       Val(d) > 0.0 && Writable(d) && (direction == Str("expense") ==> Writable(NegCtx(d)))
  }

  /** What a request for an entry must be before its values are looked at. */
  predicate EntryTaken(raw: map<string, Value>) {
    && "amount_delta" !in raw && Get(raw, "direction") in {Str("income"), Str("expense")}
    && AmountTaken(Get(raw, "direction"), Get(raw, "amount"))
  }

  lemma PositiveValue(d: Dec)
    ensures Signed(d) > 0 <==> Val(d) > 0.0
  {
    hide Scale, Signed;
    PositiveTimes(Signed(d), Scale(d.exp));
  }

  lemma PositiveTimes(n: int, s: real)
    requires s > 0.0
    ensures n > 0 <==> n as real * s > 0.0
  {
    if n <= 0 { assert n as real * s <= 0.0 * s; }
    if n > 0 { assert n as real * s >= 1.0 * s; }
  }

  lemma WritableIs(d: Dec)
    ensures CanonDec(d).Some? <==> Writable(d)
  {
    hide ToSci, FitsFixed;
    CanonDecFits(d);
  }

  lemma AmountIsTaken(direction: Value, amount: Value)
    requires IsDirection(direction)
    ensures AmountAndDelta(direction, amount).Ok? <==> AmountTaken(direction, amount)
  {
    hide CanonNumber, ParseDec, Strip, Val, Signed, CanonDec, NumberTaken, Writable, ToFixed, NegCtx, Norm, PyStr;
    CanonNumberMeans(amount);
    if CanonNumber(amount).Ok? {
      CanonicalParses(amount);
      var d := NumberIn(PyStr(amount));
      PositiveValue(d);
      WritableIs(d);
      WritableIs(NegCtx(d));
    }
  }

  lemma CanonicalParses(v: Value)
    requires CanonNumber(v).Ok?
    ensures ParseDec(Strip(CanonNumber(v).value)) == Some(NumberIn(PyStr(v)))
  {
    hide ParseDec, Strip, ToFixed, Norm, CanonText, PyStr;
    CanonKeepsValue(PyStr(v));
  }

  /** An entry is prepared exactly when its direction and amount are acceptable and it brings no
      delta of its own. */
  lemma EntryIsPrepared(rows: seq<Row>, raw: map<string, Value>, now: string)
    requires !AsksReversal(raw)
    ensures PrepareLedger(rows, raw, now).Ok? <==> EntryTaken(raw)
  {
    hide AmountAndDelta, AmountTaken, AsksReversal;
    var direction := Get(raw, "direction");
    if IsDirection(direction) { AmountIsTaken(direction, Get(raw, "amount")); }
  }

  /** These are the values that the entry stands for, key by key. */
  ghost predicate EntryValues(raw: map<string, Value>, now: string, values: map<string, Value>) {
    forall key :: Given(values, key) == EntryMeant(raw, now, key)
  }

  lemma SameGiven(a: map<string, Value>, b: map<string, Value>)
    requires forall key :: Given(a, key) == Given(b, key)
    ensures a == b
  {
    forall key
      ensures key in a <==> key in b
      ensures key in a && key in b ==> a[key] == b[key]
    {
      assert Given(a, key) == Given(b, key);
    }
  }

  /** A ledger entry is accepted if and only if it is prepared, and every field takes the value that
      the entry stands for, and every other key is legal. */
  lemma EntryAccepted(env: Env, g: Group, ctx: Context, d: Dataset, s: Schema, raw: map<string, Value>, id: string,
                      t: Times)
    requires d.preset.Ledger? && !AsksReversal(raw) && Distinct(s.fields)
    ensures NewRow(env, g, ctx, d, s, raw, id, t).Ok? <==>
              EntryTaken(raw)
              && forall values :: EntryValues(raw, t.ledger, values) ==> RowTaken(env.cal, s.fields, values)
  {
    hide PrepareLedger, DurableRow, AsksReversal, EntryTaken, RowTaken, Distinct, EntryMeant, Holds;
    EntryIsPrepared([], raw, t.ledger);
    if EntryTaken(raw) {
      var prepared := PrepareLedger([], raw, t.ledger).value;
      forall key
        ensures EntryMeant(raw, t.ledger, key) == Given(prepared, key)
      {
        EntryHandedOn([], raw, t.ledger, key);
      }
      DurableRowMeans(env.cal, ctx, s.fields, prepared, id, t.row);
      assert EntryValues(raw, t.ledger, prepared);
      forall values | EntryValues(raw, t.ledger, values)
        ensures values == prepared
      {
        SameGiven(values, prepared);
      }
    }
  }

  // ---------------------------------------------------------------- a reversal

  /** A stored row with the id asked for that is no reversal itself and not yet reversed. */
  predicate CanBeReversed(rows: seq<Row>, raw: map<string, Value>, o: Row) {
    && FindRow(rows, o.eventId) == Some(o) && o in rows
    && o.eventId == Lower(Strip(PyStr(Get(raw, REVERSES)))) && IsHexId(o.eventId)
    && Cell(o, REVERSES) == "" && (forall r :: r in rows ==> Cell(r, REVERSES) != o.eventId)
    && raw.Keys !! {"account", "currency", "direction", "amount", "amount_delta"}
  }

  lemma {:induction false} FoundHasId(rows: seq<Row>, id: string)
    requires FindRow(rows, id).Some?
    ensures FindRow(rows, id).value.eventId == id && FindRow(rows, id).value in rows
  {
    if FindRow(rows[..|rows| - 1], id).Some? { FoundHasId(rows[..|rows| - 1], id); }
  }

  /** What a reversal asks to undo is found exactly when it can be undone. */
  lemma TargetIs(rows: seq<Row>, raw: map<string, Value>, o: Row)
    ensures ReversalTarget(rows, raw) == Ok(o) <==> CanBeReversed(rows, raw, o)
  {
    hide Lower, Strip, PyStr, IsHexId, Cell, FindRow;
    var id := EventIdText(Get(raw, REVERSES));
    if FindRow(rows, id).Some? { FoundHasId(rows, id); }
  }

  // ---------------------------------------------------------------- a dataset of one's own

  /** A request that was not stored before is stored exactly when every value is acceptable and the
      row fits: 16 KiB for a row, 100 MiB for the group, 10 MiB for its file. */
  lemma AppendIsStored(env: Env, g: Group, call: Call)
    requires CollisionFree(env) && GroupOk(env, g) && Screen(call).None? && call.request.AppendRequest?
    requires DatasetIn(g, CleanId(call.request.csvId)).Some?
    requires var d := DatasetIn(g, CleanId(call.request.csvId)).value;
             d.preset.Custom?
             && FindRow(RowsOf(g, d.csvId, d.latest),
                        RowEventId(env, call.ctx, d.csvId, d.latest, call.request.row)).None?
    ensures var d := DatasetIn(g, CleanId(call.request.csvId)).value;
            var own := FieldsAt(env, g, d.csvId, d.latest);
            var row := DurableRow(env.cal, call.ctx, own, call.request.row,
                                  RowEventId(env, call.ctx, d.csvId, d.latest, call.request.row), call.times.row);
            LoadSchema(env, g, d.csvId, d.latest).Ok?
            && (row.Ok? <==> RowTaken(env.cal, own, call.request.row))
            && (InGroup(env, g, call).0 != g <==>
                  row.Ok? && OverQuota(env, g, d.csvId, LoadSchema(env, g, d.csvId, d.latest).value, row.value).None?)
  {
    hide GroupOk, Screen, InGroup, CleanId, LoadSchema, NewRow, CollisionFree, RowEventId, DurableRow, Distinct,
         ChainOk, DatasetOk, Replay, CatalogOf, RowTaken, Holds, OverQuota, FindRow, RowsOf, AnswersWith, RowAdded;
    AppendCallEffect(env, g, call);
    NamedDatasetOf(env, g, CleanId(call.request.csvId));
    var d := DatasetIn(g, CleanId(call.request.csvId)).value;
    DatasetChain(env, g, d);
    PreviousDistinct(env, g, d);
    var own := FieldsAt(env, g, d.csvId, d.latest);
    var id := RowEventId(env, call.ctx, d.csvId, d.latest, call.request.row);
    DurableRowMeans(env.cal, call.ctx, own, call.request.row, id, call.times.row);
    var s := LoadSchema(env, g, d.csvId, d.latest).value;
    CustomNewRow(env, g, call.ctx, d, s, call.request.row, id, call.times);
    if DurableRow(env.cal, call.ctx, own, call.request.row, id, call.times.row).Ok? {
      AddedChanges(g, InGroup(env, g, call).0, d.csvId, d.latest,
                   DurableRow(env.cal, call.ctx, own, call.request.row, id, call.times.row).value);
    }
  }

  lemma AddedChanges(g: Group, h: Group, csvId: string, n: nat, row: Row)
    ensures RowAdded(g, h, csvId, n, row) ==> h != g
  {
    hide RowsOf;
    if RowAdded(g, h, csvId, n, row) { assert |RowsOf(h, csvId, n)| == |RowsOf(g, csvId, n)| + 1; }
  }

  lemma CustomNewRow(env: Env, g: Group, ctx: Context, d: Dataset, s: Schema, raw: map<string, Value>, id: string,
                     t: Times)
    requires d.preset.Custom?
    ensures NewRow(env, g, ctx, d, s, raw, id, t) == DurableRow(env.cal, ctx, s.fields, raw, id, t.row)
  {
    hide DurableRow, AllRows;
  }

  lemma NamedDatasetOf(env: Env, g: Group, csvId: string)
    requires GroupOk(env, g) && DatasetIn(g, csvId).Some?
    ensures var d := DatasetIn(g, csvId).value;
            d.csvId == csvId && DatasetOk(env, g, d.csvId, d) && |d.events| == d.latest >= 1
  {
    hide GroupOk, Replay, CatalogOf, DatasetOk;
    LogicalBounds(env, g, csvId);
  }
}
