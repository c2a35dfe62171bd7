/** The money ledger: what every stored ledger satisfies, and what follows for reversals and
    balances. */
module CsvLedger {
  import opened Text
  import opened Decimals
  import opened CsvFields
  import opened CsvStore
  import opened CsvAppend

  /** A row that reverses another one. A text that is no event id reverses nothing. */
  predicate IsReversal(r: Row) { IsHexId(Cell(r, REVERSES)) }

  predicate IsDirectionText(s: string) { s == "income" || s == "expense" }

  /** The amount is positive and in canonical text; the delta is the amount with its sign,
      rounded by the negation when the row is an expense. */
  predicate AmountsOk(r: Row) {
    var amount := CellNumber(r, "amount");
    && IsDirectionText(Cell(r, "direction"))
    && Normal(amount) && Signed(amount) > 0 && Cell(r, "amount") == ToFixed(amount)
    && CellNumber(r, "amount_delta") == Norm(DeltaOf(Str(Cell(r, "direction")), amount))
    && Reusable(Cell(r, "amount"), amount)
  }

  /** The amount text is accepted as an amount again, unchanged. */
  predicate Reusable(text: string, amount: Dec) { CanonText(text) == Some(text) && CanonDec(amount) == Some(text) }

  predicate Trimmed(r: Row) {
    Strip(Cell(r, "account")) == Cell(r, "account") && Strip(Cell(r, "currency")) == Cell(r, "currency")
  }

  /** A blank text takes the default when it is stored again. */
  function Defaulted(text: string, default: string): string { if text == "" then default else text }

  /** Row r undoes row o, up to the defaults of a blank account or currency. */
  predicate Undoes(r: Row, o: Row) {
    && Cell(r, "direction") == Opposite(Cell(o, "direction"))
    && Cell(r, "amount") == Cell(o, "amount")
    && Cell(r, "account") == Defaulted(Cell(o, "account"), "cash")
    && Cell(r, "currency") == Defaulted(Cell(o, "currency"), "CNY")
  }

  /** A reversal undoes an earlier row that is no reversal and that no earlier row reverses. */
  predicate ReversalOk(before: seq<Row>, r: Row) {
    IsReversal(r) ==>
      var id := Cell(r, REVERSES);
      && FindRow(before, id).Some?
      && Cell(FindRow(before, id).value, REVERSES) == ""
      && !ReversedBy(before, id)
      && Undoes(r, FindRow(before, id).value)
  }

  predicate LedgerRowOk(before: seq<Row>, r: Row) {
    IsHexId(r.eventId) && FindRow(before, r.eventId).None? && Trimmed(r) && ReversalOk(before, r)
  }

  predicate LedgerOk(rows: seq<Row>) {
    rows != [] ==> LedgerOk(rows[..|rows| - 1]) && LedgerRowOk(rows[..|rows| - 1], rows[|rows| - 1])
  }

  predicate AmountsInOrder(rows: seq<Row>) { forall r :: r in rows ==> AmountsOk(r) }

  // ---------------------------------------------------------------- what append stores

  lemma LedgerNames()
    ensures |LEDGER_FIELDS| == 9
    ensures LEDGER_FIELDS[1].name == "account" && LEDGER_FIELDS[2].name == "currency"
    ensures LEDGER_FIELDS[3].name == "direction" && LEDGER_FIELDS[4].name == "amount"
    ensures LEDGER_FIELDS[5].name == "amount_delta" && LEDGER_FIELDS[8].name == REVERSES
  {
  }

  /** Each ledger column holds the canonical form of the prepared value. */
  lemma StoredCell(cal: Calendar, ctx: Context, fields: seq<Field>, values: map<string, Value>,
                   eventId: string, now: string, i: nat)
    requires DurableRow(cal, ctx, fields, values, eventId, now).Ok?
    requires Distinct(fields) && LEDGER_FIELDS <= fields && i < |LEDGER_FIELDS|
    ensures var row := DurableRow(cal, ctx, fields, values, eventId, now).value;
            var f := LEDGER_FIELDS[i];
            CanonField(cal, f, Get(values, f.name)) == Ok(Cell(row, f.name))
  {
    hide CanonField, KnownValues, ExtraOk, ExtraOf, LEDGER_FIELDS, Distinct;
    KnownAt(cal, fields, values, i);
    assert fields[i] == LEDGER_FIELDS[i];
  }

  lemma SafeTextIsStrip(v: Value, maximum: nat, required: bool)
    requires SafeText(v, maximum, required).Ok?
    ensures SafeText(v, maximum, required).value == Strip(if v.Null? then "" else PyStr(v))
    ensures Strip(SafeText(v, maximum, required).value) == SafeText(v, maximum, required).value
  {
    hide Strip, Utf8Length, PyStr, StartsFormula;
    StripIs(if v.Null? then "" else PyStr(v));
    StripFixes(SafeText(v, maximum, required).value);
  }

  lemma StoredTextCell(cal: Calendar, f: Field, v: Value, default: string)
    requires f.ftype.TextType? && f.default == Some(Str(default)) && default != ""
    requires Strip(default) == default
    requires CanonField(cal, f, v).Ok?
    ensures Strip(CanonField(cal, f, v).value) == CanonField(cal, f, v).value
    ensures v.Str? && Strip(v.s) == v.s ==> CanonField(cal, f, v).value == Defaulted(v.s, default)
  {
    hide Strip, SafeText;
    SafeTextIsStrip(if Blank(v) then Str(default) else v, 4096, false);
  }

  /** A canonical positive amount is stored unchanged. */
  lemma StoredAmount(cal: Calendar, f: Field, text: string, d: Dec)
    requires f.ftype.DecimalType?
    requires ParseDec(text) == Some(d) && Strip(text) == text && Normal(d) && text == ToFixed(d)
    requires CanonField(cal, f, Str(text)).Ok?
    ensures CanonField(cal, f, Str(text)).value == text && CanonText(text) == Some(text)
  {
    hide Strip, ParseDec, ToFixed, TrimText, FitsFixed;
    ParseFixed(d);
    CanonKeepsValue(text);
    NormOfNormal(d);
    hide CanonText, Normal, Norm;
  }

  /** What `AmountAndDelta` returns: both texts are canonical and stand for the amount and
      its delta. */
  lemma AmountAndDeltaFacts(direction: Value, v: Value)
    requires AmountAndDelta(direction, v).Ok?
    ensures var (a, delta) := AmountAndDelta(direction, v).value;
            exists d :: Normal(d) && Signed(d) > 0 && CanonDec(d) == Some(a)
              && a == ToFixed(d) && ParseDec(a) == Some(d) && Strip(a) == a
              && delta == ToFixed(Norm(DeltaOf(direction, d)))
              && ParseDec(delta) == Some(Norm(DeltaOf(direction, d))) && Strip(delta) == delta
              && CanonText(PyStr(v)) == Some(a)
  {
    hide Strip, ParseDec, ToFixed, CanonDec, CanonText, DeltaOf, Norm, PyStr;
    var text := CanonNumber(v).value;
    CanonKeepsValue(PyStr(v));
    var d := ParseDec(Strip(text)).value;
    NormOfNormal(d);
    CanonDecKeepsValue(d);
    CanonDecKeepsValue(DeltaOf(direction, d));
  }

  lemma DeltaStored(cal: Calendar, text: string, x: Dec)
    requires text == ToFixed(Norm(x)) && ParseDec(text) == Some(Norm(x)) && Strip(text) == text
    requires CanonField(cal, DELTA_FIELD, Str(text)).Ok?
    ensures CanonField(cal, DELTA_FIELD, Str(text)).value == text
  {
    hide CanonField, Strip, ParseDec, ToFixed;
    StoredAmount(cal, DELTA_FIELD, text, Norm(x));
  }

  /** What `PrepareLedger` hands on: a direction, an amount and the matching delta. */
  lemma PreparedAmounts(rows: seq<Row>, raw: map<string, Value>, now: string)
    requires PrepareLedger(rows, raw, now).Ok?
    ensures var values := PrepareLedger(rows, raw, now).value;
            var draft := DraftRow(rows, raw, now).value;
            var direction := Get(draft, "direction");
            var r := AmountAndDelta(direction, Get(draft, "amount"));
            DraftRow(rows, raw, now).Ok? && r.Ok? && IsDirection(direction)
            && Get(values, "direction") == direction
            && Get(values, "amount") == Str(r.value.0) && Get(values, "amount_delta") == Str(r.value.1)
            && Get(values, "account") == Get(draft, "account") && Get(values, "currency") == Get(draft, "currency")
            && Get(values, REVERSES) == Get(draft, REVERSES)
  {
    hide DraftRow, AmountAndDelta;
  }

  lemma StoredEnum(cal: Calendar, f: Field, s: string)
    requires f.ftype.EnumType? && s != "" && Strip(s) == s
    requires CanonField(cal, f, Str(s)).Ok?
    ensures CanonField(cal, f, Str(s)).value == s
  {
    hide Strip, SafeText;
    SafeTextIsStrip(Str(s), 256, true);
  }

  lemma DirectionsTrimmed()
    ensures Strip("income") == "income" && Strip("expense") == "expense"
  {
    hide Strip;
    StripFixes("income");
    StripFixes("expense");
  }

  lemma StoredDirection(cal: Calendar, v: Value)
    requires IsDirection(v) && CanonField(cal, DIRECTION_FIELD, v).Ok?
    ensures Str(CanonField(cal, DIRECTION_FIELD, v).value) == v
  {
    hide Strip, CanonField;
    DirectionsTrimmed();
    StoredEnum(cal, DIRECTION_FIELD, v.s);
  }

  /** The amounts of a stored ledger row are in order. */
  lemma StoredAmounts(cal: Calendar, ctx: Context, fields: seq<Field>, rows: seq<Row>, raw: map<string, Value>,
                      eventId: string, ledgerNow: string, now: string)
    requires PrepareLedger(rows, raw, ledgerNow).Ok?
    requires Distinct(fields) && LEDGER_FIELDS <= fields
    requires DurableRow(cal, ctx, fields, PrepareLedger(rows, raw, ledgerNow).value, eventId, now).Ok?
    ensures var row := DurableRow(cal, ctx, fields, PrepareLedger(rows, raw, ledgerNow).value, eventId, now).value;
            AmountsOk(row)
            && Str(Cell(row, "direction")) == Get(DraftRow(rows, raw, ledgerNow).value, "direction")
            && CanonText(PyStr(Get(DraftRow(rows, raw, ledgerNow).value, "amount"))) == Some(Cell(row, "amount"))
  {
    hide PrepareLedger, DurableRow, CanonField, AmountAndDelta, DraftRow, ToFixed, ParseDec, Strip, CanonText,
         CanonDec, DeltaOf, Norm, LEDGER_FIELDS, Distinct, PyStr;
    LedgerNames();
    var values := PrepareLedger(rows, raw, ledgerNow).value;
    PreparedAmounts(rows, raw, ledgerNow);
    var draft := DraftRow(rows, raw, ledgerNow).value;
    var direction := Get(draft, "direction");
    AmountAndDeltaFacts(direction, Get(draft, "amount"));
    var (a, delta) := AmountAndDelta(direction, Get(draft, "amount")).value;
    var d :| Normal(d) && Signed(d) > 0 && CanonDec(d) == Some(a)
              && a == ToFixed(d) && ParseDec(a) == Some(d) && Strip(a) == a
              && delta == ToFixed(Norm(DeltaOf(direction, d)))
              && ParseDec(delta) == Some(Norm(DeltaOf(direction, d))) && Strip(delta) == delta
              && CanonText(PyStr(Get(draft, "amount"))) == Some(a);
    StoredCell(cal, ctx, fields, values, eventId, now, 3);
    StoredCell(cal, ctx, fields, values, eventId, now, 4);
    StoredCell(cal, ctx, fields, values, eventId, now, 5);
    LedgerFieldAt();
    StoredDirection(cal, direction);
    StoredAmount(cal, AMOUNT_FIELD, a, d);
    DeltaStored(cal, delta, DeltaOf(direction, d));
  }

  lemma LedgerFieldAt()
    ensures |LEDGER_FIELDS| == 9
    ensures LEDGER_FIELDS[1] == ACCOUNT_FIELD && LEDGER_FIELDS[2] == CURRENCY_FIELD
    ensures LEDGER_FIELDS[3] == DIRECTION_FIELD && LEDGER_FIELDS[4] == AMOUNT_FIELD
    ensures LEDGER_FIELDS[5] == DELTA_FIELD && LEDGER_FIELDS[8] == REVERSES_FIELD
  {
  }

  lemma DefaultsTrimmed()
    ensures Strip("cash") == "cash" && Strip("CNY") == "CNY"
  {
    hide Strip;
    StripFixes("cash");
    StripFixes("CNY");
  }

  /** The account and currency of a stored row, and where they come from. */
  lemma StoredAccount(cal: Calendar, ctx: Context, fields: seq<Field>, values: map<string, Value>,
                      eventId: string, now: string)
    requires Distinct(fields) && LEDGER_FIELDS <= fields
    requires DurableRow(cal, ctx, fields, values, eventId, now).Ok?
    ensures var row := DurableRow(cal, ctx, fields, values, eventId, now).value;
            Trimmed(row)
            && (Get(values, "account").Str? && Strip(Get(values, "account").s) == Get(values, "account").s
                ==> Cell(row, "account") == Defaulted(Get(values, "account").s, "cash"))
            && (Get(values, "currency").Str? && Strip(Get(values, "currency").s) == Get(values, "currency").s
                ==> Cell(row, "currency") == Defaulted(Get(values, "currency").s, "CNY"))
  {
    hide DurableRow, CanonField, Strip, LEDGER_FIELDS, Distinct, Get, Defaulted;
    LedgerNames();
    LedgerFieldAt();
    DefaultsTrimmed();
    StoredCell(cal, ctx, fields, values, eventId, now, 1);
    StoredCell(cal, ctx, fields, values, eventId, now, 2);
    StoredTextCell(cal, ACCOUNT_FIELD, Get(values, "account"), "cash");
    StoredTextCell(cal, CURRENCY_FIELD, Get(values, "currency"), "CNY");
  }

  lemma HexIsTrimmed(id: string)
    requires IsHexId(id)
    ensures id != "" && Strip(id) == id
  {
    assert id[0] in id && id[|id| - 1] in id;
    StripFixes(id);
  }

  /** The reversal column of a stored row: the event id asked for, or a text that names none. */
  lemma StoredReverses(cal: Calendar, ctx: Context, fields: seq<Field>, values: map<string, Value>,
                       eventId: string, now: string)
    requires Distinct(fields) && LEDGER_FIELDS <= fields
    requires DurableRow(cal, ctx, fields, values, eventId, now).Ok?
    ensures var row := DurableRow(cal, ctx, fields, values, eventId, now).value;
            var v := Get(values, REVERSES);
            (v.Str? && IsHexId(v.s) ==> Cell(row, REVERSES) == v.s)
            && (!Truthy(v) ==> !IsHexId(Cell(row, REVERSES)))
  {
    hide DurableRow, CanonField, Strip, LEDGER_FIELDS, Distinct, Get, IsHexId, Truthy;
    LedgerNames();
    LedgerFieldAt();
    StoredCell(cal, ctx, fields, values, eventId, now, 8);
    var v := Get(values, REVERSES);
    if v.Str? && IsHexId(v.s) {
      HexIsTrimmed(v.s);
      StoredPlainText(cal, REVERSES_FIELD, v);
    }
    if !Truthy(v) { FalsyNamesNothing(cal, v); }
  }

  lemma StoredPlainText(cal: Calendar, f: Field, v: Value)
    requires f.ftype.TextType? && f.default.None? && v.Str? && v.s != ""
    requires CanonField(cal, f, v).Ok?
    ensures CanonField(cal, f, v).value == Strip(v.s)
  {
    hide Strip, SafeText;
    SafeTextIsStrip(v, 4096, false);
  }

  lemma FalsyNamesNothing(cal: Calendar, v: Value)
    requires !Truthy(v) && CanonField(cal, REVERSES_FIELD, v).Ok?
    ensures !IsHexId(CanonField(cal, REVERSES_FIELD, v).value)
  {
    if !Blank(v) {
      hide Strip, SafeText;
      SafeTextIsStrip(v, 4096, false);
      assert |PyStr(v)| <= 5;
    }
  }

  /** The prepared reversal, column by column. */
  lemma ReversalRowAt(o: Row, raw: map<string, Value>, id: string, now: string)
    ensures var m := ReversalRow(o, raw, id, now);
            Get(m, "account") == Str(Cell(o, "account")) && Get(m, "currency") == Str(Cell(o, "currency"))
            && Get(m, "direction") == Str(Opposite(Cell(o, "direction")))
            && Get(m, "amount") == Str(Cell(o, "amount")) && Get(m, REVERSES) == Str(id)
  {
    hide Cell, OrElse, Opposite;
  }

  lemma DefaultsLeaveReverses(raw: map<string, Value>, now: string)
    requires !AsksReversal(raw) && DraftRow([], raw, now).Ok?
    ensures Get(DraftRow([], raw, now).value, REVERSES) == Get(raw, REVERSES)
  {
    hide Truthy;
  }

  lemma {:induction false} FoundRow(rows: seq<Row>, id: string)
    ensures FindRow(rows, id).Some? ==> FindRow(rows, id).value in rows && FindRow(rows, id).value.eventId == id
    ensures FindRow(rows, id).None? <==> forall r :: r in rows ==> r.eventId != id
  {
    if rows == [] {
    } else {
      var init, last := rows[..|rows| - 1], rows[|rows| - 1];
      FoundRow(init, id);
      assert rows == init + [last];
    }
  }

  lemma {:induction false} LedgerMember(rows: seq<Row>, r: Row)
    requires LedgerOk(rows) && r in rows
    ensures Trimmed(r) && IsHexId(r.eventId)
  {
    hide Trimmed, ReversalOk, IsHexId, FindRow;
    var init, last := rows[..|rows| - 1], rows[|rows| - 1];
    assert rows == init + [last];
    if r == last {
    } else {
      LedgerMember(init, r);
    }
  }

  lemma CanonOfFixed(d: Dec)
    requires Normal(d) && CanonText(ToFixed(d)).Some?
    ensures CanonText(ToFixed(d)).value == ToFixed(d)
  {
    hide Strip, ParseDec, ToFixed, TrimText, FitsFixed, Norm;
    ParseFixed(d);
    CanonKeepsValue(ToFixed(d));
    NormOfNormal(d);
  }

  predicate DefaultedCell(row: Row, name: string, v: Value, default: string) {
    v.Str? && Strip(v.s) == v.s ==> Cell(row, name) == Defaulted(v.s, default)
  }

  /** How a stored ledger row follows from the drafted one. */
  predicate StoredFrom(row: Row, draft: map<string, Value>) {
    && AmountsOk(row) && Trimmed(row)
    && Str(Cell(row, "direction")) == Get(draft, "direction")
    && CanonText(PyStr(Get(draft, "amount"))) == Some(Cell(row, "amount"))
    && DefaultedCell(row, "account", Get(draft, "account"), "cash")
    && DefaultedCell(row, "currency", Get(draft, "currency"), "CNY")
    && (Get(draft, REVERSES).Str? && IsHexId(Get(draft, REVERSES).s) ==> Cell(row, REVERSES) == Get(draft, REVERSES).s)
    && (!Truthy(Get(draft, REVERSES)) ==> !IsReversal(row))
  }

  lemma StoredFromDraft(cal: Calendar, ctx: Context, fields: seq<Field>, rows: seq<Row>, raw: map<string, Value>,
                        eventId: string, ledgerNow: string, now: string)
    requires PrepareLedger(rows, raw, ledgerNow).Ok?
    requires Distinct(fields) && LEDGER_FIELDS <= fields
    requires DurableRow(cal, ctx, fields, PrepareLedger(rows, raw, ledgerNow).value, eventId, now).Ok?
    ensures DraftRow(rows, raw, ledgerNow).Ok?
    ensures StoredFrom(DurableRow(cal, ctx, fields, PrepareLedger(rows, raw, ledgerNow).value, eventId, now).value,
                       DraftRow(rows, raw, ledgerNow).value)
  {
    hide PrepareLedger, DraftRow, DurableRow, IsHexId, Truthy, LEDGER_FIELDS, Distinct, Get, Cell, CanonText, Strip,
         AmountsOk, Trimmed, Defaulted, AmountAndDelta, PyStr;
    PreparedAmounts(rows, raw, ledgerNow);
    StoredAmounts(cal, ctx, fields, rows, raw, eventId, ledgerNow, now);
    StoredAccount(cal, ctx, fields, PrepareLedger(rows, raw, ledgerNow).value, eventId, now);
    StoredReverses(cal, ctx, fields, PrepareLedger(rows, raw, ledgerNow).value, eventId, now);
  }

  /** A row stored from a drafted reversal undoes its target. */
  lemma UndoesFrom(row: Row, o: Row, raw: map<string, Value>, id: string, now: string)
    requires StoredFrom(row, ReversalRow(o, raw, id, now)) && AmountsOk(o) && Trimmed(o) && IsHexId(id)
    ensures Undoes(row, o) && Cell(row, REVERSES) == id
  {
    hide CanonText, ToFixed, Cell, Opposite, Norm, DeltaOf, CellNumber, Defaulted, Get, ReversalRow, IsHexId, Strip;
    ReversalRowAt(o, raw, id, now);
    CanonOfFixed(CellNumber(o, "amount"));
  }

  lemma TargetFacts(rows: seq<Row>, raw: map<string, Value>, now: string)
    requires AsksReversal(raw) && DraftRow(rows, raw, now).Ok?
    ensures var id := EventIdText(Get(raw, REVERSES));
            IsHexId(id) && FindRow(rows, id).Some?
            && Cell(FindRow(rows, id).value, REVERSES) == "" && !ReversedBy(rows, id)
            && DraftRow(rows, raw, now).value == ReversalRow(FindRow(rows, id).value, raw, id, now)
  {
    hide EventIdText, IsHexId, FindRow, ReversedBy, ReversalRow, Truthy, Cell;
  }

  lemma DraftedRowOk(rows: seq<Row>, raw: map<string, Value>, now: string, row: Row)
    requires LedgerOk(rows) && AmountsInOrder(rows)
    requires var searched := if AsksReversal(raw) then rows else [];
             DraftRow(searched, raw, now).Ok? && StoredFrom(row, DraftRow(searched, raw, now).value)
    ensures AmountsOk(row) && Trimmed(row) && ReversalOk(rows, row)
  {
    if AsksReversal(raw) {
      hide DraftRow, IsHexId, Truthy, Get, Cell, ReversalRow, LedgerOk, EventIdText, Undoes, ReversedBy, FindRow,
           AmountsOk, Trimmed, StoredFrom;
      var id := EventIdText(Get(raw, REVERSES));
      TargetFacts(rows, raw, now);
      var o := FindRow(rows, id).value;
      FoundRow(rows, id);
      LedgerMember(rows, o);
      UndoesFrom(row, o, raw, id, now);
      StoredFromParts(row, DraftRow(rows, raw, now).value);
    } else {
      hide DraftRow, IsHexId, Truthy, Get, Cell, Undoes, ReversedBy, FindRow, AmountsOk, Trimmed, CanonText,
           DefaultedCell;
      DefaultsLeaveReverses(raw, now);
    }
  }

  lemma StoredFromParts(row: Row, draft: map<string, Value>)
    requires StoredFrom(row, draft)
    ensures AmountsOk(row) && Trimmed(row)
  {
  }

  /** A row that append stores for a ledger request keeps the ledger in order. */
  lemma AppendedRowOk(cal: Calendar, ctx: Context, fields: seq<Field>, rows: seq<Row>, raw: map<string, Value>,
                      eventId: string, ledgerNow: string, now: string)
    requires LedgerOk(rows) && AmountsInOrder(rows) && IsHexId(eventId) && FindRow(rows, eventId).None?
    requires Distinct(fields) && LEDGER_FIELDS <= fields
    requires var searched := if AsksReversal(raw) then rows else [];
             PrepareLedger(searched, raw, ledgerNow).Ok?
             && DurableRow(cal, ctx, fields, PrepareLedger(searched, raw, ledgerNow).value, eventId, now).Ok?
    ensures var searched := if AsksReversal(raw) then rows else [];
            var row := DurableRow(cal, ctx, fields, PrepareLedger(searched, raw, ledgerNow).value, eventId, now).value;
            LedgerRowOk(rows, row) && AmountsOk(row)
  {
    hide PrepareLedger, DraftRow, AmountsOk, Trimmed, ReversalOk, LEDGER_FIELDS, IsHexId, KnownValues, Distinct,
         ExtraOk, FindRow, AsksReversal, StoredFrom, LedgerOk, AmountsInOrder;
    var searched := if AsksReversal(raw) then rows else [];
    var row := DurableRow(cal, ctx, fields, PrepareLedger(searched, raw, ledgerNow).value, eventId, now).value;
    StoredFromDraft(cal, ctx, fields, searched, raw, eventId, ledgerNow, now);
    DraftedRowOk(rows, raw, ledgerNow, row);
  }

  // ---------------------------------------------------------------- laws of a stored ledger

  lemma {:induction false} RowByItsId(rows: seq<Row>, r: Row)
    requires LedgerOk(rows) && r in rows
    ensures FindRow(rows, r.eventId) == Some(r)
  {
    hide AmountsOk, Trimmed, ReversalOk, IsHexId;
    var init, last := rows[..|rows| - 1], rows[|rows| - 1];
    assert rows == init + [last];
    if r in init { RowByItsId(init, r); }
  }

  /** A reversal in the ledger names a row of the ledger that it undoes and that is none itself. */
  lemma {:induction false} ReversalTargetOf(rows: seq<Row>, r: Row)
    requires LedgerOk(rows) && r in rows && IsReversal(r)
    ensures FindRow(rows, Cell(r, REVERSES)).Some?
    ensures var o := FindRow(rows, Cell(r, REVERSES)).value;
            o in rows && o.eventId == Cell(r, REVERSES) && !IsReversal(o) && Undoes(r, o)
  {
    hide AmountsOk, Trimmed, Cell, Undoes;
    var init, last := rows[..|rows| - 1], rows[|rows| - 1];
    assert rows == init + [last];
    FoundRow(rows, Cell(r, REVERSES));
    if r in init { ReversalTargetOf(init, r); }
  }

  /** No reversal is itself reversed. */
  lemma ReversalsStand(rows: seq<Row>, r: Row, target: Row)
    requires LedgerOk(rows) && r in rows && target in rows
    requires IsReversal(r) && Cell(r, REVERSES) == target.eventId
    ensures !IsReversal(target) && Undoes(r, target)
  {
    hide IsReversal, Undoes, Cell, LedgerOk, FindRow;
    ReversalTargetOf(rows, r);
    RowByItsId(rows, target);
  }

  /** Each event is reversed at most once. */
  lemma {:induction false} ReversedOnce(rows: seq<Row>, i: nat, j: nat)
    requires LedgerOk(rows) && i < j < |rows|
    requires IsReversal(rows[i]) && IsReversal(rows[j])
    ensures Cell(rows[i], REVERSES) != Cell(rows[j], REVERSES)
  {
    hide AmountsOk, Trimmed, Undoes, Cell, IsHexId, FindRow;
    var init := rows[..|rows| - 1];
    if j < |init| {
      ReversedOnce(init, i, j);
    } else {
      assert init[i] == rows[i] && rows[i] in init;
    }
  }

  /** A reversal sits in the account and currency of the row it undoes exactly when those
      were not blank; a blank one has become the default. */
  lemma ReversalKeepsAccount(rows: seq<Row>, r: Row, o: Row)
    requires LedgerOk(rows) && r in rows && o in rows
    requires IsReversal(r) && Cell(r, REVERSES) == o.eventId
    ensures Cell(r, "account") == Cell(o, "account") <==> Cell(o, "account") != ""
    ensures Cell(r, "currency") == Cell(o, "currency") <==> Cell(o, "currency") != ""
  {
    hide LedgerOk, Cell, IsReversal;
    ReversalsStand(rows, r, o);
  }

  lemma SpacesAreBlank()
    ensures Strip("  ") == ""
  {
    assert "  "[1..] == " " && " "[1..] == "";
    assert LStrip(" ") == "";
  }

  lemma SafeTextOfBlank()
    ensures SafeText(Str("  "), 4096, false) == Ok("")
  {
    hide Strip;
    SpacesAreBlank();
  }

  /** A blank account is accepted and stored: a text of spaces is not empty. */
  lemma BlankAccountIsStored(cal: Calendar)
    ensures CanonField(cal, ACCOUNT_FIELD, Str("  ")) == Ok("")
  {
    hide SafeText;
    SafeTextOfBlank();
  }

  /** The exact number a row adds to its account. */
  function Delta(r: Row): real { Val(CellNumber(r, "amount_delta")) }

  lemma DeltaValue(r: Row)
    requires AmountsOk(r)
    ensures var d := CellNumber(r, "amount");
            Delta(r) == (if Cell(r, "direction") == "income" then Val(d) else Val(NegCtx(d)))
  {
    hide Val, Norm, Normal, NegCtx, CellNumber, ToFixed;
    NormValue(DeltaOf(Str(Cell(r, "direction")), CellNumber(r, "amount")));
  }

  /** A reversal cancels the row it undoes exactly when the amount fits 28 digits. */
  lemma ReversalCancels(rows: seq<Row>, r: Row, o: Row)
    requires LedgerOk(rows) && AmountsInOrder(rows) && r in rows && o in rows
    requires IsReversal(r) && Cell(r, REVERSES) == o.eventId
    ensures Delta(r) == -Delta(o) <==> FitsContext(CellNumber(o, "amount"))
  {
    hide LedgerOk, IsReversal, Cell, Delta, NegCtx, Val, FitsContext;
    ReversalsStand(rows, r, o);
    DeltaValue(r);
    DeltaValue(o);
    NegCtxExact(CellNumber(o, "amount"));
    hide AmountsOk, CellNumber;
    SameAmount(r, o);
  }

  lemma SameAmount(r: Row, o: Row)
    requires Undoes(r, o)
    ensures CellNumber(r, "amount") == CellNumber(o, "amount")
  {
    hide ParseDec, Strip, Cell, Opposite, Defaulted;
  }
}
