/** Which reversals are accepted: the exact condition on the row that is to be reversed. */
module CsvReversal {
  import opened Text
  import opened Decimals
  import opened DecimalSums
  import opened CsvFields
  import opened CsvStore
  import opened CsvAppend
  import opened CsvLedger
  import opened CsvPreserve
  import opened CsvReading

  // ---------------------------------------------------------------- the negated amount

  /** The text of a rounded number can be stored exactly when the number fits in fixed notation
      and its plain text is short enough to be read back. */
  lemma RoundedIsStorable(x: Dec)
    requires |Digits(x.coeff)| <= CONTEXT_DIGITS
    ensures CanonDec(x).Some? && CanonText(CanonDec(x).value).Some?
       <==> FitsFixed(x) && |ToFixed(Norm(x))| <= MAX_INPUT_CHARS
    ensures CanonDec(x).Some? ==> CanonDec(x).value == ToFixed(Norm(x))
  {
    hide CanonText, ToFixed, ToSci, FitsFixed, Norm, Digits, ParseDec, Strip;
    CanonDecFits(x);
    if FitsFixed(x) { SciIsShort(x); }
    if CanonDec(x).Some? {
      CanonDecKeepsValue(x);
      CanonFixedPoint(ToSci(x));
      if CanonText(ToFixed(Norm(x))).Some? { CanonOfFixed(Norm(x)); }
    }
  }

  /** The row can be reversed as far as its amount is concerned: undoing an income stores the
      negated amount, which is one character longer and may have been rounded. */
  predicate ReversalFits(o: Row) {
    var delta := NegCtx(CellNumber(o, "amount"));
    Cell(o, "direction") == "expense" || (FitsFixed(delta) && |ToFixed(Norm(delta))| <= MAX_INPUT_CHARS)
  }

  lemma NegatedDigits(d: Dec)
    ensures |Digits(NegCtx(d).coeff)| <= CONTEXT_DIGITS
  {
    hide Digits, RoundTo;
    RoundedDigits(Neg(d), CONTEXT_DIGITS);
  }

  /** An amount of at most 28 digits can be taken back exactly when its text leaves room for the
      sign. */
  lemma ShortAmountFits(o: Row)
    requires AmountsOk(o) && Cell(o, "direction") == "income"
    requires |Digits(CellNumber(o, "amount").coeff)| <= CONTEXT_DIGITS
    ensures ReversalFits(o) <==> |Cell(o, "amount")| < MAX_INPUT_CHARS
  {
    hide CellNumber, Digits, CanonText, Cell, FixedParts, Norm, NumberText;
    var d := CellNumber(o, "amount");
    assert NegCtx(d) == Neg(d) && Neg(d) == Dec(true, d.coeff, d.exp);
    NormOfNormal(Neg(d));
    NegatedText(d);
    hide ToFixed;
    CanonDecFits(d);
  }

  lemma NegatedText(d: Dec)
    requires !d.neg
    ensures |ToFixed(Dec(true, d.coeff, d.exp))| == |ToFixed(d)| + 1
  {
    hide Digits;
  }

  // ---------------------------------------------------------------- the request

  lemma IncomeAmounts(a: string, d: Dec)
    requires CanonText(a) == Some(a) && ParseDec(Strip(a)) == Some(d) && Signed(d) > 0 && CanonDec(d) == Some(a)
    ensures AmountAndDelta(Str("income"), Str(a)) == Ok((a, a))
  {
    hide CanonText, ParseDec, Strip, CanonDec, Signed, NegCtx;
  }

  lemma ExpenseAmounts(a: string, d: Dec)
    requires CanonText(a) == Some(a) && ParseDec(Strip(a)) == Some(d) && Signed(d) > 0 && CanonDec(d) == Some(a)
    ensures AmountAndDelta(Str("expense"), Str(a))
         == (match CanonDec(NegCtx(d)) case None => Err(NotDecimal) case Some(delta) => Ok((a, delta)))
  {
    hide CanonText, ParseDec, Strip, CanonDec, Signed, NegCtx;
  }

  lemma AmountFacts(o: Row)
    requires AmountsOk(o)
    ensures var a, d := Cell(o, "amount"), CellNumber(o, "amount");
            CanonText(a) == Some(a) && ParseDec(Strip(a)) == Some(d) && Signed(d) > 0 && CanonDec(d) == Some(a)
            && IsDirectionText(Cell(o, "direction"))
  {
    AmountParses(o);
    hide CellNumber, Cell, CanonText, ToFixed, Norm, Normal, NegCtx, CanonDec, ParseDec, Strip, Signed;
  }

  /** The amounts of the reversal are the stored amount and, when it can be written, its negation. */
  lemma ReversedAmounts(o: Row)
    requires AmountsOk(o)
    ensures var r := AmountAndDelta(Str(Opposite(Cell(o, "direction"))), Str(Cell(o, "amount")));
            (r.Ok? && CanonText(r.value.1).Some? <==> ReversalFits(o))
            && (r.Ok? ==> r.value.0 == Cell(o, "amount"))
  {
    hide AmountsOk, CellNumber, Cell, CanonText, FitsFixed, ToFixed, Norm, NegCtx, AmountAndDelta, CanonDec, ParseDec,
         Strip, Signed;
    AmountFacts(o);
    var a, d := Cell(o, "amount"), CellNumber(o, "amount");
    IncomeAmounts(a, d);
    ExpenseAmounts(a, d);
    NegatedDigits(d);
    RoundedIsStorable(NegCtx(d));
  }

  lemma AmountParses(o: Row)
    requires AmountsOk(o)
    ensures ParseDec(Strip(Cell(o, "amount"))) == Some(CellNumber(o, "amount"))
  {
    hide ParseDec, Strip, Cell, Normal, ToFixed, CanonText, CanonDec, Norm, NegCtx;
  }

  /** The columns that a reversal does not compute. */
  predicate Computed(name: string) { name == "amount" || name == "amount_delta" }

  /** Every field but the computed ones takes its value from the reversal. */
  predicate OthersTaken(cal: Calendar, fields: seq<Field>, draft: map<string, Value>) {
    forall i :: 0 <= i < |fields| && !Computed(fields[i].name) ==> Takes(cal, fields[i], draft)
  }

  lemma KnownIffTaken(cal: Calendar, fields: seq<Field>, values: map<string, Value>)
    requires Distinct(fields)
    ensures KnownValues(cal, fields, values).Ok? <==> forall i :: 0 <= i < |fields| ==> Takes(cal, fields[i], values)
  {
    hide KnownValues, CanonField, Distinct;
    if forall i :: 0 <= i < |fields| ==> Takes(cal, fields[i], values) { KnownIfTaken(cal, fields, values); }
    if KnownValues(cal, fields, values).Ok? {
      forall i | 0 <= i < |fields|
        ensures Takes(cal, fields[i], values)
      {
        KnownAt(cal, fields, values, i);
      }
    }
  }

  lemma TakenAlike(cal: Calendar, f: Field, a: map<string, Value>, b: map<string, Value>)
    requires Get(a, f.name) == Get(b, f.name)
    ensures Takes(cal, f, a) <==> Takes(cal, f, b)
  {
    hide CanonField;
  }

  lemma NumberTaken(cal: Calendar, f: Field, values: map<string, Value>, text: string)
    requires f.ftype.DecimalType? && f.required && f.default.None? && Get(values, f.name) == Str(text)
    ensures Takes(cal, f, values) <==> text != "" && CanonText(text).Some?
  {
    hide CanonText;
  }

  lemma EmptyIsNoNumber()
    ensures CanonText("") == None
  {
  }

  lemma {:induction false} NameOnce(fields: seq<Field>, i: nat, j: nat)
    requires Distinct(fields) && i < j < |fields|
    ensures fields[i].name != fields[j].name
  {
    hide Names;
    if j == |fields| - 1 {
      NameAt(fields[..j], i);
    } else {
      NameOnce(fields[..|fields| - 1], i, j);
    }
  }

  /** The prepared reversal is stored exactly when the negated amount and all other columns are
      acceptable. */
  lemma PreparedIsStored(cal: Calendar, fields: seq<Field>, draft: map<string, Value>, a: string, delta: string)
    requires Distinct(fields) && LEDGER_FIELDS <= fields && CanonText(a).Some?
    ensures KnownValues(cal, fields, draft["amount" := Str(a)]["amount_delta" := Str(delta)]).Ok?
       <==> CanonText(delta).Some? && OthersTaken(cal, fields, draft)
  {
    hide KnownValues, Distinct, CanonText, Takes, LEDGER_FIELDS;
    var values := draft["amount" := Str(a)]["amount_delta" := Str(delta)];
    KnownIffTaken(cal, fields, values);
    LedgerFieldAt();
    assert fields[4] == AMOUNT_FIELD && fields[5] == DELTA_FIELD;
    NumberTaken(cal, AMOUNT_FIELD, values, a);
    NumberTaken(cal, DELTA_FIELD, values, delta);
    EmptyIsNoNumber();
    forall i | 0 <= i < |fields|
      ensures Takes(cal, fields[i], values) <==>
                if i == 4 then true else if i == 5 then CanonText(delta).Some? else Takes(cal, fields[i], draft)
      ensures Computed(fields[i].name) <==> i == 4 || i == 5
    {
      if i < 4 { NameOnce(fields, i, 4); }
      if i > 4 { NameOnce(fields, 4, i); }
      if i < 5 { NameOnce(fields, i, 5); }
      if i > 5 { NameOnce(fields, 5, i); }
      if i != 4 && i != 5 { TakenAlike(cal, fields[i], values, draft); }
    }
    assert Takes(cal, fields[5], values) <==> CanonText(delta).Some?;
  }

  lemma ReversalKeysLegal(fields: seq<Field>, o: Row, raw: map<string, Value>, id: string, now: string, a: string,
                          delta: string)
    requires LEDGER_FIELDS <= fields
    ensures ExtraOk(fields, ReversalRow(o, raw, id, now)["amount" := Str(a)]["amount_delta" := Str(delta)])
  {
    hide Names, KeyOk, LEDGER_FIELDS, ExtraValueOk, Cell, OrElse, Opposite;
    var values := ReversalRow(o, raw, id, now)["amount" := Str(a)]["amount_delta" := Str(delta)];
    LedgerFieldsDistinct();
    NamesOfPrefix(LEDGER_FIELDS, fields);
    forall k | k in values
      ensures KeyOk(k) && k in Names(fields)
    {
      LedgerKeysAreLegal(k);
    }
  }

  /** A request that names a stored, unreversed original and overrides nothing is accepted if and
      only if the negated amount of the original can be stored and the other columns are
      acceptable. */
  lemma ReversalAccepted(cal: Calendar, ctx: Context, fields: seq<Field>, rows: seq<Row>, raw: map<string, Value>,
                         eventId: string, ledgerNow: string, now: string, o: Row)
    requires AsksReversal(raw) && ReversalTarget(rows, raw) == Ok(o) && AmountsOk(o)
    requires Distinct(fields) && LEDGER_FIELDS <= fields
    ensures var prepared := PrepareLedger(rows, raw, ledgerNow);
            var draft := ReversalRow(o, raw, EventIdText(Get(raw, REVERSES)), ledgerNow);
            ((prepared.Ok? && DurableRow(cal, ctx, fields, prepared.value, eventId, now).Ok?)
             <==> ReversalFits(o) && OthersTaken(cal, fields, draft))
  {
    hide LEDGER_FIELDS, Distinct, KnownValues, ExtraOk, AmountAndDelta, ReversalTarget, AsksReversal, EventIdText,
         CanonText, ReversalFits, OthersTaken, Cell, Opposite;
    var id := EventIdText(Get(raw, REVERSES));
    var draft := ReversalRow(o, raw, id, ledgerNow);
    ReversedAmounts(o);
    ReversalRowAt(o, raw, id, ledgerNow);
    DirectionTurns(o);
    var r := AmountAndDelta(Str(Opposite(Cell(o, "direction"))), Str(Cell(o, "amount")));
    if r.Ok? {
      AmountIsReusable(o);
      PreparedIsStored(cal, fields, draft, r.value.0, r.value.1);
      ReversalKeysLegal(fields, o, raw, id, ledgerNow, r.value.0, r.value.1);
    }
    hide ReversalRow, Get;
  }

  lemma AmountIsReusable(o: Row)
    requires AmountsOk(o)
    ensures CanonText(Cell(o, "amount")).Some?
  {
    hide CanonText, Cell, CellNumber, Normal, ToFixed, CanonDec;
  }

  lemma DirectionTurns(o: Row)
    requires AmountsOk(o)
    ensures IsDirection(Str(Opposite(Cell(o, "direction"))))
  {
    hide Cell, CellNumber, Normal, ToFixed;
  }
}
