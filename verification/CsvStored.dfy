/** What an append stores, and which requests are accepted: both said with the values given. */
module CsvStored {
  import opened Text
  import opened Decimals
  import opened CsvFields
  import opened CsvMeaning
  import opened CsvStore
  import opened CsvAppend
  import opened CsvLedger
  import opened CsvReading
  import opened CsvReversal

  // ---------------------------------------------------------------- a durable row

  /** A key that a request may use: a short printable name without separators that does not look
      like a system column or a formula. */
  predicate LegalKey(k: string) {
    && 1 <= |k| <= 64 && k[0] !in {'_', '=', '+', '-', '@', '\t', '\r'}
    && forall c :: c in k ==> 0x20 <= c as int && c as int != 0x7F && c != ',' && c != '/' && c != '\\'
  }

  /** A value that is accepted under a key no field declares. */
  predicate ExtraTaken(v: Value) {
    match v
    case Null => true
    case Bool(_) => true
    case Int(i) => i >= 0
    case Float(r) => ParseDec(r).Some? && Val(ParseDec(r).value) >= 0.0
    case Str(s) => TextTaken(s, 4096)
    case Composite(_) => false
  }

  /** Every field takes what it is given, and every key is legal. */
  ghost predicate RowTaken(cal: Calendar, fields: seq<Field>, values: map<string, Value>) {
    && (forall i :: 0 <= i < |fields| ==> FieldTaken(cal, fields[i], Get(values, fields[i].name)))
    && forall k :: k in values ==> LegalKey(k) && (k !in Names(fields) ==> ExtraTaken(values[k]))
  }

  /** The row holds who, when and under which message, the text of every field, and every other
      value as it was given. */
  predicate Holds(cal: Calendar, ctx: Context, fields: seq<Field>, values: map<string, Value>, eventId: string,
                  now: string, row: Row)
  {
    && row.eventId == eventId && row.createdAt == now
    && row.actorId == ctx.user && row.actorName == ctx.userName && row.messageId == ctx.message
    && row.known.Keys == Names(fields)
    && (forall i :: 0 <= i < |fields| ==>
          FieldStores(cal, fields[i], Get(values, fields[i].name), Cell(row, fields[i].name)))
    && row.extra.Keys == values.Keys - Names(fields)
    && forall k :: k in row.extra ==> k in values && row.extra[k] == values[k]
  }

  lemma LegalKeys(k: string)
    ensures KeyOk(k) <==> LegalKey(k)
  {
  }

  lemma SignOfValue(d: Dec)
    ensures Signed(d) >= 0 <==> Val(d) >= 0.0
  {
    hide Scale, Signed;
    SignTimes(Signed(d), Scale(d.exp));
  }

  lemma SignTimes(n: int, s: real)
    requires s > 0.0
    ensures n >= 0 <==> n as real * s >= 0.0
  {
    if n < 0 {
      assert n as real <= -1.0;
      assert n as real * s <= -1.0 * s;
    }
  }

  lemma ExtraIsTaken(v: Value)
    ensures ExtraValueOk(v) <==> ExtraTaken(v)
  {
    hide SafeText, TextTaken, ParseDec, Val, Signed;
    match v {
      case Str(s) => SafeTextMeans(s, 4096, false);
      case Float(r) => if ParseDec(r).Some? { SignOfValue(ParseDec(r).value); }
      case _ =>
    }
  }

  lemma KnownMeans(cal: Calendar, fields: seq<Field>, values: map<string, Value>)
    requires Distinct(fields)
    ensures KnownValues(cal, fields, values).Ok? <==>
              forall i :: 0 <= i < |fields| ==> FieldTaken(cal, fields[i], Get(values, fields[i].name))
    ensures KnownValues(cal, fields, values).Ok? ==>
              var known := KnownValues(cal, fields, values).value;
              known.Keys == Names(fields)
              && forall i :: 0 <= i < |fields| ==>
                   fields[i].name in known
                   && FieldStores(cal, fields[i], Get(values, fields[i].name), known[fields[i].name])
  {
    hide KnownValues, CanonField, Distinct, FieldTaken, FieldStores, Names;
    KnownIffTaken(cal, fields, values);
    forall i | 0 <= i < |fields|
      ensures Takes(cal, fields[i], values) <==> FieldTaken(cal, fields[i], Get(values, fields[i].name))
    {
      FieldIsTaken(cal, fields[i], Get(values, fields[i].name));
    }
    if KnownValues(cal, fields, values).Ok? {
      KnownKeys(cal, fields, values);
      forall i | 0 <= i < |fields|
        ensures fields[i].name in KnownValues(cal, fields, values).value
        ensures FieldStores(cal, fields[i], Get(values, fields[i].name),
                            KnownValues(cal, fields, values).value[fields[i].name])
      {
        KnownAt(cal, fields, values, i);
        FieldIsStored(cal, fields[i], Get(values, fields[i].name));
      }
    }
  }

  /** A row is made durable exactly when all its values are accepted, and then holds them. */
  lemma DurableRowMeans(cal: Calendar, ctx: Context, fields: seq<Field>, values: map<string, Value>, eventId: string,
                        now: string)
    requires Distinct(fields)
    ensures DurableRow(cal, ctx, fields, values, eventId, now).Ok? <==> RowTaken(cal, fields, values)
    ensures DurableRow(cal, ctx, fields, values, eventId, now).Ok? ==>
              Holds(cal, ctx, fields, values, eventId, now, DurableRow(cal, ctx, fields, values, eventId, now).value)
  {
    hide KnownValues, Distinct, FieldTaken, FieldStores, Names, KeyOk, LegalKey, ExtraValueOk, ExtraTaken;
    KnownMeans(cal, fields, values);
    forall k | k in values
      ensures KeyOk(k) <==> LegalKey(k)
      ensures ExtraValueOk(values[k]) <==> ExtraTaken(values[k])
    {
      LegalKeys(k);
      ExtraIsTaken(values[k]);
    }
  }
}
