/** From request to reader: which of the values given in an append a reader of the dataset
    sees, under the schema it was written for and under every later one. */
module CsvReading {
  import opened Text
  import opened Decimals
  import opened CsvFields
  import opened CsvMeaning
  import opened CsvStore
  import opened CsvAppend
  import opened CsvLedger
  import opened CsvInvariant
  import opened CsvPreserve

  // ---------------------------------------------------------------- what is written is what is read

  /** What a reader sees for a field, whether the row was written when the field was declared or the
      field took an extra value over later. */
  predicate Meaning(cal: Calendar, f: Field, declared: bool, given: Option<Value>, seen: Value) {
    if !declared && given.None? then seen == Null
    else FieldMeans(cal, f, if given.None? then Null else given.value, seen)
  }

  function Given(values: map<string, Value>, key: string): Option<Value> {
    if key in values then Some(values[key]) else None
  }

  /** A later field does not share its name with an earlier one. */
  lemma LaterName(fields: seq<Field>, latest: seq<Field>, i: nat)
    requires fields <= latest && Distinct(latest) && i < |latest|
    ensures latest[i].name in Names(fields) <==> i < |fields|
    ensures i < |fields| ==> latest[i] == fields[i]
    ensures Names(fields) <= Names(latest) && Distinct(fields)
  {
    hide Names, Distinct;
    var rest := latest[|fields|..];
    assert latest == fields + rest;
    DistinctConcat(fields, rest);
    NamesConcat(fields, rest);
    if i < |fields| { NameAt(fields, i); } else { NameAt(rest, i - |fields|); }
  }

  lemma OneValueReads(cal: Calendar, ctx: Context, fields: seq<Field>, values: map<string, Value>, eventId: string,
                      now: string, latest: seq<Field>, i: nat)
    requires DurableRow(cal, ctx, fields, values, eventId, now).Ok? && fields <= latest && Distinct(latest)
             && i < |latest|
    ensures var row := DurableRow(cal, ctx, fields, values, eventId, now).value;
            var v := VisibleField(cal, row, Names(fields), latest[i]);
            v.Ok? ==> Meaning(cal, latest[i], i < |fields|, Given(values, latest[i].name), v.value)
  {
    hide CanonField, PublicValue, Names, Distinct, KnownValues, ExtraOk, FieldMeans;
    LaterName(fields, latest, i);
    var f := latest[i];
    FieldIsTaken(cal, f, Get(values, f.name));
    if i < |fields| {
      KnownAt(cal, fields, values, i);
    } else {
      FieldIsTaken(cal, Optional(f), Get(values, f.name));
      OptionalMeans(cal, f);
    }
  }

  /** Whether a field is required has no part in what its values mean. */
  lemma OptionalMeans(cal: Calendar, f: Field)
    ensures forall v, seen :: FieldMeans(cal, Optional(f), v, seen) <==> FieldMeans(cal, f, v, seen)
  {
    hide Strip, Digits, ParseDec, Val;
  }

  /** Under every later schema that can show it, a stored row shows for each field
      what the value it was given means, and every other key with its value as it was given. */
  lemma WrittenIsRead(cal: Calendar, ctx: Context, fields: seq<Field>, values: map<string, Value>, eventId: string,
                      now: string, latest: seq<Field>)
    requires DurableRow(cal, ctx, fields, values, eventId, now).Ok? && fields <= latest && Distinct(latest)
    requires VisibleRow(cal, DurableRow(cal, ctx, fields, values, eventId, now).value, fields, latest).Ok?
    ensures var shown :=
            VisibleRow(cal, DurableRow(cal, ctx, fields, values, eventId, now).value, fields, latest).value;
            (forall i :: 0 <= i < |latest| ==>
               latest[i].name in shown
               && Meaning(cal, latest[i], i < |fields|, Given(values, latest[i].name), shown[latest[i].name]))
            && (forall k :: k in values && k !in Names(latest) ==> k in shown && shown[k] == values[k])
  {
    hide CanonField, PublicValue, Names, Distinct, KnownValues, VisibleFields, VisibleField, Meaning, Optional,
         ExtraOk;
    var row := DurableRow(cal, ctx, fields, values, eventId, now).value;
    var declared := VisibleFields(cal, row, Names(fields), latest).value;
    forall i | 0 <= i < |latest|
      ensures latest[i].name in declared
              && Meaning(cal, latest[i], i < |fields|, Given(values, latest[i].name), declared[latest[i].name])
      ensures latest[i].name !in LeftOver(row, Names(fields), latest)
    {
      ShownAt(cal, row, Names(fields), latest, i);
      OneValueReads(cal, ctx, fields, values, eventId, now, latest, i);
      LaterName(fields, latest, i);
      NameAt(latest, i);
    }
    NamesOfPrefix(fields, latest);
    VisibleFieldsOk(cal, row, Names(fields), latest);
  }

  /** What a stored text of a type stands for. */
  ghost predicate Denotes(ftype: FieldType, text: string, v: Value) {
    if text == "" then v == Null
    else
      match ftype
      case BooleanType => v == Bool(text == "true")
      case IntegerType => v.Int? && forall i: nat :: text == Digits(i) ==> v.i == i
      case _ => v == Str(text)
  }

  /** The row as a reader sees it: a field it was written under shows its stored text, a newer one
      what the extra value of its name means, and the other extra values are shown as they are.
      (No stored row has an extra value under a field of its own; it would be shown instead.) */
  ghost predicate ShowsStored(cal: Calendar, row: Row, own: seq<Field>, latest: seq<Field>, shown: map<string, Value>) {
    && (forall i :: 0 <= i < |latest| ==>
          latest[i].name in shown && ShowsCell(cal, row, own, latest[i], shown[latest[i].name]))
    && forall k :: k in row.extra && k !in Names(latest) ==> k in shown && shown[k] == row.extra[k]
  }

  ghost predicate ShowsCell(cal: Calendar, row: Row, own: seq<Field>, f: Field, seen: Value) {
    if f.name in Names(own) then
      if f.name in row.extra then seen == row.extra[f.name] else Denotes(f.ftype, Cell(row, f.name), seen)
    else if f.name in row.extra then FieldMeans(cal, f, row.extra[f.name], seen)
    else seen == Null
  }

  /** The newer field takes the extra value of its name. */
  ghost predicate Inherits(cal: Calendar, row: Row, own: seq<Field>, f: Field) {
    f.name !in Names(own) && f.name in row.extra ==> FieldTaken(cal, f.(required := false), row.extra[f.name])
  }

  lemma TextDenotes(ftype: FieldType, text: string)
    ensures Denotes(ftype, text, PublicValue(ftype, text))
  {
    hide Digits, ParseNat;
    forall i: nat | text == Digits(i)
      ensures ParseNat(text) == i
    {
      ParseDigits(i);
    }
  }

  lemma CellMeans(cal: Calendar, row: Row, own: seq<Field>, f: Field)
    ensures var v := VisibleField(cal, row, Names(own), f);
            (v.Ok? <==> Inherits(cal, row, own, f))
            && (v.Ok? && !(f.name in Names(own) && f.name in row.extra) ==> ShowsCell(cal, row, own, f, v.value))
  {
    hide CanonField, PublicValue, Names, FieldMeans, FieldTaken, Denotes;
    TextDenotes(f.ftype, Cell(row, f.name));
    if f.name in row.extra { FieldIsTaken(cal, Optional(f), row.extra[f.name]); }
    OptionalMeans(cal, f);
  }

  /** A row is shown exactly when the newer fields take what they inherit, and then shows just that. */
  lemma VisibleMeans(cal: Calendar, row: Row, own: seq<Field>, latest: seq<Field>)
    requires Distinct(latest)
    ensures VisibleRow(cal, row, own, latest).Ok? <==>
              forall i :: 0 <= i < |latest| ==> Inherits(cal, row, own, latest[i])
    ensures VisibleRow(cal, row, own, latest).Ok? ==>
              ShowsStored(cal, row, own, latest, VisibleRow(cal, row, own, latest).value)
  {
    hide VisibleField, VisibleFields, Names, Distinct, Inherits, Accepts;
    VisibleFieldsOk(cal, row, Names(own), latest);
    forall i | 0 <= i < |latest|
      ensures Inherits(cal, row, own, latest[i])
              <==> (latest[i].name !in Names(own) ==> Accepts(cal, latest[i], row.extra))
    {
      OneFieldOk(cal, row, Names(own), latest[i]);
      CellMeans(cal, row, own, latest[i]);
    }
    if VisibleRow(cal, row, own, latest).Ok? {
      forall i | 0 <= i < |latest|
        ensures var v := VisibleRow(cal, row, own, latest).value;
                latest[i].name in v && ShowsCell(cal, row, own, latest[i], v[latest[i].name])
      {
        hide Denotes, FieldMeans;
        ShownAt(cal, row, Names(own), latest, i);
        CellMeans(cal, row, own, latest[i]);
        NameAt(latest, i);
      }
    }
  }

  lemma NamesOfPrefix(fields: seq<Field>, latest: seq<Field>)
    requires fields <= latest
    ensures Names(fields) <= Names(latest)
  {
    NamesConcat(fields, latest[|fields|..]);
    assert latest == fields + latest[|fields|..];
  }

  // ---------------------------------------------------------------- from request to reader

  /** The canonical amount of a ledger request, or its delta. */
  function AmountMeant(direction: Value, amount: Value, delta: bool): Option<Value> {
    match AmountAndDelta(direction, amount)
    case Err(_) => None
    case Ok((a, b)) => Some(Str(if delta then b else a))
  }

  /** What each key of a ledger entry stands for. */
  function EntryMeant(raw: map<string, Value>, now: string, key: string): Option<Value> {
    if key == "amount" || key == "amount_delta" then
      AmountMeant(Get(raw, "direction"), Get(raw, "amount"), key == "amount_delta")
    else if key in raw then Some(raw[key])
    else if key == "occurred_at" then Some(Str(now))
    else if key == "account" then Some(Str("cash"))
    else if key == "currency" then Some(Str("CNY"))
    else None
  }

  /** What each key of a reversal stands for: four keys of the request count, with defaults from the
      reversed row, and the rest comes from that row alone. */
  function ReversalMeant(o: Row, raw: map<string, Value>, id: string, now: string, key: string): Option<Value> {
    var direction := Str(if Cell(o, "direction") == "income" then "expense" else "income");
    if key == REVERSES then Some(Str(id))
    else if key == "occurred_at" then Some(OrElse(Get(raw, key), Str(now)))
    else if key == "note" then Some(OrElse(Get(raw, key), Str("Reversal of " + id)))
    else if key == "category" then Some(OrElse(Get(raw, key), Str(Cell(o, key))))
    else if key == "account" || key == "currency" then Some(Str(Cell(o, key)))
    else if key == "direction" then Some(direction)
    else if key == "amount" || key == "amount_delta" then
      AmountMeant(direction, Str(Cell(o, "amount")), key == "amount_delta")
    else None
  }

  /** The value a key stands for, given or not: in a dataset of one's own the value given. */
  function Meant(preset: Preset, rows: seq<Row>, raw: map<string, Value>, now: string, key: string): Option<Value> {
    if preset.Custom? then Given(raw, key)
    else if !AsksReversal(raw) then EntryMeant(raw, now, key)
    else
      var id := EventIdText(Get(raw, REVERSES));
      match FindRow(rows, id)
      case None => None
      case Some(o) => ReversalMeant(o, raw, id, now, key)
  }

  /** A prepared row is its draft with the two amounts. */
  lemma PreparedIsDraft(rows: seq<Row>, raw: map<string, Value>, now: string)
    requires PrepareLedger(rows, raw, now).Ok?
    ensures DraftRow(rows, raw, now).Ok?
    ensures var draft := DraftRow(rows, raw, now).value;
            var r := AmountAndDelta(Get(draft, "direction"), Get(draft, "amount"));
            r.Ok? && PrepareLedger(rows, raw, now).value
                == draft["amount" := Str(r.value.0)]["amount_delta" := Str(r.value.1)]
  {
    hide DraftRow, AmountAndDelta;
  }

  lemma EntryHandedOn(rows: seq<Row>, raw: map<string, Value>, now: string, key: string)
    requires !AsksReversal(raw) && PrepareLedger(rows, raw, now).Ok?
    ensures EntryMeant(raw, now, key) == Given(PrepareLedger(rows, raw, now).value, key)
  {
    hide PrepareLedger, AsksReversal, AmountAndDelta;
    PreparedIsDraft(rows, raw, now);
  }

  lemma ReversalHandedOn(rows: seq<Row>, raw: map<string, Value>, now: string, key: string)
    requires AsksReversal(raw) && PrepareLedger(rows, raw, now).Ok?
    ensures var id := EventIdText(Get(raw, REVERSES));
            FindRow(rows, id).Some?
            && ReversalMeant(FindRow(rows, id).value, raw, id, now, key)
                == Given(PrepareLedger(rows, raw, now).value, key)
  {
    hide PrepareLedger, AsksReversal, AmountAndDelta, DraftRow, EventIdText, IsHexId, FindRow, ReversedBy, Cell,
         OrElse;
    PreparedIsDraft(rows, raw, now);
    TargetFacts(rows, raw, now);
  }

  /** Each key is handed on with exactly the value it stands for, or not at all. */
  lemma HandedOn(preset: Preset, rows: seq<Row>, raw: map<string, Value>, now: string, key: string)
    requires RowValues(preset, rows, raw, now).Ok?
    ensures Meant(preset, rows, raw, now, key) == Given(RowValues(preset, rows, raw, now).value, key)
  {
    hide PrepareLedger, AsksReversal, EntryMeant, ReversalMeant, EventIdText, FindRow;
    if preset.Ledger? {
      if AsksReversal(raw) { ReversalHandedOn(rows, raw, now, key); } else { EntryHandedOn(rows, raw, now, key); }
    }
  }

  lemma DurableKeys(cal: Calendar, ctx: Context, fields: seq<Field>, values: map<string, Value>, eventId: string,
                    now: string)
    requires DurableRow(cal, ctx, fields, values, eventId, now).Ok?
    ensures DurableRow(cal, ctx, fields, values, eventId, now).value.extra.Keys == values.Keys - Names(fields)
  {
    hide KnownValues, ExtraOk, Names;
  }

  /** What a reader sees under a key, given the value it stands for: a field shows the canonical
      form of the value, or its default; any other key shows the value, or is not there. */
  predicate Seen(cal: Calendar, fields: seq<Field>, latest: seq<Field>, shown: map<string, Value>, key: string,
                 meant: Option<Value>)
  {
    && Given(shown, key) == (if key in Names(latest) then Some(Get(shown, key)) else meant)
    && forall i :: 0 <= i < |latest| && latest[i].name == key ==>
         Meaning(cal, latest[i], i < |fields|, meant, Get(shown, key))
  }

  lemma StoredIsSeen(cal: Calendar, ctx: Context, fields: seq<Field>, values: map<string, Value>, eventId: string,
                     now: string, latest: seq<Field>, key: string)
    requires DurableRow(cal, ctx, fields, values, eventId, now).Ok? && fields <= latest && Distinct(latest)
    requires VisibleRow(cal, DurableRow(cal, ctx, fields, values, eventId, now).value, fields, latest).Ok?
    ensures Seen(cal, fields, latest,
                 VisibleRow(cal, DurableRow(cal, ctx, fields, values, eventId, now).value, fields, latest).value, key,
                 Given(values, key))
  {
    hide DurableRow, VisibleRow, Names, Distinct, Meaning, RowFits, Projects;
    var row := DurableRow(cal, ctx, fields, values, eventId, now).value;
    WrittenIsRead(cal, ctx, fields, values, eventId, now, latest);
    DurableKeys(cal, ctx, fields, values, eventId, now);
    DurableRowFits(cal, ctx, fields, values, eventId, now);
    NamesOfPrefix(fields, latest);
    RowShows(cal, row, fields, latest);
  }

  /** From request to reader: under the schema it was written for and under every later one that
      can show it, each key shows what it stands for in an accepted request, and no other key shows
      anything. In a reversal all keys but four stand for nothing, even when the schema declares
      them. */
  lemma AcceptedIsRead(env: Env, g: Group, ctx: Context, d: Dataset, s: Schema, raw: map<string, Value>,
                       eventId: string, t: Times, latest: seq<Field>, key: string)
    requires NewRow(env, g, ctx, d, s, raw, eventId, t).Ok?
    requires s.fields <= latest && Distinct(latest)
    requires VisibleRow(env.cal, NewRow(env, g, ctx, d, s, raw, eventId, t).value, s.fields, latest).Ok?
    ensures RowsToSearch(env, g, d, raw).Ok?
    ensures Seen(env.cal, s.fields, latest,
                 VisibleRow(env.cal, NewRow(env, g, ctx, d, s, raw, eventId, t).value, s.fields, latest).value, key,
                 Meant(d.preset, RowsToSearch(env, g, d, raw).value, raw, t.ledger, key))
  {
    hide DurableRow, RowsToSearch, RowValues, VisibleRow, Names, Distinct, Meant, Seen;
    var rows := RowsToSearch(env, g, d, raw).value;
    var values := RowValues(d.preset, rows, raw, t.ledger).value;
    HandedOn(d.preset, rows, raw, t.ledger, key);
    StoredIsSeen(env.cal, ctx, s.fields, values, eventId, t.row, latest, key);
  }

  /** A reversal depends on four keys only: any others, as long as they override nothing, can be
      added, changed or left out and the very same row is stored. */
  lemma ReversalIgnoresRest(env: Env, g: Group, ctx: Context, d: Dataset, s: Schema, raw: map<string, Value>,
                            raw': map<string, Value>, eventId: string, t: Times)
    requires d.preset.Ledger? && AsksReversal(raw) && (OverridesReversal(raw) <==> OverridesReversal(raw'))
    requires forall key :: key in {"occurred_at", "category", "note", REVERSES} ==> Get(raw, key) == Get(raw', key)
    ensures NewRow(env, g, ctx, d, s, raw', eventId, t) == NewRow(env, g, ctx, d, s, raw, eventId, t)
  {
    hide DurableRow, AllRows, EventIdText, IsHexId, FindRow, ReversedBy, Truthy, Cell, AmountAndDelta,
         OverridesReversal, OrElse;
    assert Get(raw, REVERSES) == Get(raw', REVERSES);
    assert Get(raw, "occurred_at") == Get(raw', "occurred_at");
    assert Get(raw, "category") == Get(raw', "category");
    assert Get(raw, "note") == Get(raw', "note");
  }

  // ---------------------------------------------------------------- a declared value that is lost

  const PROJECT_FIELD := Field("project", TextType, false, "", [], None, false)

  const AN_ID: string := Repeat('0', 32)

  /** A ledger whose later version declares a project. */
  const PROJECT_FIELDS: seq<Field> := LEDGER_FIELDS + [PROJECT_FIELD]

  /** An expense of 1 in that ledger. */
  const AN_EXPENSE: Row :=
    Row(AN_ID, "", "", "", "",
        map["occurred_at" := "t", "account" := "cash", "currency" := "CNY", "direction" := "expense", "amount" := "1",
            "amount_delta" := "-1", "category" := "c", "note" := "", REVERSES := "", "project" := ""], map[])

  /** A request to reverse it, for project X. */
  const A_REVERSAL: map<string, Value> := map[REVERSES := Str(AN_ID), "note" := Str("n"), "project" := Str("X")]

  /** What is handed on for it. */
  const PREPARED: map<string, Value> :=
    map["occurred_at" := Str("t"), "account" := Str("cash"), "currency" := Str("CNY"), "direction" := Str("income"),
        "amount" := Str("1"), "amount_delta" := Str("1"), "category" := Str("c"), "note" := Str("n"),
        REVERSES := Str(AN_ID)]

  lemma OneIsCanonical()
    ensures Strip("1") == "1" && ParseDec("1") == Some(Dec(false, 1, 0))
    ensures CanonText("1") == Some("1") && CanonDec(Dec(false, 1, 0)) == Some("1")
  {
    hide ParseDec, Strip, TrimText;
    assert NumberText(false, "1", None, None) == "1";
    assert ParseNat("1") == 1;
    ParseWhole(false, "1", None);
    var one := Dec(false, 1, 0);
    assert Digits(1) == "1" && ToSci(one) == "1" && ToFixed(one) == "1";
    hide ToSci, ToFixed, Digits, NumberText;
    NormOfNormal(one);
    CanonKeepsValue("1");
  }

  lemma IdIsHex()
    ensures IsHexId(AN_ID) && EventIdText(Str(AN_ID)) == AN_ID
  {
    hide Strip, Repeat;
    assert |AN_ID| == 32 && forall i :: 0 <= i < |AN_ID| ==> AN_ID[i] == '0';
    HexIsTrimmed(AN_ID);
    assert Lower(AN_ID) == AN_ID;
  }

  lemma TargetIsFound()
    ensures AsksReversal(A_REVERSAL) && !OverridesReversal(A_REVERSAL)
    ensures ReversalTarget([AN_EXPENSE], A_REVERSAL) == Ok(AN_EXPENSE)
  {
    IdIsHex();
    hide EventIdText, IsHexId;
    assert [AN_EXPENSE][..0] == [];
    assert FindRow([], AN_ID) == None;
    assert Cell(AN_EXPENSE, REVERSES) == "";
  }

  lemma ReversalIsPrepared()
    ensures PrepareLedger([AN_EXPENSE], A_REVERSAL, "t") == Ok(PREPARED)
  {
    TargetIsFound();
    IdIsHex();
    OneIsCanonical();
    hide EventIdText, IsHexId, ReversalTarget, CanonText, CanonDec, ParseDec, Strip, AsksReversal;
    assert DraftRow([AN_EXPENSE], A_REVERSAL, "t") == Ok(ReversalRow(AN_EXPENSE, A_REVERSAL, AN_ID, "t"));
    hide DraftRow;
    assert AmountAndDelta(Str("income"), Str("1")) == Ok(("1", "1"));
    hide AmountAndDelta;
    assert PrepareLedger([AN_EXPENSE], A_REVERSAL, "t").value == PREPARED;
  }

  lemma {:induction false} ShortText(s: string)
    ensures Utf8Length(s) <= 4 * |s|
  {
    if s == [] {
    } else {
      ShortText(s[1..]);
    }
  }

  /** A short text that starts and ends with a letter or a digit is stored as it is. */
  lemma PlainTextIsSafe(s: string, maximum: nat, required: bool)
    requires s != "" && 4 * |s| <= maximum && '\0' !in s && !StartsFormula(s)
    requires !IsSpace(s[0]) && !IsSpace(s[|s| - 1])
    ensures SafeText(Str(s), maximum, required) == Ok(s)
  {
    StripFixes(s);
    ShortText(s);
    hide Strip, Utf8Length;
  }

  /** A field accepts a value. */
  predicate Takes(cal: Calendar, f: Field, values: map<string, Value>) { CanonField(cal, f, Get(values, f.name)).Ok? }

  lemma {:induction false} KnownIfTaken(cal: Calendar, fields: seq<Field>, values: map<string, Value>)
    requires forall i :: 0 <= i < |fields| ==> Takes(cal, fields[i], values)
    ensures KnownValues(cal, fields, values).Ok?
  {
    hide CanonField;
    if fields == [] {
    } else {
      var init := fields[..|fields| - 1];
      assert forall i :: 0 <= i < |init| ==> init[i] == fields[i];
      KnownIfTaken(cal, init, values);
      assert Takes(cal, fields[|fields| - 1], values);
    }
  }

  lemma TextIsTaken(cal: Calendar, f: Field, values: map<string, Value>, t: string)
    requires Get(values, f.name) == Str(t) && t != ""
    requires match f.ftype
             case TextType => SafeText(Str(t), 4096, false) == Ok(t)
             case EnumType => SafeText(Str(t), 256, true) == Ok(t) && t in f.enum
             case DatetimeType => SafeText(Str(t), 80, true) == Ok(t) && cal.datetime(t).Some?
             case DecimalType => CanonText(t) == Some(t)
             case _ => false
    ensures Takes(cal, f, values)
  {
    hide SafeText, CanonText;
  }

  lemma PreparedValues()
    ensures Get(PREPARED, "occurred_at") == Str("t") && Get(PREPARED, "account") == Str("cash")
    ensures Get(PREPARED, "currency") == Str("CNY") && Get(PREPARED, "direction") == Str("income")
    ensures Get(PREPARED, "amount") == Str("1") && Get(PREPARED, "amount_delta") == Str("1")
    ensures Get(PREPARED, "category") == Str("c") && Get(PREPARED, "note") == Str("n")
    ensures Get(PREPARED, REVERSES) == Str(AN_ID) && Get(PREPARED, "project") == Null
  {
    hide Repeat;
  }

  lemma TextsAreTaken(cal: Calendar)
    requires cal.datetime("t").Some?
    ensures Takes(cal, OCCURRED_FIELD, PREPARED) && Takes(cal, ACCOUNT_FIELD, PREPARED)
    ensures Takes(cal, CURRENCY_FIELD, PREPARED) && Takes(cal, DIRECTION_FIELD, PREPARED)
  {
    hide SafeText, CanonText, Utf8Length, IsSpace, Takes, PREPARED, StartsFormula, IsSpace;
    PreparedValues();
    ShortWords();
    TextIsTaken(cal, OCCURRED_FIELD, PREPARED, "t");
    TextIsTaken(cal, ACCOUNT_FIELD, PREPARED, "cash");
    TextIsTaken(cal, CURRENCY_FIELD, PREPARED, "CNY");
    TextIsTaken(cal, DIRECTION_FIELD, PREPARED, "income");
  }

  lemma ShortWords()
    ensures SafeText(Str("t"), 80, true) == Ok("t") && SafeText(Str("cash"), 4096, false) == Ok("cash")
    ensures SafeText(Str("CNY"), 4096, false) == Ok("CNY") && SafeText(Str("income"), 256, true) == Ok("income")
  {
    hide SafeText;
    PlainTextIsSafe("t", 80, true);
    PlainTextIsSafe("cash", 4096, false);
    PlainTextIsSafe("CNY", 4096, false);
    PlainTextIsSafe("income", 256, true);
  }

  lemma OtherWords()
    ensures SafeText(Str("c"), 4096, false) == Ok("c") && SafeText(Str("n"), 4096, false) == Ok("n")
    ensures SafeText(Str(AN_ID), 4096, false) == Ok(AN_ID) && AN_ID != ""
  {
    hide SafeText, Repeat;
    PlainTextIsSafe("c", 4096, false);
    PlainTextIsSafe("n", 4096, false);
    assert |AN_ID| == 32 && forall i :: 0 <= i < |AN_ID| ==> AN_ID[i] == '0';
    PlainTextIsSafe(AN_ID, 4096, false);
  }

  lemma OthersAreTaken(cal: Calendar)
    ensures Takes(cal, AMOUNT_FIELD, PREPARED) && Takes(cal, DELTA_FIELD, PREPARED)
    ensures Takes(cal, CATEGORY_FIELD, PREPARED) && Takes(cal, NOTE_FIELD, PREPARED)
    ensures Takes(cal, REVERSES_FIELD, PREPARED) && Takes(cal, PROJECT_FIELD, PREPARED)
  {
    OneIsCanonical();
    hide SafeText, CanonText, CanonDec, ParseDec, Strip, PREPARED, AN_ID;
    PreparedValues();
    OtherWords();
    TextIsTaken(cal, CATEGORY_FIELD, PREPARED, "c");
    TextIsTaken(cal, NOTE_FIELD, PREPARED, "n");
    TextIsTaken(cal, REVERSES_FIELD, PREPARED, AN_ID);
    TextIsTaken(cal, AMOUNT_FIELD, PREPARED, "1");
    TextIsTaken(cal, DELTA_FIELD, PREPARED, "1");
  }

  lemma AllTaken(cal: Calendar)
    requires cal.datetime("t").Some?
    ensures KnownValues(cal, PROJECT_FIELDS, PREPARED).Ok?
  {
    hide Takes, PREPARED, KnownValues;
    TextsAreTaken(cal);
    OthersAreTaken(cal);
    KnownIfTaken(cal, PROJECT_FIELDS, PREPARED);
  }

  lemma LedgerKeysAreLegal(k: string)
    requires k in ["occurred_at", "account", "currency", "direction", "amount", "amount_delta", "category", "note",
                   REVERSES]
    ensures KeyOk(k)
  {
  }

  lemma PreparedKeys()
    ensures PREPARED.Keys == {"occurred_at", "account", "currency", "direction", "amount", "amount_delta", "category",
                              "note", REVERSES}
  {
    hide AN_ID;
  }

  lemma KeysAreLegal()
    ensures ExtraOk(PROJECT_FIELDS, PREPARED) && Distinct(PROJECT_FIELDS)
  {
    hide PREPARED, Names, Distinct, KeyOk, LEDGER_FIELDS, ExtraValueOk;
    PreparedKeys();
    LedgerFieldsDistinct();
    ProjectJoins();
    forall k | k in PREPARED
      ensures KeyOk(k) && k in Names(PROJECT_FIELDS)
    {
      LedgerKeysAreLegal(k);
    }
  }

  lemma ProjectJoins()
    ensures Names(PROJECT_FIELDS) == Names(LEDGER_FIELDS) + {"project"}
    ensures Distinct(LEDGER_FIELDS) && "project" !in Names(LEDGER_FIELDS) ==> Distinct(PROJECT_FIELDS)
  {
    hide LEDGER_FIELDS;
    assert PROJECT_FIELDS[..|PROJECT_FIELDS| - 1] == LEDGER_FIELDS;
  }

  /** A reversal with a project is accepted under a schema that declares the project, and a
      reader sees no project. */
  lemma ProjectIsLost(cal: Calendar, ctx: Context, eventId: string, now: string)
    requires cal.datetime("t").Some?
    ensures RowValues(Ledger, [AN_EXPENSE], A_REVERSAL, "t") == Ok(PREPARED)
    ensures DurableRow(cal, ctx, PROJECT_FIELDS, PREPARED, eventId, now).Ok?
    ensures A_REVERSAL["project"] == Str("X") && PROJECT_FIELDS[9] == PROJECT_FIELD
    ensures Cell(DurableRow(cal, ctx, PROJECT_FIELDS, PREPARED, eventId, now).value, "project") == ""
  {
    hide PREPARED, KnownValues, ExtraOk, Names, Distinct, AN_ID, AN_EXPENSE, PrepareLedger, LEDGER_FIELDS;
    ReversalIsPrepared();
    AllTaken(cal);
    KeysAreLegal();
    NoProject();
    assert PROJECT_FIELDS[9] == PROJECT_FIELD;
    KnownAt(cal, PROJECT_FIELDS, PREPARED, 9);
  }

  lemma NoProject()
    ensures A_REVERSAL["project"] == Str("X") && Get(PREPARED, "project") == Null
    ensures |PROJECT_FIELDS| == 10 && PROJECT_FIELDS[9] == PROJECT_FIELD
  {
    hide AN_ID;
    PreparedValues();
  }
}
