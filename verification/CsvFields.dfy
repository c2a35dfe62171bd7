/** Fields and values of the CSV workspace: what a schema field accepts, the text it stores,
    and how a stored row is shown under a newer schema. */
module CsvFields {
  import opened Text
  import opened Decimals

  const MAX_FIELDS_PER_SCHEMA: nat := 32

  /** A JSON value as the tools pass it in. Floats and containers are carried by the text
      that Python's `str` gives for them. */
  datatype Value =
    | Null
    | Bool(b: bool)
    | Int(i: int)
    | Float(repr: string)
    | Str(s: string)
    | Composite(repr: string)

  datatype FieldType = TextType | DecimalType | IntegerType | BooleanType | DateType | DatetimeType | EnumType

  /** A field of a stored schema. */
  datatype Field = Field(
    name: string, ftype: FieldType, required: bool, description: string,
    enum: seq<string>, default: Option<Value>, generated: bool)

  /** A field as a caller describes it. */
  datatype RawField = RawField(
    name: string, ftype: FieldType, required: bool, description: Value,
    enum: Option<seq<Value>>, default: Option<Value>)

  /** Why an operation is refused. */
  datatype Reason =
    | ContextInvalid | TextInvalid | TextTooLong | FormulaPrefix
    | FieldRequired | NotDecimal | NotInteger | NotBoolean | NotDate | NotInEnum
    | TooManyFields | FieldNameInvalid | FieldDuplicated | NewFieldRequired | EnumInvalid
    | ExtraInvalid | SystemFieldSupplied
    | CsvIdInvalid | CsvIdUnknown | TooManyDatasets | LedgerFieldsGiven | NoFields
    | PresetInvalid | RenamesDataset | ChangesPreset | ReplayDiffers | TooManyVersions
    | GroupQuota | FileQuota | RowTooLarge
    | EventIdInvalid | ReversalOverrides | ReversalTargetMissing | ReversalOfReversal
    | AlreadyReversed | DeltaSupplied | DirectionInvalid | AmountInvalid
    | BalanceTooLong | QueryInvalid | SumFieldInvalid | Crashed | Integrity

  /** Canonical forms of dates and datetimes, as the `datetime` library defines them. */
  datatype Calendar = Calendar(date: string -> Option<string>, datetime: string -> Option<string>)

  /** `str(value)`. */
  function PyStr(v: Value): string {
    match v
    case Null => "None"
    case Bool(b) => if b then "True" else "False"
    case Int(i) => if i < 0 then "-" + Digits(0 - i) else Digits(i)
    case Float(r) => r
    case Str(s) => s
    case Composite(r) => r
  }

  /** `bool(value)`. */
  predicate Truthy(v: Value) {
    match v
    case Null => false
    case Bool(b) => b
    case Int(i) => i != 0
    case Float(r) => r != "0.0" && r != "-0.0"
    case Str(s) => s != ""
    case Composite(r) => r != "[]" && r != "{}"
  }

  function Get(m: map<string, Value>, key: string): Value { if key in m then m[key] else Null }

  predicate StartsFormula(s: string) { s != [] && s[0] in {'=', '+', '-', '@', '\t', '\r'} }

  /** `_safe_visible_text`. */
  function SafeText(v: Value, maximum: nat, required: bool): Result<string, Reason> {
    if required && !v.Str? then Err(TextInvalid)
    else
      var t := Strip(if v.Null? then "" else PyStr(v));
      if required && t == "" then Err(TextInvalid)
      else if Utf8Length(t) > maximum then Err(TextTooLong)
      else if '\0' in t then Err(TextInvalid)
      else if StartsFormula(t) then Err(FormulaPrefix)
      else Ok(t)
  }

  function FromOption(o: Option<string>, e: Reason): Result<string, Reason> {
    match o case None => Err(e) case Some(s) => Ok(s)
  }

  /** `_canonical_decimal` on a JSON value. */
  function CanonNumber(v: Value): Result<string, Reason> {
    if v.Bool? || v.Null? then Err(NotDecimal) else FromOption(CanonText(PyStr(v)), NotDecimal)
  }

  /** A non-negative integer is accepted in its own canonical text, optionally after a plus
      sign; Python converts at most 4300 digits. */
  function CanonInteger(v: Value): Result<string, Reason> {
    var t := Strip(PyStr(v));
    var u := if t != [] && t[0] == '+' then t[1..] else t;
    if v.Bool? || |u| > 4300 || Span(u) != |u| || u != Digits(ParseNat(u)) then Err(NotInteger) else Ok(u)
  }

  function CanonTyped(cal: Calendar, f: Field, v: Value): Result<string, Reason> {
    match f.ftype
    case TextType => SafeText(v, 4096, false)
    case DecimalType => CanonNumber(v)
    case IntegerType => CanonInteger(v)
    case BooleanType => if v.Bool? then Ok(if v.b then "true" else "false") else Err(NotBoolean)
    case DateType =>
      (match SafeText(v, 32, true) case Err(e) => Err(e) case Ok(t) => FromOption(cal.date(t), NotDate))
    case DatetimeType =>
      (match SafeText(v, 80, true) case Err(e) => Err(e) case Ok(t) => FromOption(cal.datetime(t), NotDate))
    case EnumType =>
      (match SafeText(v, 256, true) case Err(e) => Err(e) case Ok(t) => if t in f.enum then Ok(t) else Err(NotInEnum))
  }

  predicate Blank(v: Value) { v == Null || v == Str("") }

  /** `_canonical_field_value`: a blank value takes the default or stays blank. */
  function CanonField(cal: Calendar, f: Field, v: Value): Result<string, Reason> {
    if Blank(v) && f.default.None? then (if f.required then Err(FieldRequired) else Ok(""))
    else CanonTyped(cal, f, if Blank(v) then f.default.value else v)
  }

  /** `_public_value`. */
  function PublicValue(t: FieldType, text: string): Value {
    if text == "" then Null
    else match t
      case BooleanType => Bool(text == "true")
      case IntegerType => Int(ParseNat(text))
      case _ => Str(text)
  }

  // ---------------------------------------------------------------- schemas

  function Names(fields: seq<Field>): set<string> {
    if fields == [] then {} else Names(fields[..|fields| - 1]) + {fields[|fields| - 1].name}
  }

  predicate Distinct(fields: seq<Field>) {
    fields != [] ==>
      Distinct(fields[..|fields| - 1]) && fields[|fields| - 1].name !in Names(fields[..|fields| - 1])
  }

  lemma {:induction false} NamesConcat(a: seq<Field>, b: seq<Field>)
    ensures Names(a + b) == Names(a) + Names(b)
  {
    if b == [] {
      assert a + b == a;
    } else {
      NamesConcat(a, b[..|b| - 1]);
      assert (a + b)[..|a + b| - 1] == a + b[..|b| - 1];
    }
  }

  lemma {:induction false} DistinctConcat(a: seq<Field>, b: seq<Field>)
    ensures Distinct(a + b) <==> Distinct(a) && Distinct(b) && Names(a) !! Names(b)
  {
    if b == [] {
      assert a + b == a;
    } else {
      var b' := b[..|b| - 1];
      DistinctConcat(a, b');
      NamesConcat(a, b');
      assert (a + b)[..|a + b| - 1] == a + b';
    }
  }

  lemma {:induction false} NameAt(fields: seq<Field>, i: nat)
    requires i < |fields|
    ensures fields[i].name in Names(fields)
  {
    if i == |fields| - 1 {
    } else {
      NameAt(fields[..|fields| - 1], i);
    }
  }

  /** `FIELD_NAME_RE`. */
  predicate NameOk(s: string) {
    1 <= |s| <= 64 && forall c :: c in s ==> (c as int) > 0x1F && c as int != 0x7F && c !in {',', '/', '\\'}
  }

  function CleanEnum(values: seq<Value>): Result<seq<string>, Reason> {
    if values == [] then Ok([])
    else
      match CleanEnum(values[..|values| - 1])
      case Err(e) => Err(e)
      case Ok(done) =>
        match SafeText(values[|values| - 1], 256, true)
        case Err(e) => Err(e)
        case Ok(t) => if t in done then Err(EnumInvalid) else Ok(done + [t])
  }

  function EnumValues(raw: RawField): Result<seq<string>, Reason> {
    match raw.enum
    case None => if raw.ftype.EnumType? then Err(EnumInvalid) else Ok([])
    case Some(values) =>
      if raw.ftype.EnumType? && 1 <= |values| <= 100 then CleanEnum(values) else Err(EnumInvalid)
  }

  function NormalizeField(cal: Calendar, raw: RawField, added: bool, seen: seq<Field>): Result<Field, Reason> {
    var name := Strip(raw.name);
    if !NameOk(name) || name[0] == '_' then Err(FieldNameInvalid)
    else if StartsFormula(name) then Err(FormulaPrefix)
    else if name in Names(seen) then Err(FieldDuplicated)
    else if added && raw.required then Err(NewFieldRequired)
    else
      match SafeText(raw.description, 500, false)
      case Err(e) => Err(e)
      case Ok(description) =>
        match EnumValues(raw)
        case Err(e) => Err(e)
        case Ok(enum) =>
          var f := Field(name, raw.ftype, raw.required, description, enum, raw.default, false);
          if raw.default.Some? && CanonField(cal, f, raw.default.value).Err?
          then Err(CanonField(cal, f, raw.default.value).error)
          else Ok(f)
  }

  function NormalizeAll(cal: Calendar, raw: seq<RawField>, added: bool): Result<seq<Field>, Reason> {
    if raw == [] then Ok([])
    else
      match NormalizeAll(cal, raw[..|raw| - 1], added)
      case Err(e) => Err(e)
      case Ok(done) =>
        match NormalizeField(cal, raw[|raw| - 1], added, done)
        case Err(e) => Err(e)
        case Ok(f) => Ok(done + [f])
  }

  /** `_normalize_fields`. */
  function NormalizeFields(cal: Calendar, raw: seq<RawField>, added: bool): Result<seq<Field>, Reason> {
    if |raw| > MAX_FIELDS_PER_SCHEMA then Err(TooManyFields) else NormalizeAll(cal, raw, added)
  }

  predicate AllOptional(fields: seq<Field>) { forall f :: f in fields ==> !f.required }

  lemma NormalizeFieldName(cal: Calendar, raw: RawField, added: bool, seen: seq<Field>)
    requires NormalizeField(cal, raw, added, seen).Ok?
    ensures var f := NormalizeField(cal, raw, added, seen).value;
            f.name !in Names(seen) && (added ==> !f.required) && !f.generated
            && (f.default.Some? ==> CanonField(cal, f, f.default.value).Ok?)
  {
    hide Strip, SafeText, EnumValues, NameOk, CanonField, Names;
  }

  /** Accepted fields have distinct names, and the added ones are optional. */
  lemma {:induction false} NormalizedFields(cal: Calendar, raw: seq<RawField>, added: bool)
    requires NormalizeAll(cal, raw, added).Ok?
    ensures var fs := NormalizeAll(cal, raw, added).value;
            |fs| == |raw| && Distinct(fs) && (added ==> AllOptional(fs))
  {
    hide NormalizeField, Names;
    if raw == [] {
    } else {
      NormalizedFields(cal, raw[..|raw| - 1], added);
      var done := NormalizeAll(cal, raw[..|raw| - 1], added).value;
      NormalizeFieldName(cal, raw[|raw| - 1], added, done);
      var f := NormalizeField(cal, raw[|raw| - 1], added, done).value;
      assert (done + [f])[..|done|] == done;
    }
  }

  // ---------------------------------------------------------------- rows

  /** A stored row: system columns, the text of every schema field, and the extra data. */
  datatype Row = Row(
    eventId: string, createdAt: string, actorId: string, actorName: string, messageId: string,
    known: map<string, string>, extra: map<string, Value>)

  /** `row.get(name, "")`. */
  function Cell(row: Row, name: string): string { if name in row.known then row.known[name] else "" }

  /** The text of every field, in schema order so that the first bad field is reported. */
  function KnownValues(cal: Calendar, fields: seq<Field>, raw: map<string, Value>)
    : Result<map<string, string>, Reason>
  {
    if fields == [] then Ok(map[])
    else
      var f := fields[|fields| - 1];
      match KnownValues(cal, fields[..|fields| - 1], raw)
      case Err(e) => Err(e)
      case Ok(done) =>
        match CanonField(cal, f, Get(raw, f.name))
        case Err(e) => Err(e)
        case Ok(t) => Ok(done[f.name := t])
  }

  lemma {:induction false} KnownKeys(cal: Calendar, fields: seq<Field>, raw: map<string, Value>)
    requires KnownValues(cal, fields, raw).Ok?
    ensures KnownValues(cal, fields, raw).value.Keys == Names(fields)
  {
    hide CanonField;
    if fields == [] {
    } else {
      KnownKeys(cal, fields[..|fields| - 1], raw);
    }
  }

  /** Every stored text is the canonical form of the value given for that field. */
  lemma {:induction false} KnownAt(cal: Calendar, fields: seq<Field>, raw: map<string, Value>, i: nat)
    requires KnownValues(cal, fields, raw).Ok? && Distinct(fields) && i < |fields|
    ensures var known := KnownValues(cal, fields, raw).value;
            fields[i].name in known
            && CanonField(cal, fields[i], Get(raw, fields[i].name)) == Ok(known[fields[i].name])
  {
    hide CanonField, Names;
    if i == |fields| - 1 {
    } else {
      KnownAt(cal, fields[..|fields| - 1], raw, i);
      NameAt(fields[..|fields| - 1], i);
    }
  }

  predicate KeyOk(key: string) { NameOk(key) && key[0] != '_' && !StartsFormula(key) }

  predicate ExtraValueOk(v: Value) {
    match v
    case Null => true
    case Bool(_) => true
    case Int(i) => i >= 0
    case Float(r) => ParseDec(r).Some? && Signed(ParseDec(r).value) >= 0
    case Str(s) => SafeText(v, 4096, false).Ok?
    case Composite(_) => false
  }

  /** Every key is a legal name, and every undeclared value is a plain one. */
  predicate ExtraOk(fields: seq<Field>, raw: map<string, Value>) {
    forall k :: k in raw ==> KeyOk(k) && (k !in Names(fields) ==> ExtraValueOk(raw[k]))
  }

  function ExtraOf(fields: seq<Field>, raw: map<string, Value>): (m: map<string, Value>)
    ensures m.Keys == raw.Keys - Names(fields)
  {
    map k | k in raw && k !in Names(fields) :: raw[k]
  }

  // ---------------------------------------------------------------- showing a row

  function Optional(f: Field): Field { f.(required := false) }

  /** What a row shows for one field of the newest schema. */
  function VisibleField(cal: Calendar, row: Row, own: set<string>, f: Field): Result<Value, Reason> {
    if f.name in own then Ok(PublicValue(f.ftype, Cell(row, f.name)))
    else if f.name in row.extra then
      match CanonField(cal, Optional(f), row.extra[f.name])
      case Err(e) => Err(e)
      case Ok(t) => Ok(PublicValue(f.ftype, t))
    else Ok(Null)
  }

  function VisibleFields(cal: Calendar, row: Row, own: set<string>, latest: seq<Field>)
    : Result<map<string, Value>, Reason>
  {
    if latest == [] then Ok(map[])
    else
      var f := latest[|latest| - 1];
      match VisibleFields(cal, row, own, latest[..|latest| - 1])
      case Err(e) => Err(e)
      case Ok(done) =>
        match VisibleField(cal, row, own, f)
        case Err(e) => Err(e)
        case Ok(v) => Ok(done[f.name := v])
  }

  /** The extra data that no field of the newest schema has taken over. */
  function LeftOver(row: Row, own: set<string>, latest: seq<Field>): map<string, Value> {
    map k | k in row.extra && !(k in Names(latest) && k !in own) :: row.extra[k]
  }

  /** The "fields" part of `_public_row`. */
  function VisibleRow(cal: Calendar, row: Row, own: seq<Field>, latest: seq<Field>)
    : Result<map<string, Value>, Reason>
  {
    match VisibleFields(cal, row, Names(own), latest)
    case Err(e) => Err(e)
    case Ok(shown) => Ok(shown + LeftOver(row, Names(own), latest))
  }

  /** A row fits the schema it was written under. */
  predicate RowFits(row: Row, own: seq<Field>) {
    row.known.Keys == Names(own) && row.extra.Keys !! Names(own)
  }

  /** The extra value that a newer field takes over, if any, is acceptable to that field. */
  predicate Accepts(cal: Calendar, f: Field, extra: map<string, Value>) {
    f.name in extra ==> CanonField(cal, Optional(f), extra[f.name]).Ok?
  }

  /** Every newer field accepts the extra value it takes over. */
  predicate Projects(cal: Calendar, row: Row, own: set<string>, latest: seq<Field>) {
    forall f :: f in latest && f.name !in own ==> Accepts(cal, f, row.extra)
  }

  lemma ProjectsSnoc(cal: Calendar, row: Row, own: set<string>, init: seq<Field>, f: Field)
    ensures Projects(cal, row, own, init + [f]) <==>
              Projects(cal, row, own, init) && (f.name !in own ==> Accepts(cal, f, row.extra))
  {
    hide Accepts;
    assert f in init + [f];
    assert forall x :: x in init + [f] <==> x in init || x == f;
  }

  lemma VisibleSnoc(cal: Calendar, row: Row, own: set<string>, init: seq<Field>, f: Field)
    ensures VisibleFields(cal, row, own, init + [f]) ==
            match VisibleFields(cal, row, own, init)
            case Err(e) => Err(e)
            case Ok(done) =>
              match VisibleField(cal, row, own, f)
              case Err(e) => Err(e)
              case Ok(v) => Ok(done[f.name := v])
    ensures Names(init + [f]) == Names(init) + {f.name}
  {
    hide VisibleField;
    assert (init + [f])[..|init|] == init;
  }

  lemma OneFieldOk(cal: Calendar, row: Row, own: set<string>, f: Field)
    ensures VisibleField(cal, row, own, f).Ok? <==> (f.name !in own ==> Accepts(cal, f, row.extra))
  {
    hide CanonField, PublicValue, Optional;
  }

  lemma {:induction false} VisibleFieldsOk(cal: Calendar, row: Row, own: set<string>, latest: seq<Field>)
    ensures VisibleFields(cal, row, own, latest).Ok? <==> Projects(cal, row, own, latest)
    ensures VisibleFields(cal, row, own, latest).Ok? ==>
              VisibleFields(cal, row, own, latest).value.Keys == Names(latest)
  {
    if latest == [] {
    } else {
      hide VisibleField, VisibleFields, Projects, Accepts, Names;
      var init, f := latest[..|latest| - 1], latest[|latest| - 1];
      assert latest == init + [f];
      VisibleFieldsOk(cal, row, own, init);
      VisibleSnoc(cal, row, own, init, f);
      ProjectsSnoc(cal, row, own, init, f);
      OneFieldOk(cal, row, own, f);
    }
  }

  /** A stored row can be shown under a newer schema exactly when the newer fields accept the
      extra values they take over; then every field and every extra key shows once. */
  lemma RowShows(cal: Calendar, row: Row, own: seq<Field>, latest: seq<Field>)
    requires RowFits(row, own) && Names(own) <= Names(latest)
    ensures VisibleRow(cal, row, own, latest).Ok? <==> Projects(cal, row, Names(own), latest)
    ensures VisibleRow(cal, row, own, latest).Ok? ==>
              VisibleRow(cal, row, own, latest).value.Keys == Names(latest) + row.extra.Keys
  {
    hide VisibleFields, Names, Projects;
    VisibleFieldsOk(cal, row, Names(own), latest);
  }

  /** Each shown value is that of its own field. */
  lemma {:induction false} ShownAt(cal: Calendar, row: Row, own: set<string>, latest: seq<Field>, i: nat)
    requires VisibleFields(cal, row, own, latest).Ok? && Distinct(latest) && i < |latest|
    ensures var shown := VisibleFields(cal, row, own, latest).value;
            latest[i].name in shown && VisibleField(cal, row, own, latest[i]) == Ok(shown[latest[i].name])
  {
    hide VisibleField, Names;
    if i == |latest| - 1 {
    } else {
      ShownAt(cal, row, own, latest[..|latest| - 1], i);
      NameAt(latest[..|latest| - 1], i);
    }
  }
}
