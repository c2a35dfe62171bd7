/** What a query answers, said with the rows, the fields and the filters as they were given. */
module CsvFiltering {
  import opened Text
  import opened Decimals
  import opened DecimalSums
  import opened CsvFields
  import opened CsvMeaning
  import opened CsvStore
  import opened CsvInvariant
  import opened CsvPreserve
  import opened CsvAppend
  import opened CsvSteps
  import opened CsvReplay
  import opened CsvQuery
  import opened CsvReading

  // ---------------------------------------------------------------- one filter

  predicate Declares(fields: seq<Field>, name: string) { exists i :: 0 <= i < |fields| && fields[i].name == name }

  /** An event id as a filter gives it: any letter case, spaces around it allowed. */
  function IdGiven(v: Value): string { Lower(Strip(if v.Str? then v.s else PyStr(v))) }

  /** A row passes a filter: the id of its event, or the value it shows under the name, is the one
      asked for. For a declared field that is what the given value means there. */
  ghost predicate Passes(cal: Calendar, same: (Value, Value) -> bool, fields: seq<Field>, row: Shown, name: string,
                         v: Value)
  {
    if name == "_event_id" then same(Str(row.eventId), Str(IdGiven(v)))
    else if Declares(fields, name) then
      exists i, w :: 0 <= i < |fields| && fields[i].name == name && FieldMeans(cal, fields[i], v, w)
                     && same(Get(row.fields, name), w)
    else same(Get(row.fields, name), v)
  }

  ghost predicate PassesAll(cal: Calendar, same: (Value, Value) -> bool, fields: seq<Field>, row: Shown,
                            filters: seq<(string, Value)>)
  {
    forall i :: 0 <= i < |filters| ==> Passes(cal, same, fields, row, filters[i].0, filters[i].1)
  }

  /** A name that a field may have, or a filter ask for. */
  predicate LegalName(name: string) {
    1 <= |name| <= 64
    && forall c :: c in name ==> c as int >= 0x20 && c as int != 0x7F && c != ',' && c != '/' && c != '\\'
  }

  /** A filter that a query accepts; the value of a declared field is optional. */
  ghost predicate FilterTaken(cal: Calendar, fields: seq<Field>, name: string, v: Value) {
    if name == "_event_id" then IsHexId(IdGiven(v))
    else if Declares(fields, name) then
      forall i :: 0 <= i < |fields| && fields[i].name == name ==> FieldTaken(cal, fields[i].(required := false), v)
    else LegalName(name)
  }

  lemma {:induction false} FieldNamedIs(fields: seq<Field>, name: string)
    requires Distinct(fields)
    ensures FieldNamed(fields, name).Some? <==> Declares(fields, name)
    ensures FieldNamed(fields, name).Some? ==> FieldNamed(fields, name).value.name == name
    ensures forall i :: 0 <= i < |fields| && fields[i].name == name ==> FieldNamed(fields, name) == Some(fields[i])
  {
    if fields == [] {
    } else {
      var n := |fields| - 1;
      FieldNamedIs(fields[..n], name);
      assert forall i :: 0 <= i < n ==> fields[..n][i] == fields[i];
      if fields[n].name == name {
        forall i | 0 <= i < n
          ensures fields[i].name != name
        {
          NameAt(fields[..n], i);
        }
      } else if Declares(fields[..n], name) {
        var i :| 0 <= i < n && fields[..n][i].name == name;
        assert fields[i].name == name;
      }
    }
  }

  lemma LegalNames(name: string)
    ensures NameOk(name) <==> LegalName(name)
  {
  }

  lemma IdMeans(v: Value)
    ensures EventIdText(v) == IdGiven(v)
  {
    hide Lower, Strip;
    TextOfText(v);
  }

  /** A filter is accepted exactly when it should be, and compared with the value it asks for. */
  lemma FilterMeans(cal: Calendar, same: (Value, Value) -> bool, fields: seq<Field>, name: string, v: Value, row: Shown)
    requires Distinct(fields)
    ensures FilterValue(cal, fields, name, v).Ok? <==> FilterTaken(cal, fields, name, v)
    ensures FilterValue(cal, fields, name, v).Ok? ==>
              (same(if name == "_event_id" then Str(row.eventId) else Get(row.fields, name),
                    FilterValue(cal, fields, name, v).value)
               <==> Passes(cal, same, fields, row, name, v))
  {
    hide Distinct, FieldNamed, CanonField, PublicValue, FieldMeans, FieldTaken, NameOk, LegalName, IsHexId, IdGiven,
         EventIdText;
    if name == "_event_id" {
      IdMeans(v);
    } else {
      FieldNamedIs(fields, name);
      if Declares(fields, name) {
        var f := FieldNamed(fields, name).value;
        var i :| 0 <= i < |fields| && fields[i].name == name;
        FieldIsTaken(cal, Optional(f), v);
        OptionalMeans(cal, f);
        if FieldTaken(cal, f.(required := false), v) {
          OneMeaning(cal, f, v, FilterValue(cal, fields, name, v).value);
        }
      } else {
        LegalNames(name);
      }
    }
  }

  lemma OneMeaning(cal: Calendar, f: Field, v: Value, w: Value)
    requires FieldMeans(cal, f, v, w)
    ensures forall w' :: FieldMeans(cal, f, v, w') ==> w' == w
  {
    forall w' | FieldMeans(cal, f, v, w')
      ensures w' == w
    {
      FieldMeansOne(cal, f, v, w, w');
    }
  }

  /** The accepted filters together. */
  lemma {:induction false} FiltersMean(cal: Calendar, same: (Value, Value) -> bool, fields: seq<Field>,
                                       filters: seq<(string, Value)>, row: Shown)
    requires Distinct(fields)
    ensures NormalizeFilters(cal, fields, filters).Ok? <==>
              forall i :: 0 <= i < |filters| ==> FilterTaken(cal, fields, filters[i].0, filters[i].1)
    ensures NormalizeFilters(cal, fields, filters).Ok? ==>
              (Matches(same, row, NormalizeFilters(cal, fields, filters).value)
               <==> PassesAll(cal, same, fields, row, filters))
  {
    hide Distinct, FilterValue, FilterTaken, Passes;
    if filters == [] {
    } else {
      var n := |filters| - 1;
      var init, last := filters[..n], filters[n];
      FiltersMean(cal, same, fields, init, row);
      FilterMeans(cal, same, fields, last.0, last.1, row);
      assert filters == init + [last];
      if NormalizeFilters(cal, fields, filters).Ok? {
        var done := NormalizeFilters(cal, fields, init).value;
        var w := FilterValue(cal, fields, last.0, last.1).value;
        MatchesSnoc(same, row, done, last.0, w);
        PassesSnoc(cal, same, fields, row, init, last);
      }
    }
  }

  lemma MatchesSnoc(same: (Value, Value) -> bool, row: Shown, filters: seq<(string, Value)>, name: string, w: Value)
    ensures Matches(same, row, filters + [(name, w)])
            <==> Matches(same, row, filters)
                 && same(if name == "_event_id" then Str(row.eventId) else Get(row.fields, name), w)
  {
    var more := filters + [(name, w)];
    assert forall i :: 0 <= i < |filters| ==> more[i] == filters[i];
    assert more[|filters|] == (name, w);
  }

  lemma PassesSnoc(cal: Calendar, same: (Value, Value) -> bool, fields: seq<Field>, row: Shown,
                   filters: seq<(string, Value)>, last: (string, Value))
    ensures PassesAll(cal, same, fields, row, filters + [last])
            <==> PassesAll(cal, same, fields, row, filters) && Passes(cal, same, fields, row, last.0, last.1)
  {
    hide Passes;
    var more := filters + [last];
    assert forall i :: 0 <= i < |filters| ==> more[i] == filters[i];
    assert more[|filters|] == last;
  }

  // ---------------------------------------------------------------- order

  /** The first text comes before the second in a dictionary. */
  predicate Before(a: string, b: string) {
    exists k :: 0 <= k <= |a| && k < |b| && a[..k] == b[..k] && (k == |a| || a[k] < b[k])
  }

  /** Oldest first, and by event id among rows of one time. */
  predicate InOrder(rows: seq<Shown>) {
    forall i, j :: 0 <= i < j < |rows| ==>
      !Before(rows[j].createdAt, rows[i].createdAt)
      && (rows[i].createdAt == rows[j].createdAt ==> !Before(rows[j].eventId, rows[i].eventId))
  }

  lemma {:induction false} TextLessIs(a: string, b: string)
    ensures TextLess(a, b) <==> Before(a, b)
  {
    forall k | 0 < k <= |a| && k < |b| && a[..k] == b[..k]
      ensures a[0] == b[0]
    {
      assert a[0] == a[..k][0] && b[0] == b[..k][0];
    }
    if a != [] && b != [] && a[0] == b[0] {
      TextLessIs(a[1..], b[1..]);
      if Before(a[1..], b[1..]) {
        var k :| 0 <= k <= |a[1..]| && k < |b[1..]| && a[1..][..k] == b[1..][..k]
                 && (k == |a[1..]| || a[1..][k] < b[1..][k]);
        assert a[..k + 1] == [a[0]] + a[1..][..k] && b[..k + 1] == [b[0]] + b[1..][..k];
      }
      if Before(a, b) {
        var k :| 0 <= k <= |a| && k < |b| && a[..k] == b[..k] && (k == |a| || a[k] < b[k]);
        assert k > 0;
        assert a[1..][..k - 1] == a[..k][1..] && b[1..][..k - 1] == b[..k][1..];
      }
    } else if b != [] && (a == [] || a[0] < b[0]) {
      assert a[..0] == b[..0];
    }
  }

  lemma SortedInOrder(rows: seq<Shown>)
    requires Sorted(rows)
    ensures InOrder(rows)
  {
    hide TextLess, Before;
    forall i, j | 0 <= i < j < |rows|
      ensures !Before(rows[j].createdAt, rows[i].createdAt)
      ensures rows[i].createdAt == rows[j].createdAt ==> !Before(rows[j].eventId, rows[i].eventId)
    {
      TextLessIs(rows[j].createdAt, rows[i].createdAt);
      TextLessIs(rows[j].eventId, rows[i].eventId);
    }
  }

  // ---------------------------------------------------------------- the answer

  /** Exactly the rows that pass, as often as they occur. */
  ghost predicate Selects(cal: Calendar, same: (Value, Value) -> bool, fields: seq<Field>, rows: seq<Shown>,
                          filters: seq<(string, Value)>, matched: seq<Shown>)
  {
    forall r :: multiset(matched)[r] == if PassesAll(cal, same, fields, r, filters) then multiset(rows)[r] else 0
  }

  /** The page at an offset, whether more rows follow, and the number of all rows if asked for. */
  predicate IsPage(q: Query, matched: seq<Shown>, a: Answered)
    requires q.offset >= 0 && q.limit >= 1
  {
    && |a.rows| == (if |matched| <= q.offset then 0
                    else if |matched| < q.offset + q.limit then |matched| - q.offset
                    else q.limit)
    && (forall i :: 0 <= i < |a.rows| ==> a.rows[i] == matched[q.offset + i])
    && (a.hasMore <==> q.offset + |a.rows| < |matched|)
    && a.count == (if q.count then Some(|matched|) else None)
  }

  /** The sum is of the numbers of one declared decimal field, each read as it is shown. */
  ghost predicate IsSum(fields: seq<Field>, q: Query, matched: seq<Shown>, sum: Option<string>) {
    if Strip(q.sumField) == "" then sum == None
    else
      && (exists i :: 0 <= i < |fields| && fields[i].name == Strip(q.sumField) && fields[i].ftype.DecimalType?)
      && sum.Some?
      && (forall f: nat :: SmallTotals(matched, Strip(q.sumField), f) ==>
            NumberInText(sum.value) == Some(Total(matched, Strip(q.sumField))))
  }

  /** The exact sum of what the rows show under a name. */
  function Total(rows: seq<Shown>, name: string): real {
    if rows == [] then 0.0
    else
      Total(rows[..|rows| - 1], name)
      + (match NumberOf(Get(rows[|rows| - 1].fields, name)) case None => 0.0 case Some(x) => x)
  }

  /** Numbers with at most f decimals whose running totals stay below 10^(28 - f). */
  predicate SmallTotals(rows: seq<Shown>, name: string, f: nat) {
    FractionWithin(Numbers(rows, name), f) && TotalsWithin(Numbers(rows, name), f)
  }

  lemma NumberOfShown(v: Value)
    ensures NumberOf(v)
         == (if v.Null? || v.Bool? then None
             else match ParseDec(Strip(PyStr(v))) case None => None case Some(d) => Some(Val(d)))
    ensures v.Bool? ==> ParseDec(Strip(PyStr(v))) == None
  {
    hide ParseDec, Strip, Val;
    TextOfText(v);
    if v.Int? { NumberOfIntText(v.i); }
    if v.Bool? { WordsAreNoNumbers(); }
  }

  lemma WordsAreNoNumbers()
    ensures ParseDec(Strip("True")) == None && ParseDec(Strip("False")) == None
  {
    WordsStripped();
    hide Strip;
  }

  lemma {:induction false} NumbersMean(rows: seq<Shown>, name: string)
    ensures ExactSum(Numbers(rows, name)) == Total(rows, name)
  {
    hide ParseDec, Strip, PyStr, NumberOf, Val;
    if rows == [] {
    } else {
      var n := |rows| - 1;
      NumbersMean(rows[..n], name);
      var v := Get(rows[n].fields, name);
      NumberOfShown(v);
      var ds := Numbers(rows[..n], name);
      if v == Null {
        assert ds + [] == ds;
      } else {
        var d := match ParseDec(Strip(PyStr(v))) case Some(d) => d case None => ZERO;
        assert Val(ZERO) == 0.0 by { ZeroIsZero(); }
        ExactSnoc(ds, d);
      }
    }
  }

  lemma ZeroIsZero()
    ensures Val(ZERO) == 0.0
  {
  }

  lemma SumMeans(fields: seq<Field>, q: Query, matched: seq<Shown>)
    requires Distinct(fields) && SumOf(fields, matched, q.sumField).Ok?
    ensures IsSum(fields, q, matched, SumOf(fields, matched, q.sumField).value)
  {
    hide Distinct, FieldNamed, Strip, Numbers, SumCtx, CanonDec, Total, TotalsWithin, FractionWithin, ParseDec, Val;
    var name := Strip(q.sumField);
    if name != "" {
      FieldNamedIs(fields, name);
      var i :| 0 <= i < |fields| && fields[i].name == name;
      assert fields[i].ftype.DecimalType?;
      var sum := SumOf(fields, matched, q.sumField).value;
      CanonDecKeepsValue(SumCtx(Numbers(matched, name)));
      forall f: nat | SmallTotals(matched, name, f)
        ensures NumberInText(sum.value) == Some(Total(matched, name))
      {
        QuerySumIsExact(fields, matched, q.sumField, f);
        NumbersMean(matched, name);
      }
    }
  }

  lemma MatchedMeans(cal: Calendar, same: (Value, Value) -> bool, fields: seq<Field>, rows: seq<Shown>,
                     filters: seq<(string, Value)>)
    requires Distinct(fields) && NormalizeFilters(cal, fields, filters).Ok? && Sorted(rows)
    ensures var matched := Matched(same, rows, NormalizeFilters(cal, fields, filters).value);
            Selects(cal, same, fields, rows, filters, matched) && InOrder(matched)
  {
    hide Distinct, NormalizeFilters, Matched, Matches, PassesAll, Sorted, InOrder;
    var normalized := NormalizeFilters(cal, fields, filters).value;
    MatchedExactly(same, rows, normalized);
    SortedInOrder(Matched(same, rows, normalized));
    forall r
      ensures Matches(same, r, normalized) <==> PassesAll(cal, same, fields, r, filters)
    {
      FiltersMean(cal, same, fields, filters, r);
    }
  }

  lemma PageMeans(q: Query, matched: seq<Shown>, sum: Option<string>)
    requires q.offset >= 0 && q.limit >= 1
    ensures IsPage(q, matched, Answered(Page(matched, q.offset, q.limit), HasMore(matched, q.offset, q.limit),
                                        if q.count then Some(|matched|) else None, sum))
  {
  }

  lemma OrderedDataset(env: Env, g: Group, d: Dataset)
    requires DatasetOk(env, g, d.csvId, d)
    ensures LogicalRows(env, g, d).Ok? && Sorted(LogicalRows(env, g, d).value)
    ensures Distinct(FieldsAt(env, g, d.csvId, d.latest))
  {
    hide ChainOk, AllProject, FieldsAt, ShowVersions, LedgerFilesOk, SortRows, LoadSchemas, AllRows, Sorted,
         LogicalRows, Distinct, ShowsAll;
    LogicalRowsCoherent(env, g, d);
    DatasetChain(env, g, d);
    PreviousDistinct(env, g, d);
  }

  /** Collecting the pages from the start is asking for the same query at offset zero. */
  function FromStart(q: Query): Query { q.(offset := 0) }

  /** An answered query has a page of exactly the logical rows that pass every filter, in order,
      their number and their sum, and collecting its pages yields all of them. */
  lemma AnswersExactly(env: Env, same: (Value, Value) -> bool, g: Group, d: Dataset, q: Query)
    returns (matched: seq<Shown>)
    requires DatasetOk(env, g, d.csvId, d) && q.offset >= 0 && q.limit >= 1
    requires QueryDataset(env, same, g, d, q).Ok?
    ensures var fields, a := FieldsAt(env, g, d.csvId, d.latest), QueryDataset(env, same, g, d, q).value;
            LogicalRows(env, g, d).Ok?
            && Selects(env.cal, same, fields, LogicalRows(env, g, d).value, q.filters, matched) && InOrder(matched)
            && IsPage(q, matched, a) && IsSum(fields, q, matched, a.sum)
    ensures Collect(env, same, g, d, FromStart(q)) == matched
  {
    hide DatasetOk, FieldsAt, LogicalRows, Sorted, Distinct, NormalizeFilters, Matched, SumOf, Page, HasMore, Selects,
         InOrder, IsPage, IsSum, Collect;
    OrderedDataset(env, g, d);
    var fields := FieldsAt(env, g, d.csvId, d.latest);
    matched := MatchedRows(env, same, g, d, q.filters).value;
    MatchedMeans(env.cal, same, fields, LogicalRows(env, g, d).value, q.filters);
    SumMeans(fields, q, matched);
    PageMeans(q, matched, SumOf(fields, matched, q.sumField).value);
    PagesAgree(env, same, g, d, FromStart(q));
  }

  /** So every collected row passes every filter, and every logical row left out fails one. */
  lemma CollectedPass(env: Env, same: (Value, Value) -> bool, g: Group, d: Dataset, q: Query, row: Shown)
    requires DatasetOk(env, g, d.csvId, d) && q.offset >= 0 && q.limit >= 1
    requires QueryDataset(env, same, g, d, q).Ok?
    ensures LogicalRows(env, g, d).Ok?
    ensures row in Collect(env, same, g, d, FromStart(q))
            <==> row in LogicalRows(env, g, d).value
                 && PassesAll(env.cal, same, FieldsAt(env, g, d.csvId, d.latest), row, q.filters)
  {
    hide DatasetOk, FieldsAt, LogicalRows, InOrder, IsPage, IsSum, Collect, PassesAll, QueryDataset;
    var matched := AnswersExactly(env, same, g, d, q);
    var rows := LogicalRows(env, g, d).value;
    assert row in matched <==> multiset(matched)[row] > 0;
    assert row in rows <==> multiset(rows)[row] > 0;
  }

  // ---------------------------------------------------------------- which queries are answered

  /** The query is answered: its dataset exists, every filter is accepted, and the sum it asks for
      is of a declared decimal field and can be written. */
  ghost predicate QueryTaken(env: Env, same: (Value, Value) -> bool, g: Group, q: Query) {
    && IsHexId(CleanId(q.csvId)) && |q.filters| <= 5 && 0 <= q.offset && 1 <= q.limit <= 100
    && DatasetIn(g, CleanId(q.csvId)).Some?
    && var d := DatasetIn(g, CleanId(q.csvId)).value;
       var fields := FieldsAt(env, g, d.csvId, d.latest);
       (forall i :: 0 <= i < |q.filters| ==> FilterTaken(env.cal, fields, q.filters[i].0, q.filters[i].1))
       && (Strip(q.sumField) != "" ==>
             (exists i :: 0 <= i < |fields| && fields[i].name == Strip(q.sumField) && fields[i].ftype.DecimalType?)
             && MatchedRows(env, same, g, d, q.filters).Ok?
             && FitsFixed(SumCtx(Numbers(MatchedRows(env, same, g, d, q.filters).value, Strip(q.sumField)))))
  }

  lemma SumTaken(fields: seq<Field>, matched: seq<Shown>, sumField: string)
    requires Distinct(fields)
    ensures SumOf(fields, matched, sumField).Ok? <==>
              (Strip(sumField) != "" ==>
                 (exists i :: 0 <= i < |fields| && fields[i].name == Strip(sumField) && fields[i].ftype.DecimalType?)
                 && FitsFixed(SumCtx(Numbers(matched, Strip(sumField)))))
  {
    hide Distinct, FieldNamed, Strip, Numbers, SumCtx, CanonDec, FitsFixed;
    FieldNamedIs(fields, Strip(sumField));
    TotalFits(Numbers(matched, Strip(sumField)));
  }

  lemma DatasetTaken(env: Env, same: (Value, Value) -> bool, g: Group, d: Dataset, q: Query)
    requires DatasetOk(env, g, d.csvId, d) && q.offset >= 0 && q.limit >= 1
    ensures var fields := FieldsAt(env, g, d.csvId, d.latest);
            (QueryDataset(env, same, g, d, q).Ok? <==>
               (forall i :: 0 <= i < |q.filters| ==> FilterTaken(env.cal, fields, q.filters[i].0, q.filters[i].1))
               && (Strip(q.sumField) != "" ==>
                     (exists i :: 0 <= i < |fields| && fields[i].name == Strip(q.sumField)
                                  && fields[i].ftype.DecimalType?)
                     && MatchedRows(env, same, g, d, q.filters).Ok?
                     && FitsFixed(SumCtx(Numbers(MatchedRows(env, same, g, d, q.filters).value, Strip(q.sumField))))))
  {
    hide DatasetOk, FieldsAt, LogicalRows, Sorted, Distinct, NormalizeFilters, Matched, SumOf, Page, HasMore,
         FilterTaken, Strip, FitsFixed, SumCtx, Numbers;
    OrderedDataset(env, g, d);
    var fields := FieldsAt(env, g, d.csvId, d.latest);
    FiltersMean(env.cal, same, fields, q.filters, Shown("", "", "", map[]));
    if MatchedRows(env, same, g, d, q.filters).Ok? {
      SumTaken(fields, MatchedRows(env, same, g, d, q.filters).value, q.sumField);
    }
  }

  /** A query of a group in order is answered exactly then. */
  lemma AnsweredIfTaken(env: Env, same: (Value, Value) -> bool, g: Group, q: Query)
    requires GroupOk(env, g)
    ensures RunQuery(env, same, g, q).Ok? <==> QueryTaken(env, same, g, q)
    ensures RunQuery(env, same, g, q).Ok? ==>
              RunQuery(env, same, g, q) == QueryDataset(env, same, g, DatasetIn(g, CleanId(q.csvId)).value, q)
  {
    hide GroupOk, Replay, CatalogOf, ReadLogical, QueryDataset, CleanId, IsHexId, DatasetOk, FilterTaken, FieldsAt,
         MatchedRows, Strip, FitsFixed, SumCtx, Numbers;
    ReplayIsOk(env, g);
    var id := CleanId(q.csvId);
    if id in Replay(CatalogOf(g)).value && q.offset >= 0 && q.limit >= 1 {
      LogicalBounds(env, g, id);
      DatasetTaken(env, same, g, Replay(CatalogOf(g)).value[id], q);
    }
  }

  /** Every row of an answer is a logical row of the dataset that passes every filter, and a logical
      row that passes them all is on the pages collected from the start. */
  lemma AnsweredRows(env: Env, same: (Value, Value) -> bool, g: Group, q: Query, row: Shown)
    requires GroupOk(env, g) && RunQuery(env, same, g, q).Ok?
    ensures DatasetIn(g, CleanId(q.csvId)).Some?
    ensures var d := DatasetIn(g, CleanId(q.csvId)).value;
            var fields := FieldsAt(env, g, d.csvId, d.latest);
            LogicalRows(env, g, d).Ok? && 0 <= q.offset && 1 <= q.limit
            && (row in RunQuery(env, same, g, q).value.rows ==>
                  row in LogicalRows(env, g, d).value && PassesAll(env.cal, same, fields, row, q.filters))
            && (row in LogicalRows(env, g, d).value && PassesAll(env.cal, same, fields, row, q.filters) ==>
                  row in Collect(env, same, g, d, FromStart(q)))
  {
    hide GroupOk, Replay, CatalogOf, QueryDataset, CleanId, IsHexId, DatasetOk, FilterTaken, FieldsAt, MatchedRows,
         Strip, FitsFixed, SumCtx, Numbers, RunQuery, LogicalRows, PassesAll, IsSum, InOrder, Selects, Collect;
    AnsweredIfTaken(env, same, g, q);
    LogicalBounds(env, g, CleanId(q.csvId));
    var d := DatasetIn(g, CleanId(q.csvId)).value;
    CollectedPass(env, same, g, d, q, row);
    var matched := AnswersExactly(env, same, g, d, q);
    if row in RunQuery(env, same, g, q).value.rows { OnPage(q, matched, RunQuery(env, same, g, q).value, row); }
  }

  lemma OnPage(q: Query, matched: seq<Shown>, a: Answered, row: Shown)
    requires q.offset >= 0 && q.limit >= 1 && IsPage(q, matched, a) && row in a.rows
    ensures row in matched
  {
    var i :| 0 <= i < |a.rows| && a.rows[i] == row;
    assert matched[q.offset + i] == row;
  }
}
