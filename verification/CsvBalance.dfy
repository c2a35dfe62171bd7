/** Conservation in the ledger: what reversals take out of an account, and the balance that an
    append reports. */
module CsvBalance {
  import opened Text
  import opened Decimals
  import opened DecimalSums
  import opened CsvFields
  import opened CsvStore
  import opened CsvAppend
  import opened CsvLedger

  // ---------------------------------------------------------------- sums over rows

  predicate InAccount(r: Row, account: string, currency: string) {
    Cell(r, "account") == account && Cell(r, "currency") == currency
  }

  /** Rows that count: originals of the account that no row of the ledger reverses. */
  predicate Open(all: seq<Row>, r: Row, account: string, currency: string) {
    InAccount(r, account, currency) && !IsReversal(r) && !ReversedBy(all, r.eventId)
  }

  /** What all rows of an account add up to. */
  function SumAll(delta: Row -> real, rows: seq<Row>, account: string, currency: string): real {
    if rows == [] then 0.0
    else
      var r := rows[|rows| - 1];
      SumAll(delta, rows[..|rows| - 1], account, currency) + (if InAccount(r, account, currency) then delta(r) else 0.0)
  }

  /** What the unreversed originals among `rows` add up to. */
  function SumOpen(delta: Row -> real, all: seq<Row>, rows: seq<Row>, account: string, currency: string): real {
    if rows == [] then 0.0
    else
      var r := rows[|rows| - 1];
      SumOpen(delta, all, rows[..|rows| - 1], account, currency)
      + (if Open(all, r, account, currency) then delta(r) else 0.0)
  }

  /** A reversal in the account of its original, with the opposite delta. */
  predicate Cancelled(delta: Row -> real, r: Row, o: Row) {
    Cell(r, "account") == Cell(o, "account") && Cell(r, "currency") == Cell(o, "currency") && delta(r) == -delta(o)
  }

  predicate AllCancel(delta: Row -> real, rows: seq<Row>) {
    forall r, o :: r in rows && o in rows && IsReversal(r) && Cell(r, REVERSES) == o.eventId ==> Cancelled(delta, r, o)
  }

  lemma ReversedByMore(all: seq<Row>, r: Row, id: string)
    ensures ReversedBy(all + [r], id) <==> ReversedBy(all, id) || Cell(r, REVERSES) == id
  {
    hide Cell;
    assert r in all + [r];
    assert forall x :: x in all ==> x in all + [r];
  }

  /** Appending a row that names nobody in `rows` leaves their sum alone. */
  lemma {:induction false} OpenFrame(delta: Row -> real, all: seq<Row>, r: Row, rows: seq<Row>, account: string,
                                     currency: string)
    requires forall x :: x in rows ==> x.eventId != Cell(r, REVERSES)
    ensures SumOpen(delta, all + [r], rows, account, currency) == SumOpen(delta, all, rows, account, currency)
  {
    hide Cell, InAccount, IsReversal;
    if rows == [] {
    } else {
      OpenFrame(delta, all, r, rows[..|rows| - 1], account, currency);
      ReversedByMore(all, r, rows[|rows| - 1].eventId);
    }
  }

  /** Appending a reversal takes its target, and nothing else, out of the sum. */
  lemma {:induction false} OpenLosesTarget(delta: Row -> real, all: seq<Row>, r: Row, o: Row, rows: seq<Row>,
                                           account: string, currency: string)
    requires LedgerOk(rows) && FindRow(rows, o.eventId) == Some(o) && Cell(r, REVERSES) == o.eventId
    requires Open(all, o, account, currency) || !InAccount(o, account, currency)
    ensures SumOpen(delta, all + [r], rows, account, currency)
         == SumOpen(delta, all, rows, account, currency) - (if InAccount(o, account, currency) then delta(o) else 0.0)
  {
    hide Cell, InAccount, IsReversal, Trimmed, ReversalOk, ReversedBy, IsHexId;
    var init, last := rows[..|rows| - 1], rows[|rows| - 1];
    ReversedByMore(all, r, last.eventId);
    FoundRow(init, o.eventId);
    if FindRow(init, o.eventId).Some? {
      OpenLosesTarget(delta, all, r, o, init, account, currency);
    } else {
      OpenFrame(delta, all, r, init, account, currency);
    }
  }

  /** Nobody reverses an event that is not in the ledger yet. */
  lemma FreshIsUnreversed(rows: seq<Row>, id: string)
    requires LedgerOk(rows) && IsHexId(id) && FindRow(rows, id).None?
    ensures !ReversedBy(rows, id)
  {
    forall r | r in rows && Cell(r, REVERSES) == id
      ensures false
    {
      hide LedgerOk, Undoes;
      ReversalTargetOf(rows, r);
    }
  }

  lemma LastRow(init: seq<Row>, r: Row)
    requires LedgerOk(init + [r])
    ensures LedgerOk(init) && LedgerRowOk(init, r)
  {
    hide LedgerRowOk;
    assert (init + [r])[..|init|] == init;
  }

  lemma IdsAreHex(rows: seq<Row>)
    requires LedgerOk(rows)
    ensures forall x :: x in rows ==> IsHexId(x.eventId)
  {
    forall x | x in rows
      ensures IsHexId(x.eventId)
    {
      LedgerMember(rows, x);
    }
  }

  lemma OpenSnoc(delta: Row -> real, all: seq<Row>, init: seq<Row>, r: Row, account: string, currency: string)
    ensures SumOpen(delta, all, init + [r], account, currency)
         == SumOpen(delta, all, init, account, currency) + (if Open(all, r, account, currency) then delta(r) else 0.0)
    ensures SumAll(delta, init + [r], account, currency)
         == SumAll(delta, init, account, currency) + (if InAccount(r, account, currency) then delta(r) else 0.0)
  {
    hide Open, InAccount;
    assert (init + [r])[..|init|] == init;
  }

  /** An original adds its delta. */
  lemma OriginalAdds(delta: Row -> real, init: seq<Row>, r: Row, account: string, currency: string)
    requires LedgerOk(init) && LedgerRowOk(init, r) && !IsReversal(r)
    ensures SumOpen(delta, init + [r], init + [r], account, currency)
         == SumOpen(delta, init, init, account, currency) + (if InAccount(r, account, currency) then delta(r) else 0.0)
  {
    hide LedgerOk, SumOpen, Cell, IsHexId, ReversedBy, Trimmed, ReversalOk, FindRow, InAccount;
    OpenSnoc(delta, init + [r], init, r, account, currency);
    IdsAreHex(init);
    OpenFrame(delta, init, r, init, account, currency);
    FreshIsUnreversed(init, r.eventId);
    ReversedByMore(init, r, r.eventId);
  }

  /** A reversal takes the delta of its target out. */
  lemma ReversalTakesOut(delta: Row -> real, init: seq<Row>, r: Row, o: Row, account: string, currency: string)
    requires LedgerOk(init) && LedgerRowOk(init, r) && IsReversal(r)
    requires FindRow(init, Cell(r, REVERSES)) == Some(o) && Cancelled(delta, r, o)
    ensures SumOpen(delta, init + [r], init + [r], account, currency)
         == SumOpen(delta, init, init, account, currency) + (if InAccount(r, account, currency) then delta(r) else 0.0)
  {
    hide LedgerOk, SumOpen, Cell, Trimmed, ReversedBy, FindRow, Undoes;
    OpenSnoc(delta, init + [r], init, r, account, currency);
    FoundRow(init, Cell(r, REVERSES));
    OpenLosesTarget(delta, init, r, o, init, account, currency);
  }

  /** Conservation for any assignment of deltas under which reversals cancel. */
  lemma {:induction false} SumsAgree(delta: Row -> real, rows: seq<Row>, account: string, currency: string)
    requires LedgerOk(rows) && AllCancel(delta, rows)
    ensures SumAll(delta, rows, account, currency) == SumOpen(delta, rows, rows, account, currency)
  {
    hide LedgerOk, SumOpen, SumAll, LedgerRowOk, Cancelled, IsReversal, FindRow, Cell;
    if rows == [] {
      NothingSummed(delta, account, currency);
    } else {
      var init, r := rows[..|rows| - 1], rows[|rows| - 1];
      assert rows == init + [r];
      LastRow(init, r);
      assert forall x :: x in init ==> x in rows;
      SumsAgree(delta, init, account, currency);
      OpenSnoc(delta, rows, init, r, account, currency);
      if IsReversal(r) {
        TargetIsThere(init, r);
        var o := FindRow(init, Cell(r, REVERSES)).value;
        FoundRow(init, Cell(r, REVERSES));
        assert Cancelled(delta, r, o);
        ReversalTakesOut(delta, init, r, o, account, currency);
      } else {
        OriginalAdds(delta, init, r, account, currency);
      }
    }
  }

  lemma NothingSummed(delta: Row -> real, account: string, currency: string)
    ensures SumAll(delta, [], account, currency) == SumOpen(delta, [], [], account, currency)
  {
  }

  lemma TargetIsThere(init: seq<Row>, r: Row)
    requires LedgerRowOk(init, r) && IsReversal(r)
    ensures FindRow(init, Cell(r, REVERSES)).Some?
  {
    hide Trimmed, FindRow, ReversedBy, Undoes, IsHexId, Cell;
  }

  // ---------------------------------------------------------------- the ledger's own deltas

  /** Every row that some row reverses had an account and a currency, and an amount that survives
      the negation. Nothing is asked of the other rows. */
  predicate ReversedAreClean(rows: seq<Row>) {
    forall o :: o in rows && ReversedBy(rows, o.eventId) ==>
      Cell(o, "account") != "" && Cell(o, "currency") != "" && FitsContext(CellNumber(o, "amount"))
  }

  lemma CleanReversalCancels(rows: seq<Row>, r: Row, o: Row)
    requires LedgerOk(rows) && AmountsInOrder(rows) && ReversedAreClean(rows)
    requires r in rows && o in rows && IsReversal(r) && Cell(r, REVERSES) == o.eventId
    ensures Cancelled(Delta, r, o)
  {
    hide LedgerOk, AmountsInOrder, FitsContext, CellNumber, Cell, IsReversal, Delta;
    assert ReversedBy(rows, o.eventId);
    ReversalKeepsAccount(rows, r, o);
    ReversalCancels(rows, r, o);
  }

  /** Conservation: the exact deltas of an account add up to those of its unreversed originals. */
  lemma LedgerConserves(rows: seq<Row>, account: string, currency: string)
    requires LedgerOk(rows) && AmountsInOrder(rows) && ReversedAreClean(rows)
    ensures SumAll(Delta, rows, account, currency) == SumOpen(Delta, rows, rows, account, currency)
  {
    hide LedgerOk, AmountsInOrder, ReversedAreClean, Cancelled, Cell, IsReversal, SumAll, SumOpen, Delta;
    forall r, o | r in rows && o in rows && IsReversal(r) && Cell(r, REVERSES) == o.eventId
      ensures Cancelled(Delta, r, o)
    {
      CleanReversalCancels(rows, r, o);
    }
    SumsAgree(Delta, rows, account, currency);
  }

  // ---------------------------------------------------------------- the reported balance

  lemma DeltasStep(init: seq<Row>, r: Row, account: string, currency: string)
    ensures DeltasOf(init + [r], account, currency)
         == DeltasOf(init, account, currency)
            + (if InAccount(r, account, currency) then [CellNumber(r, "amount_delta")] else [])
  {
    hide CellNumber, Cell;
    assert (init + [r])[..|init|] == init;
  }

  /** The numbers that are summed are the exact deltas. */
  lemma {:induction false} DeltasAddUp(rows: seq<Row>, account: string, currency: string)
    ensures ExactSum(DeltasOf(rows, account, currency)) == SumAll(Delta, rows, account, currency)
  {
    hide CellNumber, Cell, Val, ExactSum;
    if rows == [] {
      assert ExactSum([]) == 0.0 by { NoSum(); }
    } else {
      var init, r := rows[..|rows| - 1], rows[|rows| - 1];
      DeltasAddUp(init, account, currency);
      var ds := DeltasOf(init, account, currency);
      if InAccount(r, account, currency) {
        ExactSnoc(ds, CellNumber(r, "amount_delta"));
      } else {
        assert ds + [] == ds;
      }
    }
  }

  lemma NoSum()
    ensures ExactSum([]) == 0.0
  {
  }

  /** Every running total of the account, with at most f fraction digits, is below 10^(28 - f). */
  predicate SmallTotals(ds: seq<Dec>, f: nat) { FractionWithin(ds, f) && TotalsWithin(ds, f) }

  lemma BalanceText(rows: seq<Row>, row: Row)
    requires LedgerBalance(rows, row).Ok?
    ensures TextValue(LedgerBalance(rows, row).value.amount)
         == Val(SumCtx(DeltasOf(rows, Cell(row, "account"), Cell(row, "currency"))))
  {
    hide DeltasOf, CanonDec, TextValue, SumCtx, Cell, Val;
    CanonDecKeepsValue(BalanceOf(rows, Cell(row, "account"), Cell(row, "currency")));
  }

  /** The balance is exactly what the unreversed originals of the account add up to. */
  lemma BalanceIsExact(rows: seq<Row>, row: Row, f: nat)
    requires LedgerOk(rows) && AmountsInOrder(rows) && ReversedAreClean(rows)
    requires SmallTotals(DeltasOf(rows, Cell(row, "account"), Cell(row, "currency")), f)
    requires LedgerBalance(rows, row).Ok?
    ensures TextValue(LedgerBalance(rows, row).value.amount)
         == SumOpen(Delta, rows, rows, Cell(row, "account"), Cell(row, "currency"))
  {
    hide LedgerOk, AmountsInOrder, ReversedAreClean, SumOpen, SumAll, DeltasOf, LedgerBalance, TextValue, SumCtx, Cell,
         Val, FractionWithin, TotalsWithin, ExactSum, Delta;
    var account, currency := Cell(row, "account"), Cell(row, "currency");
    LedgerConserves(rows, account, currency);
    DeltasAddUp(rows, account, currency);
    SumIsExact(DeltasOf(rows, account, currency), f);
    BalanceText(rows, row);
  }

  /** The balance is refused exactly when the rounded total does not fit in fixed notation. */
  lemma BalanceRefused(rows: seq<Row>, row: Row)
    ensures LedgerBalance(rows, row).Ok? <==> FitsFixed(BalanceOf(rows, Cell(row, "account"), Cell(row, "currency")))
    ensures LedgerBalance(rows, row).Err? ==> LedgerBalance(rows, row) == Err(BalanceTooLong)
  {
    hide DeltasOf, CanonDec, SumCtx, Cell, FitsFixed;
    TotalFits(DeltasOf(rows, Cell(row, "account"), Cell(row, "currency")));
  }

  /** An income of 9E+1023 is accepted; once the account holds two of them, every answer that
      reports the balance is refused. */
  lemma TwoBigIncomes(rows: seq<Row>, row: Row)
    requires DeltasOf(rows, Cell(row, "account"), Cell(row, "currency")) == [Nine(1023), Nine(1023)]
    ensures AmountAndDelta(Str("income"), Str("9E+1023")) == Ok((ToFixed(Nine(1023)), ToFixed(Nine(1023))))
    ensures LedgerBalance(rows, row) == Err(BalanceTooLong)
  {
    hide DeltasOf, CanonDec, SumCtx, Cell, CanonText, ToFixed, ParseDec, Strip, Pow10;
    TwoNinesAreTooLong();
    NineIsAccepted();
    assert Signed(Nine(1023)) > 0 by { NinePositive(1023); }
  }
}
