/**
 * A worked shift: opened with 200, a deposit of 50, a withdrawal of 30, then closed against
 * 230 counted (a discrepancy of 10 that raises the alert) or against exactly 220 (no alert).
 */
module Scenarios {
  import opened Results
  import opened Sums
  import opened Denominations
  import opened CashCounts
  import opened Clock
  import opened Shifts
  import opened Entries
  import opened Stores
  import opened ShiftService
  import opened TransactionService
  import opened Flows
  import opened Lifecycle

  /** The value of a count of one or more lines, line by line. */
  lemma TotalOfLines(lines: CashCount, values: seq<int>)
    requires |lines| == |values|
    requires forall i :: 0 <= i < |lines| ==> GetValorTotal(lines[i]) == Success(values[i])
    ensures Total(lines).Success?
    ensures |lines| == 0 ==> Total(lines).value == 0
    ensures |lines| > 0 ==> Total(lines).value == values[0] + Total(lines[1..]).value
  {
  }

  const Morning: DateTime := DateTime(2024, 3, 15, 8, 30, 0)
  const Noon: DateTime := DateTime(2024, 3, 15, 12, 0, 5)
  const Evening: DateTime := DateTime(2024, 3, 15, 17, 45, 30)

  const Tellers: Directory := map["CAJ01" := Teller("u-17", "CJ-3", "Centro", true)]

  const Opening: CashCount := [Line("20", 5), Line("10", 10)]
  const DepositCash: CashCount := [Line("50", 1)]
  const WithdrawalCash: CashCount := [Line("10", 3)]
  const ClosingOver: CashCount := [Line("20", 5), Line("10", 8), Line("50", 1)]
  const ClosingExact: CashCount := [Line("20", 5), Line("10", 7), Line("50", 1)]

  lemma OpeningIs200()
    ensures OptionalTotal(Some(Opening)) == Success(200)
  {
    TotalOfLines(Opening, [100, 100]);
    TotalOfLines(Opening[1..], [100]);
    TotalOfLines(Opening[2..], []);
  }

  lemma DepositIs50()
    ensures OptionalTotal(Some(DepositCash)) == Success(50)
  {
    TotalOfLines(DepositCash, [50]);
    TotalOfLines(DepositCash[1..], []);
  }

  lemma WithdrawalIs30()
    ensures OptionalTotal(Some(WithdrawalCash)) == Success(30)
  {
    TotalOfLines(WithdrawalCash, [30]);
    TotalOfLines(WithdrawalCash[1..], []);
  }

  lemma ClosingOverIs230()
    ensures OptionalTotal(Some(ClosingOver)) == Success(230)
  {
    TotalOfLines(ClosingOver, [100, 80, 50]);
    TotalOfLines(ClosingOver[1..], [80, 50]);
    TotalOfLines(ClosingOver[2..], [50]);
    TotalOfLines(ClosingOver[3..], []);
  }

  lemma ClosingExactIs220()
    ensures OptionalTotal(Some(ClosingExact)) == Success(220)
  {
    TotalOfLines(ClosingExact, [100, 70, 50]);
    TotalOfLines(ClosingExact[1..], [70, 50]);
    TotalOfLines(ClosingExact[2..], [50]);
    TotalOfLines(ClosingExact[3..], []);
  }

  /** The morning: the teller opens a shift with 200 in an empty store. */
  method OpenMorning() returns (st: Store, t: Shift)
    ensures st.shifts == [t] && t.id == 0 && IsOpen(t)
    ensures CalcularMontoEsperado(t, st.ledger).Success? && CalcularMontoEsperado(t, st.ledger).value == 200
  {
    OpeningIs200();
    var afterOpen := AbrirTurno(Store([], []), Tellers, "CAJ01", Some(Opening), None, Morning);
    assert AllValid(Opening) by { assert Opening[0].denominacion in Ids && Opening[1].denominacion in Ids; }
    st, t := afterOpen.value.0, afterOpen.value.1;
    ExpectedBeforePosting(t, []);
  }

  /**
   * Posting a recounted `monto` of a valid type to the open shift of the day moves its expected
   * cash from `before` by the signed amount.
   */
  method PostAtNoon(st: Store, t: Shift, tipo: string, monto: int, cash: CashCount, before: int)
    returns (st': Store)
    requires st.shifts == [t] && t.id == 0 && IsOpen(t)
    requires EsValidoTipo(tipo) && monto > 0 && |cash| > 0 && AllValid(cash) && Worth(cash) == monto
    requires CalcularMontoEsperado(t, st.ledger).Success? && CalcularMontoEsperado(t, st.ledger).value == before
    ensures st'.shifts == [t]
    ensures CalcularMontoEsperado(t, st'.ledger).Success?
    ensures CalcularMontoEsperado(t, st'.ledger).value == before + SignedAmount(tipo, monto)
  {
    var posted := ProcesarTransaccion(st, 0, tipo, monto, Some(cash), None, None, None, Noon);
    var e := posted.value.1;
    st' := posted.value.0;
    ExpectedAfterPosting(t, st.ledger, e);
  }

  /**
   * The evening: the shift of the day, expecting 220, is closed against the count `closing`.
   */
  method CloseEvening(st3: Store, t: Shift, closing: CashCount) returns (r: Result<(Store, Shift)>)
    requires st3.shifts == [t] && IsOpen(t)
    requires CalcularMontoEsperado(t, st3.ledger).Success? && CalcularMontoEsperado(t, st3.ledger).value == 220
    ensures r.Success? <==> |closing| > 0 && AllValid(closing)
    ensures r.Success? ==>
      && r.value.1.montoCalculado == Some(220)
      && r.value.1.diferencia == Some(Worth(closing) - 220)
      && r.value.1.tieneAlerta == Some(Worth(closing) != 220)
  {
    assert FindOne(st3.shifts, ByCode(t.codigoTurno)) == Success(Some(t)) by {
      FindOneAt(st3.shifts, ByCode(t.codigoTurno), 0);
    }
    r := CerrarTurno(st3, t.codigoTurno, Some(closing), None, Evening);
    if |closing| > 0 && AllValid(closing) {
      CloseWithExpected(st3, t, 220, closing, None, Evening);
    }
  }

  /**
   * The day of one teller: opened with 200, a deposit of 50 and a withdrawal of 30, then closed
   * against `closing`. Whatever is counted, the shift expects 220; counting 230 leaves a
   * discrepancy of 10 and raises the alert, counting exactly 220 leaves none.
   */
  method WorkedDay(closing: CashCount) returns (r: Result<(Store, Shift)>)
    ensures r.Success? <==> |closing| > 0 && AllValid(closing)
    ensures r.Success? ==>
      && r.value.1.montoCalculado == Some(220)
      && r.value.1.diferencia == Some(Worth(closing) - 220)
      && r.value.1.tieneAlerta == Some(Worth(closing) != 220)
    ensures closing == ClosingOver ==>
      r.Success? && r.value.1.diferencia == Some(10) && r.value.1.tieneAlerta == Some(true)
    ensures closing == ClosingExact ==>
      r.Success? && r.value.1.diferencia == Some(0) && r.value.1.tieneAlerta == Some(false)
  {
    var st1, t := OpenMorning();
    DepositIs50();
    assert AllValid(DepositCash) by { assert DepositCash[0].denominacion in Ids; }
    var st2 := PostAtNoon(st1, t, DEPOSITO, 50, DepositCash, 200);
    WithdrawalIs30();
    assert AllValid(WithdrawalCash) by { assert WithdrawalCash[0].denominacion in Ids; }
    var st3 := PostAtNoon(st2, t, RETIRO, 30, WithdrawalCash, 250);
    r := CloseEvening(st3, t, closing);
    if closing == ClosingOver {
      ClosingOverIs230();
      assert AllValid(ClosingOver) by {
        assert ClosingOver[0].denominacion in Ids && ClosingOver[1].denominacion in Ids;
        assert ClosingOver[2].denominacion in Ids;
      }
    }
    if closing == ClosingExact {
      ClosingExactIs220();
      assert AllValid(ClosingExact) by {
        assert ClosingExact[0].denominacion in Ids && ClosingExact[1].denominacion in Ids;
        assert ClosingExact[2].denominacion in Ids;
      }
    }
  }
}
