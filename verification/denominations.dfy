/** The denomination value table and the value of one cash-count line (DetalleDenominacion). */
module Denominations {
  import opened Results
  import opened Numerals

  /** The accepted denomination ids, in the order the table lists them. */
  const Ids: seq<string> := ["1", "5", "10", "20", "50", "100"]

  /** The value table: each accepted id to its unit value. */
  const Values: map<string, int> := map["1" := 1, "5" := 5, "10" := 10, "20" := 20, "50" := 50, "100" := 100]

  /** One line of a cash count: how many pieces of one denomination. */
  datatype Line = Line(denominacion: string, cantidad: int)

  /** Each id of the table is the decimal numeral of its unit value, and every unit value is positive. */
  lemma TableSpellsValues()
    ensures forall d :: d in Values <==> d in Ids
    ensures forall d :: d in Values ==> IsDigits(d) && Values[d] == DecimalValue(d) && Values[d] > 0
  {
    assert DecimalValue("10") == 10 by { assert "10"[..1] == "1"; }
    assert DecimalValue("20") == 20 by { assert "20"[..1] == "2"; }
    assert DecimalValue("50") == 50 by { assert "50"[..1] == "5"; }
    assert DecimalValue("100") == 100 by {
      assert "100"[..2] == "10";
      assert "10"[..1] == "1";
    }
  }

  /** The ids are pairwise distinct. */
  lemma IdsDistinct()
    ensures forall i, j :: 0 <= i < j < |Ids| ==> Ids[i] != Ids[j]
  {
  }

  /** The one-argument constructor: a line of the given denomination with no pieces. */
  function ZeroLine(denominacion: string): Line {
    Line(denominacion, 0)
  }

  /** The unit value of an id, absent (null) for an unknown id. */
  function GetValorDenominacion(denominacion: string): (r: Option<int>)
    ensures r.Some? <==> denominacion in Ids
    ensures r.Some? ==> IsDigits(denominacion) && r.value == DecimalValue(denominacion) && r.value > 0
  {
    TableSpellsValues();
    if denominacion in Values then Some(Values[denominacion]) else None
  }

  /** Whether an id is one of the table's keys. */
  function EsValidaDenominacion(denominacion: string): (b: bool)
    ensures b <==> denominacion in Ids
    ensures b <==> GetValorDenominacion(denominacion).Some?
  {
    denominacion in Values
  }

  /** The value of a line: unit value times count; an unknown id fails, it never counts as zero. */
  function GetValorTotal(l: Line): (r: Result<int>)
    ensures r.Success? <==> l.denominacion in Ids
    ensures r.Failure? ==> r.error == IllegalArgument(l.denominacion)
    ensures r.Success? && l.cantidad >= 0 ==> r.value >= 0
  {
    TableSpellsValues();
    if l.denominacion in Values then Success(Values[l.denominacion] * l.cantidad)
    else Failure(IllegalArgument(l.denominacion))
  }

  /** A known line is worth its id read as a number, times its count. */
  lemma LineValue(l: Line)
    requires l.denominacion in Ids
    ensures IsDigits(l.denominacion)
    ensures GetValorTotal(l) == Success(DecimalValue(l.denominacion) * l.cantidad)
    ensures GetValorTotal(l) == Success(Values[l.denominacion] * l.cantidad)
  {
    TableSpellsValues();
  }

  /** A line built with the one-argument constructor is worth zero when its id is known, and fails otherwise. */
  lemma ZeroLineTotal(denominacion: string)
    ensures ZeroLine(denominacion).cantidad == 0
    ensures denominacion in Ids ==> GetValorTotal(ZeroLine(denominacion)) == Success(0)
    ensures denominacion !in Ids ==> GetValorTotal(ZeroLine(denominacion)) == Failure(IllegalArgument(denominacion))
  {
  }
}
