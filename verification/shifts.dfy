/** The shift record and its own computations (Turno). */
module Shifts {
  import opened Results
  import opened CashCounts
  import opened Clock

  const ABIERTO: string := "ABIERTO"
  const CERRADO: string := "CERRADO"

  /** The two lifecycle states of a shift and the names stored for them. */
  datatype State = Open | Closed {
    function Name(): string {
      match this
      case Open => ABIERTO
      case Closed => CERRADO
    }
  }

  /** Whether a stored state name is one of the two states. */
  function EsValidoEstado(estado: string): (b: bool)
    ensures b <==> exists s: State :: s.Name() == estado
  {
    assert estado == ABIERTO ==> Open.Name() == estado;
    assert estado == CERRADO ==> Closed.Name() == estado;
    estado == ABIERTO || estado == CERRADO
  }

  /** A teller's shift. Fields that the source leaves null until some step sets them are options. */
  datatype Shift = Shift(
    id: nat,
    codigoTurno: string,
    cajeroId: string,
    codigoCajero: string,
    codigoCaja: string,
    agencia: string,
    estado: string,
    fechaApertura: Option<DateTime>,
    fechaCierre: Option<DateTime>,
    dineroInicial: Option<CashCount>,
    dineroFinal: Option<CashCount>,
    montoCalculado: Option<int>,
    montoDeclarado: Option<int>,
    diferencia: Option<int>,
    tieneAlerta: Option<bool>,
    observaciones: Option<string>)

  predicate IsOpen(t: Shift) {
    t.estado == ABIERTO
  }

  /** The opening cash total; a null opening count is worth zero. */
  function CalcularMontoInicial(t: Shift): (r: Result<int>)
    ensures t.dineroInicial.None? || t.dineroInicial == Some([]) ==> r == Success(0)
    ensures t.dineroInicial.Some? ==> (r.Success? <==> AllValid(t.dineroInicial.value))
    ensures t.dineroInicial.Some? && r.Success? ==> r.value == Worth(t.dineroInicial.value)
  {
    OptionalTotal(t.dineroInicial)
  }

  /** The closing cash total; a null closing count (an open shift) is worth zero. */
  function CalcularMontoFinal(t: Shift): (r: Result<int>)
    ensures t.dineroFinal.None? || t.dineroFinal == Some([]) ==> r == Success(0)
    ensures t.dineroFinal.Some? ==> (r.Success? <==> AllValid(t.dineroFinal.value))
    ensures t.dineroFinal.Some? && r.Success? ==> r.value == Worth(t.dineroFinal.value)
  {
    OptionalTotal(t.dineroFinal)
  }

  /** Reordering the opening lines changes neither whether the opening total succeeds nor its value. */
  lemma OpeningTotalOrderFree(t: Shift, lines: CashCount)
    requires t.dineroInicial.Some? && multiset(lines) == multiset(t.dineroInicial.value)
    ensures CalcularMontoInicial(t.(dineroInicial := Some(lines))).Success? <==> CalcularMontoInicial(t).Success?
    ensures CalcularMontoInicial(t).Success? ==>
      CalcularMontoInicial(t.(dineroInicial := Some(lines))).value == CalcularMontoInicial(t).value
  {
    TotalPermutation(lines, t.dineroInicial.value);
  }

  /** The opening total of two counts put together is the sum of their totals. */
  lemma OpeningTotalAdditive(t: Shift, a: CashCount, b: CashCount)
    requires t.dineroInicial == Some(a + b)
    requires AllValid(a) && AllValid(b)
    ensures CalcularMontoInicial(t) == Success(Total(a).value + Total(b).value)
  {
    TotalAppendValid(a, b);
  }
}
