# Teller shift reconciliation, modelled in Dafny

This project models the shift reconciliation engine of a bank's teller back office. A teller
opens a *turno* (shift) at a till with a counted opening cash drawer. Deposits (DEPOSITO) and
withdrawals (RETIRO) are posted against the open shift. Each posting carries a denomination count
that must add up to the posted amount. The shift is closed by counting the drawer again. The closing
computes the expected cash as the opening total plus deposits minus withdrawals, the difference
between declared and expected cash, and an alert flag that is raised exactly when the difference is
not zero.

The model is functional: immutable datatypes for a cash-count line (`Line`), a shift (`Shift`), a
ledger entry (`Entry`) and the store (`Store`), and pure functions that return a `Result`. Each
guard of the services becomes an error variant, checked in the services' order.

Modules, following the program's structure:

- `Results`: `Option`, `Result` and the error variants. These are `TurnoException`,
  `TransaccionException` (operation and reason), `NotFound`, `IllegalArgument`, and
  `NonUniqueResult`. `NonUniqueResult` is what a single-result repository query raises when
  several documents match.
- `Numerals`, `Clock`: decimal numerals, and the `yyyyMMdd` / `HHmmss` renderings of a date and time.
- `Denominations`: the denomination table and the value of one line (`DetalleDenominacion`).
- `Sums`: the stream map/reduce sum, in which the first element that fails decides the failure.
- `CashCounts`: the total of a cash count, and its independent per-denomination reference `Worth`.
- `Shifts`, `Entries`: the `Turno` and `Transaccion` records, their totals and their validators.
- `Stores`: the teller directory, the shift collection, the ledger and the repository queries.
- `Flows`: the signed impact of a shift's ledger entries.
- `ShiftService`, `TransactionService`: opening, closing and posting.
- `Invariants`: a store-consistency predicate that every operation preserves.
- `Lifecycle`: properties that relate several operations.
- `Scenarios`: a worked day, with concrete counts.

## Model

| member | source | states |
|---|---|---|
| Denominations.TableSpellsValues | src/main/java/com/banquito/core/examen/model/DetalleDenominacion.java:18-35 | the table has exactly the six ids 1, 5, 10, 20, 50, 100; each id is the decimal numeral of its unit value, and every unit value is positive |
| Denominations.GetValorDenominacion | src/main/java/com/banquito/core/examen/model/DetalleDenominacion.java:58-60 | a unit value is returned exactly for the six ids (null otherwise), and it is the value the id spells |
| Denominations.EsValidaDenominacion | src/main/java/com/banquito/core/examen/model/DetalleDenominacion.java:62-64 | holds exactly for the six table ids, and exactly when the unit-value lookup finds one |
| Denominations.GetValorTotal | src/main/java/com/banquito/core/examen/model/DetalleDenominacion.java:50-56 | a line is valued exactly when its id is known; an unknown id fails with IllegalArgument naming the id, never zero; a non-negative count gives a non-negative value |
| Denominations.LineValue | src/main/java/com/banquito/core/examen/model/DetalleDenominacion.java:50-55 | a known line is worth its id read as a number times its count |
| Denominations.ZeroLineTotal | src/main/java/com/banquito/core/examen/model/DetalleDenominacion.java:40-43 | the one-argument constructor gives count 0, worth 0 for a known id, and a failure for an unknown one |
| Sums.Sum | src/main/java/com/banquito/core/examen/model/Turno.java:53-55 | the mapped reduction succeeds exactly when every element can be mapped |
| Sums.SumFailsAtFirstFailure | src/main/java/com/banquito/core/examen/model/Turno.java:53-55 | a failing reduction fails with the error of the first element that fails |
| Sums.SumAppendAll | src/main/java/com/banquito/core/examen/model/Turno.java:53-55 | the reduction of a concatenation is the sum of the two reductions |
| Sums.SumPermutation | src/main/java/com/banquito/core/examen/model/Turno.java:53-55 | reordering the elements changes neither success nor value |
| Sums.Reduce | src/main/java/com/banquito/core/examen/model/Turno.java:53-55 | the left-to-right accumulation loop stops at the first failure and computes what Sum specifies |
| CashCounts.Total | src/main/java/com/banquito/core/examen/model/Turno.java:53-55 | a cash count totals successfully exactly when all its denominations are known |
| CashCounts.TotalIsWorth | src/main/java/com/banquito/core/examen/model/DetalleDenominacion.java:50-55 | a valid count totals what it is worth grouped by denomination: the sum over the table of unit value times all pieces of that denomination |
| CashCounts.TotalNonNegative | src/main/java/com/banquito/core/examen/model/DetalleDenominacion.java:50-55 | a valid count with no negative line totals at least zero |
| CashCounts.TotalFailsAtFirstInvalid | src/main/java/com/banquito/core/examen/model/Turno.java:54 | an invalid count fails with IllegalArgument for its first unknown denomination |
| CashCounts.OptionalTotal | src/main/java/com/banquito/core/examen/model/Turno.java:51-56 | null or empty totals 0; otherwise success exactly for valid counts, with the grouped worth as value and the first unknown id as error |
| CashCounts.TotalAppendValid | src/main/java/com/banquito/core/examen/model/Turno.java:53-55 | the total of two valid counts put together is the sum of their totals |
| CashCounts.TotalPermutation | src/main/java/com/banquito/core/examen/model/Turno.java:53-55 | reordering a count's lines changes neither success nor total |
| Shifts.EsValidoEstado | src/main/java/com/banquito/core/examen/model/Turno.java:65-67 | holds exactly for the names of the two states, ABIERTO and CERRADO |
| Shifts.CalcularMontoInicial | src/main/java/com/banquito/core/examen/model/Turno.java:51-56 | the opening total: 0 for a null or empty count, success exactly for a valid count, valued at its grouped worth |
| Shifts.CalcularMontoFinal | src/main/java/com/banquito/core/examen/model/Turno.java:58-63 | the same for the closing count |
| Shifts.OpeningTotalOrderFree | src/main/java/com/banquito/core/examen/model/Turno.java:53-55 | permuting the opening lines changes neither success nor the opening total |
| Shifts.OpeningTotalAdditive | src/main/java/com/banquito/core/examen/model/Turno.java:53-55 | an opening count made of two valid counts totals the sum of their totals |
| Entries.KindOf | src/main/java/com/banquito/core/examen/model/Transaccion.java:24-25 | a type name denotes a kind exactly when it is that kind's stored name |
| Entries.EsValidoTipo | src/main/java/com/banquito/core/examen/model/Transaccion.java:55-57 | holds exactly for the names of the two kinds, RETIRO and DEPOSITO |
| Entries.CalcularMontoTotal | src/main/java/com/banquito/core/examen/model/Transaccion.java:48-53 | an entry's total: 0 for a null or empty count, success exactly for a valid count, valued at its grouped worth, failing at the first unknown id |
| Entries.EntryTotalOrderFree | src/main/java/com/banquito/core/examen/model/Transaccion.java:50-52 | permuting an entry's lines changes neither success nor total |
| Flows.Impact | src/main/java/com/banquito/core/examen/service/TurnoService.java:186-196 | the impact of a shift's entries succeeds exactly when every entry's count can be totalled |
| Flows.ImpactIsNetFlow | src/main/java/com/banquito/core/examen/service/TurnoService.java:186-196 | when every entry recounts to its amount, the impact is the deposits' amounts minus the withdrawals' amounts; other types contribute nothing |
| Flows.ImpactSingle | src/main/java/com/banquito/core/examen/service/TurnoService.java:190-194 | one recounting entry contributes its amount for a deposit, its negation for a withdrawal, and 0 otherwise |
| Flows.ImpactAppend | src/main/java/com/banquito/core/examen/service/TurnoService.java:186-196 | the impact of two ledgers put together is the sum of their impacts |
| Flows.ImpactAppendOne | src/main/java/com/banquito/core/examen/service/TurnoService.java:186-196 | appending one recounting entry adds its signed amount to the impact |
| Flows.ImpactPermutation | src/main/java/com/banquito/core/examen/service/TurnoService.java:183-196 | the order in which the entries are listed changes neither success nor impact |
| Stores.FindByCodigoActivo | src/main/java/com/banquito/core/examen/service/CajeroService.java:48-55 | finds the teller exactly when the code is registered and active, and otherwise fails with NotFound for that code |
| Stores.Select | src/main/java/com/banquito/core/examen/repository/TurnoRepository.java:24 | a query returns exactly the shifts that match it, and no more than the collection holds |
| Stores.SelectAmbiguous | src/main/java/com/banquito/core/examen/repository/TurnoRepository.java:16-18 | a query returns two or more shifts exactly when two distinct positions match it |
| Stores.FindOne | src/main/java/com/banquito/core/examen/repository/TurnoRepository.java:16-18 | a single-result query fails with NonUniqueResult exactly when two shifts match; it is empty exactly when none does; otherwise it returns a matching stored shift |
| Stores.FindById | src/main/java/com/banquito/core/examen/service/TurnoService.java:126-133 | finds the shift exactly when the id exists, and otherwise fails with NotFound for that id |
| Stores.Save | src/main/java/com/banquito/core/examen/service/TurnoService.java:114 | saving replaces the record with the shift's id, or appends a new one, and leaves every other record as it was |
| Stores.EntriesOf | src/main/java/com/banquito/core/examen/repository/TransaccionRepository.java:20 | holds exactly the ledger entries of the given shift |
| Stores.EntriesOfAppend | src/main/java/com/banquito/core/examen/service/TransaccionService.java:84 | appending an entry to the ledger extends its own shift's entries by it and no other shift's |
| Clock.DateStamp | src/main/java/com/banquito/core/examen/service/TurnoService.java:171 | eight digits that read back as the year, month and day |
| Clock.TimeStamp | src/main/java/com/banquito/core/examen/service/TransaccionService.java:151 | six digits that read back as the hour, minute and second |
| ShiftService.GenerarCodigoTurno | src/main/java/com/banquito/core/examen/service/TurnoService.java:169-173 | the code is the till code, a dash, the teller code, a dash, and eight digits that read back as the date |
| ShiftService.ShiftCodeIsDaily | src/main/java/com/banquito/core/examen/service/TurnoService.java:169-173 | for one till and teller, two codes coincide exactly when they were made on the same date |
| ShiftService.AppendClosingNote | src/main/java/com/banquito/core/examen/service/TurnoService.java:109-112 | a null or blank note keeps the notes unchanged; otherwise the result is the existing notes (null read as empty), the separator, then the note |
| ShiftService.CalcularMontoEsperado | src/main/java/com/banquito/core/examen/service/TurnoService.java:175-199 | the expected cash is defined exactly when the opening total and every entry of the shift can be totalled; it is the opening total plus the impact; an opening failure is reported as is |
| ShiftService.ExpectedIsOpeningPlusNetFlow | src/main/java/com/banquito/core/examen/service/TurnoService.java:175-199 | with a valid opening count and recounting entries, the expected cash is the opening worth plus deposits minus withdrawals |
| ShiftService.ExpectedBeforePosting | src/main/java/com/banquito/core/examen/service/TurnoService.java:178-198 | with no entries posted to the shift, the expected cash is the opening worth |
| ShiftService.ExpectedAfterPosting | src/main/java/com/banquito/core/examen/service/TurnoService.java:186-198 | posting one recounting entry to the shift moves the expected cash by the entry's signed amount |
| ShiftService.AbrirTurno | src/main/java/com/banquito/core/examen/service/TurnoService.java:36-71 | the guards in order (inactive teller, ambiguous or existing open shift, missing opening count, unknown denomination) with their errors; success exactly when all pass; the new shift is appended with the next id, is open, copies till, teller and branch from the directory, stores the count, and has montoCalculado equal to the opening worth and no alert |
| ShiftService.FindByCodigoTurno | src/main/java/com/banquito/core/examen/service/TurnoService.java:135-142 | returns the one shift with that code, fails with NonUniqueResult when several match, and fails with NotFound when none does |
| ShiftService.FindByAgencia | src/main/java/com/banquito/core/examen/service/TurnoService.java:144-147 | exactly the open shifts of the branch |
| ShiftService.FindTurnosConAlerta | src/main/java/com/banquito/core/examen/service/TurnoService.java:154-157 | exactly the shifts whose alert flag is true |
| ShiftService.FindTurnoAbiertoPorCajero | src/main/java/com/banquito/core/examen/service/TurnoService.java:164-167 | fails exactly when the teller has two open shifts; it is empty exactly when the teller has none; otherwise it returns the teller's open shift |
| ShiftService.CerrarTurno | src/main/java/com/banquito/core/examen/service/TurnoService.java:73-124 | the guards in order (lookup, not open, missing closing count, expected cash failing, closing count failing) with their errors; success exactly when all pass; the closed record keeps its identity and opening data, holds CERRADO, the closing count, expected and declared cash, difference = declared - expected and alert = difference is not zero, and replaces the open record |
| TransactionService.GenerarCodigoTransaccion | src/main/java/com/banquito/core/examen/service/TransaccionService.java:148-153 | the code is TXN-, the teller code, a dash, eight digits that read back as the date, a dash, and six digits that read back as the time |
| TransactionService.TransactionCodeIsPerSecond | src/main/java/com/banquito/core/examen/service/TransaccionService.java:148-153 | for one teller, two codes coincide exactly when they were made in the same second |
| TransactionService.ProcesarTransaccion | src/main/java/com/banquito/core/examen/service/TransaccionService.java:33-88 | the guards in order (unknown shift, shift not open, invalid type, non-positive amount, missing count, unknown denomination, amount not matching the count) with their errors; success exactly when all pass; the entry is appended with the next id, stores the given fields, copies the teller and till from the shift, and recounts to its amount; the shifts are unchanged |
| Invariants.ShiftAtItsId | src/main/java/com/banquito/core/examen/service/TurnoService.java:126-133 | in a store with positional ids, a stored shift sits at the position of its id |
| Invariants.EntriesCount | src/main/java/com/banquito/core/examen/service/TransaccionService.java:60-67 | in a well-formed ledger every entry of a shift recounts to its amount, so it can be totalled again at closing |
| Invariants.ExpectedOfOpenShift | src/main/java/com/banquito/core/examen/service/TurnoService.java:175-199 | over a well-formed ledger, the expected cash of an open shift is its opening worth plus deposits minus withdrawals |
| Invariants.ExpectedDefined | src/main/java/com/banquito/core/examen/service/TurnoService.java:175-199 | in a consistent store the expected cash of every shift can be computed |
| Invariants.ExpectedDependsOnOpening | src/main/java/com/banquito/core/examen/service/TurnoService.java:179-180 | the expected cash depends on the shift only through its id and opening count |
| Invariants.AbrirTurnoPreservesValid | src/main/java/com/banquito/core/examen/service/TurnoService.java:36-71 | opening keeps the store consistent, including at most one open shift per teller |
| Invariants.ClosedIgnoresOtherEntries | src/main/java/com/banquito/core/examen/service/TransaccionService.java:70-84 | a closed shift's record stays consistent when an entry of another shift is posted |
| Invariants.AppendEntryKeepsValid | src/main/java/com/banquito/core/examen/service/TransaccionService.java:70-84 | appending a well-posted entry of an open shift keeps the store consistent |
| Invariants.ProcesarTransaccionPreservesValid | src/main/java/com/banquito/core/examen/service/TransaccionService.java:33-88 | posting keeps the store consistent |
| Invariants.ReplaceWithClosedKeepsValid | src/main/java/com/banquito/core/examen/service/TurnoService.java:100-114 | replacing an open shift with a consistent closed record of it keeps the store consistent |
| Invariants.ClosingIsWellFormed | src/main/java/com/banquito/core/examen/service/TurnoService.java:89-107 | the record a closing produces holds the expected cash over the ledger, the declared worth, their difference and the matching alert |
| Invariants.CerrarTurnoPreservesValid | src/main/java/com/banquito/core/examen/service/TurnoService.java:73-124 | closing keeps the store consistent |
| Lifecycle.FindOneAt | src/main/java/com/banquito/core/examen/repository/TurnoRepository.java:16 | a query matched at exactly one position finds the shift at that position |
| Lifecycle.SecondOpenFails | src/main/java/com/banquito/core/examen/service/TurnoService.java:43-46 | right after a successful opening, the same teller's next opening fails with "already open", whatever count it brings |
| Lifecycle.ClosingTouchesOnlyTheOpenShift | src/main/java/com/banquito/core/examen/service/TurnoService.java:76-114 | a closing replaces one shift, which was open, and leaves every other shift and the ledger unchanged |
| Lifecycle.PostAfterCloseFails | src/main/java/com/banquito/core/examen/service/TransaccionService.java:39-42 | after a closing, posting to that shift fails with "not open" |
| Lifecycle.ClosedRecordFoundByCode | src/main/java/com/banquito/core/examen/service/TurnoService.java:135-142 | after a closing, looking up its code finds exactly the closed record, which is no longer open |
| Lifecycle.SecondCloseFails | src/main/java/com/banquito/core/examen/service/TurnoService.java:79-82 | after a closing, closing the same code again fails with "not open", whatever count it brings |
| Lifecycle.PostingMovesExpected | src/main/java/com/banquito/core/examen/service/TurnoService.java:186-196 | in a consistent store a deposit raises the shift's expected cash by its amount and a withdrawal lowers it by its amount |
| Lifecycle.ClosingReconciles | src/main/java/com/banquito/core/examen/service/TurnoService.java:89-107 | closing an open shift over a well-formed ledger with a valid count succeeds; montoCalculado is opening worth plus deposits minus withdrawals, the difference is the declared worth minus that, and the alert is raised exactly when the difference is not zero |
| Lifecycle.AlertListedIffDiscrepancy | src/main/java/com/banquito/core/examen/service/TurnoService.java:154-157 | after a closing, the shift is among the alerting shifts exactly when its declared and expected cash differ |
| Lifecycle.DuplicateCodeBlocksClosing | src/main/java/com/banquito/core/examen/service/TurnoService.java:135-142 | once two shifts share a code, closing by that code fails with NonUniqueResult, whatever count it brings |
| Lifecycle.SameDayReopenIsAmbiguous | src/main/java/com/banquito/core/examen/service/TurnoService.java:169-173 | a shift reopened at the same till by the same teller on the day of an earlier shift repeats its code, after which closing by that code fails with NonUniqueResult |
| Scenarios.WorkedDay | src/main/java/com/banquito/core/examen/service/TurnoService.java:89-107 | opening with 200, depositing 50 and withdrawing 30 leaves 220 expected; closing with 230 counted records a difference of 10 and an alert, and closing with 220 counted records 0 and no alert |

## Left out

- Controllers, DTOs, mappers and the OpenAPI configuration are HTTP plumbing. Their bean-validation
  guarantee that counts are not negative (`DetalleDenominacionDTO.java:24`) appears only as a
  precondition, in `CashCounts.TotalNonNegative`. Negative counts are otherwise accepted, as in the services.
- The second shift variant (`TurnoCajaService`, `TurnoCaja`, `TransaccionTurno`, `Denominacion`) is
  not part of this model: it uses members its own types lack.
- Repositories are an in-memory store. Generated document ids are modelled as insertion positions.
  The teller directory is a map from code to (id, till, branch, active).
- `LocalDateTime.now()` is a date-time parameter. One value stands for both clock reads of an opening
  (code and opening time) and of a posting (code and timestamp). Years are limited to four digits.
- Logging, and the race between the open-shift check and the save, are not modelled.
- BigDecimal money is an unbounded integer: every unit value and count is integral.
- Null counts inside a line, and a null state, type or amount, are not modelled. Null lists and
  notes are modelled as options.
- The ledger order by descending date is not modelled. `Flows.ImpactPermutation` proves that the
  expected cash does not depend on it.
- ShiftService.CalcularMontoEsperado: takes the shift found by code rather than re-reading it by
  id. In a store with positional ids, the two are the same record (`Invariants.ShiftAtItsId`).
- The other finders of `TransaccionService` (by id, code, teller, customer, type) and the
  paginated finders are not modelled: they are plain repository reads.
- Exception classes become error variants carrying the operation and the reason, not message text.
  `NotFoundException` is not part of this model beyond its key and entity.
