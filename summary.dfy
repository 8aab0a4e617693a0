/** The dashboard (app/resumen/page.tsx): total debt in the street, money
    collected today, the collected percentage, and the amount shown for
    each recent ledger entry. The two queries for today's entries and for
    the recent ones are inputs: the "start of today" filter and the
    ordering happen in the store. */
module Summary {
  import opened Js
  import opened Arith

  /** Reference sum of a list of amounts. */
  function Sum(s: seq<int>): int
  {
    if s == [] then 0 else s[0] + Sum(s[1..])
  }

  /** `Number(v) || 0`: NaN, null and 0 all count as 0. */
  function NumberOrZero(v: Json): int
  {
    match ToNumber(v)
    case Some(n) => n
    case None => 0
  }

  /** Each cell read through `Number(v) || 0`. */
  function Amounts(rows: seq<Json>): (r: seq<int>)
    ensures |r| == |rows|
    ensures forall k :: 0 <= k < |rows| ==> r[k] == NumberOrZero(rows[k])
  {
    if rows == [] then [] else [NumberOrZero(rows[0])] + Amounts(rows[1..])
  }

  predicate HasNonNumeric(rows: seq<Json>)
  {
    exists k :: 0 <= k < |rows| && rows[k].NonNumeric?
  }

  /** `reduce((acc, c) => acc + Number(c.deuda_total), acc)`, left to right;
      `None` is NaN, which absorbs every later addition. */
  function FoldDebt(acc: Option<int>, rows: seq<Json>): Option<int>
    decreases |rows|
  {
    if rows == [] then acc
    else
      var next := if acc.Some? && ToNumber(rows[0]).Some? then Some(acc.value + ToNumber(rows[0]).value) else None;
      FoldDebt(next, rows[1..])
  }

  /** The fold yields NaN exactly when it started from NaN or meets a
      non-numeric cell, and otherwise adds the reference sum of the cells. */
  lemma {:induction false} FoldDebtIsSum(acc: Option<int>, rows: seq<Json>)
    ensures FoldDebt(acc, rows) ==
              if acc.None? || HasNonNumeric(rows) then None else Some(acc.value + Sum(Amounts(rows)))
    decreases |rows|
  {
    if rows != [] {
      FoldDebtIsSum(if acc.Some? && ToNumber(rows[0]).Some? then Some(acc.value + ToNumber(rows[0]).value) else None, rows[1..]);
      assert HasNonNumeric(rows) <==> rows[0].NonNumeric? || HasNonNumeric(rows[1..]) by {
        if HasNonNumeric(rows[1..]) {
          var k :| 0 <= k < |rows[1..]| && rows[1..][k].NonNumeric?;
          assert rows[k + 1].NonNumeric?;
        }
        if HasNonNumeric(rows) && !rows[0].NonNumeric? {
          var k :| 0 <= k < |rows| && rows[k].NonNumeric?;
          assert rows[1..][k - 1].NonNumeric?;
        }
      }
    }
  }

  /** `clientesData?.reduce(...) || 0`: the sum of every customer's
      `deuda_total` (null as 0); 0 when the query gave nothing back or when a
      non-numeric value turned the sum into NaN. */
  function TotalStreetDebt(clientesData: Option<seq<Json>>): (r: int)
    ensures clientesData.None? ==> r == 0
    ensures clientesData.Some? && HasNonNumeric(clientesData.value) ==> r == 0
    ensures clientesData.Some? && !HasNonNumeric(clientesData.value) ==> r == Sum(Amounts(clientesData.value))
  {
    match clientesData
    case None => 0
    case Some(rows) =>
      FoldDebtIsSum(Some(0), rows);
      match FoldDebt(Some(0), rows)
      case None => 0
      case Some(total) => total
  }

  /** `reduce((acc, e) => acc + (Number(e.monto_pagado) || 0), acc)`. */
  function FoldCollected(acc: int, rows: seq<Json>): int
    decreases |rows|
  {
    if rows == [] then acc else FoldCollected(acc + NumberOrZero(rows[0]), rows[1..])
  }

  lemma {:induction false} FoldCollectedIsSum(acc: int, rows: seq<Json>)
    ensures FoldCollected(acc, rows) == acc + Sum(Amounts(rows))
    decreases |rows|
  {
    if rows != [] {
      FoldCollectedIsSum(acc + NumberOrZero(rows[0]), rows[1..]);
    }
  }

  /** `entregasHoy?.reduce(...) || 0`: the sum of today's `monto_pagado`,
      a missing or non-numeric one counting as 0, and 0 without data. */
  function CollectedToday(entregasHoy: Option<seq<Json>>): (r: int)
    ensures entregasHoy.None? ==> r == 0
    ensures entregasHoy.Some? ==> r == Sum(Amounts(entregasHoy.value))
  {
    match entregasHoy
    case None => 0
    case Some(rows) =>
      FoldCollectedIsSum(0, rows);
      FoldCollected(0, rows)
  }

  /** No numeric value read from the store is negative. */
  predicate NonNegativeCells(data: Option<seq<Json>>)
  {
    data.Some? ==> forall k :: 0 <= k < |data.value| && data.value[k].Num? ==> data.value[k].n >= 0
  }

  lemma {:induction false} SumAmountsNonNegative(rows: seq<Json>)
    requires NonNegativeCells(Some(rows))
    ensures Sum(Amounts(rows)) >= 0
    decreases |rows|
  {
    if rows != [] {
      assert NonNegativeCells(Some(rows[1..])) by {
        forall k | 0 <= k < |rows[1..]| && rows[1..][k].Num? ensures rows[1..][k].n >= 0 {
          assert rows[1..][k] == rows[k + 1];
        }
      }
      SumAmountsNonNegative(rows[1..]);
    }
  }

  /** With no negative amount in the store, neither figure is negative. */
  lemma FiguresNonNegative(clientesData: Option<seq<Json>>, entregasHoy: Option<seq<Json>>)
    requires NonNegativeCells(clientesData) && NonNegativeCells(entregasHoy)
    ensures TotalStreetDebt(clientesData) >= 0
    ensures CollectedToday(entregasHoy) >= 0
  {
    if clientesData.Some? {
      SumAmountsNonNegative(clientesData.value);
    }
    if entregasHoy.Some? {
      SumAmountsNonNegative(entregasHoy.value);
    }
  }

  /** `Math.round(cobrado / base * 100)` when `base = cobrado + deuda` is
      positive, rounding halves up; exactly 100 otherwise. */
  function CollectedPercentage(cobrado: int, deuda: int): (perc: int)
    ensures cobrado + deuda <= 0 ==> perc == 100
    ensures cobrado + deuda > 0 ==>
              (2 * perc - 1) * (cobrado + deuda) <= 200 * cobrado < (2 * perc + 1) * (cobrado + deuda)
  {
    var base := cobrado + deuda;
    if base > 0 then
      var perc := (200 * cobrado + base) / (2 * base);
      RoundedQuotient(200 * cobrado, base, perc);
      perc
    else 100
  }

  lemma RoundedQuotient(n: int, b: int, q: int)
    requires b > 0 && q == (n + b) / (2 * b)
    ensures (2 * q - 1) * b <= n < (2 * q + 1) * b
  {
    var m := (n + b) % (2 * b);
    assert n + b == 2 * b * q + m && 0 <= m < 2 * b;
    assert (2 * q - 1) * b == 2 * b * q - b;
    assert (2 * q + 1) * b == 2 * b * q + b;
  }

  /** With nothing negative, the percentage lies between 0 and 100; it is
      0 when nothing was collected against some debt and 100 when there is
      no debt left in the street. */
  lemma PercentageInRange(cobrado: int, deuda: int)
    requires cobrado >= 0 && deuda >= 0
    ensures 0 <= CollectedPercentage(cobrado, deuda) <= 100
    ensures cobrado == 0 && deuda > 0 ==> CollectedPercentage(cobrado, deuda) == 0
    ensures deuda == 0 ==> CollectedPercentage(cobrado, deuda) == 100
  {
    var base := cobrado + deuda;
    if base > 0 {
      RoundedShareBounds(CollectedPercentage(cobrado, deuda), cobrado, base);
    }
  }

  /** What the rounding bounds of a share `c` of `b` leave for the rounded
      percentage `perc`. */
  lemma RoundedShareBounds(perc: int, c: int, b: int)
    requires 0 <= c <= b && b > 0
    requires (2 * perc - 1) * b <= 200 * c < (2 * perc + 1) * b
    ensures 0 <= perc <= 100
    ensures c == 0 ==> perc == 0
    ensures c == b ==> perc == 100
  {
    if perc > 100 {
      MulLe(201, 2 * perc - 1, b);
    }
    if perc < 0 {
      MulLe(2 * perc + 1, -1, b);
    }
    if c == 0 && perc >= 1 {
      MulLe(1, 2 * perc - 1, b);
    }
    if c == b && perc <= 99 {
      MulLe(2 * perc + 1, 199, b);
    }
  }

  /** The percentage the dashboard loads lies between 0 and 100 whenever
      no amount in the store is negative. */
  lemma LoadedPercentageInRange(clientesData: Option<seq<Json>>, entregasHoy: Option<seq<Json>>)
    requires NonNegativeCells(clientesData) && NonNegativeCells(entregasHoy)
    ensures 0 <= CollectedPercentage(CollectedToday(entregasHoy), TotalStreetDebt(clientesData)) <= 100
  {
    FiguresNonNegative(clientesData, entregasHoy);
    PercentageInRange(CollectedToday(entregasHoy), TotalStreetDebt(clientesData));
  }

  /** A recent entry as the dashboard reads it (`fecha` and the customer
      name only feed the display). */
  datatype Activity = Activity(montoDeuda: int, montoPagado: int, pagoRealizado: bool)

  /** The amount shown for a recent entry. */
  function ShownAmount(a: Activity): int
  {
    if a.pagoRealizado then a.montoPagado else a.montoDeuda
  }

  /** The page's state and `cargarDatos`, which fills it from the three
      query results. */
  class Dashboard {
    var totalDeudaCalle: int
    var cobradoHoy: int
    var porcentajeCobro: int
    var actividad: seq<Activity>
    var cargando: bool

    constructor ()
      ensures totalDeudaCalle == 0 && cobradoHoy == 0 && porcentajeCobro == 100
      ensures actividad == [] && cargando
    {
      totalDeudaCalle, cobradoHoy, porcentajeCobro := 0, 0, 100;
      actividad, cargando := [], true;
    }

    method LoadData(clientesData: Option<seq<Json>>, entregasHoy: Option<seq<Json>>,
                    entregasData: Option<seq<Activity>>)
      modifies this
      ensures totalDeudaCalle == TotalStreetDebt(clientesData)
      ensures cobradoHoy == CollectedToday(entregasHoy)
      ensures porcentajeCobro == CollectedPercentage(cobradoHoy, totalDeudaCalle)
      ensures NonNegativeCells(clientesData) && NonNegativeCells(entregasHoy) ==> 0 <= porcentajeCobro <= 100
      ensures actividad == (if entregasData.Some? then entregasData.value else old(actividad))
      ensures !cargando
    {
      cargando := true;
      var deudaTotalAcumulada := TotalStreetDebt(clientesData);
      totalDeudaCalle := deudaTotalAcumulada;
      var recaudacionDia := CollectedToday(entregasHoy);
      cobradoHoy := recaudacionDia;
      porcentajeCobro := CollectedPercentage(recaudacionDia, deudaTotalAcumulada);
      if NonNegativeCells(clientesData) && NonNegativeCells(entregasHoy) {
        LoadedPercentageInRange(clientesData, entregasHoy);
      }
      if entregasData.Some? {
        actividad := entregasData.value;
      }
      cargando := false;
    }
  }
}
