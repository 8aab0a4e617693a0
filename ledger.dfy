/** One row of the delivery sheet (app/components/FilaCliente.tsx): the
    three counters the operator sets with the +/- buttons and the
    reconciliation run when "PAGÓ" or "DEBE" is pressed, which yields the
    ledger entry to insert into `entregas` and the columns to write back
    to the customer's row in `clientes`. */
module Ledger {
  import opened Js
  import opened Tables
  import opened Arith

  /** Unit prices of a 12 L and a 20 L bottle (the `configuracion` row). */
  datatype Prices = Prices(p12: int, p20: int)

  /** The props the row receives; a null or undefined one is `None`. */
  datatype Props = Props(
    deuda: Option<int>,
    deuda12: Option<int>,
    deuda20: Option<int>,
    envases12: Option<int>,
    envases20: Option<int>
  )

  /** What the operator entered: bottles delivered per size, empties
      taken back, and which of the two buttons was pressed. */
  datatype Intent = Intent(cant12: nat, cant20: nat, vacios: nat, pago: bool)

  /** The row inserted into `entregas` (its `cliente_id` is the row's id). */
  datatype Entrega = Entrega(
    bidon12: nat,
    bidon20: nat,
    devueltos20: nat,
    pagoRealizado: bool,
    montoDeuda: int,
    montoPagado: int
  )

  /** The columns written to the customer's row in `clientes`. */
  datatype ClientUpdate = ClientUpdate(
    deudaTotal: int,
    deuda12: int,
    deuda20: int,
    envases12: int,
    envases20: int
  )

  /** Either the action is refused before any write, or both writes. */
  datatype Outcome = Rejected | Registered(entrega: Entrega, update: ClientUpdate)

  /** `totalEnMano`: containers the customer holds, missing columns as 0. */
  function HeldStock(p: Props): int
  {
    OrZero(p.envases12) + OrZero(p.envases20)
  }

  predicate NothingSelected(i: Intent)
  {
    i.cant12 == 0 && i.cant20 == 0 && i.vacios == 0
  }

  /** `deuda > 0`, where a null `deuda` compares as false. */
  predicate OwesMoney(p: Props)
  {
    p.deuda.Some? && p.deuda.value > 0
  }

  /** Currency value of a number of 12 L and 20 L bottles. */
  function Value(u12: int, u20: int, pr: Prices): int
  {
    u12 * pr.p12 + u20 * pr.p20
  }

  /** The specification of one press of "PAGÓ" (`i.pago`) or "DEBE". */
  function Reconcile(p: Props, i: Intent, pr: Prices): (r: Outcome)
    // the guard: an empty action is refused unless paying off currency debt
    ensures r.Rejected? <==> NothingSelected(i) && !(i.pago && OwesMoney(p))
    // owes: the unit debts grow by what was delivered, nothing is collected
    ensures r.Registered? && !i.pago ==>
              && r.update.deuda12 == OrZero(p.deuda12) + i.cant12
              && r.update.deuda20 == OrZero(p.deuda20) + i.cant20
              && r.entrega.montoPagado == 0
              && r.entrega.montoDeuda == i.cant12 * pr.p12 + i.cant20 * pr.p20
    // paid with no bottles: every unit of debt is settled at today's prices
    ensures r.Registered? && i.pago && i.cant12 == 0 && i.cant20 == 0 ==>
              && r.update.deuda12 == 0 && r.update.deuda20 == 0
              && r.entrega.montoPagado == OrZero(p.deuda12) * pr.p12 + OrZero(p.deuda20) * pr.p20
    // paid with bottles: today's bottles are charged and taken off the unit debt
    ensures r.Registered? && i.pago && (i.cant12 > 0 || i.cant20 > 0) ==>
              && r.update.deuda12 == Max0(OrZero(p.deuda12) - i.cant12)
              && r.update.deuda20 == Max0(OrZero(p.deuda20) - i.cant20)
              && r.entrega.montoPagado == i.cant12 * pr.p12 + i.cant20 * pr.p20
    // stock follows the bottles whatever the payment; all of it in one column
    ensures r.Registered? ==>
              && r.update.envases12 == 0
              && r.update.envases20 == Max0(HeldStock(p) + i.cant12 + i.cant20 - i.vacios)
    // the currency debt is recomputed from the unit debts, never adjusted
    ensures r.Registered? ==>
              r.update.deudaTotal == r.update.deuda12 * pr.p12 + r.update.deuda20 * pr.p20
    // the ledger entry copies the intent and records one amount at most
    ensures r.Registered? ==>
              && r.entrega.bidon12 == i.cant12 && r.entrega.bidon20 == i.cant20
              && r.entrega.devueltos20 == i.vacios && r.entrega.pagoRealizado == i.pago
              && (i.pago ==> r.entrega.montoDeuda == 0)
              && (r.entrega.montoDeuda == 0 || r.entrega.montoPagado == 0)
  {
    if NothingSelected(i) && !(i.pago && OwesMoney(p)) then Rejected
    else
      var owed12, owed20 := OrZero(p.deuda12), OrZero(p.deuda20);
      var montoHoy := Value(i.cant12, i.cant20, pr);
      var payOff := i.pago && i.cant12 == 0 && i.cant20 == 0;
      var n12 := if !i.pago then owed12 + i.cant12 else if payOff then 0 else Max0(owed12 - i.cant12);
      var n20 := if !i.pago then owed20 + i.cant20 else if payOff then 0 else Max0(owed20 - i.cant20);
      var cobrado := if !i.pago then 0 else if payOff then Value(owed12, owed20, pr) else montoHoy;
      var entrega := Entrega(i.cant12, i.cant20, i.vacios, i.pago, if i.pago then 0 else montoHoy, cobrado);
      var stock := Max0(HeldStock(p) + i.cant12 + i.cant20 - i.vacios);
      Registered(entrega, ClientUpdate(Value(n12, n20, pr), n12, n20, 0, stock))
  }

  /** The customer row once the update of a registered action has landed. */
  function ApplyUpdate(c: Cliente, u: ClientUpdate): (r: Cliente)
    ensures r.id == c.id && r.nombre == c.nombre && r.direccion == c.direccion
    ensures r.deudaTotal == Some(u.deudaTotal) && r.deuda12 == Some(u.deuda12) && r.deuda20 == Some(u.deuda20)
    ensures r.envases12 == Some(u.envases12) && r.envases20 == Some(u.envases20)
  {
    c.(deudaTotal := Some(u.deudaTotal), deuda12 := Some(u.deuda12), deuda20 := Some(u.deuda20),
       envases12 := Some(u.envases12), envases20 := Some(u.envases20))
  }

  /** Money balance of one action: the currency debt afterwards plus what
      was collected is never less than the debt before (at the same prices)
      plus what was put on account, and the two are equal unless collecting
      for more bottles than were owed made the clamp at 0 bite. */
  lemma {:induction false} MoneyBalance(p: Props, i: Intent, pr: Prices)
    requires pr.p12 >= 0 && pr.p20 >= 0
    requires Reconcile(p, i, pr).Registered?
    ensures var r := Reconcile(p, i, pr);
            var before := Value(OrZero(p.deuda12), OrZero(p.deuda20), pr);
            && r.update.deudaTotal + r.entrega.montoPagado >= before + r.entrega.montoDeuda
            && ((!i.pago || (i.cant12 == 0 && i.cant20 == 0)
                 || (i.cant12 <= OrZero(p.deuda12) && i.cant20 <= OrZero(p.deuda20)))
                ==> r.update.deudaTotal + r.entrega.montoPagado == before + r.entrega.montoDeuda)
  {
    var r := Reconcile(p, i, pr);
    var d12, d20 := OrZero(p.deuda12), OrZero(p.deuda20);
    var n12, n20 := r.update.deuda12, r.update.deuda20;
    assert r.update.deudaTotal == Value(n12, n20, pr);
    if !i.pago {
      assert r.entrega.montoDeuda == Value(i.cant12, i.cant20, pr);
      ValueAdd(d12, d20, i.cant12, i.cant20, pr);
    } else if i.cant12 > 0 || i.cant20 > 0 {
      assert r.entrega.montoPagado == Value(i.cant12, i.cant20, pr);
      ValueAdd(n12, n20, i.cant12, i.cant20, pr);
      ValueMonotone(d12, d20, n12 + i.cant12, n20 + i.cant20, pr);
    }
  }

  /** Value is additive in the bottle counts. */
  lemma ValueAdd(a12: int, a20: int, b12: int, b20: int, pr: Prices)
    ensures Value(a12 + b12, a20 + b20, pr) == Value(a12, a20, pr) + Value(b12, b20, pr)
  {
    assert (a12 + b12) * pr.p12 == a12 * pr.p12 + b12 * pr.p12;
    assert (a20 + b20) * pr.p20 == a20 * pr.p20 + b20 * pr.p20;
  }

  /** More bottles of each size are worth no less at non-negative prices. */
  lemma ValueMonotone(a12: int, a20: int, b12: int, b20: int, pr: Prices)
    requires a12 <= b12 && a20 <= b20 && pr.p12 >= 0 && pr.p20 >= 0
    ensures Value(a12, a20, pr) <= Value(b12, b20, pr)
  {
    MulLe(a12, b12, pr.p12);
    MulLe(a20, b20, pr.p20);
  }

  /** With non-negative stored debts and prices, every amount written by a
      registered action is non-negative as well. */
  lemma WrittenAmountsNonNegative(p: Props, i: Intent, pr: Prices)
    requires pr.p12 >= 0 && pr.p20 >= 0
    requires OrZero(p.deuda12) >= 0 && OrZero(p.deuda20) >= 0
    requires Reconcile(p, i, pr).Registered?
    ensures var r := Reconcile(p, i, pr);
            && r.update.deudaTotal >= 0 && r.update.deuda12 >= 0 && r.update.deuda20 >= 0
            && r.update.envases12 >= 0 && r.update.envases20 >= 0
            && r.entrega.montoDeuda >= 0 && r.entrega.montoPagado >= 0
  {
    var r := Reconcile(p, i, pr);
    MulLe(0, r.update.deuda12, pr.p12);
    MulLe(0, r.update.deuda20, pr.p20);
    MulLe(0, i.cant12, pr.p12);
    MulLe(0, i.cant20, pr.p20);
    MulLe(0, OrZero(p.deuda12), pr.p12);
    MulLe(0, OrZero(p.deuda20), pr.p20);
  }

  /** The row component: its props, the prices its effect loads, and the
      three counters behind the +/- buttons. */
  class DeliveryRow {
    const props: Props
    var precios: Prices
    var cant12: int
    var cant20: int
    var vacios: int

    /** The counters never go below zero. */
    ghost predicate Valid()
      reads this
    {
      cant12 >= 0 && cant20 >= 0 && vacios >= 0
    }

    constructor (props: Props)
      ensures Valid() && this.props == props
      ensures cant12 == 0 && cant20 == 0 && vacios == 0 && precios == Prices(0, 0)
    {
      this.props := props;
      precios := Prices(0, 0);
      cant12, cant20, vacios := 0, 0, 0;
    }

    /** The effect's price read: a missing row keeps the prices as they were. */
    method LoadPrices(row: Option<Prices>)
      requires Valid()
      modifies this
      ensures Valid()
      ensures precios == (if row.Some? then row.value else old(precios))
      ensures cant12 == old(cant12) && cant20 == old(cant20) && vacios == old(vacios)
    {
      if row.Some? {
        precios := row.value;
      }
    }

    method Decrement12()
      requires Valid()
      modifies this
      ensures Valid() && cant12 == Max0(old(cant12) - 1)
      ensures cant20 == old(cant20) && vacios == old(vacios) && precios == old(precios)
    {
      cant12 := Max0(cant12 - 1);
    }

    method Increment12()
      requires Valid()
      modifies this
      ensures Valid() && cant12 == old(cant12) + 1
      ensures cant20 == old(cant20) && vacios == old(vacios) && precios == old(precios)
    {
      cant12 := cant12 + 1;
    }

    method Decrement20()
      requires Valid()
      modifies this
      ensures Valid() && cant20 == Max0(old(cant20) - 1)
      ensures cant12 == old(cant12) && vacios == old(vacios) && precios == old(precios)
    {
      cant20 := Max0(cant20 - 1);
    }

    method Increment20()
      requires Valid()
      modifies this
      ensures Valid() && cant20 == old(cant20) + 1
      ensures cant12 == old(cant12) && vacios == old(vacios) && precios == old(precios)
    {
      cant20 := cant20 + 1;
    }

    method DecrementEmpties()
      requires Valid()
      modifies this
      ensures Valid() && vacios == Max0(old(vacios) - 1)
      ensures cant12 == old(cant12) && cant20 == old(cant20) && precios == old(precios)
    {
      vacios := Max0(vacios - 1);
    }

    method IncrementEmpties()
      requires Valid()
      modifies this
      ensures Valid() && vacios == old(vacios) + 1
      ensures cant12 == old(cant12) && cant20 == old(cant20) && precios == old(precios)
    {
      vacios := vacios + 1;
    }

    /** `registrarEntrega(pago)`: the guard, the three debt branches over
        the running values, the stock and currency recomputation, and the
        two rows to write. */
    method RegisterDelivery(pago: bool) returns (r: Outcome)
      requires Valid()
      ensures r == Reconcile(props, Intent(cant12, cant20, vacios, pago), precios)
    {
      if cant12 == 0 && cant20 == 0 && vacios == 0 {
        if !(pago && props.deuda.Some? && props.deuda.value > 0) {
          return Rejected;
        }
      }
      var montoHoy := cant12 * precios.p12 + cant20 * precios.p20;
      var nDeuda12 := OrZero(props.deuda12);
      var nDeuda20 := OrZero(props.deuda20);
      var dineroCobrado := 0;
      if pago {
        if cant12 == 0 && cant20 == 0 {
          dineroCobrado := nDeuda12 * precios.p12 + nDeuda20 * precios.p20;
          nDeuda12 := 0;
          nDeuda20 := 0;
        } else {
          dineroCobrado := montoHoy;
          nDeuda12 := Max0(nDeuda12 - cant12);
          nDeuda20 := Max0(nDeuda20 - cant20);
        }
      } else {
        nDeuda12 := nDeuda12 + cant12;
        nDeuda20 := nDeuda20 + cant20;
        dineroCobrado := 0;
      }
      var totalEnMano := OrZero(props.envases12) + OrZero(props.envases20);
      var nFisicoTotal := Max0(totalEnMano + cant12 + cant20 - vacios);
      var nDeudaTotalPesos := nDeuda12 * precios.p12 + nDeuda20 * precios.p20;
      var entrega := Entrega(cant12, cant20, vacios, pago, if pago then 0 else montoHoy, dineroCobrado);
      r := Registered(entrega, ClientUpdate(nDeudaTotalPesos, nDeuda12, nDeuda20, 0, nFisicoTotal));
    }
  }
}
