/** Properties of several steps taken together: a row of the delivery
    sheet built from a customer of the list, one action registered, the
    customer row updated, the sheet reloaded, and a second action; and
    how the ledger entries an action writes are shown afterwards. */
module Workflow {
  import opened Js
  import opened Tables
  import opened Ledger
  import opened ClientList
  import Summary

  /** The row after reloading the sheet once `r`'s update has landed. */
  function Reloaded(c: Cliente, r: Outcome): Cliente
    requires r.Registered?
  {
    ApplyUpdate(c, r.update)
  }

  /** As app/page.tsx builds the rows, every action writes as the new
      stock only what it delivered minus what it took back, whatever the
      customer held before. */
  lemma StockAsWrittenIgnoresHeld(c: Cliente, i: Intent, pr: Prices)
    requires Reconcile(RowPropsAsWritten(c), i, pr).Registered?
    ensures Reconcile(RowPropsAsWritten(c), i, pr).update.envases20 == Max0(i.cant12 + i.cant20 - i.vacios)
  {
  }

  /** A customer holding 3 containers who receives one more 20 L bottle on
      account ends up with a recorded stock of 1 as the page is written, and
      of 4 once the row is given the container columns. */
  lemma StockResetExample()
    ensures var c := Cliente("c1", Some("Ana"), None, Some(0), Some(0), Some(0), Some(0), Some(3));
            var i := Intent(0, 1, 0, false);
            var pr := Prices(300, 500);
            && Reconcile(RowPropsAsWritten(c), i, pr).update.envases20 == 1
            && Reconcile(RowProps(c), i, pr).update.envases20 == 4
  {
  }

  /** With the container columns passed, stock carries over from one action
      to the next: two actions that never take back more than is held leave
      the customer with the containers held before, plus everything
      delivered, minus everything taken back. */
  lemma {:induction false} StockAccumulates(c: Cliente, i1: Intent, i2: Intent, pr: Prices)
    requires Reconcile(RowProps(c), i1, pr).Registered?
    requires var held := OrZero(c.envases12) + OrZero(c.envases20);
             && i1.vacios <= held + i1.cant12 + i1.cant20
             && i2.vacios <= held + i1.cant12 + i1.cant20 - i1.vacios + i2.cant12 + i2.cant20
    ensures var c1 := Reloaded(c, Reconcile(RowProps(c), i1, pr));
            var r2 := Reconcile(RowProps(c1), i2, pr);
            r2.Registered? ==>
              r2.update.envases20 == OrZero(c.envases12) + OrZero(c.envases20)
                                     + i1.cant12 + i1.cant20 + i2.cant12 + i2.cant20
                                     - i1.vacios - i2.vacios
  {
    var r1 := Reconcile(RowProps(c), i1, pr);
    var c1 := Reloaded(c, r1);
    assert OrZero(c1.envases12) + OrZero(c1.envases20) == r1.update.envases20;
  }

  /** "DEBE" for some bottles followed by "PAGÓ" for a second delivery of
      the same quantities: the paid bottles are taken off the unit debt, so
      the unit debts go back where they were and what is collected is what
      was put on account (prices unchanged), while both deliveries are added
      to the stock. The currency debt written is the value of the restored
      unit debts, so it is the stored one whenever that was consistent with
      them at these prices. */
  lemma {:induction false} DeferThenPayRestoresDebt(c: Cliente, cant12: nat, cant20: nat, v1: nat, v2: nat, pr: Prices)
    requires OrZero(c.deuda12) >= 0 && OrZero(c.deuda20) >= 0
    requires cant12 > 0 || cant20 > 0
    ensures var r1 := Reconcile(RowProps(c), Intent(cant12, cant20, v1, false), pr);
            && r1.Registered?
            && var r2 := Reconcile(RowProps(Reloaded(c, r1)), Intent(cant12, cant20, v2, true), pr);
               && r2.Registered?
               && r2.update.deuda12 == OrZero(c.deuda12) && r2.update.deuda20 == OrZero(c.deuda20)
               && r2.update.deudaTotal == Value(OrZero(c.deuda12), OrZero(c.deuda20), pr)
               && (c.deudaTotal == Some(Value(OrZero(c.deuda12), OrZero(c.deuda20), pr)) ==>
                     r2.update.deudaTotal == c.deudaTotal.value)
               && r2.entrega.montoPagado == r1.entrega.montoDeuda
               && r2.entrega.bidon12 == cant12 && r2.entrega.bidon20 == cant20
               && r2.update.envases20 == Max0(r1.update.envases20 + cant12 + cant20 - v2)
  {
    var r1 := Reconcile(RowProps(c), Intent(cant12, cant20, v1, false), pr);
    var c1 := Reloaded(c, r1);
    assert c1.deuda12 == Some(OrZero(c.deuda12) + cant12);
    assert c1.deuda20 == Some(OrZero(c.deuda20) + cant20);
  }

  /** Paying off a customer's whole debt leaves nothing to collect: the
      currency debt written is 0, so once the row has been reloaded from the
      updated customer, pressing "PAGÓ" again with nothing selected is
      refused. */
  lemma {:induction false} PayOffCannotCollectTwice(c: Cliente, pr: Prices)
    requires c.deudaTotal.Some? && c.deudaTotal.value > 0
    ensures var payOff := Intent(0, 0, 0, true);
            var r1 := Reconcile(RowProps(c), payOff, pr);
            && r1.Registered? && r1.update.deudaTotal == 0
            && Reconcile(RowProps(Reloaded(c, r1)), payOff, pr).Rejected?
  {
    var r1 := Reconcile(RowProps(c), Intent(0, 0, 0, true), pr);
    assert r1.update.deuda12 == 0 && r1.update.deuda20 == 0;
    assert Reloaded(c, r1).deudaTotal == Some(0);
  }

  /** The amount the history of a row shows for an entry
      (`monto_pagado || monto_deuda`). */
  function HistoryAmount(e: Entrega): int
  {
    if e.montoPagado != 0 then e.montoPagado else e.montoDeuda
  }

  /** An entry as the dashboard reads it back. */
  function AsActivity(e: Entrega): Summary.Activity
  {
    Summary.Activity(e.montoDeuda, e.montoPagado, e.pagoRealizado)
  }

  /** For every entry an action writes, the dashboard and the row's
      history show the same amount, and it is the money that moved: what
      was collected after "PAGÓ", what was put on account after "DEBE". */
  lemma ShownAmountIsMoneyMoved(p: Props, i: Intent, pr: Prices)
    requires Reconcile(p, i, pr).Registered?
    ensures var e := Reconcile(p, i, pr).entrega;
            && Summary.ShownAmount(AsActivity(e)) == HistoryAmount(e)
            && Summary.ShownAmount(AsActivity(e)) ==
                 (if i.pago then e.montoPagado else Value(i.cant12, i.cant20, pr))
  {
  }
}
