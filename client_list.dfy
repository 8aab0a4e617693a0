/** The delivery sheet's customer list (app/page.tsx): the search filter,
    the two orderings, and the props each row is given. */
module ClientList {
  import opened Js
  import opened Text
  import opened Tables
  import Ledger
  import opened Lists

  /** The two buttons "A - Z" and "MAYOR DEUDA". */
  datatype SortOrder = ByName | ByDebt

  /** `c.nombre ?? ""`, `c.direccion ?? ""`, `c.deuda_total ?? 0`. */
  function NameOf(c: Cliente): string { OrEmpty(c.nombre) }
  function AddressOf(c: Cliente): string { OrEmpty(c.direccion) }
  function DebtOf(c: Cliente): int { OrZero(c.deudaTotal) }

  /** The filter's test: the lowercased term is included in the lowercased
      name or in the lowercased address. */
  predicate Matches(c: Cliente, busqueda: string)
  {
    var termino := Lower(busqueda);
    Includes(Lower(NameOf(c)), termino) || Includes(Lower(AddressOf(c)), termino)
  }

  /** `clientes.filter(...)`: keeps exactly the matching customers, in
      their order; an empty term keeps the whole list. */
  function FilterClients(cs: seq<Cliente>, busqueda: string): (r: seq<Cliente>)
    ensures forall c :: c in r <==> c in cs && Matches(c, busqueda)
    ensures forall c :: multiset(r)[c] == if Matches(c, busqueda) then multiset(cs)[c] else 0
    ensures IsSubsequence(r, cs)
    ensures busqueda == "" ==> r == cs
  {
    if cs == [] then []
    else
      assert cs == [cs[0]] + cs[1..];
      if Matches(cs[0], busqueda) then [cs[0]] + FilterClients(cs[1..], busqueda)
      else FilterClients(cs[1..], busqueda)
  }

  /** A customer is kept exactly when the lowercased term occurs, at some
      position, in its lowercased name or its lowercased address. */
  lemma KeptIffSubstring(cs: seq<Cliente>, busqueda: string, c: Cliente)
    ensures c in FilterClients(cs, busqueda) <==>
              c in cs && ((exists k :: OccursAt(Lower(NameOf(c)), Lower(busqueda), k))
                          || (exists k :: OccursAt(Lower(AddressOf(c)), Lower(busqueda), k)))
  {
    IncludesIffOccurs(Lower(NameOf(c)), Lower(busqueda));
    IncludesIffOccurs(Lower(AddressOf(c)), Lower(busqueda));
  }

  /** A missing name or address reads as "", which only the empty term matches. */
  lemma MissingFieldMatchesOnlyEmptyTerm(c: Cliente, busqueda: string)
    ensures c.nombre.None? ==> (Includes(Lower(NameOf(c)), Lower(busqueda)) <==> busqueda == "")
    ensures c.direccion.None? ==> (Includes(Lower(AddressOf(c)), Lower(busqueda)) <==> busqueda == "")
    ensures c.nombre.None? && c.direccion.None? ==> (Matches(c, busqueda) <==> busqueda == "")
  {
  }

  /** `localeCompare` is left abstract: any total preorder on names. */
  ghost predicate TotalPreorder(nameLeq: (string, string) -> bool)
  {
    && (forall a, b :: nameLeq(a, b) || nameLeq(b, a))
    && (forall a, b, c :: nameLeq(a, b) && nameLeq(b, c) ==> nameLeq(a, c))
  }

  /** `a` may stand before `b`: by name (line 45) or by larger debt first (line 46). */
  predicate InOrder(order: SortOrder, nameLeq: (string, string) -> bool, a: Cliente, b: Cliente)
  {
    match order
    case ByName => nameLeq(NameOf(a), NameOf(b))
    case ByDebt => DebtOf(b) <= DebtOf(a)
  }

  ghost predicate SortedBy(s: seq<Cliente>, order: SortOrder, nameLeq: (string, string) -> bool)
  {
    forall i, j :: 0 <= i < j < |s| ==> InOrder(order, nameLeq, s[i], s[j])
  }

  lemma InOrderTotal(order: SortOrder, nameLeq: (string, string) -> bool, a: Cliente, b: Cliente)
    requires TotalPreorder(nameLeq)
    ensures InOrder(order, nameLeq, a, b) || InOrder(order, nameLeq, b, a)
  {
  }

  lemma InOrderTransitive(order: SortOrder, nameLeq: (string, string) -> bool, a: Cliente, b: Cliente, c: Cliente)
    requires TotalPreorder(nameLeq)
    requires InOrder(order, nameLeq, a, b) && InOrder(order, nameLeq, b, c)
    ensures InOrder(order, nameLeq, a, c)
  {
  }

  /** Places `x` before the first element it may precede, so that, as in
      the stable `Array.prototype.sort`, it stays ahead of its equals. */
  function Insert(x: Cliente, s: seq<Cliente>, order: SortOrder, nameLeq: (string, string) -> bool): (r: seq<Cliente>)
    requires TotalPreorder(nameLeq)
    requires SortedBy(s, order, nameLeq)
    ensures SortedBy(r, order, nameLeq)
    ensures multiset(r) == multiset(s) + multiset{x}
    decreases |s|
  {
    if s == [] || InOrder(order, nameLeq, x, s[0]) then
      InsertFrontSorted(x, s, order, nameLeq);
      [x] + s
    else
      var t := Insert(x, s[1..], order, nameLeq);
      InOrderTotal(order, nameLeq, x, s[0]);
      HeadPrecedesInsert(x, s, t, order, nameLeq);
      ConsSorted(s[0], t, order, nameLeq);
      assert s == [s[0]] + s[1..];
      [s[0]] + t
  }

  /** The head of a sorted list may precede everything in the rest of it
      with one more element inserted, when it may precede that element. */
  lemma HeadPrecedesInsert(x: Cliente, s: seq<Cliente>, t: seq<Cliente>, order: SortOrder, nameLeq: (string, string) -> bool)
    requires SortedBy(s, order, nameLeq) && |s| > 0
    requires InOrder(order, nameLeq, s[0], x)
    requires multiset(t) == multiset(s[1..]) + multiset{x}
    ensures forall k :: 0 <= k < |t| ==> InOrder(order, nameLeq, s[0], t[k])
  {
    forall k | 0 <= k < |t| ensures InOrder(order, nameLeq, s[0], t[k]) {
      assert t[k] in multiset(t);
      if t[k] != x {
        assert t[k] in multiset(s[1..]);
        var j :| 0 <= j < |s[1..]| && s[1..][j] == t[k];
        assert s[j + 1] == t[k];
      }
    }
  }

  lemma ConsSorted(h: Cliente, t: seq<Cliente>, order: SortOrder, nameLeq: (string, string) -> bool)
    requires SortedBy(t, order, nameLeq)
    requires forall k :: 0 <= k < |t| ==> InOrder(order, nameLeq, h, t[k])
    ensures SortedBy([h] + t, order, nameLeq)
  {
    forall i, j | 0 <= i < j < |[h] + t| ensures InOrder(order, nameLeq, ([h] + t)[i], ([h] + t)[j]) {
      if i > 0 {
        assert ([h] + t)[i] == t[i - 1] && ([h] + t)[j] == t[j - 1];
      }
    }
  }

  lemma InsertFrontSorted(x: Cliente, s: seq<Cliente>, order: SortOrder, nameLeq: (string, string) -> bool)
    requires TotalPreorder(nameLeq)
    requires SortedBy(s, order, nameLeq)
    requires s == [] || InOrder(order, nameLeq, x, s[0])
    ensures SortedBy([x] + s, order, nameLeq)
  {
    forall j | 0 < j < |s| ensures InOrder(order, nameLeq, x, s[j]) {
      InOrderTransitive(order, nameLeq, x, s[0], s[j]);
    }
  }

  /** `.sort(...)` on the filtered array: sorted, and a permutation of it. */
  function SortClients(s: seq<Cliente>, order: SortOrder, nameLeq: (string, string) -> bool): (r: seq<Cliente>)
    requires TotalPreorder(nameLeq)
    ensures SortedBy(r, order, nameLeq)
    ensures multiset(r) == multiset(s)
  {
    if s == [] then []
    else
      assert s == [s[0]] + s[1..];
      Insert(s[0], SortClients(s[1..], order, nameLeq), order, nameLeq)
  }

  /** `clientesProcesados`: the matching customers, each exactly as often
      as in the list, by name or by non-increasing debt. */
  function ProcessClients(cs: seq<Cliente>, busqueda: string, orden: SortOrder,
                          nameLeq: (string, string) -> bool): (r: seq<Cliente>)
    requires TotalPreorder(nameLeq)
    ensures multiset(r) == multiset(FilterClients(cs, busqueda))
    ensures forall c :: multiset(r)[c] == if Matches(c, busqueda) then multiset(cs)[c] else 0
    ensures forall c :: c in r <==> c in cs && Matches(c, busqueda)
    ensures orden == ByName ==>
              forall i, j :: 0 <= i < j < |r| ==> nameLeq(NameOf(r[i]), NameOf(r[j]))
    ensures orden == ByDebt ==>
              forall i, j :: 0 <= i < j < |r| ==> DebtOf(r[i]) >= DebtOf(r[j])
  {
    var kept := FilterClients(cs, busqueda);
    var r := SortClients(kept, orden, nameLeq);
    SameMembers(r, kept);
    assert forall i, j :: 0 <= i < j < |r| ==> InOrder(orden, nameLeq, r[i], r[j]);
    r
  }

  /** Two lists holding the same multiset hold the same members. */
  lemma SameMembers(a: seq<Cliente>, b: seq<Cliente>)
    requires multiset(a) == multiset(b)
    ensures forall c :: c in a <==> c in b
  {
    forall c ensures c in a <==> c in b {
      assert c in a <==> c in multiset(a);
      assert c in b <==> c in multiset(b);
    }
  }

  /** The props app/page.tsx hands each row: the two container columns are
      not passed, so the row falls back to its defaults of 0. */
  function RowPropsAsWritten(c: Cliente): (p: Ledger.Props)
    ensures Ledger.HeldStock(p) == 0
    ensures p.deuda == c.deudaTotal && p.deuda12 == c.deuda12 && p.deuda20 == c.deuda20
  {
    Ledger.Props(c.deudaTotal, c.deuda12, c.deuda20, None, None)
  }

  /** The props with the container columns passed as well, so that the row
      starts from the containers the customer really holds. */
  function RowProps(c: Cliente): (p: Ledger.Props)
    ensures Ledger.HeldStock(p) == OrZero(c.envases12) + OrZero(c.envases20)
    ensures p.deuda == c.deudaTotal && p.deuda12 == c.deuda12 && p.deuda20 == c.deuda20
  {
    Ledger.Props(c.deudaTotal, c.deuda12, c.deuda20, c.envases12, c.envases20)
  }
}
