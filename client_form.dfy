/** The customer form (app/clientes/page.tsx): saving a new or an edited
    customer after checking that no other customer has that name. The
    store is a parameter: the `clientes` table as the duplicate query sees
    it, and whether the query or the write reported an error. */
module ClientForm {
  import opened Js
  import opened Text
  import opened Tables
  import opened Lists

  /** A row as the duplicate query selects it (`select('id, nombre')`). */
  datatype NameRow = NameRow(id: string, nombre: string)

  /** The two columns every save writes. */
  datatype Payload = Payload(nombre: string, direccion: string)

  /** The row inserted for a new customer. */
  datatype NewClient = NewClient(nombre: string, direccion: string, deudaTotal: int, deuda12: int, deuda20: int)

  /** How one press of the form's button ends. */
  datatype SaveDecision =
    | NameNotText                  // `nombre.trim()` throws on a null name
    | AddressNotText               // `direccion.trim()` throws on a null address
    | LookupFailed                 // the duplicate query reported an error
    | Duplicate(existing: NameRow) // another customer already has the name
    | UpdateRow(id: string, payload: Payload)
    | InsertRow(row: NewClient)

  /** `ilike` with a pattern free of wildcards: equal up to case. */
  predicate SameName(a: string, b: string)
  {
    Lower(a) == Lower(b)
  }

  ghost predicate UniqueIds(rows: seq<NameRow>)
  {
    forall i, j :: 0 <= i < j < |rows| ==> rows[i].id != rows[j].id
  }

  /** The rows whose name is `nombre` up to case, in the table's order. */
  function Matching(table: seq<NameRow>, nombre: string): (r: seq<NameRow>)
    ensures forall x :: x in r <==> x in table && SameName(x.nombre, nombre)
    ensures IsSubsequence(r, table)
    ensures UniqueIds(table) ==> UniqueIds(r)
  {
    if table == [] then []
    else if SameName(table[0].nombre, nombre) then [table[0]] + Matching(table[1..], nombre)
    else Matching(table[1..], nombre)
  }

  /** `.ilike('nombre', nombreLimpio).limit(2)`: at most the first two matches. */
  function Lookup(table: seq<NameRow>, nombre: string): (r: seq<NameRow>)
    ensures |r| <= 2 && |r| <= |Matching(table, nombre)|
    ensures |r| == 2 || |r| == |Matching(table, nombre)|
    ensures r == Matching(table, nombre)[..|r|]
    ensures forall x :: x in r ==> x in table && SameName(x.nombre, nombre)
  {
    var m := Matching(table, nombre);
    if |m| <= 2 then m else m[..2]
  }

  /** `encontrados?.find(c => c.id !== editandoId)`: the first match that
      is not the customer being edited (every match, when creating). */
  function FindOther(found: seq<NameRow>, editandoId: Option<string>): (r: Option<NameRow>)
    ensures r.Some? ==> r.value in found && Some(r.value.id) != editandoId
    ensures r.Some? ==> exists k :: 0 <= k < |found| && found[k] == r.value
                                    && forall j :: 0 <= j < k ==> Some(found[j].id) == editandoId
    ensures r.None? <==> forall x :: x in found ==> Some(x.id) == editandoId
  {
    if found == [] then None
    else if Some(found[0].id) != editandoId then Some(found[0])
    else FindOther(found[1..], editandoId)
  }

  /** `guardarCliente`'s decision: trim both fields, refuse a name another
      customer already has, then update the edited customer's name and
      address, or insert a new customer with every debt at zero. */
  function Decide(nombre: Option<string>, direccion: Option<string>, editandoId: Option<string>,
                  table: seq<NameRow>, lookupFails: bool): (r: SaveDecision)
    ensures r.NameNotText? <==> nombre.None?
    ensures r.AddressNotText? <==> nombre.Some? && direccion.None?
    ensures r.LookupFailed? <==> nombre.Some? && direccion.Some? && lookupFails
    ensures r.Duplicate? ==>
              && nombre.Some? && r.existing in table && SameName(r.existing.nombre, Trim(nombre.value))
              && Some(r.existing.id) != editandoId
    ensures r.UpdateRow? ==>
              && nombre.Some? && direccion.Some? && editandoId == Some(r.id) && r.id != ""
              && r.payload == Payload(Trim(nombre.value), Trim(direccion.value))
    ensures r.InsertRow? ==>
              && nombre.Some? && direccion.Some? && (editandoId.None? || editandoId == Some(""))
              && r.row == NewClient(Trim(nombre.value), Trim(direccion.value), 0, 0, 0)
    ensures (r.UpdateRow? || r.InsertRow?) ==>
              forall x :: x in Lookup(table, Trim(nombre.value)) ==> Some(x.id) == editandoId
  {
    if nombre.None? then NameNotText
    else if direccion.None? then AddressNotText
    else if lookupFails then LookupFailed
    else
      var nombreLimpio := Trim(nombre.value);
      match FindOther(Lookup(table, nombreLimpio), editandoId)
      case Some(duplicado) => Duplicate(duplicado)
      case None => Persist(nombreLimpio, Trim(direccion.value), editandoId)
  }

  /** The write once no duplicate was found (`direccionLimpia || ""` is the
      trimmed address itself): an update of the edited customer, or, with
      no customer being edited, an insert with every debt at zero. */
  function Persist(nombreLimpio: string, direccionLimpia: string, editandoId: Option<string>): (r: SaveDecision)
    ensures r.UpdateRow? <==> editandoId.Some? && editandoId.value != ""
    ensures r.UpdateRow? ==> r.id == editandoId.value && r.payload == Payload(nombreLimpio, direccionLimpia)
    ensures !r.UpdateRow? ==> r == InsertRow(NewClient(nombreLimpio, direccionLimpia, 0, 0, 0))
  {
    var payload := Payload(nombreLimpio, direccionLimpia);
    if editandoId.Some? && editandoId.value != "" then UpdateRow(editandoId.value, payload)
    else InsertRow(NewClient(payload.nombre, payload.direccion, 0, 0, 0))
  }

  /** Asking the store for two matches is enough: when ids are unique the
      save is refused as a duplicate exactly when some customer of the
      whole table, other than the one being edited, has the trimmed name
      up to case. */
  lemma LimitTwoFindsEveryDuplicate(nombre: Option<string>, direccion: Option<string>, editandoId: Option<string>,
                                    table: seq<NameRow>)
    requires UniqueIds(table)
    ensures Decide(nombre, direccion, editandoId, table, false).Duplicate? <==>
              && nombre.Some? && direccion.Some?
              && exists k :: 0 <= k < |table| && SameName(table[k].nombre, Trim(nombre.value))
                             && Some(table[k].id) != editandoId
  {
    var r := Decide(nombre, direccion, editandoId, table, false);
    if nombre.Some? && direccion.Some? {
      if k :| 0 <= k < |table| && SameName(table[k].nombre, Trim(nombre.value)) && Some(table[k].id) != editandoId {
        OtherMatchSurvivesLimit(table, Trim(nombre.value), editandoId, table[k]);
      }
    }
    if r.Duplicate? {
      var k :| 0 <= k < |table| && table[k] == r.existing;
    }
  }

  /** Among the first two matches there is one that is not the edited
      customer, as soon as the table holds any such match. */
  lemma OtherMatchSurvivesLimit(table: seq<NameRow>, name: string, editandoId: Option<string>, x: NameRow)
    requires UniqueIds(table)
    requires x in table && SameName(x.nombre, name) && Some(x.id) != editandoId
    ensures FindOther(Lookup(table, name), editandoId).Some?
  {
    var m := Matching(table, name);
    var found := Lookup(table, name);
    assert x in m;
    if |m| <= 2 {
      var j :| 0 <= j < |m| && m[j] == x;
      assert Some(found[j].id) != editandoId;
    } else if Some(m[0].id) == editandoId {
      assert m[0].id != m[1].id;
      assert Some(found[1].id) != editandoId;
    } else {
      assert Some(found[0].id) != editandoId;
    }
  }

  /** The customer row once an update of the form has landed: only the name
      and the address change, never the debts nor the containers. */
  function ApplyPayload(c: Cliente, p: Payload): (r: Cliente)
    ensures r.nombre == Some(p.nombre) && r.direccion == Some(p.direccion)
    ensures r.id == c.id && r.deudaTotal == c.deudaTotal
    ensures r.deuda12 == c.deuda12 && r.deuda20 == c.deuda20
    ensures r.envases12 == c.envases12 && r.envases20 == c.envases20
  {
    c.(nombre := Some(p.nombre), direccion := Some(p.direccion))
  }

  /** The form's state and its two actions. */
  class ClientEditor {
    var nombre: Option<string>
    var direccion: Option<string>
    var editandoId: Option<string>
    var mostrarForm: bool

    constructor ()
      ensures nombre == Some("") && direccion == Some("") && editandoId == None && !mostrarForm
    {
      nombre, direccion, editandoId, mostrarForm := Some(""), Some(""), None, false;
    }

    /** The header's "+" button: opens or closes the form, always leaving
        edit mode with both fields cleared. */
    method ToggleForm()
      modifies this
      ensures mostrarForm == !old(mostrarForm)
      ensures editandoId == None && nombre == Some("") && direccion == Some("")
    {
      mostrarForm := !mostrarForm;
      editandoId := None;
      nombre, direccion := Some(""), Some("");
    }

    /** `prepararEdicion`: copies the row into the form; a null name or
        address is copied as it is. */
    method PrepareEdit(id: string, nombreActual: Option<string>, direccionActual: Option<string>)
      modifies this
      ensures editandoId == Some(id) && nombre == nombreActual
      ensures direccion == direccionActual && mostrarForm
    {
      editandoId := Some(id);
      nombre := nombreActual;
      direccion := direccionActual;
      mostrarForm := true;
    }

    /** `guardarCliente`: on a successful write the form is cleared and
        closed (and leaves edit mode after an update); on any early return
        the form keeps what was typed. */
    method Save(table: seq<NameRow>, lookupFails: bool, writeFails: bool) returns (r: SaveDecision, written: bool)
      modifies this
      ensures r == Decide(old(nombre), old(direccion), old(editandoId), table, lookupFails)
      ensures written <==> (r.UpdateRow? || r.InsertRow?) && !writeFails
      ensures written ==>
                && nombre == Some("") && direccion == Some("") && !mostrarForm
                && editandoId == (if r.UpdateRow? then None else old(editandoId))
      ensures !written ==>
                && nombre == old(nombre) && direccion == old(direccion)
                && editandoId == old(editandoId) && mostrarForm == old(mostrarForm)
    {
      r := Decide(nombre, direccion, editandoId, table, lookupFails);
      written := (r.UpdateRow? || r.InsertRow?) && !writeFails;
      if written {
        Reset(r.UpdateRow?);
      }
    }

    /** The form after a successful write: cleared and closed, and out of
        edit mode when the write was an update. */
    method Reset(leaveEdit: bool)
      modifies this
      ensures nombre == Some("") && direccion == Some("") && !mostrarForm
      ensures editandoId == (if leaveEdit then None else old(editandoId))
    {
      if leaveEdit {
        editandoId := None;
      }
      nombre, direccion, mostrarForm := Some(""), Some(""), false;
    }
  }
}
