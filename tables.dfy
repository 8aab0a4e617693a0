/** The rows of the store's `clientes` table, as the pages read them. */
module Tables {
  import opened Js

  /** One customer row (`select('*')`): every column but the id may be null. */
  datatype Cliente = Cliente(
    id: string,
    nombre: Option<string>,
    direccion: Option<string>,
    deudaTotal: Option<int>,   // deuda_total: debt in currency
    deuda12: Option<int>,      // deuda_12l: unpaid 12 L bottles
    deuda20: Option<int>,      // deuda_20l: unpaid 20 L bottles
    envases12: Option<int>,    // envases_12l: containers held, 12 L column
    envases20: Option<int>     // envases_20l: containers held, 20 L column
  )
}
