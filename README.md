# Agua El Vaskito: the delivery ledger, the customer list, the dashboard and the customer form

Agua El Vaskito is a small web application for a water-delivery round.
The delivery person keeps one list of customers. For each customer they
record how many 12 L and 20 L bottles were handed over today and how many
empty containers were taken back. Then they press "PAGÓ" (paid) or "DEBE"
(owes). The application keeps three things per customer:

- a debt counted in bottles (`deuda_12l`, `deuda_20l`);
- a debt in pesos recomputed from those bottles (`deuda_total`);
- the containers the customer holds (`envases_12l`, `envases_20l`).

Every action also appends an entry to the `entregas` ledger.

This Dafny project models that core:

- `Ledger` (`ledger.dfy`) models `registrarEntrega` and the +/- counters of
  a delivery row. `Reconcile` is the pure specification of one button
  press. Its result is either `Rejected` or the ledger entry and the
  customer update it writes. The class `DeliveryRow` holds the row's
  state: its props, the prices it loads and the three counters. Its
  methods change that state in place. `RegisterDelivery` computes the two
  rows step by step, as the handler does, and is proved equal to
  `Reconcile`.
- `ClientList` (`client_list.dfy`) models the delivery sheet's search
  filter and its two orderings, proved sorted and a permutation. It also
  models the props each row receives.
- `Summary` (`summary.dfy`) models the dashboard's three figures: the
  debt in the street, the money collected today and the collected
  percentage. It also models the amount shown for each recent entry. The
  class `Dashboard` holds the page state that `cargarDatos` fills in.
- `ClientForm` (`client_form.dfy`) models the duplicate-name check and the
  payload of `guardarCliente`. The class `ClientEditor` holds the form
  state.
- `Workflow` (`workflow.dfy`) relates several steps: an action, the reload
  of the updated customer, then a second action. It also shows that the
  dashboard and a row's history display the same amount.
- `Js`, `Text`, `Tables`, `Lists` and `Arith` hold shared pieces:
  - the JavaScript conventions the code relies on (`?? ""`, `|| 0`,
    `Math.max(0, x)`, `Number(...)`);
  - `toLowerCase`, `includes` and `trim`;
  - the `clientes` row;
  - order-preserving selection from a list;
  - one multiplication lemma.

The store (Supabase) is never called. Each query result is an input, and
each failed query is a boolean input. A registered action returns the two
rows it writes; it does not send them.

A few facts about the code shape what the model covers:

- The code has no undo or reversal of an entry.
- The code has no separate mode for collecting old debt: "PAGÓ" with no
  bottles selected settles all bottle debt.
- An empty action is refused unless "PAGÓ" is pressed while `deuda > 0`.
- Paying for more bottles than are owed is not refused. The bottle debt
  is clamped at 0.

## Model

| member | source | states |
|---|---|---|
| Js.Max0 | app/components/FilaCliente.tsx:67-68 | `Math.max(0, x)` is the least non-negative value at or above `x`: either `x` itself or 0 |
| Text.LowerChar | app/page.tsx:37-39 | lowering maps upper-case letters to their lower-case partners and leaves every other character alone |
| Text.Lower | app/page.tsx:37-39 | `toLowerCase` keeps the length and lowers each character in place |
| Text.Includes | app/page.tsx:41 | `includes` as a search from the front; its meaning is stated by `Text.IncludesIffOccurs` |
| Text.IncludesIffOccurs | app/page.tsx:41 | `includes` is true exactly when the needle occurs at some position of the haystack |
| Text.TrimStart | app/clientes/page.tsx:27-28 | drops exactly the leading white space: the result is a suffix, what was dropped is all white space, and the result does not start with white space |
| Text.TrimEnd | app/clientes/page.tsx:27-28 | drops exactly the trailing white space, in the same three senses |
| Text.Trim | app/clientes/page.tsx:27-28 | `trim` returns the slice of the input between its leading and its trailing white space; the result neither starts nor ends with white space |
| Text.TrimIdempotent | app/clientes/page.tsx:27-28 | trimming twice gives the same result as trimming once |
| Ledger.Reconcile | app/components/FilaCliente.tsx:42-102 | an empty action is refused unless paying while `deuda > 0`. "DEBE" adds today's bottles to the bottle debt and records their price as put on account. "PAGÓ" with no bottles settles all bottle debt at today's prices. "PAGÓ" with bottles charges them and takes them off the bottle debt, clamped at 0. Stock becomes held + delivered - taken back, clamped at 0, all in the 20 L column. The peso debt is recomputed from the bottle debts. The entry copies the action and records at most one non-zero amount |
| Ledger.ApplyUpdate | app/components/FilaCliente.tsx:96-102 | the customer row after the update lands: the five written columns take the written values; id, name and address are untouched |
| Ledger.MoneyBalance | app/components/FilaCliente.tsx:52-82 | at non-negative prices, the new peso debt plus what was collected is at least the old debt's value plus what was put on account. The two sides are equal unless the action pays for more bottles than were owed |
| Ledger.WrittenAmountsNonNegative | app/components/FilaCliente.tsx:52-101 | with non-negative stored debts and prices, every debt, stock and amount written is non-negative |
| Ledger.DeliveryRow.constructor | app/components/FilaCliente.tsx:16-20 | a new row keeps its props, starts its three counters at 0 and its prices at 0 |
| Ledger.DeliveryRow.LoadPrices | app/components/FilaCliente.tsx:28-29 | the configuration row, when present, replaces the prices; without one the prices stay as they were; the counters never change |
| Ledger.DeliveryRow.Decrement12 | app/components/FilaCliente.tsx:144 | "-" lowers the 12 L counter by one, never below 0, and leaves the other counters alone |
| Ledger.DeliveryRow.Increment12 | app/components/FilaCliente.tsx:146 | "+" raises the 12 L counter by one and leaves the other counters alone |
| Ledger.DeliveryRow.Decrement20 | app/components/FilaCliente.tsx:155 | "-" lowers the 20 L counter by one, never below 0, and leaves the other counters alone |
| Ledger.DeliveryRow.Increment20 | app/components/FilaCliente.tsx:157 | "+" raises the 20 L counter by one and leaves the other counters alone |
| Ledger.DeliveryRow.DecrementEmpties | app/components/FilaCliente.tsx:166 | "-" lowers the empties counter by one, never below 0, and leaves the other counters alone |
| Ledger.DeliveryRow.IncrementEmpties | app/components/FilaCliente.tsx:168 | "+" raises the empties counter by one and leaves the other counters alone |
| Ledger.DeliveryRow.RegisterDelivery | app/components/FilaCliente.tsx:42-105 | the handler's step-by-step computation, from the row's current counters and prices, writes exactly what `Reconcile` specifies, and it changes no state |
| ClientList.Matches | app/page.tsx:35-42 | the filter's test on one customer; its meaning is stated by `ClientList.KeptIffSubstring` |
| ClientList.FilterClients | app/page.tsx:34-42 | keeps exactly the customers whose lowercased name or address includes the lowercased term: each matching customer as many times as the list holds it, none other, in their original order; an empty term keeps the whole list |
| ClientList.KeptIffSubstring | app/page.tsx:35-42 | a customer is kept exactly when the lowercased term occurs at some position of its lowercased name or address |
| ClientList.MissingFieldMatchesOnlyEmptyTerm | app/page.tsx:37-38 | a missing name or address reads as "", which only the empty term matches |
| ClientList.Insert | app/page.tsx:43-48 | inserting into a sorted list keeps it sorted and adds exactly one copy of the element |
| ClientList.SortClients | app/page.tsx:43-48 | for any total preorder on names, the result is sorted under the chosen comparison and is a permutation of the input |
| ClientList.ProcessClients | app/page.tsx:34-48 | `clientesProcesados` holds the matching customers, each as many times as the list holds it, and nothing else. Ordered "A - Z" the names are in order; ordered "MAYOR DEUDA" the debts do not increase |
| ClientList.RowPropsAsWritten | app/page.tsx:107-115 | the props as written pass the debts but not the container columns, so the row believes the customer holds 0 containers |
| ClientList.RowProps | app/page.tsx:107-115 | the corrected props carry the container columns, so the row starts from the containers the customer holds |
| Summary.Amounts | app/resumen/page.tsx:40 | each value read through `Number(v) \|\| 0`, one amount per row, in order |
| Summary.FoldDebt | app/resumen/page.tsx:27 | the `reduce` over `Number(c.deuda_total)`; its meaning is stated by `Summary.FoldDebtIsSum` |
| Summary.FoldDebtIsSum | app/resumen/page.tsx:27 | the left-to-right `Number(...)` fold is NaN exactly when it starts from NaN or meets a non-numeric value; otherwise it adds the sum of the values, null counting as 0 |
| Summary.TotalStreetDebt | app/resumen/page.tsx:27 | the debt in the street is the sum of every `deuda_total`. It is 0 without data, and 0 when a non-numeric value turns the sum into NaN |
| Summary.FoldCollected | app/resumen/page.tsx:40 | the `reduce` over `Number(e.monto_pagado) \|\| 0`; its meaning is stated by `Summary.FoldCollectedIsSum` |
| Summary.FoldCollectedIsSum | app/resumen/page.tsx:40 | the `Number(x) \|\| 0` fold adds the sum of the values, each missing or non-numeric value counting as 0 |
| Summary.CollectedToday | app/resumen/page.tsx:40 | the money collected today is the sum of today's `monto_pagado`, or 0 without data |
| Summary.FiguresNonNegative | app/resumen/page.tsx:27-40 | when no numeric value in the store is negative, neither the debt in the street nor the money collected today is negative |
| Summary.CollectedPercentage | app/resumen/page.tsx:45-46 | the percentage is 100 when the base is not positive. Otherwise it is the nearest integer to 100·collected/base, with halves rounding up |
| Summary.PercentageInRange | app/resumen/page.tsx:45-46 | with non-negative inputs the percentage lies in [0, 100]. It is 0 when nothing was collected against some debt, and 100 when no debt is left |
| Summary.LoadedPercentageInRange | app/resumen/page.tsx:27-46 | when no numeric value in the store is negative, the percentage computed from the two loaded figures lies in [0, 100] |
| Summary.ShownAmount | app/resumen/page.tsx:133 | the amount shown for a recent entry; what it shows is stated by `Workflow.ShownAmountIsMoneyMoved` |
| Summary.Dashboard.constructor | app/resumen/page.tsx:15-19 | the page starts at 0 debt, 0 collected, 100 %, no activity, loading |
| Summary.Dashboard.LoadData | app/resumen/page.tsx:22-58 | after loading, each figure is its specified function of the query results. The activity is replaced only when the query returned data. Loading is over. When no amount in the store is negative, the percentage lies in [0, 100] |
| ClientForm.Matching | app/clientes/page.tsx:32-36 | the case-insensitive name query returns exactly the rows with that name up to case, as a subsequence of the table (in table order), and keeps ids unique |
| ClientForm.Lookup | app/clientes/page.tsx:32-36 | the query with `.limit(2)` returns the first two matches, or all of them when there are fewer: a prefix of the matches of length min(2, number of matches) |
| ClientForm.FindOther | app/clientes/page.tsx:44 | `find` returns the first returned row whose id is not the one being edited (every row before it has that id); none is found exactly when every returned row has that id |
| ClientForm.Decide | app/clientes/page.tsx:24-68 | a null name fails at the first `trim`, then a null address at the second, and a failed query stops the save. A duplicate is another customer with the trimmed name up to case. An update goes only to the edited id and writes the trimmed name and address. An insert happens only outside edit mode and writes zero debts. Any write means every looked-up match is the edited customer |
| ClientForm.Persist | app/clientes/page.tsx:50-68 | with a customer being edited (a non-empty id), the save updates that id with the trimmed name and address. Otherwise it inserts a new customer with those fields and every debt at zero |
| ClientForm.LimitTwoFindsEveryDuplicate | app/clientes/page.tsx:32-48 | with unique ids, asking for two matches is enough: the save is refused exactly when some customer of the whole table, other than the edited one, has the trimmed name up to case |
| ClientForm.ApplyPayload | app/clientes/page.tsx:51-57 | an update of the form changes only the name and the address, never the debts or the containers |
| ClientForm.ClientEditor.constructor | app/clientes/page.tsx:8-12 | the form starts empty, closed and not editing |
| ClientForm.ClientEditor.ToggleForm | app/clientes/page.tsx:96 | the "+" button flips whether the form is shown, leaves edit mode and clears both fields |
| ClientForm.ClientEditor.PrepareEdit | app/clientes/page.tsx:76-82 | editing copies the customer's id, name and address (each possibly null) into the form and opens it |
| ClientForm.ClientEditor.Save | app/clientes/page.tsx:24-74 | the outcome is `Decide` on the form's state. On a successful write the form is cleared and closed, and edit mode ends after an update. On every early return the form keeps what was typed |
| ClientForm.ClientEditor.Reset | app/clientes/page.tsx:59-72 | after a successful write the form is cleared and closed; edit mode ends only after an update |
| Workflow.StockAsWrittenIgnoresHeld | app/page.tsx:107-115 | with the props as written, every action records as the new stock only today's delivered minus taken back, whatever the customer held |
| Workflow.StockResetExample | app/page.tsx:107-115 | a customer holding 3 who gets one 20 L bottle on account is recorded with 1 container as written, and with 4 once the container columns are passed |
| Workflow.StockAccumulates | app/components/FilaCliente.tsx:77-79 | with the container columns passed, two actions in a row leave held + everything delivered - everything taken back, when no action takes back more empties than the customer holds |
| Workflow.DeferThenPayRestoresDebt | app/components/FilaCliente.tsx:58-101 | "DEBE" for some bottles, then "PAGÓ" for a second delivery of the same quantities. Because paid bottles are taken off the old bottle debt, the bottle debts return to where they were. The peso debt written is their value at today's prices, which is the stored one when that was consistent. What is collected equals what was put on account, so the money covers one delivery. Yet the entry logs the bottles as delivered again, and both deliveries are added to the stock |
| Workflow.PayOffCannotCollectTwice | app/components/FilaCliente.tsx:44-63 | paying off a customer with some debt leaves a peso debt of 0, so, once the page has reloaded the updated row, a second pay-off with nothing selected is refused |
| Workflow.HistoryAmount | app/components/FilaCliente.tsx:196 | the amount a history line shows (`monto_pagado \|\| monto_deuda`); what it shows is stated by `Workflow.ShownAmountIsMoneyMoved` |
| Workflow.ShownAmountIsMoneyMoved | app/resumen/page.tsx:133 | the dashboard and the row history (FilaCliente.tsx line 196) show the same amount for every entry an action writes: the money collected after "PAGÓ", the value put on account after "DEBE" |

## Left out

- Store I/O: every query and write goes to Supabase, so each becomes an input, or a result the caller would send. The two writes of `registrarEntrega` do not form a transaction. The model does not capture one succeeding while the other fails, nor the page reload that follows only when both succeed.
- The row's history query (app/components/FilaCliente.tsx:31-37) and the "show history" toggle: display only. The amount each history line shows is modelled as `Workflow.HistoryAmount`.
- The "PAGÓ" and "DEBE" buttons stay enabled while the two writes are pending (app/components/FilaCliente.tsx:85-104, 174-175), and a row's props are re-read only by the reload after both writes succeed. A second press before that reload, or after a failed write, works from stale props and can collect again. The model covers only presses on freshly loaded props.
- Money is modelled with integers. The application computes with JavaScript floating-point numbers. Prices and stored debts with fractions, and float rounding of `(c / b) * 100` just at a half, are not captured.
- `Number(...)` of a numeric string is not captured: a stored value is null, an integer, or something that gives NaN.
- `localeCompare` depends on the locale and is taken as an arbitrary total preorder on names.
- ClientList.SortClients: the sort is stable by construction, as `Array.prototype.sort` is, but stability is not stated in its contract.
- ClientList.ProcessClients: the same applies; the relative order of equal customers is not stated.
- Text.LowerChar: only the upper-case letters of ASCII and Latin-1 are lowered; other scripts are left as they are.
- Text.Lower: only ASCII and Latin-1 letters are lowered. Other scripts, and mappings that change the length, are not modelled.
- ClientForm.SameName: `ilike` is taken as equality up to the same lowering. The wildcards `%` and `_` in a typed name are not modelled.
- The "start of today" date computation and the server-side date filter (app/resumen/page.tsx:32-38): today's entries are an input.
- The HTML `required` attribute on the name input (app/clientes/page.tsx:108) stops an empty name before `guardarCliente` runs. ClientForm.Decide accepts any name.
- Deleting a customer (app/clientes/page.tsx:84-90) is a confirmation dialog and a single store call, so it is not part of this model.
- Authentication, the middleware, the login and configuration pages, the navigation bar, the theme toggle and all rendering beyond the two amounts shown are not part of this model.

## Findings

| source | as written | input that shows it | evidently intended | confidence | as-written member | corrected member |
|---|---|---|---|---|---|---|
| app/page.tsx:107-115 | The list renders each row without `envases_12l`/`envases_20l`. The row therefore defaults both to 0, `totalEnMano` is 0, and every action overwrites `envases_20l` with max(0, delivered today - taken back today) (app/components/FilaCliente.tsx:16, 24, 79, 101) | a customer with `envases_20l = 3` receives one 20 L bottle and presses "DEBE": the stored stock becomes 1 | the new stock is held + delivered - taken back, i.e. 4, as the comment at app/components/FilaCliente.tsx:78 states | high; not executed | Workflow.StockResetExample | Workflow.StockAccumulates |
