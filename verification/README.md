# Sistema de Vendas — a verified model of the stock ledger and the sales core

This project models, in Dafny, the core of a Django sales system:

- **The stock ledger** of the product model. `adicionar_estoque` and
  `remover_estoque` validate an amount, change `qtd_estoque` and append an
  audit movement (`MovimentacaoEstoque`) that records the quantity before and
  after. The older variant of the same model changes the quantity in place,
  with no validation and no log.
- **Sale commit and reversal.** `VendaCreateView.post` runs the sale form
  and the item formset, then walks the kept lines. For each line it prices
  the item at `preco * qtd`, removes the stock and saves the item, all in
  one atomic transaction. `VendaDeleteView.delete` gives every item's
  quantity back and deletes the sale together with its items. Products and
  customers that sales refer to are protected from deletion.
- **The sale listings.** They report the total of the sales that the date
  and customer filters select, and list sales in a fixed order.
- **The legacy sale models.** An item recomputes its subtotal on every save,
  and a sale sums its items into its total.
- **The Brazilian document formatters:** CEP, telephone, CPF and CNPJ.

Files, one module each:

| file | module | models |
|---|---|---|
| `wrappers.dfy` | `Wrappers` | `Option`, `Result`, `Outcome` |
| `formatters.dfy` | `Formatters` | `core/utils.py` formatters, against a mask reference definition |
| `inventory.dfy` | `Inventory` | `inventory/models.py`: product row, movements, ledger transitions, class `Produto` |
| `legacy_inventory.dfy` | `LegacyInventory` | `django-vendas/inventory/models.py`: class `ProdutoLegado` |
| `sales_forms.dfy` | `SalesForms` | `sales/forms.py`: `clean_qtd`, the formset rules |
| `sales.dfy` | `Sales` | `sales/views.py` commit and delete, and the PROTECT/CASCADE relations of `django-vendas/sales/models.py`, as pure transitions and as class `Loja` |
| `sales_reports.dfy` | `SalesReports` | `sales/views.py` listing and totals, ordered by `Venda.Meta.ordering` |
| `legacy_sales.dfy` | `LegacySales` | `django-vendas/sales/models.py`: `calcular_total`, `ItemVenda.save` |

Modelling choices:

- **Money.** Prices, subtotals and totals are integers in cents, because
  the source's `DecimalField(decimal_places=2)` is exact.
- **Product rows.** A product row is a value (`ProdutoRow`).
  `Inventory.Adicionar` and `Inventory.Remover` are the ledger transitions
  as functions returning `Result`. Class `Inventory.Produto` holds the same
  fields, and its methods are proved to agree with those functions.
- **The database.** The tables the sale views touch form a value,
  `Sales.Estado`: products, sales, customers and the next sale id.
  - Each view is a pure transition: `Vender` for the commit, `Estornar` for
    the delete, and `ExcluirProduto` and `ExcluirCliente` for the protected
    deletions.
  - The line loop and the item loop are methods (`ProcessarLinhas`,
    `RestaurarItens`) proved equal to the recursive definitions `Processar`
    and `Restaurar`.
  - Class `Loja` holds the tables as fields. Each of its methods runs a
    transaction body on the current state and then writes the result.
- **Aborted sales.** A line whose stock removal fails aborts the whole
  sale. `remover_estoque` raises, and the atomic block rolls back. The view
  also has a branch for a `False` return, which `remover_estoque` never
  produces. Both are one outcome here: `Err(FalhaEstoque(...))` with the
  state unchanged.
- **Dates.** A date is an integer day number.

## Model

| member | source | states |
|---|---|---|
| Formatters.Digitos | core/utils.py:51 | the cleaned string holds only digits and is no longer than the input |
| Formatters.FormatarCep | core/utils.py:49-54 | the digits are kept in order; 8 digits give the `DDDDD-DDD` layout; any other count returns the input unchanged |
| Formatters.FormatarTelefone | core/utils.py:57-66 | the digits are kept; 11 digits give `(DD) DDDDD-DDDD`, 10 give `(DD) DDDD-DDDD`; anything else is returned unchanged |
| Formatters.FormatarCpf | core/utils.py:69-76 | the digits are kept; 11 digits give `DDD.DDD.DDD-DD`; otherwise the input is unchanged |
| Formatters.FormatarCnpj | core/utils.py:79-86 | the digits are kept; 14 digits give `DD.DDD.DDD/DDDD-DD`; otherwise the input is unchanged |
| Formatters.PreencherEncaixa | core/utils.py:53 | filling a mask's holes with digits gives a string of that mask's layout |
| Formatters.LayoutDeterminedByDigits | core/utils.py:51-53 | two strings of the same layout with the same digits are equal |
| Formatters.FormatarCepLayoutIff | core/utils.py:52-53 | the output has the CEP layout (9 characters) if and only if the input has 8 digits |
| Formatters.FormatarCepFixesFormatted | core/utils.py:49-54 | a value already in the CEP layout is returned unchanged |
| Formatters.FormatarCepIdempotent | core/utils.py:49-54 | formatting twice equals formatting once |
| Formatters.FormatarTelefoneLayoutIff | core/utils.py:61-64 | mobile layout (15 characters) if and only if 11 digits; landline layout (14) if and only if 10 digits |
| Formatters.FormatarTelefoneFixesFormatted | core/utils.py:57-66 | a value already in either telephone layout is returned unchanged |
| Formatters.FormatarTelefoneIdempotent | core/utils.py:57-66 | formatting twice equals formatting once |
| Formatters.FormatarCpfLayoutIff | core/utils.py:73-74 | the CPF layout (14 characters) comes out if and only if the input has 11 digits |
| Formatters.FormatarCpfFixesFormatted | core/utils.py:69-76 | a value already in the CPF layout is returned unchanged |
| Formatters.FormatarCpfIdempotent | core/utils.py:69-76 | formatting twice equals formatting once |
| Formatters.FormatarCnpjLayoutIff | core/utils.py:83-84 | the CNPJ layout (18 characters) comes out if and only if the input has 14 digits |
| Formatters.FormatarCnpjFixesFormatted | core/utils.py:79-86 | a value already in the CNPJ layout is returned unchanged |
| Formatters.FormatarCnpjIdempotent | core/utils.py:79-86 | formatting twice equals formatting once |
| Formatters.FormatarCepOfDigits | core/utils.py:53 | an 8-digit input gives exactly the source's slices `[:5]`, `-`, `[5:]` |
| Formatters.FormatarCelularOfDigits | core/utils.py:62 | an 11-digit input gives exactly the source's mobile slicing |
| Formatters.FormatarFixoOfDigits | core/utils.py:64 | a 10-digit input gives exactly the source's landline slicing |
| Formatters.FormatarCpfOfDigits | core/utils.py:74 | an 11-digit input gives exactly the source's CPF slicing |
| Formatters.FormatarCnpjOfDigits | core/utils.py:84 | a 14-digit input gives exactly the source's CNPJ slicing |
| Formatters.PreenchidoPelosDigitos | core/utils.py:49-86 | a string of a mask's layout whose digits are `d` is that mask filled with `d` |
| Formatters.FormatarCepMascara | core/utils.py:52-53 | with 8 digits, the output is the CEP mask `_____-___` filled with the input's digits in order |
| Formatters.FormatarTelefoneMascara | core/utils.py:61-64 | with 11 digits, the output is the mobile mask filled with the digits; with 10, the landline mask |
| Formatters.FormatarCpfMascara | core/utils.py:73-74 | with 11 digits, the output is the CPF mask filled with the digits |
| Formatters.FormatarCnpjMascara | core/utils.py:83-84 | with 14 digits, the output is the CNPJ mask filled with the digits |
| Formatters.FormatarCepExample | django-vendas/core/tests.py:9 | `'12345678'` becomes `'12345-678'` |
| Formatters.FormatarCepFormattedExample | django-vendas/core/tests.py:10 | `'12345-678'` stays `'12345-678'` |
| Formatters.FormatarCelularExample | django-vendas/core/tests.py:13 | `'11987654321'` becomes `'(11) 98765-4321'` |
| Formatters.FormatarFixoExample | django-vendas/core/tests.py:14 | `'1140041000'` becomes `'(11) 4004-1000'` |
| Formatters.FormatarCpfExample | django-vendas/core/tests.py:17 | `'12345678901'` becomes `'123.456.789-01'` |
| Formatters.FormatarCnpjExample | django-vendas/core/tests.py:20 | `'12345678901234'` becomes `'12.345.678/9012-34'` |
| Inventory.Adicionar | inventory/models.py:50-76 | succeeds if and only if the amount is positive; a refusal reports the amount; success raises the stock by exactly the amount and appends one ENTRADA with before = old and after = new stock, nothing else changing |
| Inventory.Remover | inventory/models.py:78-115 | succeeds if and only if 0 < amount <= stock; a non-positive amount and an insufficient stock give their own errors, the latter reporting description, available and requested; success lowers the stock by the amount, keeps it non-negative and appends one SAIDA with before and after |
| Inventory.EstoqueBaixo | inventory/models.py:35-38 | the low-stock flag: stock at or below the product's own minimum |
| Inventory.EstoqueDisponivel | inventory/models.py:40-43 | the availability flag: stock above zero |
| Inventory.ValorTotalEstoque | inventory/models.py:45-48 | an empty stock is worth 0, and a non-negative price times a non-negative stock is non-negative |
| Inventory.AdicionarConsistente | inventory/models.py:59-74 | a successful addition keeps the ledger invariant (well-formed, chained movements ending at the current stock) |
| Inventory.RemoverConsistente | inventory/models.py:95-113 | a successful removal keeps the ledger invariant |
| Inventory.SaldoReproduzEstoque | inventory/models.py:134-137 | in a chained, well-formed log the last after-quantity is the first before-quantity plus the signed sum of the movements |
| Inventory.EstoqueIgualSaldo | inventory/models.py:118-137 | a consistent product's stock is its log's opening quantity plus the log's net change |
| Inventory.AdicionarRemover | inventory/models.py:50-115 | removing what was just added succeeds and restores the row, with exactly the two movements appended |
| Inventory.RemoverDiminui | inventory/models.py:83-84 | a successful removal strictly lowers the stock |
| Inventory.RemoverInsuficienteReporta | inventory/models.py:89-93 | a refused positive removal reports the available stock and the requested amount, and the stock was below the amount |
| Inventory.ValorTotalAposAdicionar | inventory/models.py:45-48 | after an addition the stock value grows by exactly `preco * quantidade` |
| Inventory.ValorTotalAposRemover | inventory/models.py:45-48 | after a removal the stock value drops by exactly `preco * quantidade` |
| Inventory.DisponivelSeRemoveUm | inventory/models.py:40-43 | `estoque_disponivel` holds if and only if one unit can be removed |
| Inventory.EstoqueBaixoMonotono | inventory/models.py:35-38 | an addition can only clear the low-stock flag, and a removal can only set it |
| Inventory.Executar | inventory/models.py:50-115 | across any sequence of ledger calls, each its own transaction, the ledger invariant and a non-negative stock are kept, the log only grows, and nothing but stock and log changes |
| Inventory.Produto.constructor | inventory/models.py:11-14 | a new product has the default reorder threshold of 10, no movements, and satisfies the invariant |
| Inventory.Produto.AdicionarEstoque | inventory/models.py:50-76 | updates the fields exactly as `Adicionar`; on refusal nothing changes; the invariant is kept |
| Inventory.Produto.RemoverEstoque | inventory/models.py:78-115 | updates the fields exactly as `Remover`; on refusal nothing changes; the invariant is kept |
| LegacyInventory.ProdutoLegado.AdicionarEstoque | django-vendas/inventory/models.py:34-37 | adds the amount whatever its sign; nothing else changes |
| LegacyInventory.ProdutoLegado.RemoverEstoque | django-vendas/inventory/models.py:39-45 | returns True if and only if the stock covers the amount, subtracting it then and leaving the stock unchanged otherwise; a non-negative stock stays non-negative |
| LegacyInventory.ProdutoLegado.EstoqueBaixo | django-vendas/inventory/models.py:29-32 | the legacy flag: stock at or below the fixed threshold of 10, for every product |
| LegacyInventory.AdicionarDepoisRemover | django-vendas/inventory/models.py:34-45 | adding an amount and removing it again succeeds and restores the stock |
| LegacyInventory.RemoverNegativoAumentaEstoque | django-vendas/inventory/models.py:39-45 | removing -5 units from an empty product reports success and leaves 5 units |
| SalesForms.CleanQtd | sales/forms.py:34-45 | refuses exactly when product and a non-zero quantity are present and the quantity exceeds the stock, reporting that stock; otherwise returns the quantity unchanged |
| SalesForms.CleanQtdLimite | sales/forms.py:40 | a quantity equal to the stock is accepted and one more is refused |
| SalesForms.CleanQtdSemVerificacao | sales/forms.py:39 | without a product, or with quantity 0 or missing, no stock check runs |
| SalesForms.Mantidas | sales/views.py:81-82 | the kept lines are filled and not marked for deletion; there are none exactly when no line is kept |
| SalesForms.MantidasCompleta | sales/views.py:81-82 | no kept line is lost: each kept line occurs in the result as often as in the formset, and no other line occurs |
| SalesForms.ValidarFormset | sales/forms.py:49-57 | passes if and only if no form among the first `min_num` is blank, every kept line names an existing product and passes `clean_qtd`, and at least one line is kept; a refusal names the blank required form or an offending line |
| SalesForms.PrimeiraInvalida | sales/forms.py:34-57 | finds no line exactly when, from the start position on, no required form is blank and every kept line is valid; a found line is a blank required form or a kept line that offends |
| SalesForms.PrimeiraEmBranco | sales/forms.py:49-57 | a blank first form followed by a valid line is refused, naming form 0 |
| Sales.Passo | sales/views.py:83-105 | a line that is not kept changes nothing; a kept line succeeds if and only if its product exists and the stock covers a positive quantity, and then lowers that stock by the quantity and adds price × quantity to the total |
| Sales.Processar | sales/views.py:79-109 | the line loop: on success the product keys are unchanged and the total is the sum of the saved subtotals |
| Sales.ProcessarFalhaPropaga | sales/views.py:90-103 | once a prefix of the lines fails, the whole sale fails with that error |
| Sales.ProcessarSoMantidas | sales/views.py:81-82 | lines that are empty or marked for deletion change nothing: the result equals that of the kept lines alone |
| Sales.ProcessarEstoque | sales/views.py:81-105 | each product's stock drops by exactly the total quantity its kept lines ask for, and only stock and log change |
| Sales.ProcessarItens | sales/views.py:83-105 | the saved items are the kept lines in order, with positive quantities and subtotal = price before the sale × quantity |
| Sales.ProcessarDemandaItens | sales/views.py:81-105 | the saved items take, product by product, exactly the kept lines' demand |
| Sales.ProcessarMovimentos | sales/views.py:90-105 | each product's log gains exactly one SAIDA per kept line naming it, in line order, with that line's quantity and an empty note, and keeps its earlier movements |
| Sales.ProcessarQtdsItens | sales/views.py:83-105 | for each product, the saved items' quantities are the kept lines' quantities, in order |
| Sales.PrecoPreservado | sales/views.py:86-92 | the line loop never changes a price |
| Sales.ProcessarSse | sales/views.py:80-105 | the loop succeeds if and only if every kept line names a product with a positive quantity and each product's summed demand fits its stock, so a product on two lines sees the first decrement |
| Sales.PreChecagemBastaSemRepeticao | sales/forms.py:39-43 | when no product appears on two kept lines and quantities are positive, a valid formset guarantees the line loop succeeds |
| Sales.PreChecagemRepetido | sales/forms.py:39-43 | two lines of 3 units of a product with 5 in stock pass the formset, yet the second removal finds 2 units and the sale aborts |
| Sales.Restaurar | sales/views.py:143-145 | the item loop of the delete view keeps the product keys |
| Sales.RestaurarEstoque | sales/views.py:143-145 | each product's stock rises by exactly the items' total quantity for it, and only stock and log change |
| Sales.RestaurarMovimentos | sales/views.py:143-145 | each product's log gains exactly one ENTRADA per item naming it, in item order, with that item's quantity and an empty note |
| Sales.VendaDepoisEstorno | sales/views.py:140-149 | giving back a committed sale's items restores every product's stock; only the logs grow |
| Sales.ExemploVendaEEstorno | sales/views.py:80-109 | 50 units at 10.00 with a line of 5: stock 45, one SAIDA 50→45, total 50.00; the delete brings stock back to 50 with one ENTRADA 45→50 |
| Sales.ProcessarConsistente | sales/views.py:90-105 | the line loop keeps every product's ledger invariant |
| Sales.RestaurarConsistente | sales/views.py:143-145 | the item loop keeps every product's ledger invariant |
| Sales.Vender | sales/views.py:68-119 | succeeds if and only if the customer exists, the formset passes and the loop succeeds; each failure has its own error and leaves the state unchanged; success stores the sale under the next id with total = sum of subtotals |
| Sales.VenderPreservaValida | sales/views.py:68-112 | a commit keeps the store invariant: consistent ledgers and valid, numbered sales |
| Sales.VendaNovaValida | sales/views.py:80-109 | the stored sale has an existing customer, at least one item, positive quantities and total = sum of subtotals |
| Sales.VenderEstoque | sales/views.py:81-105 | a commit lowers each product's stock by its demand; only stock and log change |
| Sales.VenderItens | sales/views.py:83-105 | the stored sale's items carry exactly the kept lines' demand |
| Sales.VenderMovimentos | sales/views.py:90-105 | a commit appends to each product's log one SAIDA per kept line naming it, and the stored sale's items carry those same quantities |
| Sales.VenderPrimeiraEmBranco | sales/forms.py:49-57 | a sale whose first form is blank is refused by the formset and leaves the store unchanged |
| Sales.VenderOutrasVendas | sales/views.py:75-77 | a commit takes a fresh id and leaves the earlier sales alone |
| Sales.Estornar | sales/views.py:139-149 | a missing sale is reported; otherwise each product's stock rises by the sale's quantity for it, its log gains one ENTRADA per item naming it, and the sale with its items is removed |
| Sales.EstornarPreservaValida | sales/views.py:139-149 | a delete keeps the store invariant |
| Sales.VenderDepoisEstornar | sales/views.py:68-149 | committing and then deleting a sale restores the sales table and every product's stock; only the logs grow |
| Sales.VenderDepoisEstornarMovimentos | sales/views.py:90-145 | for each product, the commit appends one SAIDA per kept line and the delete then appends one ENTRADA with the same quantities, in the same order |
| Sales.EstornoDesfaz | sales/views.py:143-145 | deleting a sale whose items carry some lines' demand undoes a state that took exactly that demand |
| Sales.ExcluirProduto | django-vendas/sales/models.py:49-54 | a product is deleted if and only if it exists and no sale item and no movement refers to it; otherwise it is protected |
| Sales.ExcluirCliente | django-vendas/sales/models.py:12-17 | a customer is deleted if and only if it exists and no sale refers to it |
| Sales.ProcessarLinhas | sales/views.py:80-105 | the imperative line loop computes exactly `Processar` |
| Sales.RestaurarItens | sales/views.py:143-145 | the imperative item loop computes exactly `Restaurar` |
| Sales.TransacaoVenda | sales/views.py:68-119 | the transaction body computes exactly `Vender` |
| Sales.TransacaoEstorno | sales/views.py:139-149 | the transaction body computes exactly `Estornar` |
| Sales.Loja.CommitSale | sales/views.py:68-119 | the store's outcome and new tables are those of `Vender`; the invariant is kept |
| Sales.Loja.DeleteSale | sales/views.py:139-149 | the store's outcome and new tables are those of `Estornar`; the invariant is kept |
| Sales.Loja.DeleteProduto | django-vendas/sales/models.py:49-54 | follows `ExcluirProduto`; the invariant is kept |
| Sales.Loja.DeleteCliente | django-vendas/sales/models.py:12-17 | follows `ExcluirCliente`; the invariant is kept |
| Sales.VenderDepoisExcluir | sales/views.py:68-149 | through the store, a commit followed by its delete leaves sales and every stock as they were |
| SalesReports.VemAntes | django-vendas/sales/models.py:26 | the listing order: the later day first, then the higher id |
| SalesReports.Inserir | django-vendas/sales/models.py:26 | inserting a row adds exactly that row to the listing |
| SalesReports.InserirOrdenada | django-vendas/sales/models.py:26 | inserting a row with a new id into an ordered listing keeps it ordered |
| SalesReports.Listar | django-vendas/sales/models.py:26 | the stored sales as rows: ordered, each stored sale exactly once, nothing else |
| SalesReports.OrdenacaoUnica | django-vendas/sales/models.py:26 | two ordered listings of the same rows are equal, so the order fixes the listing |
| SalesReports.Filtrar | sales/views.py:23-37 | the filtered queryset has only matching sales and is empty exactly when none match |
| SalesReports.FiltrarCompleta | sales/views.py:30-35 | every matching row is kept as often as it occurs, and no other row |
| SalesReports.FiltrarOrdenada | sales/views.py:23-37 | filtering an ordered listing keeps it ordered |
| SalesReports.Listagem | sales/views.py:23-37 | the list view's queryset: ordered, each stored sale that passes the present filters exactly once, nothing else |
| SalesReports.TotalVendas | sales/views.py:44-45 | 0 when no sale matches; non-negative when all totals are |
| SalesReports.TotalVendasFiltrar | sales/views.py:44-45 | the one-pass total equals the aggregate over the filtered queryset |
| SalesReports.TotalVendasConcat | sales/views.py:45 | totals add up over a queryset split in two |
| SalesReports.TotalSemFiltro | sales/views.py:158-171 | without filters the total is the sum over all sales |
| SalesReports.TotalPeriodoDividido | sales/views.py:30-33 | a period split at a day totals the part up to that day plus the part after it |
| SalesReports.TotalLista | sales/views.py:39-45 | the list view's total is the sum over the sales its present filters select |
| SalesReports.TotalPeriodo | sales/views.py:158-171 | with a valid form the sum over the date-filtered sales, otherwise over all sales |
| SalesReports.ListaConcordaComPeriodo | sales/views.py:158-171 | with no customer filter the two views report the same total |
| LegacySales.ItemVendaLegado.Save | django-vendas/sales/models.py:66-69 | the subtotal becomes the product's current price times the quantity |
| LegacySales.SomaConcordaComVendaAtual | django-vendas/sales/models.py:31-35 | the legacy sum of subtotals equals the current sale model's sum over the same items |
| LegacySales.VendaLegado.CalcularTotal | django-vendas/sales/models.py:31-35 | returns the sum of the items' subtotals, stores it as the total, 0 with no items |
| LegacySales.SalvarAposReajuste | django-vendas/sales/models.py:66-69 | an item saved after a price change carries the new price |

## Left out

- Concurrency. Row locks (`select_for_update`), `F()` updates and parallel callers are left out. Each transaction is a sequential all-or-nothing transition.
- Stock adjustments. `AJUSTE` exists only as a movement type. No operation writes one, so a well-formed ledger movement is never an adjustment.
- Movement metadata. The timestamp, the user and the display ordering carry no checkable logic.
- Notes on movements. The views call the ledger without a note, so every movement they write has an empty `observacao`.
- Direct edits of `qtd_estoque` through the product form bypass the ledger. The ledger invariant covers the ledger operations only.
- `buscar_cep` is an HTTP call and is not part of this model. `formatar_moeda` works on floats and locales and is left out too.
- Digits are ASCII `'0'..'9'`. Python's `str.isdigit` also accepts other Unicode digits.
- Accounts, customer and supplier CRUD, the dashboard, messages, redirects, rendering, templates and JavaScript are left out.
- Sale form validation is reduced to "the chosen customer exists". The search form's field validation is a boolean parameter.
- The view's `if not produto.remover_estoque(...)` branch cannot be reached, because the method raises instead of returning False. It is merged with the raise into one abort outcome.
- Pagination (`paginate_by = 20`) is left out. The listing is the whole ordered queryset.
- A date is a day number. Date parsing and the time-of-day part are left out.
- The legacy models' `save()` persistence is reduced to the field assignment.
- Sales.Processar: the item's `venda` foreign key and the provisional `total_venda = 0` save are not modelled. The sale is written only when the transaction commits, which the rollback makes indistinguishable.

## Findings

| source | as written | input that shows it | evidently intended | confidence | as-written member | corrected member |
|---|---|---|---|---|---|---|
| django-vendas/inventory/models.py:39-45 | `remover_estoque` checks only `qtd_estoque >= quantidade`, so a negative amount passes and raises the stock while reporting success | product with 0 units, `remover_estoque(-5)` returns True and leaves 5 units | a non-positive amount is refused and a successful removal always lowers the stock; the current model does this (inventory/models.py:83-84), proved as `Inventory.RemoverDiminui` | not executed | LegacyInventory.RemoverNegativoAumentaEstoque | Inventory.Remover |

The model follows the code on two points:

- The views call `adicionar_estoque` and `remover_estoque` without a note (sales/views.py:90-105 and 143-145). Every movement a sale or a delete writes has an empty `observacao`, as `Sales.ProcessarMovimentos` and `Sales.RestaurarMovimentos` state.
- The legacy `ItemVenda.save` recomputes the subtotal from the product's current price on every save (django-vendas/sales/models.py:66-69). An item saved again after a price change carries the new price, as `LegacySales.SalvarAposReajuste` states.
