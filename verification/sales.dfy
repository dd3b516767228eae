/**
 * Sale commit and reversal of sales/views.py, over the stock ledger.
 *
 * Processar is the line loop of VendaCreateView.post as a function of the
 * product rows and the formset's lines: it walks the lines in order, skips
 * the empty and deleted ones, prices each kept line at its product's current
 * price and removes its quantity from stock; the first line whose removal
 * fails aborts the whole sale. Restaurar is the item loop of
 * VendaDeleteView.delete, which adds each item's quantity back.
 *
 * The class Loja is the store those views work on: product rows, sales,
 * customers and the next sale id. Its methods run each view as one
 * all-or-nothing transition: on any failure the store is left unchanged.
 */
module Sales {
  import opened Wrappers
  import opened Inventory
  import opened SalesForms

  type VendaId = nat
  type ClienteId = nat

  /** A calendar day, as a day number. */
  type Data = int

  datatype ItemVenda = ItemVenda(produto: ProdutoId, qtd: int, subtotal: int)

  datatype Venda = Venda(
    cliente: ClienteId,
    dataVenda: Data,
    totalVenda: int,
    observacoes: string,
    itens: seq<ItemVenda>)

  function SomaSubtotais(itens: seq<ItemVenda>): int {
    if itens == [] then 0 else SomaSubtotais(itens[..|itens| - 1]) + itens[|itens| - 1].subtotal
  }

  datatype SaleError =
    | VendaFormInvalido
    | FormsetInvalido(erroFormset: ErroFormset)
    | ProdutoInexistente(produto: ProdutoId)
    | FalhaEstoque(produto: ProdutoId, erro: StockError)
    | VendaInexistente(venda: VendaId)
    | ProdutoProtegido(produto: ProdutoId)
    | ClienteInexistente(cliente: ClienteId)
    | ClienteProtegido(cliente: ClienteId)

  // ---------------------------------------------------------------------
  // The line loop of VendaCreateView.post

  /** What the loop has built so far: the product rows, the saved items and the running total. */
  datatype Acc = Acc(produtos: map<ProdutoId, ProdutoRow>, itens: seq<ItemVenda>, total: int)

  /** One iteration: a kept line is priced, its stock removed and its item saved. */
  function Passo(acc: Acc, linha: LinhaForm): (r: Result<Acc, SaleError>)
    ensures !Mantida(linha) ==> r == Ok(acc)
    ensures Mantida(linha)
            ==> (r.Ok? <==> linha.produto in acc.produtos && 0 < linha.qtd <= acc.produtos[linha.produto].qtdEstoque)
    ensures Mantida(linha) && r.Ok?
            ==> && r.value.produtos.Keys == acc.produtos.Keys
                && r.value.produtos[linha.produto].qtdEstoque == acc.produtos[linha.produto].qtdEstoque - linha.qtd
                && r.value.total == acc.total + acc.produtos[linha.produto].preco * linha.qtd
  {
    if !Mantida(linha) then Ok(acc)
    else if linha.produto !in acc.produtos then Err(ProdutoInexistente(linha.produto))
    else
      var p := acc.produtos[linha.produto];
      var subtotal := p.preco * linha.qtd;
      match Remover(p, linha.qtd, "")
      case Err(e) => Err(FalhaEstoque(linha.produto, e))
      case Ok(depois) =>
        Ok(Acc(acc.produtos[linha.produto := depois],
               acc.itens + [ItemVenda(linha.produto, linha.qtd, subtotal)],
               acc.total + subtotal))
  }

  /** The whole loop; an Err is the error of the first line that failed. */
  function Processar(produtos: map<ProdutoId, ProdutoRow>, linhas: seq<LinhaForm>): (r: Result<Acc, SaleError>)
    ensures r.Ok? ==> r.value.produtos.Keys == produtos.Keys
    ensures r.Ok? ==> r.value.total == SomaSubtotais(r.value.itens)
    decreases |linhas|
  {
    if linhas == [] then Ok(Acc(produtos, [], 0))
    else
      match Processar(produtos, linhas[..|linhas| - 1])
      case Err(e) => Err(e)
      case Ok(acc) =>
        var r := Passo(acc, linhas[|linhas| - 1]);
        assert r.Ok? && r.value.itens != acc.itens ==> r.value.itens[..|r.value.itens| - 1] == acc.itens;
        r
  }

  /** The quantity the kept lines ask of one product. */
  function Demanda(linhas: seq<LinhaForm>, produto: ProdutoId): int {
    if linhas == [] then 0
    else
      var ultima := linhas[|linhas| - 1];
      Demanda(linhas[..|linhas| - 1], produto)
      + (if Mantida(ultima) && ultima.produto == produto then ultima.qtd else 0)
  }

  /** The quantity a sale's items took from one product. */
  function DemandaItens(itens: seq<ItemVenda>, produto: ProdutoId): int {
    if itens == [] then 0
    else
      var ultimo := itens[|itens| - 1];
      DemandaItens(itens[..|itens| - 1], produto) + (if ultimo.produto == produto then ultimo.qtd else 0)
  }

  /** depois is antes with only its stock changed and its movement log extended. */
  predicate SoEstoqueELog(antes: ProdutoRow, depois: ProdutoRow) {
    && depois.(qtdEstoque := antes.qtdEstoque, movimentacoes := antes.movimentacoes) == antes
    && |antes.movimentacoes| <= |depois.movimentacoes|
    && depois.movimentacoes[..|antes.movimentacoes|] == antes.movimentacoes
  }

  lemma SoEstoqueELogTransitivo(a: ProdutoRow, b: ProdutoRow, c: ProdutoRow)
    requires SoEstoqueELog(a, b) && SoEstoqueELog(b, c)
    ensures SoEstoqueELog(a, c)
  {
    assert c.movimentacoes[..|a.movimentacoes|] == c.movimentacoes[..|b.movimentacoes|][..|a.movimentacoes|];
  }

  // ---------------------------------------------------------------------
  // Unfolding the loop by one line

  /** The loop over a non-empty list is the loop over all but the last line, then one step. */
  lemma ProcessarDesdobra(produtos: map<ProdutoId, ProdutoRow>, linhas: seq<LinhaForm>)
    requires linhas != []
    ensures var antes := Processar(produtos, linhas[..|linhas| - 1]);
            Processar(produtos, linhas) == if antes.Err? then antes else Passo(antes.value, linhas[|linhas| - 1])
  {
  }

  /** A step over a kept line that succeeds removes the line's quantity from its product. */
  lemma PassoMantida(acc: Acc, linha: LinhaForm)
    requires Mantida(linha) && Passo(acc, linha).Ok?
    ensures linha.produto in acc.produtos
    ensures 0 < linha.qtd <= acc.produtos[linha.produto].qtdEstoque
    ensures var p := acc.produtos[linha.produto];
            Passo(acc, linha).value
            == Acc(acc.produtos[linha.produto := Remover(p, linha.qtd, "").value],
                   acc.itens + [ItemVenda(linha.produto, linha.qtd, p.preco * linha.qtd)],
                   acc.total + p.preco * linha.qtd)
  {
  }

  /** A step over a kept line whose product exists and has the quantity succeeds. */
  lemma PassoMantidaOk(acc: Acc, linha: LinhaForm)
    requires Mantida(linha) && linha.produto in acc.produtos
    requires 0 < linha.qtd <= acc.produtos[linha.produto].qtdEstoque
    ensures Passo(acc, linha).Ok?
  {
  }

  lemma MantidasDesdobra(linhas: seq<LinhaForm>)
    requires linhas != []
    ensures var ultima := linhas[|linhas| - 1];
            Mantidas(linhas) == Mantidas(linhas[..|linhas| - 1]) + (if Mantida(ultima) then [ultima] else [])
  {
  }

  // ---------------------------------------------------------------------
  // What the loop promises

  /** Once a prefix of the lines fails, the whole sale fails with that same error. */
  lemma {:induction false} ProcessarFalhaPropaga(produtos: map<ProdutoId, ProdutoRow>, linhas: seq<LinhaForm>, k: nat)
    requires k <= |linhas| && Processar(produtos, linhas[..k]).Err?
    ensures Processar(produtos, linhas) == Processar(produtos, linhas[..k])
    decreases |linhas| - k
  {
    if k < |linhas| {
      var maior := linhas[..k + 1];
      assert maior[..|maior| - 1] == linhas[..k];
      ProcessarDesdobra(produtos, maior);
      ProcessarFalhaPropaga(produtos, linhas, k + 1);
    } else {
      assert linhas[..k] == linhas;
    }
  }

  /** Empty and deleted lines change nothing: only the kept lines matter. */
  lemma {:induction false} ProcessarSoMantidas(produtos: map<ProdutoId, ProdutoRow>, linhas: seq<LinhaForm>)
    ensures Processar(produtos, linhas) == Processar(produtos, Mantidas(linhas))
    decreases |linhas|
  {
    if linhas != [] {
      var anteriores := linhas[..|linhas| - 1];
      var ultima := linhas[|linhas| - 1];
      ProcessarSoMantidas(produtos, anteriores);
      ProcessarDesdobra(produtos, linhas);
      MantidasDesdobra(linhas);
      var m := Mantidas(linhas);
      if Mantida(ultima) {
        assert m[..|m| - 1] == Mantidas(anteriores) && m[|m| - 1] == ultima;
        ProcessarDesdobra(produtos, m);
      } else {
        assert m == Mantidas(anteriores);
      }
    }
  }

  /** Every product's stock drops by exactly its demand; nothing else about it changes but its log. */
  lemma {:induction false} ProcessarEstoque(produtos: map<ProdutoId, ProdutoRow>, linhas: seq<LinhaForm>)
    requires Processar(produtos, linhas).Ok?
    ensures forall id :: id in produtos ==>
              && Processar(produtos, linhas).value.produtos[id].qtdEstoque == produtos[id].qtdEstoque - Demanda(linhas, id)
              && SoEstoqueELog(produtos[id], Processar(produtos, linhas).value.produtos[id])
    decreases |linhas|
  {
    if linhas == [] {
      forall id | id in produtos ensures SoEstoqueELog(produtos[id], produtos[id]) {
        assert produtos[id].movimentacoes[..|produtos[id].movimentacoes|] == produtos[id].movimentacoes;
      }
    } else {
      var anteriores := linhas[..|linhas| - 1];
      var ultima := linhas[|linhas| - 1];
      ProcessarDesdobra(produtos, linhas);
      ProcessarEstoque(produtos, anteriores);
      var acc := Processar(produtos, anteriores).value;
      var depois := Processar(produtos, linhas).value;
      if Mantida(ultima) {
        PassoMantida(acc, ultima);
        var alvo := ultima.produto;
        forall id | id in produtos
          ensures depois.produtos[id].qtdEstoque == produtos[id].qtdEstoque - Demanda(linhas, id)
          ensures SoEstoqueELog(produtos[id], depois.produtos[id])
        {
          if id == alvo {
            var r := acc.produtos[alvo];
            assert depois.produtos[id] == Remover(r, ultima.qtd, "").value;
            assert SoEstoqueELog(r, depois.produtos[id]) by {
              assert depois.produtos[id].movimentacoes[..|r.movimentacoes|] == r.movimentacoes;
            }
            SoEstoqueELogTransitivo(produtos[id], r, depois.produtos[id]);
          }
        }
      }
    }
  }

  /** The properties ProcessarItens states of the items a sale saves. */
  predicate ItensDasLinhas(produtos: map<ProdutoId, ProdutoRow>, linhas: seq<LinhaForm>, itens: seq<ItemVenda>) {
    && |itens| == |Mantidas(linhas)|
    && forall i :: 0 <= i < |itens| ==>
         && itens[i].produto == Mantidas(linhas)[i].produto
         && itens[i].qtd == Mantidas(linhas)[i].qtd > 0
         && itens[i].produto in produtos
         && itens[i].subtotal == produtos[itens[i].produto].preco * itens[i].qtd
  }

  /**
   * The saved items are the kept lines in order, each priced at its
   * product's price before the sale, with a positive quantity.
   */
  lemma {:induction false} ProcessarItens(produtos: map<ProdutoId, ProdutoRow>, linhas: seq<LinhaForm>)
    requires Processar(produtos, linhas).Ok?
    ensures ItensDasLinhas(produtos, linhas, Processar(produtos, linhas).value.itens)
    decreases |linhas|
  {
    if linhas != [] {
      var anteriores := linhas[..|linhas| - 1];
      var ultima := linhas[|linhas| - 1];
      ProcessarDesdobra(produtos, linhas);
      MantidasDesdobra(linhas);
      ProcessarItens(produtos, anteriores);
      var acc := Processar(produtos, anteriores).value;
      var itens := Processar(produtos, linhas).value.itens;
      if Mantida(ultima) {
        PassoMantida(acc, ultima);
        PrecoPreservado(produtos, anteriores, ultima.produto);
        ItensAcrescimo(produtos, anteriores, ultima, acc.itens, itens);
      } else {
        assert Mantidas(linhas) == Mantidas(anteriores);
        assert itens == acc.itens;
      }
    }
  }

  /** The line loop never changes a price. */
  lemma PrecoPreservado(produtos: map<ProdutoId, ProdutoRow>, linhas: seq<LinhaForm>, id: ProdutoId)
    requires Processar(produtos, linhas).Ok? && id in produtos
    ensures Processar(produtos, linhas).value.produtos[id].preco == produtos[id].preco
  {
    ProcessarEstoque(produtos, linhas);
  }

  lemma ItensAcrescimo(produtos: map<ProdutoId, ProdutoRow>, anteriores: seq<LinhaForm>, ultima: LinhaForm,
                       antes: seq<ItemVenda>, itens: seq<ItemVenda>)
    requires Mantida(ultima) && ultima.qtd > 0 && ultima.produto in produtos
    requires ItensDasLinhas(produtos, anteriores, antes)
    requires itens == antes + [ItemVenda(ultima.produto, ultima.qtd, produtos[ultima.produto].preco * ultima.qtd)]
    ensures ItensDasLinhas(produtos, anteriores + [ultima], itens)
  {
    var linhas := anteriores + [ultima];
    assert linhas[..|linhas| - 1] == anteriores;
    MantidasDesdobra(linhas);
  }

  /** Together the saved items take exactly each product's demand. */
  lemma {:induction false} ProcessarDemandaItens(produtos: map<ProdutoId, ProdutoRow>, linhas: seq<LinhaForm>)
    requires Processar(produtos, linhas).Ok?
    ensures forall id :: DemandaItens(Processar(produtos, linhas).value.itens, id) == Demanda(linhas, id)
    decreases |linhas|
  {
    if linhas != [] {
      var anteriores := linhas[..|linhas| - 1];
      var ultima := linhas[|linhas| - 1];
      ProcessarDesdobra(produtos, linhas);
      ProcessarDemandaItens(produtos, anteriores);
      var acc := Processar(produtos, anteriores).value;
      var itens := Processar(produtos, linhas).value.itens;
      if Mantida(ultima) {
        PassoMantida(acc, ultima);
        assert itens[..|itens| - 1] == acc.itens;
      } else {
        assert itens == acc.itens;
      }
    }
  }

  // ---------------------------------------------------------------------
  // The movements the loops write

  /** The quantities of the kept lines naming a product, in line order. */
  function QtdsLinhas(linhas: seq<LinhaForm>, produto: ProdutoId): seq<int> {
    if linhas == [] then []
    else
      var ultima := linhas[|linhas| - 1];
      QtdsLinhas(linhas[..|linhas| - 1], produto)
      + (if Mantida(ultima) && ultima.produto == produto then [ultima.qtd] else [])
  }

  /** The quantities of the items naming a product, in item order. */
  function QtdsItens(itens: seq<ItemVenda>, produto: ProdutoId): seq<int> {
    if itens == [] then []
    else
      var ultimo := itens[|itens| - 1];
      QtdsItens(itens[..|itens| - 1], produto) + (if ultimo.produto == produto then [ultimo.qtd] else [])
  }

  /**
   * The log depois is the log antes followed by exactly one movement of the
   * given type per quantity, in order, each without a note.
   */
  predicate Acrescenta(antes: seq<Movimentacao>, depois: seq<Movimentacao>, tipo: Tipo, qtds: seq<int>) {
    && |depois| == |antes| + |qtds|
    && depois[..|antes|] == antes
    && forall k :: |antes| <= k < |depois| ==>
         && depois[k].tipo == tipo
         && depois[k].quantidade == qtds[k - |antes|]
         && depois[k].observacao == ""
  }

  lemma AcrescentaNada(log: seq<Movimentacao>, tipo: Tipo)
    ensures Acrescenta(log, log, tipo, [])
  {
    assert log[..|log|] == log;
  }

  lemma AcrescentaUm(antes: seq<Movimentacao>, meio: seq<Movimentacao>, tipo: Tipo, qtds: seq<int>, m: Movimentacao)
    requires Acrescenta(antes, meio, tipo, qtds) && m.tipo == tipo && m.observacao == ""
    ensures Acrescenta(antes, meio + [m], tipo, qtds + [m.quantidade])
  {
    var depois := meio + [m];
    var qs := qtds + [m.quantidade];
    assert depois[..|antes|] == meio[..|antes|];
    forall k | |antes| <= k < |depois|
      ensures depois[k].tipo == tipo && depois[k].quantidade == qs[k - |antes|] && depois[k].observacao == ""
    {
      if k < |meio| {
        assert depois[k] == meio[k] && qs[k - |antes|] == qtds[k - |antes|];
      }
    }
    assert |depois| == |antes| + |qs|;
  }

  /** One step of the line loop, seen from one product's log. */
  lemma PassoMovimentos(acc: Acc, linha: LinhaForm, id: ProdutoId, base: seq<Movimentacao>, qtds: seq<int>)
    requires Passo(acc, linha).Ok? && id in acc.produtos
    requires Acrescenta(base, acc.produtos[id].movimentacoes, Saida, qtds)
    ensures Acrescenta(base, Passo(acc, linha).value.produtos[id].movimentacoes, Saida,
                       qtds + (if Mantida(linha) && linha.produto == id then [linha.qtd] else []))
  {
    if Mantida(linha) {
      PassoMantida(acc, linha);
      if linha.produto == id {
        var r := acc.produtos[id];
        AcrescentaUm(base, r.movimentacoes, Saida, qtds,
                     Movimentacao(Saida, linha.qtd, r.qtdEstoque, r.qtdEstoque - linha.qtd, ""));
      } else {
        assert qtds + [] == qtds;
      }
    } else {
      assert qtds + [] == qtds;
    }
  }

  /** On every product the loop appends one SAIDA per kept line naming it, in line order, with that line's quantity. */
  lemma {:induction false} ProcessarMovimentos(produtos: map<ProdutoId, ProdutoRow>, linhas: seq<LinhaForm>)
    requires Processar(produtos, linhas).Ok?
    ensures forall id :: id in produtos ==>
              Acrescenta(produtos[id].movimentacoes, Processar(produtos, linhas).value.produtos[id].movimentacoes,
                         Saida, QtdsLinhas(linhas, id))
    decreases |linhas|
  {
    if linhas == [] {
      forall id | id in produtos
        ensures Acrescenta(produtos[id].movimentacoes, produtos[id].movimentacoes, Saida, [])
      {
        AcrescentaNada(produtos[id].movimentacoes, Saida);
      }
    } else {
      var anteriores := linhas[..|linhas| - 1];
      var ultima := linhas[|linhas| - 1];
      ProcessarDesdobra(produtos, linhas);
      ProcessarMovimentos(produtos, anteriores);
      var acc := Processar(produtos, anteriores).value;
      forall id | id in produtos
        ensures Acrescenta(produtos[id].movimentacoes, Processar(produtos, linhas).value.produtos[id].movimentacoes,
                           Saida, QtdsLinhas(linhas, id))
      {
        PassoMovimentos(acc, ultima, id, produtos[id].movimentacoes, QtdsLinhas(anteriores, id));
      }
    }
  }

  /** The saved items name each product with the same quantities, in the same order, as the kept lines. */
  lemma {:induction false} ProcessarQtdsItens(produtos: map<ProdutoId, ProdutoRow>, linhas: seq<LinhaForm>)
    requires Processar(produtos, linhas).Ok?
    ensures forall id :: QtdsItens(Processar(produtos, linhas).value.itens, id) == QtdsLinhas(linhas, id)
    decreases |linhas|
  {
    if linhas != [] {
      var anteriores := linhas[..|linhas| - 1];
      var ultima := linhas[|linhas| - 1];
      ProcessarDesdobra(produtos, linhas);
      ProcessarQtdsItens(produtos, anteriores);
      var acc := Processar(produtos, anteriores).value;
      var itens := Processar(produtos, linhas).value.itens;
      if Mantida(ultima) {
        PassoMantida(acc, ultima);
        assert itens[..|itens| - 1] == acc.itens;
      } else {
        assert itens == acc.itens;
      }
    }
  }

  /** The quantities a list of lines asks for can be served. */
  predicate Atendivel(produtos: map<ProdutoId, ProdutoRow>, linhas: seq<LinhaForm>) {
    && (forall i :: 0 <= i < |linhas| && Mantida(linhas[i]) ==> linhas[i].produto in produtos && linhas[i].qtd > 0)
    && (forall id :: id in produtos && Demanda(linhas, id) != 0 ==> Demanda(linhas, id) <= produtos[id].qtdEstoque)
  }

  /** With positive quantities, a product's demand is positive exactly when some kept line names it. */
  lemma {:induction false} DemandaPositiva(linhas: seq<LinhaForm>, id: ProdutoId)
    requires forall i :: 0 <= i < |linhas| && Mantida(linhas[i]) ==> linhas[i].qtd > 0
    ensures Demanda(linhas, id) >= 0
    ensures Demanda(linhas, id) == 0 <==> forall i :: 0 <= i < |linhas| && Mantida(linhas[i]) ==> linhas[i].produto != id
    decreases |linhas|
  {
    if linhas != [] {
      var anteriores := linhas[..|linhas| - 1];
      assert forall i :: 0 <= i < |anteriores| ==> anteriores[i] == linhas[i];
      DemandaPositiva(anteriores, id);
    }
  }

  lemma AtendivelPrefixo(produtos: map<ProdutoId, ProdutoRow>, linhas: seq<LinhaForm>)
    requires linhas != [] && Atendivel(produtos, linhas)
    ensures Atendivel(produtos, linhas[..|linhas| - 1])
  {
    var anteriores := linhas[..|linhas| - 1];
    assert forall i :: 0 <= i < |anteriores| ==> anteriores[i] == linhas[i];
    forall id | id in produtos && Demanda(anteriores, id) != 0
      ensures Demanda(anteriores, id) <= produtos[id].qtdEstoque
    {
      DemandaPositiva(anteriores, id);
      DemandaPositiva(linhas, id);
    }
  }

  /** A sale goes through exactly when every kept line has a positive quantity of an existing product and no product is asked for more than it has. */
  lemma {:induction false} ProcessarSse(produtos: map<ProdutoId, ProdutoRow>, linhas: seq<LinhaForm>)
    ensures Processar(produtos, linhas).Ok? <==> Atendivel(produtos, linhas)
    decreases |linhas|
  {
    if linhas != [] {
      var anteriores := linhas[..|linhas| - 1];
      ProcessarSse(produtos, anteriores);
      ProcessarDesdobra(produtos, linhas);
      if Processar(produtos, linhas).Ok? {
        ProcessarSseIda(produtos, linhas);
      } else if Atendivel(produtos, linhas) {
        AtendivelPrefixo(produtos, linhas);
        ProcessarSseVolta(produtos, linhas);
      }
    }
  }

  lemma ProcessarSseIda(produtos: map<ProdutoId, ProdutoRow>, linhas: seq<LinhaForm>)
    requires linhas != [] && Processar(produtos, linhas).Ok?
    requires Processar(produtos, linhas[..|linhas| - 1]).Ok? ==> Atendivel(produtos, linhas[..|linhas| - 1])
    ensures Atendivel(produtos, linhas)
  {
    var anteriores := linhas[..|linhas| - 1];
    var ultima := linhas[|linhas| - 1];
    ProcessarDesdobra(produtos, linhas);
    var acc := Processar(produtos, anteriores).value;
    ProcessarEstoque(produtos, anteriores);
    assert forall i :: 0 <= i < |anteriores| ==> anteriores[i] == linhas[i];
    if Mantida(ultima) {
      PassoMantida(acc, ultima);
    }
    forall id | id in produtos && Demanda(linhas, id) != 0
      ensures Demanda(linhas, id) <= produtos[id].qtdEstoque
    {
      DemandaPositiva(anteriores, id);
    }
  }

  lemma ProcessarSseVolta(produtos: map<ProdutoId, ProdutoRow>, linhas: seq<LinhaForm>)
    requires linhas != [] && Atendivel(produtos, linhas)
    requires Processar(produtos, linhas[..|linhas| - 1]).Ok?
    ensures Processar(produtos, linhas).Ok?
  {
    var anteriores := linhas[..|linhas| - 1];
    var ultima := linhas[|linhas| - 1];
    ProcessarDesdobra(produtos, linhas);
    var acc := Processar(produtos, anteriores).value;
    if Mantida(ultima) {
      ProcessarEstoque(produtos, anteriores);
      assert forall i :: 0 <= i < |anteriores| ==> anteriores[i] == linhas[i];
      DemandaPositiva(anteriores, ultima.produto);
      assert Demanda(linhas, ultima.produto) == Demanda(anteriores, ultima.produto) + ultima.qtd;
      PassoMantidaOk(acc, ultima);
    }
  }

  /** The form layer's snapshot check is enough when no product appears on two kept lines. */
  lemma PreChecagemBastaSemRepeticao(produtos: map<ProdutoId, ProdutoRow>, linhas: seq<LinhaForm>)
    requires ValidarFormset(linhas, Estoques(produtos)).Pass?
    requires forall i :: 0 <= i < |linhas| && Mantida(linhas[i]) ==> linhas[i].qtd > 0
    requires forall i, j ::
               0 <= i < j < |linhas| && Mantida(linhas[i]) && Mantida(linhas[j]) ==> linhas[i].produto != linhas[j].produto
    ensures Processar(produtos, linhas).Ok?
  {
    forall id | id in produtos && Demanda(linhas, id) != 0
      ensures Demanda(linhas, id) <= produtos[id].qtdEstoque
    {
      DemandaPositiva(linhas, id);
      var j :| 0 <= j < |linhas| && Mantida(linhas[j]) && linhas[j].produto == id;
      DemandaUnica(linhas, id, j);
    }
    ProcessarSse(produtos, linhas);
  }

  /** With one kept line naming a product, that line's quantity is the product's whole demand. */
  lemma {:induction false} DemandaUnica(linhas: seq<LinhaForm>, id: ProdutoId, j: nat)
    requires j < |linhas| && Mantida(linhas[j]) && linhas[j].produto == id
    requires forall i :: 0 <= i < |linhas| && i != j && Mantida(linhas[i]) ==> linhas[i].produto != id
    ensures Demanda(linhas, id) == linhas[j].qtd
    decreases |linhas|
  {
    var anteriores := linhas[..|linhas| - 1];
    assert forall i :: 0 <= i < |anteriores| ==> anteriores[i] == linhas[i];
    if j < |linhas| - 1 {
      DemandaUnica(anteriores, id, j);
    } else {
      DemandaAusente(anteriores, id);
    }
  }

  lemma {:induction false} DemandaAusente(linhas: seq<LinhaForm>, id: ProdutoId)
    requires forall i :: 0 <= i < |linhas| && Mantida(linhas[i]) ==> linhas[i].produto != id
    ensures Demanda(linhas, id) == 0
    decreases |linhas|
  {
    if linhas != [] {
      var anteriores := linhas[..|linhas| - 1];
      assert forall i :: 0 <= i < |anteriores| ==> anteriores[i] == linhas[i];
      DemandaAusente(anteriores, id);
    }
  }

  /**
   * The snapshot check is not enough on its own: two lines of 3 units of a
   * product with 5 in stock both pass it, and the second removal then finds
   * only 2 units and aborts the sale.
   */
  lemma PreChecagemRepetido(p: ProdutoRow, linhas: seq<LinhaForm>)
    requires p.qtdEstoque == 5
    requires linhas == [Preenchida(1, 3, false), Preenchida(1, 3, false)]
    ensures ValidarFormset(linhas, Estoques(map[1 := p])) == Pass
    ensures Processar(map[1 := p], linhas) == Err(FalhaEstoque(1, EstoqueInsuficiente(p.descricao, 2, 3)))
  {
    var produtos := map[1 := p];
    assert Estoques(produtos) == map[1 := 5];
    assert PrimeiraInvalida(linhas, map[1 := 5], 1) == None;
    assert PrimeiraInvalida(linhas, map[1 := 5], 0) == None;
    assert Mantidas(linhas) == linhas by {
      MantidasDesdobra(linhas);
      MantidasDesdobra(linhas[..1]);
      assert linhas[..1][..0] == [];
    }
    assert linhas[..1][..0] == [];
    ProcessarDesdobra(produtos, linhas[..1]);
    ProcessarDesdobra(produtos, linhas);
  }

  // ---------------------------------------------------------------------
  // The item loop of VendaDeleteView.delete

  /** The items of a stored sale: existing products, positive quantities. */
  predicate ItensRestauraveis(produtos: map<ProdutoId, ProdutoRow>, itens: seq<ItemVenda>) {
    forall i :: 0 <= i < |itens| ==> itens[i].produto in produtos && itens[i].qtd > 0
  }

  /** Each item's quantity added back to its product, in item order. */
  function Restaurar(produtos: map<ProdutoId, ProdutoRow>, itens: seq<ItemVenda>): (r: map<ProdutoId, ProdutoRow>)
    requires ItensRestauraveis(produtos, itens)
    ensures r.Keys == produtos.Keys
    decreases |itens|
  {
    if itens == [] then produtos
    else
      var ultimo := itens[|itens| - 1];
      var antes := Restaurar(produtos, itens[..|itens| - 1]);
      antes[ultimo.produto := Adicionar(antes[ultimo.produto], ultimo.qtd, "").value]
  }

  /** Every product's stock rises by exactly what the items took; nothing else changes but its log. */
  lemma {:induction false} RestaurarEstoque(produtos: map<ProdutoId, ProdutoRow>, itens: seq<ItemVenda>)
    requires ItensRestauraveis(produtos, itens)
    ensures forall id :: id in produtos ==>
              && Restaurar(produtos, itens)[id].qtdEstoque == produtos[id].qtdEstoque + DemandaItens(itens, id)
              && SoEstoqueELog(produtos[id], Restaurar(produtos, itens)[id])
    decreases |itens|
  {
    if itens == [] {
      forall id | id in produtos ensures SoEstoqueELog(produtos[id], produtos[id]) {
        assert produtos[id].movimentacoes[..|produtos[id].movimentacoes|] == produtos[id].movimentacoes;
      }
    } else {
      var anteriores := itens[..|itens| - 1];
      var ultimo := itens[|itens| - 1];
      RestaurarEstoque(produtos, anteriores);
      var antes := Restaurar(produtos, anteriores);
      var depois := Restaurar(produtos, itens);
      forall id | id in produtos
        ensures depois[id].qtdEstoque == produtos[id].qtdEstoque + DemandaItens(itens, id)
        ensures SoEstoqueELog(produtos[id], depois[id])
      {
        if id == ultimo.produto {
          var r := antes[id];
          assert depois[id] == Adicionar(r, ultimo.qtd, "").value;
          assert SoEstoqueELog(r, depois[id]) by {
            assert depois[id].movimentacoes[..|r.movimentacoes|] == r.movimentacoes;
          }
          SoEstoqueELogTransitivo(produtos[id], r, depois[id]);
        }
      }
    }
  }

  /** On every product the item loop appends one ENTRADA per item naming it, in item order, with that item's quantity. */
  lemma {:induction false} RestaurarMovimentos(produtos: map<ProdutoId, ProdutoRow>, itens: seq<ItemVenda>)
    requires ItensRestauraveis(produtos, itens)
    ensures forall id :: id in produtos ==>
              Acrescenta(produtos[id].movimentacoes, Restaurar(produtos, itens)[id].movimentacoes,
                         Entrada, QtdsItens(itens, id))
    decreases |itens|
  {
    if itens == [] {
      forall id | id in produtos
        ensures Acrescenta(produtos[id].movimentacoes, produtos[id].movimentacoes, Entrada, [])
      {
        AcrescentaNada(produtos[id].movimentacoes, Entrada);
      }
    } else {
      var anteriores := itens[..|itens| - 1];
      var ultimo := itens[|itens| - 1];
      RestaurarDesdobra(produtos, itens);
      RestaurarMovimentos(produtos, anteriores);
      var antes := Restaurar(produtos, anteriores);
      forall id | id in produtos
        ensures Acrescenta(produtos[id].movimentacoes, Restaurar(produtos, itens)[id].movimentacoes,
                           Entrada, QtdsItens(itens, id))
      {
        if id == ultimo.produto {
          var r := antes[id];
          AcrescentaUm(produtos[id].movimentacoes, r.movimentacoes, Entrada, QtdsItens(anteriores, id),
                       Movimentacao(Entrada, ultimo.qtd, r.qtdEstoque, r.qtdEstoque + ultimo.qtd, ""));
        } else {
          assert QtdsItens(itens, id) == QtdsItens(anteriores, id) + [];
        }
      }
    }
  }

  /** Committing a sale and then deleting it gives every product back its stock; only the logs grow. */
  lemma VendaDepoisEstorno(produtos: map<ProdutoId, ProdutoRow>, linhas: seq<LinhaForm>)
    requires Processar(produtos, linhas).Ok?
    ensures var acc := Processar(produtos, linhas).value;
            && ItensRestauraveis(acc.produtos, acc.itens)
            && forall id :: id in produtos ==>
                 && Restaurar(acc.produtos, acc.itens)[id].qtdEstoque == produtos[id].qtdEstoque
                 && SoEstoqueELog(produtos[id], Restaurar(acc.produtos, acc.itens)[id])
  {
    var acc := Processar(produtos, linhas).value;
    ProcessarItens(produtos, linhas);
    ProcessarDemandaItens(produtos, linhas);
    ProcessarEstoque(produtos, linhas);
    RestaurarEstoque(acc.produtos, acc.itens);
    forall id | id in produtos
      ensures SoEstoqueELog(produtos[id], Restaurar(acc.produtos, acc.itens)[id])
    {
      SoEstoqueELogTransitivo(produtos[id], acc.produtos[id], Restaurar(acc.produtos, acc.itens)[id]);
    }
  }

  /**
   * A product with 50 units at 10.00 sold 5 units: stock 45 with one
   * outbound movement 50 -> 45, total 50.00; deleting the sale brings the
   * stock back to 50 with one inbound movement 45 -> 50.
   */
  lemma ExemploVendaEEstorno(p: ProdutoRow, linhas: seq<LinhaForm>)
    requires p.qtdEstoque == 50 && p.preco == 1000
    requires linhas == [Preenchida(7, 5, false)]
    ensures Processar(map[7 := p], linhas).Ok?
    ensures var acc := Processar(map[7 := p], linhas).value;
            && acc.total == 5000
            && acc.itens == [ItemVenda(7, 5, 5000)]
            && acc.produtos[7].qtdEstoque == 45
            && acc.produtos[7].movimentacoes == p.movimentacoes + [Movimentacao(Saida, 5, 50, 45, "")]
            && ItensRestauraveis(acc.produtos, acc.itens)
            && Restaurar(acc.produtos, acc.itens)[7].qtdEstoque == 50
            && Restaurar(acc.produtos, acc.itens)[7].movimentacoes
               == p.movimentacoes + [Movimentacao(Saida, 5, 50, 45, ""), Movimentacao(Entrada, 5, 45, 50, "")]
  {
    var produtos := map[7 := p];
    assert linhas[..0] == [];
    ProcessarDesdobra(produtos, linhas);
    var acc := Processar(produtos, linhas).value;
    assert acc.itens[..0] == [];
    RestaurarDesdobra(acc.produtos, acc.itens);
  }

  // ---------------------------------------------------------------------
  // Both loops keep every product's ledger consistent

  predicate TodosConsistentes(produtos: map<ProdutoId, ProdutoRow>) {
    forall id :: id in produtos ==> Consistente(produtos[id])
  }

  lemma {:induction false} ProcessarConsistente(produtos: map<ProdutoId, ProdutoRow>, linhas: seq<LinhaForm>)
    requires TodosConsistentes(produtos) && Processar(produtos, linhas).Ok?
    ensures TodosConsistentes(Processar(produtos, linhas).value.produtos)
    decreases |linhas|
  {
    if linhas != [] {
      var anteriores := linhas[..|linhas| - 1];
      var ultima := linhas[|linhas| - 1];
      ProcessarDesdobra(produtos, linhas);
      ProcessarConsistente(produtos, anteriores);
      var acc := Processar(produtos, anteriores).value;
      if Mantida(ultima) {
        PassoMantida(acc, ultima);
        RemoverConsistente(acc.produtos[ultima.produto], ultima.qtd, "");
      }
    }
  }

  lemma {:induction false} RestaurarConsistente(produtos: map<ProdutoId, ProdutoRow>, itens: seq<ItemVenda>)
    requires TodosConsistentes(produtos) && ItensRestauraveis(produtos, itens)
    ensures TodosConsistentes(Restaurar(produtos, itens))
    decreases |itens|
  {
    if itens != [] {
      var anteriores := itens[..|itens| - 1];
      var ultimo := itens[|itens| - 1];
      RestaurarConsistente(produtos, anteriores);
      var antes := Restaurar(produtos, anteriores);
      RestaurarDesdobra(produtos, itens);
      AdicionarConsistente(antes[ultimo.produto], ultimo.qtd, "");
      TodosConsistentesAtualiza(antes, ultimo.produto, Adicionar(antes[ultimo.produto], ultimo.qtd, "").value);
    }
  }

  lemma TodosConsistentesAtualiza(produtos: map<ProdutoId, ProdutoRow>, id: ProdutoId, p: ProdutoRow)
    requires TodosConsistentes(produtos) && Consistente(p)
    ensures TodosConsistentes(produtos[id := p])
  {
  }

  /** One step of Restaurar: the last item's quantity added to its product. */
  lemma RestaurarDesdobra(produtos: map<ProdutoId, ProdutoRow>, itens: seq<ItemVenda>)
    requires itens != [] && ItensRestauraveis(produtos, itens)
    ensures ItensRestauraveis(produtos, itens[..|itens| - 1])
    ensures var ultimo := itens[|itens| - 1];
            var antes := Restaurar(produtos, itens[..|itens| - 1]);
            && ultimo.produto in antes && ultimo.qtd > 0
            && Restaurar(produtos, itens) == antes[ultimo.produto := Adicionar(antes[ultimo.produto], ultimo.qtd, "").value]
  {
  }

  // ---------------------------------------------------------------------
  // The store

  /** The stock of each product, as the form layer reads it. */
  function Estoques(produtos: map<ProdutoId, ProdutoRow>): (r: map<ProdutoId, int>)
    ensures r.Keys == produtos.Keys
    ensures forall id :: id in r ==> r[id] == produtos[id].qtdEstoque
  {
    map id | id in produtos :: produtos[id].qtdEstoque
  }

  /** A stored sale: its customer exists, its total is its items' sum, its items name existing products with positive quantities. */
  predicate VendaValida(v: Venda, produtos: set<ProdutoId>, clientes: set<ClienteId>) {
    && v.cliente in clientes
    && v.totalVenda == SomaSubtotais(v.itens)
    && |v.itens| >= MinimoLinhas
    && forall i :: 0 <= i < |v.itens| ==> v.itens[i].produto in produtos && v.itens[i].qtd > 0
  }

  /** Does any item of any sale name this product? */
  predicate ProdutoReferenciado(vendas: map<VendaId, Venda>, produto: ProdutoId) {
    exists id, i :: id in vendas && 0 <= i < |vendas[id].itens| && vendas[id].itens[i].produto == produto
  }

  predicate ClienteReferenciado(vendas: map<VendaId, Venda>, cliente: ClienteId) {
    exists id :: id in vendas && vendas[id].cliente == cliente
  }

  /** The persisted state the sale views work on. */
  datatype Estado = Estado(
    produtos: map<ProdutoId, ProdutoRow>,
    vendas: map<VendaId, Venda>,
    clientes: set<ClienteId>,
    proximoId: VendaId)

  /** The store's invariant: consistent ledgers, and stored sales valid and numbered below the next id. */
  predicate Valida(e: Estado) {
    && TodosConsistentes(e.produtos)
    && forall id :: id in e.vendas ==> id < e.proximoId && VendaValida(e.vendas[id], e.produtos.Keys, e.clientes)
  }

  /**
   * VendaCreateView.post under one transaction: the sale form (its customer
   * must exist), then the formset against the stock as it stands, then the
   * line loop; the sale is stored under the next id only when all succeed,
   * and any failure leaves the state as it was.
   */
  function Vender(e: Estado, cliente: ClienteId, dataVenda: Data, observacoes: string, linhas: seq<LinhaForm>)
    : (r: (Result<VendaId, SaleError>, Estado))
    ensures r.0.Ok? <==> cliente in e.clientes && ValidarFormset(linhas, Estoques(e.produtos)).Pass?
                         && Processar(e.produtos, linhas).Ok?
    ensures cliente !in e.clientes ==> r.0 == Err(VendaFormInvalido)
    ensures cliente in e.clientes && ValidarFormset(linhas, Estoques(e.produtos)).Fail?
            ==> r.0 == Err(FormsetInvalido(ValidarFormset(linhas, Estoques(e.produtos)).error))
    ensures cliente in e.clientes && ValidarFormset(linhas, Estoques(e.produtos)).Pass?
            && Processar(e.produtos, linhas).Err?
            ==> r.0 == Err(Processar(e.produtos, linhas).error)
    ensures r.0.Err? ==> r.1 == e
    ensures r.0.Ok? ==>
              && r.0.value == e.proximoId && r.1.proximoId == e.proximoId + 1
              && r.1.clientes == e.clientes && r.1.produtos.Keys == e.produtos.Keys
              && r.1.vendas.Keys == e.vendas.Keys + {r.0.value}
              && r.1.vendas[r.0.value].cliente == cliente
              && r.1.vendas[r.0.value].totalVenda == SomaSubtotais(r.1.vendas[r.0.value].itens)
  {
    if cliente !in e.clientes then (Err(VendaFormInvalido), e)
    else
      var validacao := ValidarFormset(linhas, Estoques(e.produtos));
      if validacao.Fail? then (Err(FormsetInvalido(validacao.error)), e)
      else
        match Processar(e.produtos, linhas)
        case Err(erro) => (Err(erro), e)
        case Ok(acc) =>
          var venda := Venda(cliente, dataVenda, acc.total, observacoes, acc.itens);
          (Ok(e.proximoId), Estado(acc.produtos, e.vendas[e.proximoId := venda], e.clientes, e.proximoId + 1))
  }

  /** A formset whose first form is blank is refused and nothing is written, however the later lines read. */
  lemma VenderPrimeiraEmBranco(e: Estado, cliente: ClienteId, dataVenda: Data, observacoes: string, linha: LinhaForm)
    requires cliente in e.clientes && Mantida(linha) && linha.produto in e.produtos
    ensures Vender(e, cliente, dataVenda, observacoes, [Vazia, linha]) == (Err(FormsetInvalido(LinhaObrigatoria(0))), e)
  {
    PrimeiraEmBranco(Estoques(e.produtos), linha);
  }

  /** A committed sale keeps the store valid. */
  lemma VenderPreservaValida(e: Estado, cliente: ClienteId, dataVenda: Data, observacoes: string, linhas: seq<LinhaForm>)
    requires Valida(e)
    ensures Valida(Vender(e, cliente, dataVenda, observacoes, linhas).1)
  {
    if Vender(e, cliente, dataVenda, observacoes, linhas).0.Ok? {
      VenderOk(e, cliente, dataVenda, observacoes, linhas);
      ProcessarConsistente(e.produtos, linhas);
      VendaNovaValida(e, cliente, dataVenda, observacoes, linhas);
    }
  }

  /** The sale Vender stores is itself valid. */
  lemma VendaNovaValida(e: Estado, cliente: ClienteId, dataVenda: Data, observacoes: string, linhas: seq<LinhaForm>)
    requires Vender(e, cliente, dataVenda, observacoes, linhas).0.Ok?
    ensures VendaValida(Vender(e, cliente, dataVenda, observacoes, linhas).1.vendas[e.proximoId], e.produtos.Keys, e.clientes)
  {
    VenderOk(e, cliente, dataVenda, observacoes, linhas);
    ProcessarItens(e.produtos, linhas);
  }

  /** The state a successful Vender commits, spelled out. */
  lemma VenderOk(e: Estado, cliente: ClienteId, dataVenda: Data, observacoes: string, linhas: seq<LinhaForm>)
    requires Vender(e, cliente, dataVenda, observacoes, linhas).0.Ok?
    ensures Processar(e.produtos, linhas).Ok?
    ensures var acc := Processar(e.produtos, linhas).value;
            Vender(e, cliente, dataVenda, observacoes, linhas).1
            == Estado(acc.produtos, e.vendas[e.proximoId := Venda(cliente, dataVenda, acc.total, observacoes, acc.itens)],
                      e.clientes, e.proximoId + 1)
  {
  }

  /** A committed sale takes each product's demand from its stock; only the stock and the log change. */
  lemma VenderEstoque(e: Estado, cliente: ClienteId, dataVenda: Data, observacoes: string, linhas: seq<LinhaForm>)
    requires Vender(e, cliente, dataVenda, observacoes, linhas).0.Ok?
    ensures var depois := Vender(e, cliente, dataVenda, observacoes, linhas).1;
            forall id :: id in e.produtos ==>
              && depois.produtos[id].qtdEstoque == e.produtos[id].qtdEstoque - Demanda(linhas, id)
              && SoEstoqueELog(e.produtos[id], depois.produtos[id])
  {
    VenderOk(e, cliente, dataVenda, observacoes, linhas);
    ProcessarEstoque(e.produtos, linhas);
  }

  /** The stored sale's items take, product by product, exactly the demand of the kept lines. */
  lemma VenderItens(e: Estado, cliente: ClienteId, dataVenda: Data, observacoes: string, linhas: seq<LinhaForm>)
    requires Vender(e, cliente, dataVenda, observacoes, linhas).0.Ok?
    ensures var depois := Vender(e, cliente, dataVenda, observacoes, linhas).1;
            forall p :: DemandaItens(depois.vendas[e.proximoId].itens, p) == Demanda(linhas, p)
  {
    VenderOk(e, cliente, dataVenda, observacoes, linhas);
    ProcessarDemandaItens(e.produtos, linhas);
  }

  /**
   * A committed sale appends to each product one SAIDA per kept line naming
   * it, in line order, and the stored items list the same quantities in the
   * same order.
   */
  lemma VenderMovimentos(e: Estado, cliente: ClienteId, dataVenda: Data, observacoes: string, linhas: seq<LinhaForm>)
    requires Vender(e, cliente, dataVenda, observacoes, linhas).0.Ok?
    ensures var depois := Vender(e, cliente, dataVenda, observacoes, linhas).1;
            forall id :: id in e.produtos ==>
              && Acrescenta(e.produtos[id].movimentacoes, depois.produtos[id].movimentacoes, Saida, QtdsLinhas(linhas, id))
              && QtdsItens(depois.vendas[e.proximoId].itens, id) == QtdsLinhas(linhas, id)
  {
    VenderOk(e, cliente, dataVenda, observacoes, linhas);
    ProcessarMovimentos(e.produtos, linhas);
    ProcessarQtdsItens(e.produtos, linhas);
  }

  /** In a valid store a committed sale gets a fresh id and leaves the earlier sales alone. */
  lemma VenderOutrasVendas(e: Estado, cliente: ClienteId, dataVenda: Data, observacoes: string, linhas: seq<LinhaForm>)
    requires Valida(e) && Vender(e, cliente, dataVenda, observacoes, linhas).0.Ok?
    ensures e.proximoId !in e.vendas
    ensures var depois := Vender(e, cliente, dataVenda, observacoes, linhas).1;
            depois.vendas - {e.proximoId} == e.vendas
  {
    VenderOk(e, cliente, dataVenda, observacoes, linhas);
  }

  /**
   * VendaDeleteView.delete under one transaction: every item's quantity
   * goes back to its product, then the sale goes, and its items with it.
   */
  function Estornar(e: Estado, id: VendaId): (r: (Outcome<SaleError>, Estado))
    requires id in e.vendas ==> ItensRestauraveis(e.produtos, e.vendas[id].itens)
    ensures id !in e.vendas ==> r == (Fail(VendaInexistente(id)), e)
    ensures id in e.vendas ==>
              && r.0 == Pass
              && r.1.vendas == e.vendas - {id}
              && r.1.clientes == e.clientes && r.1.proximoId == e.proximoId
              && r.1.produtos.Keys == e.produtos.Keys
              && forall p :: p in e.produtos ==>
                   && r.1.produtos[p].qtdEstoque == e.produtos[p].qtdEstoque + DemandaItens(e.vendas[id].itens, p)
                   && SoEstoqueELog(e.produtos[p], r.1.produtos[p])
                   && Acrescenta(e.produtos[p].movimentacoes, r.1.produtos[p].movimentacoes,
                                 Entrada, QtdsItens(e.vendas[id].itens, p))
  {
    if id !in e.vendas then (Fail(VendaInexistente(id)), e)
    else
      var itens := e.vendas[id].itens;
      RestaurarEstoque(e.produtos, itens);
      RestaurarMovimentos(e.produtos, itens);
      (Pass, Estado(Restaurar(e.produtos, itens), e.vendas - {id}, e.clientes, e.proximoId))
  }

  /** In a valid store every sale's items can be given back. */
  lemma ValidaRestauravel(e: Estado, id: VendaId)
    requires Valida(e) && id in e.vendas
    ensures ItensRestauraveis(e.produtos, e.vendas[id].itens)
  {
  }

  /** Deleting a sale keeps the store valid. */
  lemma EstornarPreservaValida(e: Estado, id: VendaId)
    requires Valida(e)
    ensures id in e.vendas ==> ItensRestauraveis(e.produtos, e.vendas[id].itens)
    ensures Valida(Estornar(e, id).1)
  {
    if id in e.vendas {
      RestaurarConsistente(e.produtos, e.vendas[id].itens);
    }
  }

  /** A sale committed and then deleted leaves the sales as they were and every product's stock as it was; only the logs grow. */
  lemma VenderDepoisEstornar(e: Estado, cliente: ClienteId, dataVenda: Data, observacoes: string, linhas: seq<LinhaForm>)
    requires Valida(e) && Vender(e, cliente, dataVenda, observacoes, linhas).0.Ok?
    ensures Valida(Vender(e, cliente, dataVenda, observacoes, linhas).1)
    ensures var fim := Estornar(Vender(e, cliente, dataVenda, observacoes, linhas).1, e.proximoId).1;
            && fim.vendas == e.vendas
            && fim.produtos.Keys == e.produtos.Keys
            && forall id :: id in e.produtos ==>
                 && fim.produtos[id].qtdEstoque == e.produtos[id].qtdEstoque
                 && SoEstoqueELog(e.produtos[id], fim.produtos[id])
  {
    var meio := Vender(e, cliente, dataVenda, observacoes, linhas).1;
    VenderPreservaValida(e, cliente, dataVenda, observacoes, linhas);
    VenderEstoque(e, cliente, dataVenda, observacoes, linhas);
    VenderItens(e, cliente, dataVenda, observacoes, linhas);
    VenderOutrasVendas(e, cliente, dataVenda, observacoes, linhas);
    ValidaRestauravel(meio, e.proximoId);
    EstornoDesfaz(e, meio, e.proximoId, linhas);
  }

  /**
   * The audit trail of a sale committed and then deleted: each product's log
   * gains one SAIDA per kept line naming it and then one ENTRADA with the
   * same quantity, in the same order.
   */
  lemma VenderDepoisEstornarMovimentos(e: Estado, cliente: ClienteId, dataVenda: Data, observacoes: string,
                                       linhas: seq<LinhaForm>)
    requires Valida(e) && Vender(e, cliente, dataVenda, observacoes, linhas).0.Ok?
    ensures Valida(Vender(e, cliente, dataVenda, observacoes, linhas).1)
    ensures var meio := Vender(e, cliente, dataVenda, observacoes, linhas).1;
            var fim := Estornar(meio, e.proximoId).1;
            forall id :: id in e.produtos ==>
              && Acrescenta(e.produtos[id].movimentacoes, meio.produtos[id].movimentacoes, Saida, QtdsLinhas(linhas, id))
              && Acrescenta(meio.produtos[id].movimentacoes, fim.produtos[id].movimentacoes, Entrada, QtdsLinhas(linhas, id))
  {
    var meio := Vender(e, cliente, dataVenda, observacoes, linhas).1;
    VenderPreservaValida(e, cliente, dataVenda, observacoes, linhas);
    VenderOk(e, cliente, dataVenda, observacoes, linhas);
    VenderMovimentos(e, cliente, dataVenda, observacoes, linhas);
    ValidaRestauravel(meio, e.proximoId);
  }

  /** Deleting a sale whose items carry some lines' demand undoes a state that took exactly that demand. */
  lemma EstornoDesfaz(e: Estado, meio: Estado, id: VendaId, linhas: seq<LinhaForm>)
    requires id in meio.vendas && ItensRestauraveis(meio.produtos, meio.vendas[id].itens)
    requires meio.vendas - {id} == e.vendas
    requires meio.produtos.Keys == e.produtos.Keys
    requires forall p :: DemandaItens(meio.vendas[id].itens, p) == Demanda(linhas, p)
    requires forall p :: p in e.produtos ==>
               && meio.produtos[p].qtdEstoque == e.produtos[p].qtdEstoque - Demanda(linhas, p)
               && SoEstoqueELog(e.produtos[p], meio.produtos[p])
    ensures var fim := Estornar(meio, id).1;
            && fim.vendas == e.vendas
            && fim.produtos.Keys == e.produtos.Keys
            && forall p :: p in e.produtos ==>
                 && fim.produtos[p].qtdEstoque == e.produtos[p].qtdEstoque
                 && SoEstoqueELog(e.produtos[p], fim.produtos[p])
  {
    var fim := Estornar(meio, id).1;
    forall p | p in e.produtos
      ensures fim.produtos[p].qtdEstoque == e.produtos[p].qtdEstoque
      ensures SoEstoqueELog(e.produtos[p], fim.produtos[p])
    {
      SoEstoqueELogTransitivo(e.produtos[p], meio.produtos[p], fim.produtos[p]);
    }
  }

  /** ProdutoDeleteView under on_delete=PROTECT: refused while a sale item or a stock movement refers to the product. */
  function ExcluirProduto(e: Estado, id: ProdutoId): (r: (Outcome<SaleError>, Estado))
    ensures id !in e.produtos ==> r.0 == Fail(ProdutoInexistente(id))
    ensures r.0.Pass? <==> id in e.produtos && !ProdutoReferenciado(e.vendas, id) && e.produtos[id].movimentacoes == []
    ensures r.0.Fail? && id in e.produtos ==> r.0 == Fail(ProdutoProtegido(id))
    ensures r.1 == if r.0.Pass? then e.(produtos := e.produtos - {id}) else e
    ensures Valida(e) ==> Valida(r.1)
  {
    if id !in e.produtos then (Fail(ProdutoInexistente(id)), e)
    else if ProdutoReferenciado(e.vendas, id) || e.produtos[id].movimentacoes != [] then (Fail(ProdutoProtegido(id)), e)
    else (Pass, e.(produtos := e.produtos - {id}))
  }

  /** ClienteDeleteView under on_delete=PROTECT: refused while a sale refers to the customer. */
  function ExcluirCliente(e: Estado, cliente: ClienteId): (r: (Outcome<SaleError>, Estado))
    ensures cliente !in e.clientes ==> r.0 == Fail(ClienteInexistente(cliente))
    ensures r.0.Pass? <==> cliente in e.clientes && !ClienteReferenciado(e.vendas, cliente)
    ensures r.0.Fail? && cliente in e.clientes ==> r.0 == Fail(ClienteProtegido(cliente))
    ensures r.1 == if r.0.Pass? then e.(clientes := e.clientes - {cliente}) else e
    ensures Valida(e) ==> Valida(r.1)
  {
    if cliente !in e.clientes then (Fail(ClienteInexistente(cliente)), e)
    else if ClienteReferenciado(e.vendas, cliente) then (Fail(ClienteProtegido(cliente)), e)
    else (Pass, e.(clientes := e.clientes - {cliente}))
  }

  /**
   * The line loop of VendaCreateView.post: each kept line's product is
   * looked up, its subtotal added to the total, its quantity removed
   * through the ledger, and the item recorded; the first failure ends it.
   */
  method ProcessarLinhas(inicial: map<ProdutoId, ProdutoRow>, linhas: seq<LinhaForm>)
    returns (r: Result<Acc, SaleError>)
    ensures r == Processar(inicial, linhas)
  {
    var prods: map<ProdutoId, ProdutoRow> := inicial;
    var itens: seq<ItemVenda> := [];
    var total := 0;
    var i := 0;
    while i < |linhas|
      invariant 0 <= i <= |linhas|
      invariant Processar(inicial, linhas[..i]) == Ok(Acc(prods, itens, total))
    {
      var linha := linhas[i];
      assert linhas[..i + 1][..i] == linhas[..i];
      ProcessarDesdobra(inicial, linhas[..i + 1]);
      if Mantida(linha) {
        if linha.produto !in prods {
          ProcessarFalhaPropaga(inicial, linhas, i + 1);
          return Err(ProdutoInexistente(linha.produto));
        }
        var p := prods[linha.produto];
        var subtotal := p.preco * linha.qtd;
        var removido := Remover(p, linha.qtd, "");
        if removido.Err? {
          ProcessarFalhaPropaga(inicial, linhas, i + 1);
          return Err(FalhaEstoque(linha.produto, removido.error));
        }
        total := total + subtotal;
        prods := prods[linha.produto := removido.value];
        itens := itens + [ItemVenda(linha.produto, linha.qtd, subtotal)];
      }
      i := i + 1;
    }
    assert linhas[..i] == linhas;
    return Ok(Acc(prods, itens, total));
  }

  /** The item loop of VendaDeleteView.delete: each item's quantity is added back to its product. */
  method RestaurarItens(inicial: map<ProdutoId, ProdutoRow>, itens: seq<ItemVenda>)
    returns (prods: map<ProdutoId, ProdutoRow>)
    requires ItensRestauraveis(inicial, itens)
    ensures prods == Restaurar(inicial, itens)
  {
    prods := inicial;
    var i := 0;
    while i < |itens|
      invariant 0 <= i <= |itens|
      invariant ItensRestauraveis(inicial, itens[..i])
      invariant prods == Restaurar(inicial, itens[..i])
    {
      assert itens[..i + 1][..i] == itens[..i];
      var item := itens[i];
      prods := prods[item.produto := Adicionar(prods[item.produto], item.qtd, "").value];
      i := i + 1;
    }
    assert itens[..i] == itens;
  }

  /** The body of VendaCreateView.post's transaction, computing the outcome and the state to commit. */
  method TransacaoVenda(e: Estado, cliente: ClienteId, dataVenda: Data, observacoes: string, linhas: seq<LinhaForm>)
    returns (r: Result<VendaId, SaleError>, depois: Estado)
    ensures (r, depois) == Vender(e, cliente, dataVenda, observacoes, linhas)
  {
    if cliente !in e.clientes {
      return Err(VendaFormInvalido), e;
    }
    var validacao := ValidarFormset(linhas, Estoques(e.produtos));
    if validacao.Fail? {
      return Err(FormsetInvalido(validacao.error)), e;
    }
    var processado := ProcessarLinhas(e.produtos, linhas);
    if processado.Err? {
      return Err(processado.error), e;
    }
    var acc := processado.value;
    var venda := Venda(cliente, dataVenda, acc.total, observacoes, acc.itens);
    r := Ok(e.proximoId);
    depois := Estado(acc.produtos, e.vendas[e.proximoId := venda], e.clientes, e.proximoId + 1);
  }

  /** The body of VendaDeleteView.delete's transaction. */
  method TransacaoEstorno(e: Estado, id: VendaId) returns (r: Outcome<SaleError>, depois: Estado)
    requires id in e.vendas ==> ItensRestauraveis(e.produtos, e.vendas[id].itens)
    ensures (r, depois) == Estornar(e, id)
  {
    if id !in e.vendas {
      return Fail(VendaInexistente(id)), e;
    }
    var restaurados := RestaurarItens(e.produtos, e.vendas[id].itens);
    r := Pass;
    depois := Estado(restaurados, e.vendas - {id}, e.clientes, e.proximoId);
  }

  /** The store as the views see it, one field per table. */
  class Loja {
    var produtos: map<ProdutoId, ProdutoRow>
    var vendas: map<VendaId, Venda>
    var clientes: set<ClienteId>
    var proximoId: VendaId

    function Atual(): Estado
      reads this
    {
      Estado(produtos, vendas, clientes, proximoId)
    }

    ghost predicate Valid()
      reads this
    {
      Valida(Atual())
    }

    constructor (produtos: map<ProdutoId, ProdutoRow>, clientes: set<ClienteId>)
      requires TodosConsistentes(produtos)
      ensures Valid()
      ensures Atual() == Estado(produtos, map[], clientes, 1)
    {
      this.produtos := produtos;
      this.clientes := clientes;
      this.vendas := map[];
      this.proximoId := 1;
    }

    method CommitSale(cliente: ClienteId, dataVenda: Data, observacoes: string, linhas: seq<LinhaForm>)
      returns (r: Result<VendaId, SaleError>)
      requires Valid()
      modifies this
      ensures Valid()
      ensures (r, Atual()) == Vender(old(Atual()), cliente, dataVenda, observacoes, linhas)
    {
      VenderPreservaValida(Atual(), cliente, dataVenda, observacoes, linhas);
      var novo;
      r, novo := TransacaoVenda(Atual(), cliente, dataVenda, observacoes, linhas);
      Gravar(novo);
    }

    method DeleteSale(id: VendaId) returns (r: Outcome<SaleError>)
      requires Valid()
      modifies this
      ensures Valid()
      ensures (r, Atual()) == Estornar(old(Atual()), id)
    {
      EstornarPreservaValida(Atual(), id);
      var novo;
      r, novo := TransacaoEstorno(Atual(), id);
      Gravar(novo);
    }

    /** Commits a transaction's state. */
    method Gravar(novo: Estado)
      modifies this
      ensures Atual() == novo
    {
      produtos := novo.produtos;
      vendas := novo.vendas;
      clientes := novo.clientes;
      proximoId := novo.proximoId;
    }

    method DeleteProduto(id: ProdutoId) returns (r: Outcome<SaleError>)
      requires Valid()
      modifies this
      ensures Valid()
      ensures (r, Atual()) == ExcluirProduto(old(Atual()), id)
    {
      if id !in produtos {
        return Fail(ProdutoInexistente(id));
      }
      if ProdutoReferenciado(vendas, id) || produtos[id].movimentacoes != [] {
        return Fail(ProdutoProtegido(id));
      }
      produtos := produtos - {id};
      return Pass;
    }

    method DeleteCliente(cliente: ClienteId) returns (r: Outcome<SaleError>)
      requires Valid()
      modifies this
      ensures Valid()
      ensures (r, Atual()) == ExcluirCliente(old(Atual()), cliente)
    {
      if cliente !in clientes {
        return Fail(ClienteInexistente(cliente));
      }
      if ClienteReferenciado(vendas, cliente) {
        return Fail(ClienteProtegido(cliente));
      }
      clientes := clientes - {cliente};
      return Pass;
    }
  }

  /** A sale committed and deleted right away through the store leaves its sales and stock as they were. */
  method VenderDepoisExcluir(loja: Loja, cliente: ClienteId, dataVenda: Data, observacoes: string, linhas: seq<LinhaForm>)
    returns (r: Result<VendaId, SaleError>)
    requires loja.Valid()
    modifies loja
    ensures loja.Valid()
    ensures loja.vendas == old(loja.vendas) && loja.produtos.Keys == old(loja.produtos).Keys
    ensures forall id :: id in old(loja.produtos) ==> loja.produtos[id].qtdEstoque == old(loja.produtos)[id].qtdEstoque
  {
    ghost var antes := loja.Atual();
    r := loja.CommitSale(cliente, dataVenda, observacoes, linhas);
    if r.Ok? {
      VenderDepoisEstornar(antes, cliente, dataVenda, observacoes, linhas);
      var excluida := loja.DeleteSale(r.value);
    }
  }
}
