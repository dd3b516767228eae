/**
 * The stock ledger of inventory/models.py: a product's quantity in stock and
 * the audit log of stock movements that every ledger operation appends to.
 *
 * ProdutoRow is the value of one product row together with its movements;
 * Adicionar and Remover are the two ledger transitions on that value, with
 * the source's errors as Err results. The class Produto is the model
 * instance whose methods update its fields in place; each method is proved
 * to perform exactly the corresponding transition.
 *
 * Prices are integer cents (the source's DecimalField has two decimal places).
 */
module Inventory {
  import opened Wrappers

  /** TIPO_CHOICES of MovimentacaoEstoque. */
  datatype Tipo = Entrada | Saida | Ajuste

  /** One MovimentacaoEstoque row (its product is the row whose log holds it). */
  datatype Movimentacao = Movimentacao(
    tipo: Tipo,
    quantidade: int,
    anterior: int,
    atual: int,
    observacao: string)

  /** The two ValueErrors the ledger operations raise. */
  datatype StockError =
    | QuantidadeInvalida(quantidade: int)
    | EstoqueInsuficiente(descricao: string, disponivel: int, solicitado: int)

  /** The default of Produto.estoque_minimo. */
  const EstoqueMinimoPadrao: int := 10

  datatype ProdutoRow = ProdutoRow(
    descricao: string,
    preco: int,
    qtdEstoque: int,
    estoqueMinimo: int,
    movimentacoes: seq<Movimentacao>)

  // ---------------------------------------------------------------------
  // Derived properties of a product

  predicate EstoqueBaixo(p: ProdutoRow) {
    p.qtdEstoque <= p.estoqueMinimo
  }

  predicate EstoqueDisponivel(p: ProdutoRow) {
    p.qtdEstoque > 0
  }

  /** preco * qtd_estoque, exact in cents. */
  function ValorTotalEstoque(p: ProdutoRow): (r: int)
    ensures p.qtdEstoque == 0 ==> r == 0
    ensures p.preco >= 0 && p.qtdEstoque >= 0 ==> r >= 0
  {
    p.preco * p.qtdEstoque
  }

  // ---------------------------------------------------------------------
  // The audit log

  /** A movement as a ledger operation writes it. No ledger operation writes AJUSTE. */
  predicate BemFormada(m: Movimentacao) {
    && m.quantidade > 0
    && match m.tipo
       case Entrada => m.atual == m.anterior + m.quantidade
       case Saida => m.atual == m.anterior - m.quantidade && m.atual >= 0
       case Ajuste => false
  }

  /** Each movement starts where the previous one ended. */
  predicate Encadeado(log: seq<Movimentacao>) {
    forall i :: 0 < i < |log| ==> log[i].anterior == log[i - 1].atual
  }

  /** The ledger invariant: well-formed movements, chained, ending at the current stock. */
  predicate Consistente(p: ProdutoRow) {
    && (forall i :: 0 <= i < |p.movimentacoes| ==> BemFormada(p.movimentacoes[i]))
    && Encadeado(p.movimentacoes)
    && (|p.movimentacoes| > 0 ==> p.movimentacoes[|p.movimentacoes| - 1].atual == p.qtdEstoque)
  }

  /** The signed change a movement records. */
  function Delta(m: Movimentacao): int {
    match m.tipo
    case Entrada => m.quantidade
    case Saida => -m.quantidade
    case Ajuste => 0
  }

  /** The net change recorded by a log. */
  function Saldo(log: seq<Movimentacao>): int {
    if log == [] then 0 else Saldo(log[..|log| - 1]) + Delta(log[|log| - 1])
  }

  // ---------------------------------------------------------------------
  // The ledger transitions

  /** adicionar_estoque: a positive amount raises the stock and logs one ENTRADA. */
  function Adicionar(p: ProdutoRow, quantidade: int, observacao: string): (r: Result<ProdutoRow, StockError>)
    ensures r.Ok? <==> quantidade > 0
    ensures r.Err? ==> r.error == QuantidadeInvalida(quantidade)
    ensures r.Ok? ==> r.value.qtdEstoque == p.qtdEstoque + quantidade
    ensures r.Ok? ==> r.value.movimentacoes
                      == p.movimentacoes + [Movimentacao(Entrada, quantidade, p.qtdEstoque, r.value.qtdEstoque, observacao)]
    ensures r.Ok? ==> r.value.(qtdEstoque := p.qtdEstoque, movimentacoes := p.movimentacoes) == p
  {
    if quantidade <= 0 then Err(QuantidadeInvalida(quantidade))
    else
      var novo := p.qtdEstoque + quantidade;
      Ok(p.(qtdEstoque := novo,
            movimentacoes := p.movimentacoes + [Movimentacao(Entrada, quantidade, novo - quantidade, novo, observacao)]))
  }

  /** remover_estoque: a positive amount no larger than the stock lowers it and logs one SAIDA. */
  function Remover(p: ProdutoRow, quantidade: int, observacao: string): (r: Result<ProdutoRow, StockError>)
    ensures r.Ok? <==> 0 < quantidade <= p.qtdEstoque
    ensures quantidade <= 0 ==> r == Err(QuantidadeInvalida(quantidade))
    ensures 0 < quantidade && p.qtdEstoque < quantidade
            ==> r == Err(EstoqueInsuficiente(p.descricao, p.qtdEstoque, quantidade))
    ensures r.Ok? ==> r.value.qtdEstoque == p.qtdEstoque - quantidade && r.value.qtdEstoque >= 0
    ensures r.Ok? ==> r.value.movimentacoes
                      == p.movimentacoes + [Movimentacao(Saida, quantidade, p.qtdEstoque, r.value.qtdEstoque, observacao)]
    ensures r.Ok? ==> r.value.(qtdEstoque := p.qtdEstoque, movimentacoes := p.movimentacoes) == p
  {
    if quantidade <= 0 then Err(QuantidadeInvalida(quantidade))
    else if p.qtdEstoque < quantidade then Err(EstoqueInsuficiente(p.descricao, p.qtdEstoque, quantidade))
    else
      var anterior := p.qtdEstoque;
      var novo := anterior - quantidade;
      Ok(p.(qtdEstoque := novo,
            movimentacoes := p.movimentacoes + [Movimentacao(Saida, quantidade, anterior, novo, observacao)]))
  }

  // ---------------------------------------------------------------------
  // What the transitions promise

  /** Both transitions keep the ledger invariant. */
  lemma AdicionarConsistente(p: ProdutoRow, quantidade: int, observacao: string)
    requires Consistente(p) && quantidade > 0
    ensures Consistente(Adicionar(p, quantidade, observacao).value)
  {
    var q := Adicionar(p, quantidade, observacao).value;
    assert q.movimentacoes[..|p.movimentacoes|] == p.movimentacoes;
  }

  lemma RemoverConsistente(p: ProdutoRow, quantidade: int, observacao: string)
    requires Consistente(p) && 0 < quantidade <= p.qtdEstoque
    ensures Consistente(Remover(p, quantidade, observacao).value)
  {
    var q := Remover(p, quantidade, observacao).value;
    assert q.movimentacoes[..|p.movimentacoes|] == p.movimentacoes;
  }

  /** Replaying a consistent log from its first quantity gives the current stock. */
  lemma {:induction false} SaldoReproduzEstoque(log: seq<Movimentacao>)
    requires |log| > 0 && Encadeado(log)
    requires forall i :: 0 <= i < |log| ==> BemFormada(log[i])
    ensures log[|log| - 1].atual == log[0].anterior + Saldo(log)
  {
    var n := |log|;
    var ultimo := log[n - 1];
    assert ultimo.atual == ultimo.anterior + Delta(ultimo) by {
      assert BemFormada(ultimo);
    }
    if n > 1 {
      var prefixo := log[..n - 1];
      assert Encadeado(prefixo) by {
        forall i | 0 < i < |prefixo| ensures prefixo[i].anterior == prefixo[i - 1].atual {
          assert prefixo[i] == log[i] && prefixo[i - 1] == log[i - 1];
        }
      }
      assert forall i :: 0 <= i < |prefixo| ==> BemFormada(prefixo[i]) by {
        forall i | 0 <= i < |prefixo| ensures BemFormada(prefixo[i]) {
          assert prefixo[i] == log[i];
        }
      }
      SaldoReproduzEstoque(prefixo);
      assert ultimo.anterior == prefixo[|prefixo| - 1].atual;
      assert prefixo[0] == log[0];
    }
  }

  /** The stock of a consistent product is its log's opening quantity plus the log's net change. */
  lemma EstoqueIgualSaldo(p: ProdutoRow)
    requires Consistente(p) && |p.movimentacoes| > 0
    ensures p.qtdEstoque == p.movimentacoes[0].anterior + Saldo(p.movimentacoes)
  {
    SaldoReproduzEstoque(p.movimentacoes);
  }

  /** Removing what was just added succeeds and restores the stock. */
  lemma AdicionarRemover(p: ProdutoRow, quantidade: int, observacao: string)
    requires quantidade > 0 && p.qtdEstoque >= 0
    ensures Remover(Adicionar(p, quantidade, observacao).value, quantidade, observacao).Ok?
    ensures Remover(Adicionar(p, quantidade, observacao).value, quantidade, observacao).value
            == p.(movimentacoes := p.movimentacoes
                    + [Movimentacao(Entrada, quantidade, p.qtdEstoque, p.qtdEstoque + quantidade, observacao),
                       Movimentacao(Saida, quantidade, p.qtdEstoque + quantidade, p.qtdEstoque, observacao)])
  {
    var meio := Adicionar(p, quantidade, observacao).value;
    var fim := Remover(meio, quantidade, observacao).value;
    assert fim.movimentacoes == p.movimentacoes + [meio.movimentacoes[|p.movimentacoes|], fim.movimentacoes[|meio.movimentacoes|]];
  }

  /** A successful removal always lowers the stock: a non-positive amount is refused. */
  lemma RemoverDiminui(p: ProdutoRow, quantidade: int, observacao: string)
    requires Remover(p, quantidade, observacao).Ok?
    ensures Remover(p, quantidade, observacao).value.qtdEstoque < p.qtdEstoque
  {
  }

  /** A failed transition leaves the product as it was: it returns no new row at all. */
  lemma RemoverInsuficienteReporta(p: ProdutoRow, quantidade: int, observacao: string)
    requires quantidade > 0 && !Remover(p, quantidade, observacao).Ok?
    ensures Remover(p, quantidade, observacao).error.disponivel == p.qtdEstoque
    ensures Remover(p, quantidade, observacao).error.solicitado == quantidade
    ensures p.qtdEstoque < quantidade
  {
  }

  /** The stock value moves by exactly preco * quantidade. */
  lemma ValorTotalAposAdicionar(p: ProdutoRow, quantidade: int, observacao: string)
    requires quantidade > 0
    ensures ValorTotalEstoque(Adicionar(p, quantidade, observacao).value)
            == ValorTotalEstoque(p) + p.preco * quantidade
  {
    var q := Adicionar(p, quantidade, observacao).value;
    assert q.preco == p.preco;
    assert p.preco * (p.qtdEstoque + quantidade) == p.preco * p.qtdEstoque + p.preco * quantidade;
  }

  lemma ValorTotalAposRemover(p: ProdutoRow, quantidade: int, observacao: string)
    requires 0 < quantidade <= p.qtdEstoque
    ensures ValorTotalEstoque(Remover(p, quantidade, observacao).value)
            == ValorTotalEstoque(p) - p.preco * quantidade
  {
    var q := Remover(p, quantidade, observacao).value;
    assert q.preco == p.preco;
    assert p.preco * (p.qtdEstoque - quantidade) == p.preco * p.qtdEstoque - p.preco * quantidade;
  }

  /** estoque_disponivel holds exactly when one unit can be removed. */
  lemma DisponivelSeRemoveUm(p: ProdutoRow, observacao: string)
    ensures EstoqueDisponivel(p) <==> Remover(p, 1, observacao).Ok?
  {
  }

  /** Adding stock can only clear the low-stock flag; removing can only raise it. */
  lemma EstoqueBaixoMonotono(p: ProdutoRow, quantidade: int, observacao: string)
    ensures Adicionar(p, quantidade, observacao).Ok? && EstoqueBaixo(Adicionar(p, quantidade, observacao).value)
            ==> EstoqueBaixo(p)
    ensures Remover(p, quantidade, observacao).Ok? && EstoqueBaixo(p)
            ==> EstoqueBaixo(Remover(p, quantidade, observacao).value)
  {
  }

  // ---------------------------------------------------------------------
  // Any sequence of ledger calls, each its own transaction

  datatype Operacao =
    | Adicao(quantidade: int, observacao: string)
    | Remocao(quantidade: int, observacao: string)

  function Aplicar(p: ProdutoRow, op: Operacao): Result<ProdutoRow, StockError> {
    match op
    case Adicao(q, o) => Adicionar(p, q, o)
    case Remocao(q, o) => Remover(p, q, o)
  }

  lemma AplicarConsistente(p: ProdutoRow, op: Operacao)
    requires Consistente(p) && Aplicar(p, op).Ok?
    ensures Consistente(Aplicar(p, op).value)
  {
    match op
    case Adicao(q, o) => AdicionarConsistente(p, q, o);
    case Remocao(q, o) => RemoverConsistente(p, q, o);
  }

  /**
   * The product after a sequence of calls; a call that raises rolls back
   * its own transaction and leaves the product as it was.
   */
  function Executar(p: ProdutoRow, ops: seq<Operacao>): (r: ProdutoRow)
    ensures Consistente(p) ==> Consistente(r)
    ensures p.qtdEstoque >= 0 ==> r.qtdEstoque >= 0
    ensures |p.movimentacoes| <= |r.movimentacoes| && r.movimentacoes[..|p.movimentacoes|] == p.movimentacoes
    ensures r.(qtdEstoque := p.qtdEstoque, movimentacoes := p.movimentacoes) == p
    decreases |ops|
  {
    if ops == [] then p
    else
      var passo := Aplicar(p, ops[0]);
      var proximo := if passo.Ok? then passo.value else p;
      assert Consistente(p) ==> Consistente(proximo) by {
        if passo.Ok? && Consistente(p) {
          AplicarConsistente(p, ops[0]);
        }
      }
      var r := Executar(proximo, ops[1..]);
      assert r.movimentacoes[..|p.movimentacoes|] == p.movimentacoes by {
        assert proximo.movimentacoes[..|p.movimentacoes|] == p.movimentacoes;
        assert r.movimentacoes[..|proximo.movimentacoes|] == proximo.movimentacoes;
      }
      r
  }

  // ---------------------------------------------------------------------
  // The model instance

  class Produto {
    var descricao: string
    var preco: int
    var qtdEstoque: int
    var estoqueMinimo: int
    var movimentacoes: seq<Movimentacao>

    /** The row this object holds. */
    function Row(): ProdutoRow
      reads this
    {
      ProdutoRow(descricao, preco, qtdEstoque, estoqueMinimo, movimentacoes)
    }

    ghost predicate Valid()
      reads this
    {
      Consistente(Row())
    }

    /** A new product, with no movements yet and the default reorder threshold. */
    constructor (descricao: string, preco: int, qtdEstoque: int)
      ensures Valid()
      ensures Row() == ProdutoRow(descricao, preco, qtdEstoque, EstoqueMinimoPadrao, [])
    {
      this.descricao := descricao;
      this.preco := preco;
      this.qtdEstoque := qtdEstoque;
      this.estoqueMinimo := EstoqueMinimoPadrao;
      this.movimentacoes := [];
    }

    method AdicionarEstoque(quantidade: int, observacao: string) returns (res: Outcome<StockError>)
      requires Valid()
      modifies this
      ensures Valid()
      ensures Adicionar(old(Row()), quantidade, observacao).Ok? ==>
                res == Pass && Row() == Adicionar(old(Row()), quantidade, observacao).value
      ensures Adicionar(old(Row()), quantidade, observacao).Err? ==>
                res == Fail(Adicionar(old(Row()), quantidade, observacao).error) && Row() == old(Row())
    {
      if quantidade <= 0 {
        return Fail(QuantidadeInvalida(quantidade));
      }
      ghost var antes := Row();
      qtdEstoque := qtdEstoque + quantidade;
      movimentacoes := movimentacoes + [Movimentacao(Entrada, quantidade, qtdEstoque - quantidade, qtdEstoque, observacao)];
      AdicionarConsistente(antes, quantidade, observacao);
      return Pass;
    }

    method RemoverEstoque(quantidade: int, observacao: string) returns (res: Outcome<StockError>)
      requires Valid()
      modifies this
      ensures Valid()
      ensures Remover(old(Row()), quantidade, observacao).Ok? ==>
                res == Pass && Row() == Remover(old(Row()), quantidade, observacao).value
      ensures Remover(old(Row()), quantidade, observacao).Err? ==>
                res == Fail(Remover(old(Row()), quantidade, observacao).error) && Row() == old(Row())
    {
      if quantidade <= 0 {
        return Fail(QuantidadeInvalida(quantidade));
      }
      if qtdEstoque < quantidade {
        return Fail(EstoqueInsuficiente(descricao, qtdEstoque, quantidade));
      }
      ghost var antes := Row();
      var anterior := qtdEstoque;
      qtdEstoque := qtdEstoque - quantidade;
      movimentacoes := movimentacoes + [Movimentacao(Saida, quantidade, anterior, qtdEstoque, observacao)];
      RemoverConsistente(antes, quantidade, observacao);
      return Pass;
    }
  }
}
