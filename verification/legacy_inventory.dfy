/**
 * The older product model of django-vendas/inventory/models.py: the stock
 * quantity is changed in place, with no validation of the amount, no audit
 * log, and a low-stock flag with a fixed threshold of 10.
 */
module LegacyInventory {

  /** The fixed threshold of the legacy estoque_baixo. */
  const LimiteEstoqueBaixo: int := 10

  class ProdutoLegado {
    var descricao: string
    var preco: int
    var qtdEstoque: int

    constructor (descricao: string, preco: int, qtdEstoque: int)
      ensures this.descricao == descricao && this.preco == preco && this.qtdEstoque == qtdEstoque
    {
      this.descricao := descricao;
      this.preco := preco;
      this.qtdEstoque := qtdEstoque;
    }

    /** estoque_baixo: at most the fixed threshold, whatever the product. */
    predicate EstoqueBaixo()
      reads this
    {
      qtdEstoque <= LimiteEstoqueBaixo
    }

    /** adicionar_estoque: adds the amount, whatever its sign. */
    method AdicionarEstoque(quantidade: int)
      modifies this
      ensures qtdEstoque == old(qtdEstoque) + quantidade
      ensures descricao == old(descricao) && preco == old(preco)
    {
      qtdEstoque := qtdEstoque + quantidade;
    }

    /** remover_estoque: subtracts the amount when the stock covers it and reports whether it did. */
    method RemoverEstoque(quantidade: int) returns (ok: bool)
      modifies this
      ensures ok <==> old(qtdEstoque) >= quantidade
      ensures qtdEstoque == if ok then old(qtdEstoque) - quantidade else old(qtdEstoque)
      ensures old(qtdEstoque) >= 0 ==> qtdEstoque >= 0
      ensures descricao == old(descricao) && preco == old(preco)
    {
      if qtdEstoque >= quantidade {
        qtdEstoque := qtdEstoque - quantidade;
        return true;
      }
      return false;
    }
  }

  /** Adding an amount and then removing it succeeds and returns to the starting stock. */
  method AdicionarDepoisRemover(p: ProdutoLegado, quantidade: int) returns (ok: bool)
    requires p.qtdEstoque >= 0
    modifies p
    ensures ok
    ensures p.qtdEstoque == old(p.qtdEstoque)
  {
    p.AdicionarEstoque(quantidade);
    ok := p.RemoverEstoque(quantidade);
  }

  /**
   * remover_estoque with a negative amount: a product with 0 units "removes"
   * -5 units, reports success and ends with 5 units.
   */
  method RemoverNegativoAumentaEstoque() returns (ok: bool, estoque: int)
    ensures ok && estoque == 5
  {
    var p := new ProdutoLegado("", 0, 0);
    ok := p.RemoverEstoque(-5);
    estoque := p.qtdEstoque;
  }
}
