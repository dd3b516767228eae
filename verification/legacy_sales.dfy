/**
 * The sale models of django-vendas/sales/models.py as objects: an item
 * recomputes its subtotal from its product's price every time it is saved,
 * and a sale recomputes its total from its items' subtotals.
 */
module LegacySales {
  import LegacyInventory
  import Sales

  class ItemVendaLegado {
    var produto: LegacyInventory.ProdutoLegado
    var qtd: int
    var subtotal: int

    constructor (produto: LegacyInventory.ProdutoLegado, qtd: int)
      ensures this.produto == produto && this.qtd == qtd && subtotal == 0
    {
      this.produto := produto;
      this.qtd := qtd;
      this.subtotal := 0;
    }

    /** save(): the subtotal becomes the product's current price times the quantity. */
    method Save()
      modifies this
      ensures subtotal == produto.preco * qtd
      ensures produto == old(produto) && qtd == old(qtd)
    {
      subtotal := produto.preco * qtd;
    }
  }

  /** The sum of the items' subtotals as they stand. */
  function SomaSubtotais(itens: seq<ItemVendaLegado>): int
    reads itens
  {
    if itens == [] then 0 else SomaSubtotais(itens[..|itens| - 1]) + itens[|itens| - 1].subtotal
  }

  /** The items as the values the current sale model stores. */
  function Retrato(itens: seq<ItemVendaLegado>): (r: seq<Sales.ItemVenda>)
    reads itens
    ensures |r| == |itens|
    ensures forall i :: 0 <= i < |r| ==> r[i].qtd == itens[i].qtd && r[i].subtotal == itens[i].subtotal
  {
    if itens == [] then []
    else
      var ultimo := itens[|itens| - 1];
      Retrato(itens[..|itens| - 1]) + [Sales.ItemVenda(0, ultimo.qtd, ultimo.subtotal)]
  }

  /** The legacy total is the current model's sum of subtotals over the same items. */
  lemma {:induction false} SomaConcordaComVendaAtual(itens: seq<ItemVendaLegado>)
    ensures SomaSubtotais(itens) == Sales.SomaSubtotais(Retrato(itens))
    decreases |itens|
  {
    if itens != [] {
      var anteriores := itens[..|itens| - 1];
      SomaConcordaComVendaAtual(anteriores);
      var r := Retrato(itens);
      assert r[..|r| - 1] == Retrato(anteriores);
    }
  }

  class VendaLegado {
    var itens: seq<ItemVendaLegado>
    var totalVenda: int

    constructor (itens: seq<ItemVendaLegado>)
      ensures this.itens == itens && totalVenda == 0
    {
      this.itens := itens;
      this.totalVenda := 0;
    }

    /** calcular_total(): sums the items' subtotals, stores the sum as the total and returns it. */
    method CalcularTotal() returns (total: int)
      modifies this
      ensures total == SomaSubtotais(itens)
      ensures totalVenda == total
      ensures itens == old(itens)
      ensures itens == [] ==> total == 0
    {
      total := 0;
      var i := 0;
      while i < |itens|
        invariant 0 <= i <= |itens|
        invariant total == SomaSubtotais(itens[..i])
      {
        assert itens[..i + 1][..i] == itens[..i];
        total := total + itens[i].subtotal;
        i := i + 1;
      }
      assert itens[..i] == itens;
      totalVenda := total;
    }
  }

  /**
   * An item saved again after its product's price changed carries the new
   * price: the subtotal is not frozen at the time of the sale.
   */
  method SalvarAposReajuste(item: ItemVendaLegado, novoPreco: int)
    modifies item, item.produto
    ensures item.produto == old(item.produto) && item.qtd == old(item.qtd)
    ensures item.produto.preco == novoPreco
    ensures item.subtotal == novoPreco * item.qtd
  {
    item.produto.preco := novoPreco;
    item.Save();
  }
}
