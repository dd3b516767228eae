/**
 * The sale listings of sales/views.py: which sales a listing shows and in
 * what order (VendaListView.get_queryset, TotalVendaView, and the
 * Venda.Meta.ordering of django-vendas/sales/models.py), and the total of
 * the sales it shows.
 *
 * A queryset is a sequence of rows, each a stored sale with its id; the
 * aggregate Sum(...) or 0 is the sum of total_venda over it, 0 when it is
 * empty.
 */
module SalesReports {
  import opened Wrappers
  import opened Sales

  /** One row of a listing: a stored sale and its id. */
  datatype Registro = Registro(id: VendaId, venda: Venda)

  // ---------------------------------------------------------------------
  // The listing order

  /** ordering = ['-data_venda', '-id']: the later day first, then the higher id first. */
  predicate VemAntes(a: Registro, b: Registro) {
    a.venda.dataVenda > b.venda.dataVenda || (a.venda.dataVenda == b.venda.dataVenda && a.id > b.id)
  }

  /** Every row comes before every later row. */
  predicate Ordenada(lista: seq<Registro>) {
    forall i, j :: 0 <= i < j < |lista| ==> VemAntes(lista[i], lista[j])
  }

  /** One row put into an ordered listing at its place. */
  function Inserir(lista: seq<Registro>, x: Registro): (r: seq<Registro>)
    ensures multiset(r) == multiset(lista) + multiset{x}
    decreases |lista|
  {
    if lista == [] then [x]
    else if VemAntes(x, lista[0]) then [x] + lista
    else
      assert lista == [lista[0]] + lista[1..];
      [lista[0]] + Inserir(lista[1..], x)
  }

  /** Inserting a row whose id the listing does not hold keeps the listing ordered. */
  lemma {:induction false} InserirOrdenada(lista: seq<Registro>, x: Registro)
    requires Ordenada(lista)
    requires forall i :: 0 <= i < |lista| ==> lista[i].id != x.id
    ensures Ordenada(Inserir(lista, x))
    decreases |lista|
  {
    if lista != [] && !VemAntes(x, lista[0]) {
      var resto := lista[1..];
      InserirOrdenada(resto, x);
      var novo := Inserir(resto, x);
      forall j | 0 <= j < |novo| ensures VemAntes(lista[0], novo[j]) {
        assert novo[j] in multiset(novo);
        if novo[j] != x {
          assert novo[j] in resto;
          var k :| 0 <= k < |resto| && resto[k] == novo[j];
          assert lista[k + 1] == novo[j];
        }
      }
    }
  }

  /**
   * Venda.objects.all(): every stored sale once, as a row, in the Meta
   * order. The rows are inserted in an arbitrary order; OrdenacaoUnica shows
   * the result does not depend on it.
   */
  ghost function Listar(vendas: map<VendaId, Venda>): (r: seq<Registro>)
    ensures Ordenada(r)
    ensures forall x :: multiset(r)[x] == if x.id in vendas && vendas[x.id] == x.venda then 1 else 0
    decreases |vendas|
  {
    if vendas == map[] then []
    else
      var id :| id in vendas;
      var resto := Listar(vendas - {id});
      var x := Registro(id, vendas[id]);
      assert forall i :: 0 <= i < |resto| ==> resto[i].id != id by {
        forall i | 0 <= i < |resto| ensures resto[i].id != id {
          assert multiset(resto)[resto[i]] > 0;
        }
      }
      InserirOrdenada(resto, x);
      Inserir(resto, x)
  }

  /** Two ordered listings of the same rows are the same listing: the order leaves no choice. */
  lemma {:induction false} OrdenacaoUnica(a: seq<Registro>, b: seq<Registro>)
    requires Ordenada(a) && Ordenada(b) && multiset(a) == multiset(b)
    ensures a == b
    decreases |a|
  {
    if a != [] {
      PrimeirosIguais(a, b);
      CaudasIguais(a, b);
      OrdenacaoUnica(a[1..], b[1..]);
    }
  }

  /** Two ordered listings of the same rows start with the same row. */
  lemma PrimeirosIguais(a: seq<Registro>, b: seq<Registro>)
    requires Ordenada(a) && Ordenada(b) && multiset(a) == multiset(b) && a != []
    ensures b != [] && a[0] == b[0]
  {
    assert |b| == |multiset(b)| == |multiset(a)| == |a|;
    assert a[0] in multiset(b) && b[0] in multiset(a);
    var k :| 0 <= k < |b| && b[k] == a[0];
    var j :| 0 <= j < |a| && a[j] == b[0];
    // k > 0 would put b[0] before a[0], and j > 0 a[0] before b[0]; the order is asymmetric
    assert k == 0 || j == 0;
  }

  lemma CaudasIguais(a: seq<Registro>, b: seq<Registro>)
    requires Ordenada(a) && Ordenada(b) && multiset(a) == multiset(b) && a != [] && b != [] && a[0] == b[0]
    ensures Ordenada(a[1..]) && Ordenada(b[1..]) && multiset(a[1..]) == multiset(b[1..])
  {
    assert forall i, j :: 0 <= i < j < |a| - 1 ==> a[1..][i] == a[i + 1] && a[1..][j] == a[j + 1];
    assert forall i, j :: 0 <= i < j < |b| - 1 ==> b[1..][i] == b[i + 1] && b[1..][j] == b[j + 1];
    MultisetCauda(a);
    MultisetCauda(b);
  }

  lemma MultisetCauda(a: seq<Registro>)
    requires a != []
    ensures multiset(a[1..]) == multiset(a) - multiset{a[0]}
  {
    assert a == [a[0]] + a[1..];
  }

  // ---------------------------------------------------------------------
  // The filters

  /** The optional filters of the listing: first day, last day, customer. */
  datatype Filtro = Filtro(dataInicio: Option<Data>, dataFim: Option<Data>, cliente: Option<ClienteId>)

  /** No filter at all. */
  const SemFiltro := Filtro(None, None, None)

  /** Does a row pass the filters that are present? Both date bounds are inclusive. */
  predicate Casa(f: Filtro, x: Registro) {
    && (f.dataInicio.None? || f.dataInicio.value <= x.venda.dataVenda)
    && (f.dataFim.None? || x.venda.dataVenda <= f.dataFim.value)
    && (f.cliente.None? || x.venda.cliente == f.cliente.value)
  }

  /** The queryset after the filters, in its original order. */
  function Filtrar(lista: seq<Registro>, f: Filtro): (r: seq<Registro>)
    ensures |r| <= |lista|
    ensures forall i :: 0 <= i < |r| ==> Casa(f, r[i])
    ensures |r| == 0 <==> forall i :: 0 <= i < |lista| ==> !Casa(f, lista[i])
  {
    if lista == [] then []
    else
      var ultima := lista[|lista| - 1];
      Filtrar(lista[..|lista| - 1], f) + (if Casa(f, ultima) then [ultima] else [])
  }

  /** No matching row is lost: each occurs in the result as often as in the queryset, and no other row occurs. */
  lemma {:induction false} FiltrarCompleta(lista: seq<Registro>, f: Filtro)
    ensures forall x :: multiset(Filtrar(lista, f))[x] == if Casa(f, x) then multiset(lista)[x] else 0
    decreases |lista|
  {
    if lista != [] {
      var ultima := lista[|lista| - 1];
      FiltrarCompleta(lista[..|lista| - 1], f);
      assert lista == lista[..|lista| - 1] + [ultima];
    }
  }

  /** Filtering an ordered queryset keeps it ordered. */
  lemma {:induction false} FiltrarOrdenada(lista: seq<Registro>, f: Filtro)
    requires Ordenada(lista)
    ensures Ordenada(Filtrar(lista, f))
    decreases |lista|
  {
    if lista != [] {
      var anteriores := lista[..|lista| - 1];
      var ultima := lista[|lista| - 1];
      FiltrarOrdenada(anteriores, f);
      FiltrarCompleta(anteriores, f);
      var fa := Filtrar(anteriores, f);
      if Casa(f, ultima) {
        forall i | 0 <= i < |fa| ensures VemAntes(fa[i], ultima) {
          assert fa[i] in multiset(fa);
          assert fa[i] in anteriores;
          var k :| 0 <= k < |anteriores| && anteriores[k] == fa[i];
          assert lista[k] == fa[i];
        }
        assert Filtrar(lista, f) == fa + [ultima];
      } else {
        assert Filtrar(lista, f) == fa + [];
      }
    }
  }

  /**
   * VendaListView.get_queryset: the store's sales in the Meta order,
   * narrowed by the filters present. It is ordered, and holds exactly the
   * stored sales that pass the filters.
   */
  ghost function Listagem(vendas: map<VendaId, Venda>, f: Filtro): (r: seq<Registro>)
    ensures Ordenada(r)
    ensures forall x :: multiset(r)[x] == if x.id in vendas && vendas[x.id] == x.venda && Casa(f, x) then 1 else 0
  {
    var todas := Listar(vendas);
    FiltrarOrdenada(todas, f);
    FiltrarCompleta(todas, f);
    Filtrar(todas, f)
  }

  // ---------------------------------------------------------------------
  // The totals

  /** Sum(total_venda) over a queryset, or 0 when it is empty. */
  function SomaTotais(lista: seq<Registro>): int {
    if lista == [] then 0 else SomaTotais(lista[..|lista| - 1]) + lista[|lista| - 1].venda.totalVenda
  }

  /** The listing total, computed in one pass: each matching row's total counted once. */
  function TotalVendas(lista: seq<Registro>, f: Filtro): (r: int)
    ensures (forall i :: 0 <= i < |lista| ==> !Casa(f, lista[i])) ==> r == 0
    ensures (forall i :: 0 <= i < |lista| ==> lista[i].venda.totalVenda >= 0) ==> r >= 0
  {
    if lista == [] then 0
    else
      var ultima := lista[|lista| - 1];
      TotalVendas(lista[..|lista| - 1], f) + (if Casa(f, ultima) then ultima.venda.totalVenda else 0)
  }

  /** The one-pass total is the aggregate over the filtered queryset. */
  lemma {:induction false} TotalVendasFiltrar(lista: seq<Registro>, f: Filtro)
    ensures TotalVendas(lista, f) == SomaTotais(Filtrar(lista, f))
    decreases |lista|
  {
    if lista != [] {
      var anteriores := lista[..|lista| - 1];
      var ultima := lista[|lista| - 1];
      TotalVendasFiltrar(anteriores, f);
      var filtradas := Filtrar(anteriores, f);
      if Casa(f, ultima) {
        assert Filtrar(lista, f) == filtradas + [ultima];
        assert (filtradas + [ultima])[..|filtradas|] == filtradas;
      } else {
        assert Filtrar(lista, f) == filtradas + [];
        assert filtradas + [] == filtradas;
      }
    }
  }

  /** Totals add up over a queryset split in two. */
  lemma {:induction false} TotalVendasConcat(a: seq<Registro>, b: seq<Registro>, f: Filtro)
    ensures TotalVendas(a + b, f) == TotalVendas(a, f) + TotalVendas(b, f)
    decreases |b|
  {
    if b == [] {
      assert a + b == a;
    } else {
      var anteriores := b[..|b| - 1];
      assert (a + b)[..|a + b| - 1] == a + anteriores;
      TotalVendasConcat(a, anteriores, f);
    }
  }

  /** Without filters the total is the sum over every row. */
  lemma {:induction false} TotalSemFiltro(lista: seq<Registro>)
    ensures TotalVendas(lista, SemFiltro) == SomaTotais(lista)
    decreases |lista|
  {
    if lista != [] {
      TotalSemFiltro(lista[..|lista| - 1]);
    }
  }

  /** A period split at a day: the total up to that day plus the total after it. */
  lemma {:induction false} TotalPeriodoDividido(lista: seq<Registro>, inicio: Option<Data>, meio: Data,
                                               fim: Option<Data>, cliente: Option<ClienteId>)
    requires inicio.None? || inicio.value <= meio
    requires fim.None? || meio < fim.value
    ensures TotalVendas(lista, Filtro(inicio, fim, cliente))
            == TotalVendas(lista, Filtro(inicio, Some(meio), cliente))
               + TotalVendas(lista, Filtro(Some(meio + 1), fim, cliente))
    decreases |lista|
  {
    if lista != [] {
      TotalPeriodoDividido(lista[..|lista| - 1], inicio, meio, fim, cliente);
    }
  }

  /**
   * VendaListView's total: the GET parameters that are present filter the
   * queryset (first day, last day, customer), whether or not the search
   * form would validate.
   */
  function TotalLista(lista: seq<Registro>, dataInicio: Option<Data>, dataFim: Option<Data>,
                      cliente: Option<ClienteId>): (r: int)
    ensures r == SomaTotais(Filtrar(lista, Filtro(dataInicio, dataFim, cliente)))
  {
    TotalVendasFiltrar(lista, Filtro(dataInicio, dataFim, cliente));
    TotalVendas(lista, Filtro(dataInicio, dataFim, cliente))
  }

  /**
   * TotalVendaView's total: only the date bounds filter, and only when the
   * search form validates; otherwise every row counts.
   */
  function TotalPeriodo(lista: seq<Registro>, formValido: bool, dataInicio: Option<Data>, dataFim: Option<Data>)
    : (r: int)
    ensures !formValido ==> r == SomaTotais(lista)
    ensures formValido ==> r == SomaTotais(Filtrar(lista, Filtro(dataInicio, dataFim, None)))
  {
    if formValido then TotalLista(lista, dataInicio, dataFim, None)
    else
      TotalSemFiltro(lista);
      TotalVendas(lista, SemFiltro)
  }

  /** With a valid form and no customer filter the two views report the same total. */
  lemma ListaConcordaComPeriodo(lista: seq<Registro>, dataInicio: Option<Data>, dataFim: Option<Data>)
    ensures TotalLista(lista, dataInicio, dataFim, None) == TotalPeriodo(lista, true, dataInicio, dataFim)
    ensures TotalLista(lista, None, None, None) == TotalPeriodo(lista, false, dataInicio, dataFim)
  {
    TotalVendasFiltrar(lista, SemFiltro);
    TotalSemFiltro(lista);
  }
}
