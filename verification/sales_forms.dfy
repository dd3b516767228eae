/**
 * The sale-entry forms of sales/forms.py: the per-line stock pre-check of
 * ItemVendaForm.clean_qtd and the ItemVendaFormSet rules (at least one line,
 * lines marked for deletion ignored).
 *
 * The pre-check reads the product's stock as it stands when the form is
 * validated, before any line of the sale has removed anything.
 */
module SalesForms {
  import opened Wrappers

  type ProdutoId = nat

  /** The ValidationError clean_qtd raises, with the stock it reports. */
  datatype ErroQtd = QuantidadeIndisponivel(estoqueAtual: int)

  /**
   * clean_qtd: estoque is the chosen product's stock (None when no valid
   * product was chosen), qtd the cleaned quantity (None when missing).
   * The check runs only when both are present and qtd is not 0.
   */
  function CleanQtd(estoque: Option<int>, qtd: Option<int>): (r: Result<Option<int>, ErroQtd>)
    ensures r.Ok? ==> r.value == qtd
    ensures r.Err? <==> estoque.Some? && qtd.Some? && qtd.value != 0 && qtd.value > estoque.value
    ensures r.Err? ==> r.error == QuantidadeIndisponivel(estoque.value)
  {
    if estoque.Some? && qtd.Some? && qtd.value != 0 then
      if qtd.value > estoque.value then Err(QuantidadeIndisponivel(estoque.value))
      else Ok(qtd)
    else Ok(qtd)
  }

  /** One form of the formset: an untouched extra form, or a filled line with its DELETE box. */
  datatype LinhaForm =
    | Vazia
    | Preenchida(produto: ProdutoId, qtd: int, excluir: bool)

  /** The lines the sale keeps: filled and not marked for deletion. */
  predicate Mantida(l: LinhaForm) {
    l.Preenchida? && !l.excluir
  }

  /** min_num of ItemVendaFormSet, enforced because validate_min is set. */
  const MinimoLinhas: nat := 1

  /** The kept lines, in formset order. */
  function Mantidas(linhas: seq<LinhaForm>): (r: seq<LinhaForm>)
    ensures |r| <= |linhas|
    ensures forall i :: 0 <= i < |r| ==> Mantida(r[i])
    ensures |r| == 0 <==> forall i :: 0 <= i < |linhas| ==> !Mantida(linhas[i])
  {
    if linhas == [] then []
    else Mantidas(linhas[..|linhas| - 1]) + (if Mantida(linhas[|linhas| - 1]) then [linhas[|linhas| - 1]] else [])
  }

  /** No kept line is lost: each kept line occurs in Mantidas as often as in the formset, and no other line occurs. */
  lemma {:induction false} MantidasCompleta(linhas: seq<LinhaForm>)
    ensures forall l :: multiset(Mantidas(linhas))[l] == if Mantida(l) then multiset(linhas)[l] else 0
    decreases |linhas|
  {
    if linhas != [] {
      var ultima := linhas[|linhas| - 1];
      MantidasCompleta(linhas[..|linhas| - 1]);
      assert linhas == linhas[..|linhas| - 1] + [ultima];
    }
  }

  /** Why a formset is refused. */
  datatype ErroFormset =
    | LinhaObrigatoria(linha: nat)
    | ProdutoInvalido(linha: nat)
    | LinhaInvalida(linha: nat, erro: ErroQtd)
    | PoucasLinhas(mantidas: nat)

  /**
   * formset.is_valid(): the first MinimoLinhas forms may not be left blank
   * (min_num forms are built with empty_permitted off, so a blank one fails
   * its required fields); every kept line names a product on offer and
   * passes clean_qtd against that product's current stock; there are at
   * least MinimoLinhas kept lines. The first offending line is reported.
   */
  function ValidarFormset(linhas: seq<LinhaForm>, estoque: map<ProdutoId, int>): (r: Outcome<ErroFormset>)
    ensures r.Pass? <==>
              && (forall i :: 0 <= i < |linhas| && i < MinimoLinhas ==> !linhas[i].Vazia?)
              && (forall i :: 0 <= i < |linhas| && Mantida(linhas[i]) ==>
                    && linhas[i].produto in estoque
                    && CleanQtd(Some(estoque[linhas[i].produto]), Some(linhas[i].qtd)).Ok?)
              && |Mantidas(linhas)| >= MinimoLinhas
    ensures r.Fail? && r.error.LinhaObrigatoria? ==>
              r.error.linha < |linhas| && r.error.linha < MinimoLinhas && linhas[r.error.linha].Vazia?
    ensures r.Fail? && r.error.ProdutoInvalido? ==>
              r.error.linha < |linhas| && Mantida(linhas[r.error.linha]) && linhas[r.error.linha].produto !in estoque
    ensures r.Fail? && r.error.LinhaInvalida? ==>
              r.error.linha < |linhas| && Mantida(linhas[r.error.linha])
              && linhas[r.error.linha].produto in estoque
              && linhas[r.error.linha].qtd > estoque[linhas[r.error.linha].produto]
  {
    match PrimeiraInvalida(linhas, estoque, 0)
    case Some(e) => Fail(e)
    case None =>
      if |Mantidas(linhas)| < MinimoLinhas then Fail(PoucasLinhas(|Mantidas(linhas)|)) else Pass
  }

  /** The first line, from position i on, that the form layer refuses. */
  function PrimeiraInvalida(linhas: seq<LinhaForm>, estoque: map<ProdutoId, int>, i: nat): (r: Option<ErroFormset>)
    requires i <= |linhas|
    ensures r.None? <==>
              && (forall k :: i <= k < |linhas| && k < MinimoLinhas ==> !linhas[k].Vazia?)
              && (forall k :: i <= k < |linhas| && Mantida(linhas[k]) ==>
                    && linhas[k].produto in estoque
                    && CleanQtd(Some(estoque[linhas[k].produto]), Some(linhas[k].qtd)).Ok?)
    ensures r.Some? ==> !r.value.PoucasLinhas?
    ensures r.Some? && r.value.LinhaObrigatoria? ==>
              i <= r.value.linha < |linhas| && r.value.linha < MinimoLinhas && linhas[r.value.linha].Vazia?
    ensures r.Some? && r.value.ProdutoInvalido? ==>
              i <= r.value.linha < |linhas| && Mantida(linhas[r.value.linha])
              && linhas[r.value.linha].produto !in estoque
    ensures r.Some? && r.value.LinhaInvalida? ==>
              i <= r.value.linha < |linhas| && Mantida(linhas[r.value.linha])
              && linhas[r.value.linha].produto in estoque
              && linhas[r.value.linha].qtd > estoque[linhas[r.value.linha].produto]
    decreases |linhas| - i
  {
    if i == |linhas| then None
    else if i < MinimoLinhas && linhas[i].Vazia? then Some(LinhaObrigatoria(i))
    else if !Mantida(linhas[i]) then PrimeiraInvalida(linhas, estoque, i + 1)
    else if linhas[i].produto !in estoque then Some(ProdutoInvalido(i))
    else
      match CleanQtd(Some(estoque[linhas[i].produto]), Some(linhas[i].qtd))
      case Err(e) => Some(LinhaInvalida(i, e))
      case Ok(_) => PrimeiraInvalida(linhas, estoque, i + 1)
  }

  /** A quantity equal to the stock passes the pre-check; one unit more does not. */
  lemma CleanQtdLimite(estoque: int)
    requires estoque >= 0
    ensures CleanQtd(Some(estoque), Some(estoque)) == Ok(Some(estoque))
    ensures CleanQtd(Some(estoque), Some(estoque + 1)).Err?
  {
  }

  /**
   * A blank first form is refused even when a later line is filled: the
   * first form is one of the min_num forms and its fields are required.
   */
  lemma PrimeiraEmBranco(estoque: map<ProdutoId, int>, linha: LinhaForm)
    requires Mantida(linha) && linha.produto in estoque
    ensures ValidarFormset([Vazia, linha], estoque) == Fail(LinhaObrigatoria(0))
  {
  }

  /** Without a product, or with qtd 0 or missing, no stock check runs. */
  lemma CleanQtdSemVerificacao(estoque: Option<int>, qtd: Option<int>)
    requires estoque.None? || qtd.None? || qtd == Some(0)
    ensures CleanQtd(estoque, qtd) == Ok(qtd)
  {
  }
}
