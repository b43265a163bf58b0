/**
 * The domain services of the monthly closing (financeiro_core/domain/services.py):
 * card fees per sale group, net revenue, and the operating result of a
 * store's month. The fee and expense repositories are the interfaces the
 * services are given; here they are function parameters.
 */
module Services {

  import opened Wrappers
  import opened Money

  /** One group of sales read from the sales system: payment type, card brand, installments, gross amount. */
  datatype FaturamentoItem = FaturamentoItem(tipoPagamento: string, bandeira: string, parcelas: int, valorBruto: real)

  /** The fee configured for one kind of transaction: a percentage and a fixed amount. */
  datatype TaxaAplicavel = TaxaAplicavel(percentual: real, valorFixo: real)

  /** The three totals `calcular_liquido_vendas` returns. */
  datatype ResumoReceita = ResumoReceita(totalBruto: real, totalTaxas: real, receitaLiquida: real)

  /** The closing's result, without its audit snapshot. */
  datatype ResultadoFechamento = ResultadoFechamento(
    faturamentoBruto: real,
    totalTaxas: real,
    receitaLiquida: real,
    despesasTotais: real,
    resultadoFinal: real)

  /** `buscar_taxa(loja_id, tipo, bandeira, parcelas)`: the applicable fee, if any. */
  type RepositorioTaxas = (int, string, string, int) -> Option<TaxaAplicavel>

  /** `somar_despesas_competencia(loja_id, mes, ano)`: the month's expenses. */
  type RepositorioDespesas = (int, int, int) -> real

  /** The fee charged on one sale group: amount times percentage over 100 plus the fixed fee, rounded to cents. */
  function CustoItem(valor: real, taxa: TaxaAplicavel): (r: real)
    ensures HasTwoDecimals(r)
  {
    var percentualDecimal := taxa.percentual / 100.0;
    Round2(valor * percentualDecimal + taxa.valorFixo)
  }

  /** The fee an item contributes: its rounded cost when a fee applies, nothing otherwise. */
  function TaxaDoItem(item: FaturamentoItem, repo: RepositorioTaxas, lojaId: int): real
  {
    match repo(lojaId, item.tipoPagamento, item.bandeira, item.parcelas)
    case None => 0.0
    case Some(taxa) => CustoItem(item.valorBruto, taxa)
  }

  /** The unrounded sum of every item's gross amount. */
  function SomaBruta(itens: seq<FaturamentoItem>): real
  {
    if |itens| == 0 then 0.0 else SomaBruta(itens[..|itens| - 1]) + itens[|itens| - 1].valorBruto
  }

  /** The sum of the per-item fees; every term is in cents, hence so is the sum. */
  function SomaTaxas(itens: seq<FaturamentoItem>, repo: RepositorioTaxas, lojaId: int): (r: real)
    ensures HasTwoDecimals(r)
  {
    if |itens| == 0 then 0.0
    else
      var anterior := SomaTaxas(itens[..|itens| - 1], repo, lojaId);
      var custo := TaxaDoItem(itens[|itens| - 1], repo, lojaId);
      TwoDecimalsClosed(anterior, custo);
      anterior + custo
  }

  /**
   * `calcular_liquido_vendas`: accumulates the gross amounts and the per-item
   * rounded fees, then rounds both totals; the net is their difference.
   * The final rounding of the fee total changes nothing.
   */
  method CalcularLiquidoVendas(itens: seq<FaturamentoItem>, repo: RepositorioTaxas, lojaId: int)
    returns (r: ResumoReceita)
    ensures r.totalBruto == Round2(SomaBruta(itens))
    ensures r.totalTaxas == SomaTaxas(itens, repo, lojaId)
    ensures r.receitaLiquida == r.totalBruto - r.totalTaxas
    ensures HasTwoDecimals(r.totalBruto) && HasTwoDecimals(r.totalTaxas) && HasTwoDecimals(r.receitaLiquida)
  {
    var totalBruto := 0.0;
    var totalTaxas := 0.0;
    var i := 0;
    while i < |itens|
      invariant 0 <= i <= |itens|
      invariant totalBruto == SomaBruta(itens[..i])
      invariant totalTaxas == SomaTaxas(itens[..i], repo, lojaId)
    {
      var item := itens[i];
      assert itens[..i + 1][..i] == itens[..i];
      totalBruto := totalBruto + item.valorBruto;
      var taxa := repo(lojaId, item.tipoPagamento, item.bandeira, item.parcelas);
      if taxa.Some? {
        var custoItem := CustoItem(item.valorBruto, taxa.value);
        totalTaxas := totalTaxas + custoItem;
      }
      assert itens[..i + 1][i] == item;
      i := i + 1;
    }
    assert itens[..i] == itens;
    Round2Idempotent(totalTaxas);
    totalBruto := Round2(totalBruto);
    totalTaxas := Round2(totalTaxas);
    TwoDecimalsClosed(totalBruto, totalTaxas);
    r := ResumoReceita(totalBruto, totalTaxas, totalBruto - totalTaxas);
  }

  /**
   * `ProcessadorFechamento.executar_fechamento`: the revenue totals from
   * CalcularLiquidoVendas, the rounded expense sum from the repository, and
   * the operating result = net revenue - expenses = gross - fees - expenses.
   */
  method ExecutarFechamento(
    repoTaxas: RepositorioTaxas,
    repoDespesas: RepositorioDespesas,
    lojaId: int,
    mes: int,
    ano: int,
    dadosVendas: seq<FaturamentoItem>)
    returns (r: ResultadoFechamento)
    ensures r.faturamentoBruto == Round2(SomaBruta(dadosVendas))
    ensures r.totalTaxas == SomaTaxas(dadosVendas, repoTaxas, lojaId)
    ensures r.receitaLiquida == r.faturamentoBruto - r.totalTaxas
    ensures r.despesasTotais == Round2(repoDespesas(lojaId, mes, ano))
    ensures r.resultadoFinal == r.receitaLiquida - r.despesasTotais
    ensures r.resultadoFinal == r.faturamentoBruto - r.totalTaxas - r.despesasTotais
    ensures HasTwoDecimals(r.resultadoFinal)
  {
    var calculoReceita := CalcularLiquidoVendas(dadosVendas, repoTaxas, lojaId);
    var despesasRaw := repoDespesas(lojaId, mes, ano);
    var totalDespesas := Round2(despesasRaw);
    var resultadoOperacional := calculoReceita.receitaLiquida - totalDespesas;
    TwoDecimalsClosed(calculoReceita.receitaLiquida, totalDespesas);
    r := ResultadoFechamento(
      calculoReceita.totalBruto,
      calculoReceita.totalTaxas,
      calculoReceita.receitaLiquida,
      totalDespesas,
      resultadoOperacional);
  }

  /** Items for which no fee applies contribute nothing: with no fee anywhere the fee total is zero. */
  lemma {:induction false} SemTaxaNenhumCusto(itens: seq<FaturamentoItem>, repo: RepositorioTaxas, lojaId: int)
    requires forall i :: 0 <= i < |itens| ==>
      repo(lojaId, itens[i].tipoPagamento, itens[i].bandeira, itens[i].parcelas).None?
    ensures SomaTaxas(itens, repo, lojaId) == 0.0
  {
    if |itens| > 0 {
      SemTaxaNenhumCusto(itens[..|itens| - 1], repo, lojaId);
    }
  }

  /** The fee total of a concatenation is the sum of the fee totals. */
  lemma {:induction false} SomaTaxasConcat(a: seq<FaturamentoItem>, b: seq<FaturamentoItem>, repo: RepositorioTaxas, lojaId: int)
    ensures SomaTaxas(a + b, repo, lojaId) == SomaTaxas(a, repo, lojaId) + SomaTaxas(b, repo, lojaId)
    decreases |b|
  {
    if |b| == 0 {
      assert a + b == a;
    } else {
      assert (a + b)[..|a + b| - 1] == a + b[..|b| - 1];
      SomaTaxasConcat(a, b[..|b| - 1], repo, lojaId);
    }
  }

  /**
   * Fees are rounded item by item, not once on the total: two sales of 1.00
   * at 0.5% cost 0.01 each, 0.02 in all, where rounding the exact total
   * (0.01) would give 0.01.
   */
  lemma ArredondamentoPorItem()
    ensures var repo: RepositorioTaxas := (l, t, b, p) => Some(TaxaAplicavel(0.5, 0.0));
      var itens := [FaturamentoItem("DEBITO", "GERAL", 1, 1.0), FaturamentoItem("DEBITO", "GERAL", 1, 1.0)];
      SomaTaxas(itens, repo, 1) == 0.02 && Round2(1.0 * 0.5 / 100.0 * 2.0) == 0.01
  {
    Round2Unique(0.005, 0.01);
    Round2Unique(0.01, 0.01);
    var repo: RepositorioTaxas := (l, t, b, p) => Some(TaxaAplicavel(0.5, 0.0));
    var itens := [FaturamentoItem("DEBITO", "GERAL", 1, 1.0), FaturamentoItem("DEBITO", "GERAL", 1, 1.0)];
    assert itens[..1][..0] == [];
    assert SomaTaxas(itens[..1], repo, 1) == 0.01;
  }
}
