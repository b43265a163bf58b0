/**
 * The persisted entities of the financial app
 * (financeiro_core/app/models/entidades.py): rows as values, with the
 * field defaults of their declarations, the net-amount rule applied by
 * `ContaPagar.save`, and the uniqueness constraints of their `Meta` classes.
 * The tables that hold these rows are in the Endpoints module.
 */
module Entidades {

  import opened Wrappers
  import opened Money

  /** A calendar date; only the year and month of a competence date are ever compared. */
  datatype Data = Data(ano: int, mes: int, dia: int)

  /** `CategoriaDespesa`: an expense category, active unless switched off. */
  datatype CategoriaDespesa = CategoriaDespesa(id: int, nome: string, codigoContabil: Option<string>, ativa: bool)

  /** `Fornecedor`: a supplier. */
  datatype Fornecedor = Fornecedor(id: int, razaoSocial: string, cnpjCpf: string)

  /** `PerfilTaxaCartao`: a card-fee contract of one store. */
  datatype PerfilTaxaCartao = PerfilTaxaCartao(
    id: int,
    nome: string,
    lojaIdExterno: int,
    dataInicioVigencia: Data,
    dataFimVigencia: Option<Data>,
    ativo: bool)

  /** `TaxaMaquininha`: one fee line of a profile, for a payment type, a brand and an instalment range. */
  datatype TaxaMaquininha = TaxaMaquininha(
    id: int,
    perfilId: int,
    tipo: string,
    bandeira: string,
    parcelaInicial: int,
    parcelaFinal: int,
    taxaPercentual: real,
    taxaFixa: real,
    diasParaRecebimento: int)

  /** The declared choices of `ContaPagar.status`. */
  datatype StatusConta = PREVISTO | PAGO | ATRASADO | CANCELADO

  /** `ContaPagar`: an expense (account payable) of a store. */
  datatype ContaPagar = ContaPagar(
    id: int,
    descricao: string,
    lojaIdExterno: int,
    fornecedorId: Option<int>,
    categoriaId: int,
    valorBruto: real,
    valorDesconto: real,
    valorAcrescimo: real,
    valorLiquido: real,
    dataCompetencia: Data,
    dataVencimento: Data,
    status: StatusConta)

  /** The declared choices of `FechamentoMensal.status`. */
  datatype StatusFechamento = ABERTO | CONCLUIDO

  /** `FechamentoMensal`: the stored closing of a store's month, without its audit snapshot. */
  datatype FechamentoMensal = FechamentoMensal(
    id: int,
    lojaIdExterno: int,
    mes: int,
    ano: int,
    faturamentoBruto: real,
    totalTaxas: real,
    receitaLiquida: real,
    totalDespesas: real,
    resultadoOperacional: real,
    status: StatusFechamento)

  /** A new category; `ativa` defaults to true. */
  function NovaCategoria(id: int, nome: string, codigoContabil: Option<string> := None, ativa: bool := true): CategoriaDespesa
  {
    CategoriaDespesa(id, nome, codigoContabil, ativa)
  }

  /** A new fee line; the brand defaults to GERAL, the instalment range to 1..1, the fixed fee to 0 and the settlement delay to 1 day. */
  function NovaTaxa(
    id: int, perfilId: int, tipo: string, taxaPercentual: real,
    bandeira: string := "GERAL", parcelaInicial: int := 1, parcelaFinal: int := 1,
    taxaFixa: real := 0.0, diasParaRecebimento: int := 1): TaxaMaquininha
  {
    TaxaMaquininha(id, perfilId, tipo, bandeira, parcelaInicial, parcelaFinal, taxaPercentual, taxaFixa, diasParaRecebimento)
  }

  /** The declared defaults: a category is active, a fee line is for brand GERAL, instalments 1..1, no fixed fee. */
  lemma PadroesDeCadastro(id: int, nome: string, perfilId: int, tipo: string, taxaPercentual: real)
    ensures NovaCategoria(id, nome).ativa
    ensures var t := NovaTaxa(id, perfilId, tipo, taxaPercentual);
      t.bandeira == "GERAL" && t.parcelaInicial == 1 && t.parcelaFinal == 1 && t.taxaFixa == 0.0 && t.diasParaRecebimento == 1
  {
  }

  /**
   * `ContaPagar.save`: the net amount is recomputed from the gross amount,
   * the discount and the surcharge before the row is stored; every other
   * field is kept.
   */
  function Salvar(c: ContaPagar): (r: ContaPagar)
    ensures r.valorLiquido == r.valorBruto - r.valorDesconto + r.valorAcrescimo
    ensures r.(valorLiquido := c.valorLiquido) == c
  {
    c.(valorLiquido := c.valorBruto - c.valorDesconto + c.valorAcrescimo)
  }

  /** Saving twice is saving once. */
  lemma SalvarIdempotente(c: ContaPagar)
    ensures Salvar(Salvar(c)) == Salvar(c)
  {
  }

  /** Amounts in cents give a net amount in cents, as the two-place decimal column needs. */
  lemma SalvarEmCentavos(c: ContaPagar)
    requires HasTwoDecimals(c.valorBruto) && HasTwoDecimals(c.valorDesconto) && HasTwoDecimals(c.valorAcrescimo)
    ensures HasTwoDecimals(Salvar(c).valorLiquido)
  {
    TwoDecimalsClosed(c.valorBruto, c.valorDesconto);
    TwoDecimalsClosed(c.valorBruto - c.valorDesconto, c.valorAcrescimo);
  }

  /** The net rule of a stored row. */
  predicate LiquidoConsistente(c: ContaPagar)
  {
    c.valorLiquido == c.valorBruto - c.valorDesconto + c.valorAcrescimo
  }

  /**
   * `ContaPagar.objects.create(...)`: a new row with the field defaults
   * (no discount, no surcharge, status PREVISTO), stored through `save`.
   */
  function NovaContaPagar(
    id: int, descricao: string, lojaIdExterno: int, fornecedorId: Option<int>, categoriaId: int,
    valorBruto: real, dataCompetencia: Data, dataVencimento: Data,
    valorDesconto: real := 0.0, valorAcrescimo: real := 0.0, status: StatusConta := PREVISTO): (r: ContaPagar)
    ensures LiquidoConsistente(r)
    ensures r.id == id && r.descricao == descricao && r.lojaIdExterno == lojaIdExterno
    ensures r.fornecedorId == fornecedorId && r.categoriaId == categoriaId
    ensures r.valorBruto == valorBruto && r.valorDesconto == valorDesconto && r.valorAcrescimo == valorAcrescimo
    ensures r.dataCompetencia == dataCompetencia && r.dataVencimento == dataVencimento && r.status == status
  {
    // The net amount is not set before the first save; save computes it.
    Salvar(ContaPagar(id, descricao, lojaIdExterno, fornecedorId, categoriaId,
      valorBruto, valorDesconto, valorAcrescimo, 0.0, dataCompetencia, dataVencimento, status))
  }

  /** With the defaults, a new expense is PREVISTO and its net amount equals its gross amount. */
  lemma NovaContaPagarPadrao(
    id: int, descricao: string, lojaIdExterno: int, fornecedorId: Option<int>, categoriaId: int,
    valorBruto: real, dataCompetencia: Data, dataVencimento: Data)
    ensures var c := NovaContaPagar(id, descricao, lojaIdExterno, fornecedorId, categoriaId, valorBruto, dataCompetencia, dataVencimento);
      c.valorLiquido == valorBruto && c.status == PREVISTO && c.valorDesconto == 0.0 && c.valorAcrescimo == 0.0
  {
  }

  /** The key of `FechamentoMensal`'s `unique_together`. */
  function ChaveFechamento(f: FechamentoMensal): (int, int, int)
  {
    (f.lojaIdExterno, f.mes, f.ano)
  }

  /** At most one closing per (store, month, year). */
  predicate FechamentosUnicos(fs: seq<FechamentoMensal>)
  {
    forall i, j :: 0 <= i < j < |fs| ==> ChaveFechamento(fs[i]) != ChaveFechamento(fs[j])
  }

  /** The key of `TaxaMaquininha`'s `unique_together`. */
  function ChaveTaxa(t: TaxaMaquininha): (int, string, string, int, int)
  {
    (t.perfilId, t.tipo, t.bandeira, t.parcelaInicial, t.parcelaFinal)
  }

  /** At most one fee line per (profile, type, brand, first instalment, last instalment). */
  predicate TaxasUnicas(ts: seq<TaxaMaquininha>)
  {
    forall i, j :: 0 <= i < j < |ts| ==> ChaveTaxa(ts[i]) != ChaveTaxa(ts[j])
  }

  /** `Fornecedor.cnpj_cpf` is unique. */
  predicate FornecedoresUnicos(fs: seq<Fornecedor>)
  {
    forall i, j :: 0 <= i < j < |fs| ==> fs[i].cnpjCpf != fs[j].cnpjCpf
  }
}
