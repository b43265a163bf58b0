/**
 * The financial API (financeiro_core/app/api/endpoints.py): the two
 * repositories the closing service is given, and the category, fee-profile,
 * expense and closing endpoints over the app's tables. Each table is a
 * sequence of rows in primary-key order inside the class Banco; a query's
 * `.first()` is the first matching row in that order.
 */
module Endpoints {

  import opened Wrappers
  import opened Text
  import opened Money
  import opened Entidades
  import opened Services
  import opened VendasClient
  import opened Http

  /** The `detail` of `get_object_or_404`'s error when `DEBUG` is off; with `DEBUG` on the exception text follows it. */
  const NAO_ENCONTRADO := "Not Found"

  // ---------------------------------------------------------------------------
  // Queries over a table
  // ---------------------------------------------------------------------------

  /** The rows of `s` that satisfy `p`, in table order (`.filter(...)`). */
  function Filtrar<T(!new)>(s: seq<T>, p: T -> bool): (r: seq<T>)
    ensures |r| <= |s|
    ensures forall x :: x in r <==> x in s && p(x)
    decreases |s|
  {
    if |s| == 0 then []
    else Filtrar(s[..|s| - 1], p) + (if p(s[|s| - 1]) then [s[|s| - 1]] else [])
  }

  /** The position of the first row of `s` that satisfies `p` (`.first()`), if there is one. */
  function PrimeiroIndice<T>(s: seq<T>, p: T -> bool): (r: Option<nat>)
    ensures r.Some? ==> r.value < |s| && p(s[r.value]) && forall j :: 0 <= j < r.value ==> !p(s[j])
    ensures r.None? <==> forall j :: 0 <= j < |s| ==> !p(s[j])
    decreases |s|
  {
    if |s| == 0 then None
    else
      var anterior := PrimeiroIndice(s[..|s| - 1], p);
      if anterior.Some? then anterior
      else if p(s[|s| - 1]) then Some(|s| - 1)
      else None
  }

  // ---------------------------------------------------------------------------
  // DjangoRepositorioTaxas.buscar_taxa
  // ---------------------------------------------------------------------------

  /** The profile `perfilId` exists, belongs to the store and is active (`perfil__loja_id_externo`, `perfil__ativo`). */
  predicate PerfilAtivoDaLoja(perfis: seq<PerfilTaxaCartao>, perfilId: int, lojaId: int)
  {
    exists i :: 0 <= i < |perfis| && perfis[i].id == perfilId && perfis[i].lojaIdExterno == lojaId && perfis[i].ativo
  }

  /** The fee line `t` is for an active profile of the store, the payment type and the brand. */
  predicate CasaTaxa(perfis: seq<PerfilTaxaCartao>, t: TaxaMaquininha, lojaId: int, tipo: string, bandeira: string)
  {
    PerfilAtivoDaLoja(perfis, t.perfilId, lojaId) && t.tipo == tipo && t.bandeira == bandeira
  }

  /** The first fee line for the store, the type and the brand. */
  function PrimeiraTaxa(perfis: seq<PerfilTaxaCartao>, taxas: seq<TaxaMaquininha>, lojaId: int, tipo: string, bandeira: string): Option<nat>
  {
    PrimeiroIndice(taxas, (t: TaxaMaquininha) => CasaTaxa(perfis, t, lojaId, tipo, bandeira))
  }

  /** The fee DTO built from a fee line. */
  function TaxaDe(t: TaxaMaquininha): TaxaAplicavel
  {
    TaxaAplicavel(t.taxaPercentual, t.taxaFixa)
  }

  /**
   * `buscar_taxa`: the first line for the exact brand; failing that, the
   * first line for brand GERAL; failing that, none. The instalment count
   * is not consulted.
   */
  function BuscarTaxa(perfis: seq<PerfilTaxaCartao>, taxas: seq<TaxaMaquininha>, lojaId: int, tipo: string, bandeira: string, parcelas: int): (r: Option<TaxaAplicavel>)
    ensures r.Some? <==>
      (exists i :: 0 <= i < |taxas| && CasaTaxa(perfis, taxas[i], lojaId, tipo, bandeira))
      || (exists i :: 0 <= i < |taxas| && CasaTaxa(perfis, taxas[i], lojaId, tipo, "GERAL"))
    ensures r.Some? ==> exists i :: (0 <= i < |taxas| && r.value == TaxaDe(taxas[i])
      && PerfilAtivoDaLoja(perfis, taxas[i].perfilId, lojaId) && taxas[i].tipo == tipo
      && (taxas[i].bandeira == bandeira || taxas[i].bandeira == "GERAL"))
  {
    var exata := PrimeiraTaxa(perfis, taxas, lojaId, tipo, bandeira);
    if exata.Some? then Some(TaxaDe(taxas[exata.value]))
    else
      var geral := PrimeiraTaxa(perfis, taxas, lojaId, tipo, "GERAL");
      if geral.Some? then Some(TaxaDe(taxas[geral.value]))
      else None
  }

  /** A line for the exact brand is preferred: the first such line is the answer. */
  lemma BuscarTaxaPrefereExata(perfis: seq<PerfilTaxaCartao>, taxas: seq<TaxaMaquininha>, lojaId: int, tipo: string, bandeira: string, parcelas: int, i: int)
    requires 0 <= i < |taxas| && CasaTaxa(perfis, taxas[i], lojaId, tipo, bandeira)
    requires forall j :: 0 <= j < i ==> !CasaTaxa(perfis, taxas[j], lojaId, tipo, bandeira)
    ensures BuscarTaxa(perfis, taxas, lojaId, tipo, bandeira, parcelas) == Some(TaxaDe(taxas[i]))
  {
    var exata := PrimeiraTaxa(perfis, taxas, lojaId, tipo, bandeira);
    assert exata.Some?;
    assert exata.value == i;
  }

  /** Without a line for the exact brand, the first GERAL line is the answer. */
  lemma BuscarTaxaRecorreAGeral(perfis: seq<PerfilTaxaCartao>, taxas: seq<TaxaMaquininha>, lojaId: int, tipo: string, bandeira: string, parcelas: int, i: int)
    requires forall j :: 0 <= j < |taxas| ==> !CasaTaxa(perfis, taxas[j], lojaId, tipo, bandeira)
    requires 0 <= i < |taxas| && CasaTaxa(perfis, taxas[i], lojaId, tipo, "GERAL")
    requires forall j :: 0 <= j < i ==> !CasaTaxa(perfis, taxas[j], lojaId, tipo, "GERAL")
    ensures BuscarTaxa(perfis, taxas, lojaId, tipo, bandeira, parcelas) == Some(TaxaDe(taxas[i]))
  {
    var geral := PrimeiraTaxa(perfis, taxas, lojaId, tipo, "GERAL");
    assert geral.Some?;
    assert geral.value == i;
  }

  /** The instalment count never changes the fee found. */
  lemma BuscarTaxaIgnoraParcelas(perfis: seq<PerfilTaxaCartao>, taxas: seq<TaxaMaquininha>, lojaId: int, tipo: string, bandeira: string, p1: int, p2: int)
    ensures BuscarTaxa(perfis, taxas, lojaId, tipo, bandeira, p1) == BuscarTaxa(perfis, taxas, lojaId, tipo, bandeira, p2)
  {
  }

  /** `DjangoRepositorioTaxas` over the given tables, as the closing service sees it. */
  function RepoTaxas(perfis: seq<PerfilTaxaCartao>, taxas: seq<TaxaMaquininha>): RepositorioTaxas
  {
    (l, t, b, p) => BuscarTaxa(perfis, taxas, l, t, b, p)
  }

  // ---------------------------------------------------------------------------
  // DjangoRepositorioDespesas.somar_despesas_competencia
  // ---------------------------------------------------------------------------

  /** The expense belongs to the store and its competence date falls in the month. */
  predicate DaCompetencia(d: ContaPagar, lojaId: int, mes: int, ano: int)
  {
    d.lojaIdExterno == lojaId && d.dataCompetencia.mes == mes && d.dataCompetencia.ano == ano
  }

  /** The sum of the net amounts of a list of expenses. */
  function SomaLiquidos(ds: seq<ContaPagar>): real
    decreases |ds|
  {
    if |ds| == 0 then 0.0 else SomaLiquidos(ds[..|ds| - 1]) + ds[|ds| - 1].valorLiquido
  }

  /** The month's expenses that count towards the closing: those of the competence that are not CANCELADO. */
  function DespesasDaCompetencia(despesas: seq<ContaPagar>, lojaId: int, mes: int, ano: int): seq<ContaPagar>
  {
    Filtrar(despesas, (d: ContaPagar) => DaCompetencia(d, lojaId, mes, ano) && d.status != CANCELADO)
  }

  /**
   * `somar_despesas_competencia`: the sum of the net amounts of the
   * store's non-cancelled expenses of the month; an empty sum is 0.
   */
  function SomarDespesasCompetencia(despesas: seq<ContaPagar>, lojaId: int, mes: int, ano: int): (r: real)
    ensures (forall i :: 0 <= i < |despesas| ==> !DaCompetencia(despesas[i], lojaId, mes, ano) || despesas[i].status == CANCELADO) ==> r == 0.0
  {
    var selecionadas := DespesasDaCompetencia(despesas, lojaId, mes, ano);
    if |selecionadas| == 0 then 0.0
    else
      assert selecionadas[0] in despesas && DaCompetencia(selecionadas[0], lojaId, mes, ano) && selecionadas[0].status != CANCELADO;
      SomaLiquidos(selecionadas)
  }

  /** A cancelled expense never changes the month's sum. */
  lemma SomarIgnoraCancelada(despesas: seq<ContaPagar>, d: ContaPagar, lojaId: int, mes: int, ano: int)
    requires d.status == CANCELADO
    ensures SomarDespesasCompetencia(despesas + [d], lojaId, mes, ano) == SomarDespesasCompetencia(despesas, lojaId, mes, ano)
  {
    assert (despesas + [d])[..|despesas|] == despesas;
    assert DespesasDaCompetencia(despesas + [d], lojaId, mes, ano) == DespesasDaCompetencia(despesas, lojaId, mes, ano);
  }

  /** An expense of another store, month or year never changes the month's sum, whatever its status. */
  lemma SomarIgnoraOutraCompetencia(despesas: seq<ContaPagar>, d: ContaPagar, lojaId: int, mes: int, ano: int)
    requires !DaCompetencia(d, lojaId, mes, ano)
    ensures SomarDespesasCompetencia(despesas + [d], lojaId, mes, ano) == SomarDespesasCompetencia(despesas, lojaId, mes, ano)
  {
    assert (despesas + [d])[..|despesas|] == despesas;
    assert DespesasDaCompetencia(despesas + [d], lojaId, mes, ano) == DespesasDaCompetencia(despesas, lojaId, mes, ano);
  }

  /** A counted expense adds its net amount to the month's sum. */
  lemma SomarIncluiDaCompetencia(despesas: seq<ContaPagar>, d: ContaPagar, lojaId: int, mes: int, ano: int)
    requires d.status != CANCELADO && DaCompetencia(d, lojaId, mes, ano)
    ensures SomarDespesasCompetencia(despesas + [d], lojaId, mes, ano) == SomarDespesasCompetencia(despesas, lojaId, mes, ano) + d.valorLiquido
  {
    assert (despesas + [d])[..|despesas|] == despesas;
    var a := DespesasDaCompetencia(despesas, lojaId, mes, ano);
    var b := DespesasDaCompetencia(despesas + [d], lojaId, mes, ano);
    assert b == a + [d];
    assert (a + [d])[..|a|] == a;
  }

  /** `DjangoRepositorioDespesas` over the given table, as the closing service sees it. */
  function RepoDespesas(despesas: seq<ContaPagar>): RepositorioDespesas
  {
    (l, m, a) => SomarDespesasCompetencia(despesas, l, m, a)
  }

  // ---------------------------------------------------------------------------
  // The listing filters
  // ---------------------------------------------------------------------------

  predicate Ativa(c: CategoriaDespesa)
  {
    c.ativa
  }

  /** `listar_despesas`' filter: by store when `loja_id` is truthy, by competence when both `mes` and `ano` are. */
  function ListagemDespesas(despesas: seq<ContaPagar>, lojaId: Option<int>, mes: Option<int>, ano: Option<int>): (r: seq<ContaPagar>)
    ensures forall d :: d in r <==>
      && d in despesas
      && (Truthy(lojaId) ==> d.lojaIdExterno == lojaId.value)
      && (Truthy(mes) && Truthy(ano) ==> d.dataCompetencia.mes == mes.value && d.dataCompetencia.ano == ano.value)
  {
    var porLoja := if Truthy(lojaId) then Filtrar(despesas, (d: ContaPagar) => d.lojaIdExterno == lojaId.value) else despesas;
    if Truthy(mes) && Truthy(ano) then Filtrar(porLoja, (d: ContaPagar) => d.dataCompetencia.mes == mes.value && d.dataCompetencia.ano == ano.value)
    else porLoja
  }

  /** A month without a year (or a year without a month) filters nothing. */
  lemma ListagemMesSemAno(despesas: seq<ContaPagar>, lojaId: Option<int>, mes: Option<int>)
    ensures ListagemDespesas(despesas, lojaId, mes, None) == ListagemDespesas(despesas, lojaId, None, None)
    ensures ListagemDespesas(despesas, lojaId, None, mes) == ListagemDespesas(despesas, lojaId, None, None)
  {
  }

  /** The response of `listar_perfis_taxas`: a profile with its fee lines. */
  datatype PerfilTaxaOut = PerfilTaxaOut(perfil: PerfilTaxaCartao, taxas: seq<TaxaMaquininha>)

  /** The fee lines of one profile (`obj.taxas.all()`). */
  function TaxasDoPerfil(taxas: seq<TaxaMaquininha>, perfilId: int): (r: seq<TaxaMaquininha>)
    ensures forall t :: t in r <==> t in taxas && t.perfilId == perfilId
  {
    Filtrar(taxas, (t: TaxaMaquininha) => t.perfilId == perfilId)
  }

  // ---------------------------------------------------------------------------
  // Payloads
  // ---------------------------------------------------------------------------

  /** `DespesaIn`: the body of an expense create or edit. */
  datatype DespesaIn = DespesaIn(
    descricao: string,
    lojaId: int,
    categoriaId: int,
    valor: real,
    dataCompetencia: Data,
    dataVencimento: Data,
    fornecedorId: Option<int>)

  /** The supplier an expense is linked to: the given id when truthy, none otherwise. */
  function FornecedorEfetivo(fornecedorId: Option<int>): Option<int>
  {
    if Truthy(fornecedorId) then fornecedorId else None
  }

  // ---------------------------------------------------------------------------
  // Table invariants
  // ---------------------------------------------------------------------------

  predicate CategoriaExiste(categorias: seq<CategoriaDespesa>, id: int)
  {
    exists i :: 0 <= i < |categorias| && categorias[i].id == id
  }

  predicate FornecedorExiste(fornecedores: seq<Fornecedor>, id: int)
  {
    exists i :: 0 <= i < |fornecedores| && fornecedores[i].id == id
  }

  function IndiceCategoria(categorias: seq<CategoriaDespesa>, id: int): (r: Option<nat>)
    ensures r.Some? ==> r.value < |categorias| && categorias[r.value].id == id
    ensures r.None? <==> !CategoriaExiste(categorias, id)
  {
    PrimeiroIndice(categorias, (c: CategoriaDespesa) => c.id == id)
  }

  function IndiceDespesa(despesas: seq<ContaPagar>, id: int): (r: Option<nat>)
    ensures r.Some? ==> r.value < |despesas| && despesas[r.value].id == id
    ensures r.None? <==> forall i :: 0 <= i < |despesas| ==> despesas[i].id != id
  {
    PrimeiroIndice(despesas, (d: ContaPagar) => d.id == id)
  }

  function IndiceFechamento(fechamentos: seq<FechamentoMensal>, lojaId: int, mes: int, ano: int): (r: Option<nat>)
    ensures r.Some? ==> r.value < |fechamentos| && ChaveFechamento(fechamentos[r.value]) == (lojaId, mes, ano)
    ensures r.None? <==> forall i :: 0 <= i < |fechamentos| ==> ChaveFechamento(fechamentos[i]) != (lojaId, mes, ano)
  {
    PrimeiroIndice(fechamentos, (f: FechamentoMensal) => ChaveFechamento(f) == (lojaId, mes, ano))
  }

  /** Some expense references the category (`ContaPagar.objects.filter(categoria=cat).exists()`). */
  predicate TemDespesaDaCategoria(despesas: seq<ContaPagar>, categoriaId: int)
  {
    exists i :: 0 <= i < |despesas| && despesas[i].categoriaId == categoriaId
  }

  /** Primary keys: increasing in table order and below the next key to be issued. */
  predicate IdsCategorias(cs: seq<CategoriaDespesa>, proximo: int)
  {
    (forall i, j :: 0 <= i < j < |cs| ==> cs[i].id < cs[j].id) && forall i :: 0 <= i < |cs| ==> cs[i].id < proximo
  }

  predicate IdsDespesas(ds: seq<ContaPagar>, proximo: int)
  {
    (forall i, j :: 0 <= i < j < |ds| ==> ds[i].id < ds[j].id) && forall i :: 0 <= i < |ds| ==> ds[i].id < proximo
  }

  predicate IdsFechamentos(fs: seq<FechamentoMensal>, proximo: int)
  {
    (forall i, j :: 0 <= i < j < |fs| ==> fs[i].id < fs[j].id) && forall i :: 0 <= i < |fs| ==> fs[i].id < proximo
  }

  /** Every expense references an existing category and, when it has one, an existing supplier (both `PROTECT`). */
  predicate ReferenciasValidas(despesas: seq<ContaPagar>, categorias: seq<CategoriaDespesa>, fornecedores: seq<Fornecedor>)
  {
    forall i :: 0 <= i < |despesas| ==>
      CategoriaExiste(categorias, despesas[i].categoriaId)
      && (despesas[i].fornecedorId.Some? ==> FornecedorExiste(fornecedores, despesas[i].fornecedorId.value))
  }

  /** Removing the row at `k` keeps the table's keys increasing. */
  lemma IdsCategoriasRemocao(cs: seq<CategoriaDespesa>, proximo: int, k: int)
    requires IdsCategorias(cs, proximo) && 0 <= k < |cs|
    ensures IdsCategorias(cs[..k] + cs[k + 1..], proximo)
  {
    var r := cs[..k] + cs[k + 1..];
    assert forall i :: 0 <= i < |r| ==> r[i] == cs[if i < k then i else i + 1];
  }

  lemma IdsDespesasRemocao(ds: seq<ContaPagar>, proximo: int, k: int)
    requires IdsDespesas(ds, proximo) && 0 <= k < |ds|
    ensures IdsDespesas(ds[..k] + ds[k + 1..], proximo)
  {
    var r := ds[..k] + ds[k + 1..];
    assert forall i :: 0 <= i < |r| ==> r[i] == ds[if i < k then i else i + 1];
  }

  /**
   * Deleting a category no expense references keeps the keys increasing and
   * every reference intact, and the category is gone.
   */
  lemma RemocaoCategoria(cs: seq<CategoriaDespesa>, proximo: int, despesas: seq<ContaPagar>, fornecedores: seq<Fornecedor>, k: int)
    requires IdsCategorias(cs, proximo) && 0 <= k < |cs|
    requires ReferenciasValidas(despesas, cs, fornecedores) && !TemDespesaDaCategoria(despesas, cs[k].id)
    ensures var r := cs[..k] + cs[k + 1..];
      IdsCategorias(r, proximo) && ReferenciasValidas(despesas, r, fornecedores) && !CategoriaExiste(r, cs[k].id)
  {
    var r := cs[..k] + cs[k + 1..];
    IdsCategoriasRemocao(cs, proximo, k);
    assert forall i :: 0 <= i < |r| ==> r[i] == cs[if i < k then i else i + 1];
    forall i | 0 <= i < |r| ensures r[i].id != cs[k].id {
      var m := if i < k then i else i + 1;
      assert m != k;
    }
    forall i | 0 <= i < |despesas|
      ensures CategoriaExiste(r, despesas[i].categoriaId)
    {
      var m :| 0 <= m < |cs| && cs[m].id == despesas[i].categoriaId;
      assert m != k;
      var n := if m < k then m else m - 1;
      assert r[n] == cs[m];
    }
  }

  /** Overwriting a closing row in place, with its key and id kept, keeps the keys and the uniqueness. */
  lemma FechamentoSubstituido(fs: seq<FechamentoMensal>, proximo: int, k: int, f: FechamentoMensal)
    requires IdsFechamentos(fs, proximo) && FechamentosUnicos(fs) && 0 <= k < |fs|
    requires f.id == fs[k].id && ChaveFechamento(f) == ChaveFechamento(fs[k])
    ensures IdsFechamentos(fs[k := f], proximo) && FechamentosUnicos(fs[k := f])
  {
  }

  /** Appending a closing with the next key and a new (store, month, year) keeps the keys and the uniqueness. */
  lemma FechamentoAcrescentado(fs: seq<FechamentoMensal>, proximo: int, f: FechamentoMensal)
    requires IdsFechamentos(fs, proximo) && FechamentosUnicos(fs) && f.id == proximo
    requires forall i :: 0 <= i < |fs| ==> ChaveFechamento(fs[i]) != ChaveFechamento(f)
    ensures IdsFechamentos(fs + [f], proximo + 1) && FechamentosUnicos(fs + [f])
  {
    var r := fs + [f];
    assert forall i :: 0 <= i < |fs| ==> r[i] == fs[i];
  }

  /**
   * The app's tables. Rows are values; an endpoint that saves or deletes a
   * row replaces the table it lives in.
   */
  class Banco {
    var categorias: seq<CategoriaDespesa>
    var fornecedores: seq<Fornecedor>
    var perfis: seq<PerfilTaxaCartao>
    var taxas: seq<TaxaMaquininha>
    var despesas: seq<ContaPagar>
    var fechamentos: seq<FechamentoMensal>
    var proximoIdCategoria: int
    var proximoIdDespesa: int
    var proximoIdFechamento: int

    /** Keys in order and fresh, references intact, every stored expense saved through `save`, unique constraints kept. */
    ghost predicate Valid()
      reads this
    {
      && IdsCategorias(categorias, proximoIdCategoria)
      && IdsDespesas(despesas, proximoIdDespesa)
      && IdsFechamentos(fechamentos, proximoIdFechamento)
      && ReferenciasValidas(despesas, categorias, fornecedores)
      && (forall i :: 0 <= i < |despesas| ==> LiquidoConsistente(despesas[i]))
      && FechamentosUnicos(fechamentos)
      && TaxasUnicas(taxas)
      && FornecedoresUnicos(fornecedores)
    }

    /** An app database whose supplier and fee tables are given and whose other tables are empty. */
    constructor(fornecedores: seq<Fornecedor>, perfis: seq<PerfilTaxaCartao>, taxas: seq<TaxaMaquininha>)
      requires TaxasUnicas(taxas) && FornecedoresUnicos(fornecedores)
      ensures Valid()
      ensures this.fornecedores == fornecedores && this.perfis == perfis && this.taxas == taxas
      ensures categorias == [] && despesas == [] && fechamentos == []
    {
      this.fornecedores := fornecedores;
      this.perfis := perfis;
      this.taxas := taxas;
      categorias := [];
      despesas := [];
      fechamentos := [];
      proximoIdCategoria := 1;
      proximoIdDespesa := 1;
      proximoIdFechamento := 1;
    }

    // --- Categories ---

    /** `listar_categorias`: the active categories. */
    method ListarCategorias() returns (r: seq<CategoriaDespesa>)
      ensures r == Filtrar(categorias, Ativa)
      ensures forall c :: c in r <==> c in categorias && c.ativa
    {
      r := Filtrar(categorias, Ativa);
    }

    /** `criar_categoria`: a new category with the next key. */
    method CriarCategoria(nome: string, ativa: bool) returns (c: CategoriaDespesa)
      requires Valid()
      modifies this
      ensures Valid()
      ensures c == NovaCategoria(old(proximoIdCategoria), nome, None, ativa)
      ensures categorias == old(categorias) + [c] && proximoIdCategoria == old(proximoIdCategoria) + 1
      ensures !CategoriaExiste(old(categorias), c.id)
      ensures despesas == old(despesas) && fechamentos == old(fechamentos) && fornecedores == old(fornecedores)
      ensures perfis == old(perfis) && taxas == old(taxas)
      ensures proximoIdDespesa == old(proximoIdDespesa) && proximoIdFechamento == old(proximoIdFechamento)
    {
      c := NovaCategoria(proximoIdCategoria, nome, None, ativa);
      categorias := categorias + [c];
      proximoIdCategoria := proximoIdCategoria + 1;
      assert forall i :: 0 <= i < |old(categorias)| ==> categorias[i] == old(categorias)[i];
    }

    /** `editar_categoria`: 404 for an unknown key; otherwise the name and the active flag are replaced. */
    method EditarCategoria(categoriaId: int, nome: string, ativa: bool) returns (r: Result<CategoriaDespesa, HttpErro>)
      requires Valid()
      modifies this
      ensures Valid()
      ensures r.Err? <==> !CategoriaExiste(old(categorias), categoriaId)
      ensures r.Err? ==> r.error == HttpErro(404, NAO_ENCONTRADO) && categorias == old(categorias)
      ensures r.Ok? ==> var k := IndiceCategoria(old(categorias), categoriaId).value;
        r.value == old(categorias)[k].(nome := nome, ativa := ativa)
        && categorias == old(categorias)[k := r.value]
      ensures despesas == old(despesas) && fechamentos == old(fechamentos) && fornecedores == old(fornecedores)
      ensures perfis == old(perfis) && taxas == old(taxas)
      ensures proximoIdCategoria == old(proximoIdCategoria) && proximoIdDespesa == old(proximoIdDespesa)
      ensures proximoIdFechamento == old(proximoIdFechamento)
    {
      var k := IndiceCategoria(categorias, categoriaId);
      if k.None? {
        return Err(HttpErro(404, NAO_ENCONTRADO));
      }
      var cat := categorias[k.value].(nome := nome, ativa := ativa);
      categorias := categorias[k.value := cat];
      assert forall i :: 0 <= i < |categorias| ==> categorias[i].id == old(categorias)[i].id;
      assert ReferenciasValidas(despesas, categorias, fornecedores) by {
        forall i | 0 <= i < |despesas|
          ensures CategoriaExiste(categorias, despesas[i].categoriaId)
        {
          var m :| 0 <= m < |old(categorias)| && old(categorias)[m].id == despesas[i].categoriaId;
          assert categorias[m].id == despesas[i].categoriaId;
        }
      }
      r := Ok(cat);
    }

    /**
     * `excluir_categoria`: 404 for an unknown key; 400, keeping the
     * category, when an expense references it; otherwise it is removed.
     */
    method ExcluirCategoria(categoriaId: int) returns (r: Outcome<HttpErro>)
      requires Valid()
      modifies this
      ensures Valid()
      ensures !CategoriaExiste(old(categorias), categoriaId) ==> r == Fail(HttpErro(404, NAO_ENCONTRADO))
      ensures CategoriaExiste(old(categorias), categoriaId) && TemDespesaDaCategoria(despesas, categoriaId) ==>
        r == Fail(HttpErro(400, "N\U{E3}o \U{E9} poss\U{ED}vel excluir categoria com despesas vinculadas."))
      ensures r.Fail? ==> categorias == old(categorias)
      ensures r.Pass? <==> CategoriaExiste(old(categorias), categoriaId) && !TemDespesaDaCategoria(despesas, categoriaId)
      ensures r.Pass? ==> var k := IndiceCategoria(old(categorias), categoriaId).value;
        categorias == old(categorias)[..k] + old(categorias)[k + 1..] && !CategoriaExiste(categorias, categoriaId)
      ensures despesas == old(despesas) && fechamentos == old(fechamentos) && fornecedores == old(fornecedores)
      ensures perfis == old(perfis) && taxas == old(taxas)
      ensures proximoIdCategoria == old(proximoIdCategoria) && proximoIdDespesa == old(proximoIdDespesa)
      ensures proximoIdFechamento == old(proximoIdFechamento)
    {
      var k := IndiceCategoria(categorias, categoriaId);
      if k.None? {
        return Fail(HttpErro(404, NAO_ENCONTRADO));
      }
      if TemDespesaDaCategoria(despesas, categoriaId) {
        return Fail(HttpErro(400, "N\U{E3}o \U{E9} poss\U{ED}vel excluir categoria com despesas vinculadas."));
      }
      RemocaoCategoria(categorias, proximoIdCategoria, despesas, fornecedores, k.value);
      categorias := categorias[..k.value] + categorias[k.value + 1..];
      r := Pass;
    }

    // --- Fee profiles ---

    /** `listar_perfis_taxas`: the active profiles, of the store when `loja_id` is truthy, each with its fee lines. */
    method ListarPerfisTaxas(lojaId: Option<int>) returns (r: seq<PerfilTaxaOut>)
      ensures forall p :: (exists i :: 0 <= i < |r| && r[i].perfil == p) <==>
        p in perfis && p.ativo && (Truthy(lojaId) ==> p.lojaIdExterno == lojaId.value)
      ensures forall i :: 0 <= i < |r| ==> r[i].taxas == TaxasDoPerfil(taxas, r[i].perfil.id)
    {
      var qs := Filtrar(perfis, (p: PerfilTaxaCartao) => p.ativo);
      if Truthy(lojaId) {
        qs := Filtrar(qs, (p: PerfilTaxaCartao) => p.lojaIdExterno == lojaId.value);
      }
      assert forall p :: p in qs <==> p in perfis && p.ativo && (Truthy(lojaId) ==> p.lojaIdExterno == lojaId.value);
      r := [];
      for i := 0 to |qs|
        invariant |r| == i
        invariant forall j :: 0 <= j < i ==> r[j] == PerfilTaxaOut(qs[j], TaxasDoPerfil(taxas, qs[j].id))
      {
        r := r + [PerfilTaxaOut(qs[i], TaxasDoPerfil(taxas, qs[i].id))];
      }
      assert forall p :: (exists i :: 0 <= i < |r| && r[i].perfil == p) <==> p in qs by {
        forall p ensures (exists i :: 0 <= i < |r| && r[i].perfil == p) <==> p in qs {
          if p in qs {
            var i :| 0 <= i < |qs| && qs[i] == p;
            assert r[i].perfil == p;
          }
        }
      }
    }

    // --- Expenses ---

    /** `listar_despesas`: narrows the expense table by store, then by competence. */
    method ListarDespesas(lojaId: Option<int>, mes: Option<int>, ano: Option<int>) returns (qs: seq<ContaPagar>)
      ensures qs == ListagemDespesas(despesas, lojaId, mes, ano)
    {
      qs := despesas;
      if Truthy(lojaId) {
        qs := Filtrar(qs, (d: ContaPagar) => d.lojaIdExterno == lojaId.value);
      }
      if Truthy(mes) && Truthy(ano) {
        qs := Filtrar(qs, (d: ContaPagar) => d.dataCompetencia.mes == mes.value && d.dataCompetencia.ano == ano.value);
      }
    }

    /**
     * `criar_despesa`: 404 when the category does not exist, or when a
     * supplier id is given (truthy) and does not exist; otherwise a new
     * expense with the next key, the payload's fields, the model defaults,
     * and gross amount = the payload's value.
     */
    method CriarDespesa(payload: DespesaIn) returns (r: Result<ContaPagar, HttpErro>)
      requires Valid()
      modifies this
      ensures Valid()
      ensures !CategoriaExiste(categorias, payload.categoriaId) ==>
        r == Err(HttpErro(404, "Categoria de Despesa com ID " + IntToString(payload.categoriaId) + " n\U{E3}o encontrada."))
      ensures (CategoriaExiste(categorias, payload.categoriaId) && Truthy(payload.fornecedorId)
        && !FornecedorExiste(fornecedores, payload.fornecedorId.value)) ==>
        r == Err(HttpErro(404, "Fornecedor com ID " + IntToString(payload.fornecedorId.value) + " n\U{E3}o encontrado."))
      ensures r.Ok? <==> (CategoriaExiste(categorias, payload.categoriaId)
        && (!Truthy(payload.fornecedorId) || FornecedorExiste(fornecedores, payload.fornecedorId.value)))
      ensures r.Err? ==> despesas == old(despesas) && proximoIdDespesa == old(proximoIdDespesa)
      ensures r.Ok? ==>
        && r.value == NovaContaPagar(old(proximoIdDespesa), payload.descricao, payload.lojaId,
             FornecedorEfetivo(payload.fornecedorId), payload.categoriaId, payload.valor,
             payload.dataCompetencia, payload.dataVencimento)
        && despesas == old(despesas) + [r.value]
        && proximoIdDespesa == old(proximoIdDespesa) + 1
      ensures categorias == old(categorias) && fechamentos == old(fechamentos) && fornecedores == old(fornecedores)
      ensures perfis == old(perfis) && taxas == old(taxas)
      ensures proximoIdCategoria == old(proximoIdCategoria) && proximoIdFechamento == old(proximoIdFechamento)
    {
      if !CategoriaExiste(categorias, payload.categoriaId) {
        return Err(HttpErro(404, "Categoria de Despesa com ID " + IntToString(payload.categoriaId) + " n\U{E3}o encontrada."));
      }
      var fornecedor: Option<int> := None;
      if Truthy(payload.fornecedorId) {
        if !FornecedorExiste(fornecedores, payload.fornecedorId.value) {
          return Err(HttpErro(404, "Fornecedor com ID " + IntToString(payload.fornecedorId.value) + " n\U{E3}o encontrado."));
        }
        fornecedor := payload.fornecedorId;
      }
      var despesa := NovaContaPagar(proximoIdDespesa, payload.descricao, payload.lojaId, fornecedor,
        payload.categoriaId, payload.valor, payload.dataCompetencia, payload.dataVencimento);
      despesas := despesas + [despesa];
      proximoIdDespesa := proximoIdDespesa + 1;
      assert forall i :: 0 <= i < |old(despesas)| ==> despesas[i] == old(despesas)[i];
      r := Ok(despesa);
    }

    /**
     * `editar_despesa`: 404 for an unknown expense, then for an unknown
     * category, then for a given but unknown supplier; otherwise the
     * payload's fields replace the row's and the row is saved, which
     * recomputes its net amount with the discount and surcharge it had.
     */
    method EditarDespesa(despesaId: int, payload: DespesaIn) returns (r: Result<ContaPagar, HttpErro>)
      requires Valid()
      modifies this
      ensures Valid()
      ensures IndiceDespesa(old(despesas), despesaId).None? ==> r == Err(HttpErro(404, NAO_ENCONTRADO))
      ensures IndiceDespesa(old(despesas), despesaId).Some? && !CategoriaExiste(categorias, payload.categoriaId) ==>
        r == Err(HttpErro(404, "Categoria " + IntToString(payload.categoriaId) + " n\U{E3}o encontrada."))
      ensures (IndiceDespesa(old(despesas), despesaId).Some? && CategoriaExiste(categorias, payload.categoriaId)
        && Truthy(payload.fornecedorId) && !FornecedorExiste(fornecedores, payload.fornecedorId.value)) ==>
        r == Err(HttpErro(404, NAO_ENCONTRADO))
      ensures r.Ok? <==> (IndiceDespesa(old(despesas), despesaId).Some? && CategoriaExiste(categorias, payload.categoriaId)
        && (!Truthy(payload.fornecedorId) || FornecedorExiste(fornecedores, payload.fornecedorId.value)))
      ensures r.Err? ==> despesas == old(despesas)
      ensures r.Ok? ==> var k := IndiceDespesa(old(despesas), despesaId).value;
        && r.value == Salvar(old(despesas)[k].(
             descricao := payload.descricao,
             lojaIdExterno := payload.lojaId,
             categoriaId := payload.categoriaId,
             fornecedorId := FornecedorEfetivo(payload.fornecedorId),
             valorBruto := payload.valor,
             dataCompetencia := payload.dataCompetencia,
             dataVencimento := payload.dataVencimento))
        && despesas == old(despesas)[k := r.value]
      ensures categorias == old(categorias) && fechamentos == old(fechamentos) && fornecedores == old(fornecedores)
      ensures perfis == old(perfis) && taxas == old(taxas)
      ensures proximoIdCategoria == old(proximoIdCategoria) && proximoIdDespesa == old(proximoIdDespesa)
      ensures proximoIdFechamento == old(proximoIdFechamento)
    {
      var k := IndiceDespesa(despesas, despesaId);
      if k.None? {
        return Err(HttpErro(404, NAO_ENCONTRADO));
      }
      if !CategoriaExiste(categorias, payload.categoriaId) {
        return Err(HttpErro(404, "Categoria " + IntToString(payload.categoriaId) + " n\U{E3}o encontrada."));
      }
      var fornecedor: Option<int> := None;
      if Truthy(payload.fornecedorId) {
        if !FornecedorExiste(fornecedores, payload.fornecedorId.value) {
          return Err(HttpErro(404, NAO_ENCONTRADO));
        }
        fornecedor := payload.fornecedorId;
      }
      var despesa := despesas[k.value].(
        descricao := payload.descricao,
        lojaIdExterno := payload.lojaId,
        categoriaId := payload.categoriaId,
        fornecedorId := fornecedor,
        valorBruto := payload.valor,
        dataCompetencia := payload.dataCompetencia,
        dataVencimento := payload.dataVencimento);
      despesa := Salvar(despesa);
      despesas := despesas[k.value := despesa];
      r := Ok(despesa);
    }

    /** `excluir_despesa`: 404 for an unknown key; otherwise exactly that row is removed. */
    method ExcluirDespesa(despesaId: int) returns (r: Result<string, HttpErro>)
      requires Valid()
      modifies this
      ensures Valid()
      ensures r.Err? <==> IndiceDespesa(old(despesas), despesaId).None?
      ensures r.Err? ==> r.error == HttpErro(404, NAO_ENCONTRADO) && despesas == old(despesas)
      ensures r.Ok? ==> var k := IndiceDespesa(old(despesas), despesaId).value;
        && despesas == old(despesas)[..k] + old(despesas)[k + 1..]
        && r.value == "Despesa " + IntToString(despesaId) + " exclu\U{ED}da."
      ensures categorias == old(categorias) && fechamentos == old(fechamentos) && fornecedores == old(fornecedores)
      ensures perfis == old(perfis) && taxas == old(taxas)
      ensures proximoIdCategoria == old(proximoIdCategoria) && proximoIdDespesa == old(proximoIdDespesa)
      ensures proximoIdFechamento == old(proximoIdFechamento)
    {
      var k := IndiceDespesa(despesas, despesaId);
      if k.None? {
        return Err(HttpErro(404, NAO_ENCONTRADO));
      }
      var antes := despesas;
      IdsDespesasRemocao(antes, proximoIdDespesa, k.value);
      despesas := antes[..k.value] + antes[k.value + 1..];
      assert forall i :: 0 <= i < |despesas| ==> despesas[i] == antes[if i < k.value then i else i + 1];
      r := Ok("Despesa " + IntToString(despesaId) + " exclu\U{ED}da.");
    }

    // --- Closing ---

    /**
     * `calcular_fechamento`: normalises the sales rows, runs the closing
     * with the two repositories over the current tables, and stores the
     * result in the one closing row of (store, month, year), creating it
     * with the next key when there is none, with status ABERTO.
     */
    method CalcularFechamento(lojaId: int, mes: int, ano: int, linhas: seq<LinhaVenda>) returns (f: FechamentoMensal)
      requires Valid()
      modifies this
      ensures Valid()
      ensures ChaveFechamento(f) == (lojaId, mes, ano) && f.status == ABERTO
      ensures f.faturamentoBruto == Round2(SomaBruta(FaturamentoDasLinhas(linhas)))
      ensures f.totalTaxas == SomaTaxas(FaturamentoDasLinhas(linhas), RepoTaxas(perfis, taxas), lojaId)
      ensures f.receitaLiquida == f.faturamentoBruto - f.totalTaxas
      ensures f.totalDespesas == Round2(SomarDespesasCompetencia(despesas, lojaId, mes, ano))
      ensures f.resultadoOperacional == f.receitaLiquida - f.totalDespesas
      ensures IndiceFechamento(old(fechamentos), lojaId, mes, ano).Some? ==>
        var k := IndiceFechamento(old(fechamentos), lojaId, mes, ano).value;
        f.id == old(fechamentos)[k].id && fechamentos == old(fechamentos)[k := f]
        && proximoIdFechamento == old(proximoIdFechamento)
      ensures IndiceFechamento(old(fechamentos), lojaId, mes, ano).None? ==>
        f.id == old(proximoIdFechamento) && fechamentos == old(fechamentos) + [f]
        && proximoIdFechamento == old(proximoIdFechamento) + 1
      ensures categorias == old(categorias) && despesas == old(despesas) && fornecedores == old(fornecedores)
      ensures perfis == old(perfis) && taxas == old(taxas)
      ensures proximoIdCategoria == old(proximoIdCategoria) && proximoIdDespesa == old(proximoIdDespesa)
    {
      var dadosVendas := NormalizarLinhas(linhas);
      var resultado := ExecutarFechamento(RepoTaxas(perfis, taxas), RepoDespesas(despesas), lojaId, mes, ano, dadosVendas);
      var k := IndiceFechamento(fechamentos, lojaId, mes, ano);
      var id := if k.Some? then fechamentos[k.value].id else proximoIdFechamento;
      f := FechamentoMensal(id, lojaId, mes, ano,
        resultado.faturamentoBruto, resultado.totalTaxas, resultado.receitaLiquida,
        resultado.despesasTotais, resultado.resultadoFinal, ABERTO);
      if k.Some? {
        FechamentoSubstituido(fechamentos, proximoIdFechamento, k.value, f);
        fechamentos := fechamentos[k.value := f];
      } else {
        FechamentoAcrescentado(fechamentos, proximoIdFechamento, f);
        fechamentos := fechamentos + [f];
        proximoIdFechamento := proximoIdFechamento + 1;
      }
    }
  }
}
