/**
 * The expense list page (financeiro-frontend/src/app/despesas/page.tsx):
 * loading the list of the shared period, the total shown for it, deleting
 * an expense after confirmation, and the style of each status badge.
 * Responses, the confirmation dialog and the alert are parameters and
 * results.
 */
module PaginaDespesas {

  import opened Wrappers
  import opened Text
  import FinanceiroContexto
  import Api

  /** The fields of an `api.Despesa` the page uses. */
  datatype Despesa = Despesa(id: int, descricao: string, valorLiquido: real, status: string, dataCompetencia: string)

  /** `reduce((acc, curr) => acc + Number(curr.valor_liquido), acc)`, folding from the left. */
  function Reduzir(ds: seq<Despesa>, acc: real): real
    decreases |ds|
  {
    if |ds| == 0 then acc else Reduzir(ds[1..], acc + ds[0].valorLiquido)
  }

  /** The reference sum of the net amounts. */
  function Soma(ds: seq<Despesa>): real
    decreases |ds|
  {
    if |ds| == 0 then 0.0 else ds[0].valorLiquido + Soma(ds[1..])
  }

  /** The page's total: the fold from 0. */
  function TotalMes(ds: seq<Despesa>): (r: real)
    ensures r == Soma(ds)
    ensures ds == [] ==> r == 0.0
  {
    ReduzirSoma(ds, 0.0);
    Reduzir(ds, 0.0)
  }

  /** The fold adds the sum of the amounts to its start value. */
  lemma {:induction false} ReduzirSoma(ds: seq<Despesa>, acc: real)
    ensures Reduzir(ds, acc) == acc + Soma(ds)
    decreases |ds|
  {
    if |ds| > 0 {
      ReduzirSoma(ds[1..], acc + ds[0].valorLiquido);
    }
  }

  /** The expenses with or without a given status. */
  function ComStatus(ds: seq<Despesa>, status: string, incluir: bool): (r: seq<Despesa>)
    ensures forall d :: d in r <==> d in ds && (d.status == status) == incluir
    decreases |ds|
  {
    if |ds| == 0 then []
    else if (ds[0].status == status) == incluir then [ds[0]] + ComStatus(ds[1..], status, incluir)
    else ComStatus(ds[1..], status, incluir)
  }

  /**
   * The total counts CANCELADO expenses too: it is the sum over the other
   * statuses plus the sum over the cancelled ones, unlike the server's
   * competence sum, which leaves the cancelled ones out.
   */
  lemma {:induction false} TotalInclusoCancelados(ds: seq<Despesa>)
    ensures TotalMes(ds) == Soma(ComStatus(ds, "CANCELADO", false)) + Soma(ComStatus(ds, "CANCELADO", true))
    decreases |ds|
  {
    if |ds| > 0 {
      TotalInclusoCancelados(ds[1..]);
    }
  }

  /** The style of each status badge, as the page's lookup table. */
  const ESTILOS: map<string, string> := map[
    "PREVISTO" := "bg-blue-50 text-blue-700 border-blue-100",
    "PAGO" := "bg-emerald-50 text-emerald-700 border-emerald-100",
    "ATRASADO" := "bg-rose-50 text-rose-700 border-rose-100",
    "CANCELADO" := "bg-slate-100 text-slate-500 border-slate-200"
  ]

  /** `StatusBadge`'s style: the status's own entry, or PREVISTO's for any other status. */
  function EstiloStatus(status: string): (r: string)
    ensures status in ESTILOS ==> r == ESTILOS[status]
    ensures status !in ESTILOS ==> r == ESTILOS["PREVISTO"]
    ensures r != ""
  {
    if status in ESTILOS && ESTILOS[status] != "" then ESTILOS[status] else ESTILOS["PREVISTO"]
  }

  /** Each of the four statuses has a style of its own, and an unknown one looks like PREVISTO. */
  lemma EstilosDistintos(s1: string, s2: string)
    requires s1 in {"PREVISTO", "PAGO", "ATRASADO", "CANCELADO"} && s2 in {"PREVISTO", "PAGO", "ATRASADO", "CANCELADO"}
    ensures EstiloStatus(s1) == EstiloStatus(s2) <==> s1 == s2
    ensures EstiloStatus("ABERTO") == EstiloStatus("PREVISTO")
  {
  }

  class DespesasPage {
    var despesas: seq<Despesa>
    var loading: bool
    var totalMes: real

    /** The initial state: no expenses, total 0, loading. */
    constructor()
      ensures despesas == [] && loading && totalMes == 0.0
    {
      despesas := [];
      loading := true;
      totalMes := 0.0;
    }

    /**
     * `carregar`: asks for the shared period's expenses; a list replaces the
     * shown one and its total; a failure keeps both. Loading ends false.
     */
    method Carregar(ctx: FinanceiroContexto.FinanceiroContext, base: string, resposta: Option<seq<Despesa>>)
      returns (url: string)
      requires '?' !in base
      modifies this
      ensures Api.Caminho(url) == base + "/despesas/"
      ensures Api.Consulta(url) == [("loja_id", IntToString(ctx.lojaId))]
        + (if ctx.mes != 0 && ctx.ano != 0 then [("mes", IntToString(ctx.mes)), ("ano", IntToString(ctx.ano))] else [])
      ensures !loading
      ensures resposta.Some? ==> despesas == resposta.value && totalMes == Soma(resposta.value)
      ensures resposta.None? ==> despesas == old(despesas) && totalMes == old(totalMes)
    {
      loading := true;
      url := Api.DespesasUrl(base, ctx.lojaId, Some(ctx.mes), Some(ctx.ano));
      if resposta.Some? {
        var dados := resposta.value;
        despesas := dados;
        var total := TotalMes(dados);
        totalMes := total;
      }
      loading := false;
    }

    /**
     * `excluir`: declining the confirmation makes no call; a delete that
     * succeeds reloads the list; one that fails raises the alert and keeps
     * the page as it was.
     */
    method Excluir(ctx: FinanceiroContexto.FinanceiroContext, base: string, id: int, confirmado: bool,
                   exclusaoOk: bool, recarga: Option<seq<Despesa>>)
      returns (excluida: Option<int>, alerta: bool)
      requires '?' !in base
      modifies this
      ensures excluida == (if confirmado then Some(id) else None)
      ensures alerta <==> confirmado && !exclusaoOk
      ensures !(confirmado && exclusaoOk) ==>
        despesas == old(despesas) && totalMes == old(totalMes) && loading == old(loading)
      ensures confirmado && exclusaoOk ==> !loading
      ensures confirmado && exclusaoOk && recarga.Some? ==> despesas == recarga.value && totalMes == Soma(recarga.value)
      ensures confirmado && exclusaoOk && recarga.None? ==> despesas == old(despesas) && totalMes == old(totalMes)
    {
      if !confirmado {
        return None, false;
      }
      excluida := Some(id);
      if exclusaoOk {
        var url := Carregar(ctx, base, recarga);
        alerta := false;
      } else {
        alerta := true;
      }
    }
  }
}
