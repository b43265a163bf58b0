/**
 * The month navigation of the period selector
 * (financeiro-frontend/src/components/PeriodSelector.tsx): the previous and
 * next buttons move the shared period by one month, rolling the year over
 * between December and January.
 */
module SeletorPeriodo {

  import opened FinanceiroContexto

  /** The position of a (month, year) pair on a single month count, the reference the rollover is measured by. */
  function MesesCorridos(mes: int, ano: int): int
  {
    ano * 12 + (mes - 1)
  }

  /** The month after `mes` of `ano`. */
  function ProximoMes(mes: int, ano: int): (r: (int, int))
    ensures 1 <= mes <= 12 ==> 1 <= r.0 <= 12 && MesesCorridos(r.0, r.1) == MesesCorridos(mes, ano) + 1
    ensures mes != 12 ==> r == (mes + 1, ano)
  {
    if mes == 12 then (1, ano + 1) else (mes + 1, ano)
  }

  /** The month before `mes` of `ano`. */
  function MesAnterior(mes: int, ano: int): (r: (int, int))
    ensures 1 <= mes <= 12 ==> 1 <= r.0 <= 12 && MesesCorridos(r.0, r.1) == MesesCorridos(mes, ano) - 1
    ensures mes != 1 ==> r == (mes - 1, ano)
  {
    if mes == 1 then (12, ano - 1) else (mes - 1, ano)
  }

  /** A month in range is determined by its position on the month count. */
  lemma MesesCorridosInjetiva(m1: int, a1: int, m2: int, a2: int)
    requires 1 <= m1 <= 12 && 1 <= m2 <= 12
    requires MesesCorridos(m1, a1) == MesesCorridos(m2, a2)
    ensures m1 == m2 && a1 == a2
  {
  }

  /** Forward then back returns to the starting period. */
  lemma AnteriorDoProximo(mes: int, ano: int)
    requires 1 <= mes <= 12
    ensures var p := ProximoMes(mes, ano); MesAnterior(p.0, p.1) == (mes, ano)
  {
    var p := ProximoMes(mes, ano);
    var q := MesAnterior(p.0, p.1);
    MesesCorridosInjetiva(q.0, q.1, mes, ano);
  }

  /** Back then forward returns to the starting period. */
  lemma ProximoDoAnterior(mes: int, ano: int)
    requires 1 <= mes <= 12
    ensures var p := MesAnterior(mes, ano); ProximoMes(p.0, p.1) == (mes, ano)
  {
    var p := MesAnterior(mes, ano);
    var q := ProximoMes(p.0, p.1);
    MesesCorridosInjetiva(q.0, q.1, mes, ano);
  }

  /** December rolls over to January of the next year, and January back to December of the previous one. */
  lemma ViradaDeAno(ano: int)
    ensures ProximoMes(12, ano) == (1, ano + 1)
    ensures MesAnterior(1, ano) == (12, ano - 1)
  {
    var p := ProximoMes(12, ano);
    MesesCorridosInjetiva(p.0, p.1, 1, ano + 1);
    var q := MesAnterior(1, ano);
    MesesCorridosInjetiva(q.0, q.1, 12, ano - 1);
  }

  /** `handlePreviousMonth`: the shared period moves one month back. */
  method HandlePreviousMonth(ctx: FinanceiroContext)
    modifies ctx
    ensures (ctx.mes, ctx.ano) == MesAnterior(old(ctx.mes), old(ctx.ano))
    ensures ctx.lojaId == old(ctx.lojaId)
  {
    if ctx.mes == 1 {
      var ano := ctx.ano;
      ctx.mes := 12;
      ctx.ano := ano - 1;
    } else {
      ctx.mes := ctx.mes - 1;
    }
  }

  /** `handleNextMonth`: the shared period moves one month forward. */
  method HandleNextMonth(ctx: FinanceiroContext)
    modifies ctx
    ensures (ctx.mes, ctx.ano) == ProximoMes(old(ctx.mes), old(ctx.ano))
    ensures ctx.lojaId == old(ctx.lojaId)
  {
    if ctx.mes == 12 {
      var ano := ctx.ano;
      ctx.mes := 1;
      ctx.ano := ano + 1;
    } else {
      ctx.mes := ctx.mes + 1;
    }
  }
}
