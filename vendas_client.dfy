/**
 * The sales-system client (financeiro_core/infrastructure/vendas_client.py):
 * the translation of a legacy payment description into one of the payment
 * tags the fee table uses, and the normalisation of each grouped sales row
 * into a FaturamentoItem. The SQL query and the cursor are not modelled:
 * the rows it returns are the input.
 */
module VendasClient {

  import opened Wrappers
  import opened Text
  import opened Services

  /** The payment tags the mapper can produce. */
  predicate EhTag(t: string)
  {
    t in {"DEBITO", "CREDITO_PARCELADO", "CREDITO_AVISTA", "PIX", "DINHEIRO", "OUTRO"}
  }

  /** A debit keyword occurs, with or without the accent. */
  predicate TemDebito(t: string)
  {
    Contains(t, "DEBITO") || Contains(t, "D\U{C9}BITO")
  }

  /** A credit or generic card keyword occurs, with or without the accents. */
  predicate TemCartao(t: string)
  {
    Contains(t, "CREDITO") || Contains(t, "CR\U{C9}DITO") || Contains(t, "CARTAO") || Contains(t, "CART\U{C3}O")
  }

  predicate TemPix(t: string)
  {
    Contains(t, "PIX")
  }

  predicate TemDinheiro(t: string)
  {
    Contains(t, "DINHEIRO")
  }

  /**
   * `_mapear_tipo_pagamento`: an empty description is OUTRO; otherwise the
   * upper-cased, stripped description is tested for keywords in a fixed
   * order (debit, then credit/card, then PIX, then cash). A card payment in
   * more than one instalment is CREDITO_PARCELADO.
   */
  function MapearTipoPagamento(tipoRaw: string, parcelas: int): (r: string)
    ensures EhTag(r)
    ensures tipoRaw == "" ==> r == "OUTRO"
  {
    if tipoRaw == "" then "OUTRO"
    else
      var tipo := Strip(Upper(tipoRaw));
      if TemDebito(tipo) then "DEBITO"
      else if TemCartao(tipo) then
        if parcelas > 1 then "CREDITO_PARCELADO" else "CREDITO_AVISTA"
      else if TemPix(tipo) then "PIX"
      else if TemDinheiro(tipo) then "DINHEIRO"
      else "OUTRO"
  }

  /** Stripping the description never changes which keywords it contains. */
  lemma {:induction false} KeywordsStrip(s: string)
    ensures TemDebito(Strip(s)) == TemDebito(s)
    ensures TemCartao(Strip(s)) == TemCartao(s)
    ensures TemPix(Strip(s)) == TemPix(s)
    ensures TemDinheiro(Strip(s)) == TemDinheiro(s)
  {
    ContainsStrip(s, "DEBITO");
    ContainsStrip(s, "D\U{C9}BITO");
    ContainsStrip(s, "CREDITO");
    ContainsStrip(s, "CR\U{C9}DITO");
    ContainsStrip(s, "CARTAO");
    ContainsStrip(s, "CART\U{C3}O");
    ContainsStrip(s, "PIX");
    ContainsStrip(s, "DINHEIRO");
  }

  /**
   * The mapping in terms of the upper-cased description alone: each tag is
   * chosen exactly when its keyword occurs and no earlier keyword does.
   * Surrounding whitespace plays no part, and the empty description contains
   * no keyword, so it falls through to OUTRO like any other.
   */
  lemma MapearCaracterizacao(tipoRaw: string, parcelas: int)
    ensures var u := Upper(tipoRaw);
      var r := MapearTipoPagamento(tipoRaw, parcelas);
      && (r == "DEBITO" <==> TemDebito(u))
      && (r == "CREDITO_PARCELADO" <==> !TemDebito(u) && TemCartao(u) && parcelas > 1)
      && (r == "CREDITO_AVISTA" <==> !TemDebito(u) && TemCartao(u) && parcelas <= 1)
      && (r == "PIX" <==> !TemDebito(u) && !TemCartao(u) && TemPix(u))
      && (r == "DINHEIRO" <==> !TemDebito(u) && !TemCartao(u) && !TemPix(u) && TemDinheiro(u))
      && (r == "OUTRO" <==> !TemDebito(u) && !TemCartao(u) && !TemPix(u) && !TemDinheiro(u))
  {
    KeywordsStrip(Upper(tipoRaw));
  }

  /** Matching is case-insensitive: upper-casing the description first changes nothing. */
  lemma MapearIgnoraCaixa(tipoRaw: string, parcelas: int)
    ensures MapearTipoPagamento(Upper(tipoRaw), parcelas) == MapearTipoPagamento(tipoRaw, parcelas)
  {
    UpperIdempotent(tipoRaw);
    MapearCaracterizacao(tipoRaw, parcelas);
    MapearCaracterizacao(Upper(tipoRaw), parcelas);
  }

  /** Whitespace around the description changes nothing. */
  lemma MapearIgnoraEspacos(w1: string, tipoRaw: string, w2: string, parcelas: int)
    requires AllSpace(w1) && AllSpace(w2)
    ensures MapearTipoPagamento(w1 + tipoRaw + w2, parcelas) == MapearTipoPagamento(tipoRaw, parcelas)
  {
    var u := Upper(tipoRaw);
    UpperConcat(w1 + tipoRaw, w2);
    UpperConcat(w1, tipoRaw);
    UpperAllSpace(w1);
    UpperAllSpace(w2);
    assert Upper(w1 + tipoRaw + w2) == w1 + u + w2;
    ContainsPadded(w1, u, w2, "DEBITO");
    ContainsPadded(w1, u, w2, "D\U{C9}BITO");
    ContainsPadded(w1, u, w2, "CREDITO");
    ContainsPadded(w1, u, w2, "CR\U{C9}DITO");
    ContainsPadded(w1, u, w2, "CARTAO");
    ContainsPadded(w1, u, w2, "CART\U{C3}O");
    ContainsPadded(w1, u, w2, "PIX");
    ContainsPadded(w1, u, w2, "DINHEIRO");
    MapearCaracterizacao(w1 + tipoRaw + w2, parcelas);
    MapearCaracterizacao(tipoRaw, parcelas);
  }

  /** A debit keyword wins over every other: "cartao debito" is a debit, whatever the instalments. */
  lemma DebitoPrevalece(parcelas: int)
    ensures MapearTipoPagamento("cartao debito", parcelas) == "DEBITO"
  {
    var a := Strip(Upper("cartao debito"));
    assert a == "CARTAO DEBITO";
    assert a[7..][..6] == "DEBITO";
    assert Contains(a[7..], "DEBITO");
  }

  /** The accented spellings are recognised: "CARTÃO DÉBITO" is a debit too. */
  lemma DebitoAcentuado(parcelas: int)
    ensures MapearTipoPagamento("CART\U{C3}O D\U{C9}BITO", parcelas) == "DEBITO"
  {
    var b := Strip(Upper("CART\U{C3}O D\U{C9}BITO"));
    assert b == "CART\U{C3}O D\U{C9}BITO";
    assert b[7..][..6] == "D\U{C9}BITO";
    assert Contains(b[7..], "D\U{C9}BITO");
  }

  /** A lower-case accented credit is a credit, split by instalments. */
  lemma CreditoAcentuado(parcelas: int)
    ensures MapearTipoPagamento("Cr\U{E9}dito", parcelas) == (if parcelas > 1 then "CREDITO_PARCELADO" else "CREDITO_AVISTA")
  {
    var c := Strip(Upper("Cr\U{E9}dito"));
    assert c == "CR\U{C9}DITO";
    NaoContemSemLetra(c, "DEBITO", 2);
    NaoContemSemLetra(c, "D\U{C9}BITO", 2);
    assert Contains(c, "CR\U{C9}DITO");
  }

  /** A padded lower-case "pix" is PIX. */
  lemma PixComEspacos(parcelas: int)
    ensures MapearTipoPagamento("  pix  ", parcelas) == "PIX"
  {
    var u := Upper("  pix  ");
    assert u == "  PIX  ";
    assert TrimStart(u) == "PIX  " by {
      assert IsSpace(u[0]) && u[1..] == " PIX  ";
      assert IsSpace(" PIX  "[0]) && " PIX  "[1..] == "PIX  ";
      assert !IsSpace("PIX  "[0]);
    }
    assert TrimEnd("PIX  ") == "PIX" by {
      assert IsSpace("PIX  "[4]) && "PIX  "[..4] == "PIX ";
      assert IsSpace("PIX "[3]) && "PIX "[..3] == "PIX";
      assert !IsSpace("PIX"[2]);
    }
    var d := Strip(u);
    assert d == "PIX";
    assert Contains(d, "PIX");
    NaoContemSemLetra(d, "DEBITO", 0);
    NaoContemSemLetra(d, "D\U{C9}BITO", 0);
    NaoContemSemLetra(d, "CREDITO", 0);
    NaoContemSemLetra(d, "CR\U{C9}DITO", 0);
    NaoContemSemLetra(d, "CARTAO", 0);
    NaoContemSemLetra(d, "CART\U{C3}O", 0);
  }

  lemma NaoContemSemLetra(s: string, k: string, j: int)
    requires 0 <= j < |k| && k[j] !in s
    ensures !Contains(s, k)
  {
    if Contains(s, k) {
      ContainsChars(s, k, j);
    }
  }

  /** One grouped row of the sales query: payment description, card brand and total, each possibly NULL. */
  datatype LinhaVenda = LinhaVenda(forma: Option<string>, bandeira: Option<string>, valor: Option<real>)

  /**
   * The per-row normalisation of `get_faturamento_por_loja`: a NULL or empty
   * description becomes "", a NULL or empty brand "GERAL", a NULL total 0;
   * the description is mapped with one instalment (the legacy table has no
   * instalment column) and the brand is upper-cased and stripped.
   */
  function NormalizarLinha(linha: LinhaVenda): (r: FaturamentoItem)
    ensures r.parcelas == 1
    ensures EhTag(r.tipoPagamento) && r.tipoPagamento != "CREDITO_PARCELADO"
    ensures (linha.forma == None || linha.forma == Some("")) ==> r.tipoPagamento == "OUTRO"
    ensures linha.valor == None ==> r.valorBruto == 0.0
    ensures linha.valor.Some? ==> r.valorBruto == linha.valor.value
    ensures linha.bandeira.Some? && linha.bandeira.value != "" ==> r.bandeira == Strip(Upper(linha.bandeira.value))
    ensures (linha.bandeira == None || linha.bandeira == Some("")) ==> r.bandeira == "GERAL"
  {
    var tipoRaw := if linha.forma.Some? && linha.forma.value != "" then linha.forma.value else "";
    var bandeiraRaw := if linha.bandeira.Some? && linha.bandeira.value != "" then linha.bandeira.value else "GERAL";
    var valor := if linha.valor.Some? then linha.valor.value else 0.0;
    var parcelas := 1;
    var tipoMapeado := MapearTipoPagamento(tipoRaw, parcelas);
    assert Upper("GERAL") == "GERAL";
    var bandeiraNormalizada := Strip(Upper(bandeiraRaw));
    FaturamentoItem(tipoMapeado, bandeiraNormalizada, parcelas, valor)
  }

  /** A normalised brand has no lower-case ASCII letter and no surrounding whitespace. */
  lemma BandeiraNormalizada(bruta: string)
    ensures var b := Strip(Upper(bruta));
      && (forall i :: 0 <= i < |b| ==> !('a' <= b[i] <= 'z'))
      && (|b| > 0 ==> !IsSpace(b[0]) && !IsSpace(b[|b| - 1]))
  {
    StripFatia(Upper(bruta));
  }

  /** The items `get_faturamento_por_loja` returns for the query's rows: one per row, in row order. */
  function FaturamentoDasLinhas(rows: seq<LinhaVenda>): (r: seq<FaturamentoItem>)
    ensures |r| == |rows|
    decreases |rows|
  {
    if |rows| == 0 then [] else FaturamentoDasLinhas(rows[..|rows| - 1]) + [NormalizarLinha(rows[|rows| - 1])]
  }

  /** Item `i` is row `i` normalised. */
  lemma {:induction false} FaturamentoDasLinhasPontual(rows: seq<LinhaVenda>, i: int)
    requires 0 <= i < |rows|
    ensures FaturamentoDasLinhas(rows)[i] == NormalizarLinha(rows[i])
    decreases |rows|
  {
    if i < |rows| - 1 {
      FaturamentoDasLinhasPontual(rows[..|rows| - 1], i);
    }
  }

  /** The row loop of `get_faturamento_por_loja`, appending one item per row. */
  method NormalizarLinhas(rows: seq<LinhaVenda>) returns (resultadoDtos: seq<FaturamentoItem>)
    ensures resultadoDtos == FaturamentoDasLinhas(rows)
  {
    resultadoDtos := [];
    for i := 0 to |rows|
      invariant resultadoDtos == FaturamentoDasLinhas(rows[..i])
    {
      var dto := NormalizarLinha(rows[i]);
      assert rows[..i + 1][..i] == rows[..i];
      resultadoDtos := resultadoDtos + [dto];
    }
    assert rows[..|rows|] == rows;
  }
}
