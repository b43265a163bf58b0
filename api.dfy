/**
 * The front-end's API client (financeiro-frontend/src/services/api.ts):
 * the request headers built from the stored token, the URLs of the calls
 * whose paths or queries carry parameters, the token replacement done by
 * `switchStore`, and the error messages thrown for failed responses. The
 * network is not modelled: responses are parameters.
 */
module Api {

  import opened Wrappers
  import opened Text
  import opened Navegador
  import MockAuth
  import Http
  import Endpoints
  import Entidades
  import Jwt

  /** The key of the session token in `localStorage`. */
  const CHAVE_TOKEN := "financeiro_token"

  /** The base URL when `NEXT_PUBLIC_API_URL` is unset or empty. */
  const API_BASE_URL_PADRAO := "http://127.0.0.1:8000/api/financeiro"

  /** `API_BASE_URL`: the environment's value when it is non-empty, else the local default. */
  function ApiBaseUrl(ambiente: Option<string>): (r: string)
    ensures r != ""
    ensures ambiente.Some? && ambiente.value != "" ==> r == ambiente.value
  {
    if ambiente.Some? && ambiente.value != "" then ambiente.value else API_BASE_URL_PADRAO
  }

  /** A request's headers, as (name, value) pairs in order. */
  type Cabecalhos = seq<(string, string)>

  /** The value of the first header with the given name. */
  function Cabecalho(hs: Cabecalhos, nome: string): (r: Option<string>)
    ensures r.None? <==> forall i :: 0 <= i < |hs| ==> hs[i].0 != nome
    ensures r.Some? ==> exists i :: 0 <= i < |hs| && hs[i] == (nome, r.value)
    decreases |hs|
  {
    if |hs| == 0 then None
    else if hs[0].0 == nome then Some(hs[0].1)
    else
      var r := Cabecalho(hs[1..], nome);
      assert r.Some? ==> exists i :: 0 <= i < |hs| && hs[i] == (nome, r.value) by {
        if r.Some? {
          var i :| 0 <= i < |hs[1..]| && hs[1..][i] == (nome, r.value);
          assert hs[i + 1] == (nome, r.value);
        }
      }
      r
  }

  const JSON := ("Content-Type", "application/json")

  /**
   * `getHeaders`: always the JSON content type; a Bearer authorization
   * exactly when a non-empty token is stored.
   */
  function GetHeaders(armazenado: map<string, string>): (r: Cabecalhos)
    ensures Cabecalho(r, "Content-Type") == Some("application/json")
    ensures Cabecalho(r, "Authorization").Some? <==> CHAVE_TOKEN in armazenado && armazenado[CHAVE_TOKEN] != ""
    ensures Cabecalho(r, "Authorization").Some? ==> Cabecalho(r, "Authorization").value == "Bearer " + armazenado[CHAVE_TOKEN]
  {
    if CHAVE_TOKEN in armazenado && armazenado[CHAVE_TOKEN] != "" then
      [JSON, ("Authorization", "Bearer " + armazenado[CHAVE_TOKEN])]
    else
      [JSON]
  }

  /**
   * The header the client sends is the one the server reads: a stored token
   * without spaces comes back out of `get_user_from_request`'s header check,
   * and with no token stored the server answers 401 "Token ausente". This
   * takes the mock-auth router to be mounted under the API base.
   */
  lemma CabecalhoLidoPeloServidor(armazenado: map<string, string>)
    ensures CHAVE_TOKEN in armazenado && armazenado[CHAVE_TOKEN] != "" && ' ' !in armazenado[CHAVE_TOKEN] ==>
      MockAuth.TokenDoCabecalho(Cabecalho(GetHeaders(armazenado), "Authorization")) == Ok(armazenado[CHAVE_TOKEN])
    ensures CHAVE_TOKEN !in armazenado ==>
      MockAuth.TokenDoCabecalho(Cabecalho(GetHeaders(armazenado), "Authorization")) == Err(Http.HttpErro(401, "Token ausente"))
  {
    if CHAVE_TOKEN in armazenado && armazenado[CHAVE_TOKEN] != "" && ' ' !in armazenado[CHAVE_TOKEN] {
      MockAuth.TokenDoCabecalhoBearer(armazenado[CHAVE_TOKEN]);
    }
  }

  /** A request: method, URL and headers. */
  datatype Pedido = Pedido(metodo: string, url: string, cabecalhos: Cabecalhos)

  /** `login`: a POST with the JSON content type only, whatever token is stored. */
  function PedidoLogin(base: string): (r: Pedido)
    ensures Cabecalho(r.cabecalhos, "Authorization") == None
    ensures Cabecalho(r.cabecalhos, "Content-Type") == Some("application/json")
  {
    Pedido("POST", base + "/auth/login", [JSON])
  }

  // ---------------------------------------------------------------------------
  // URLs and how the server reads them back
  // ---------------------------------------------------------------------------

  /** One `key=value` field of a query string; a field without `=` has an empty value. */
  function Par(campo: string): (string, string)
  {
    var kv := Split(campo, '=');
    (kv[0], if |kv| > 1 then kv[1] else "")
  }

  /** The (key, value) pairs of the query after the first `?` of a URL, in order. */
  function Consulta(url: string): seq<(string, string)>
  {
    var partes := Split(url, '?');
    if |partes| < 2 then []
    else
      var campos := Split(partes[1], '&');
      seq(|campos|, i requires 0 <= i < |campos| => Par(campos[i]))
  }

  /** The path of a URL, before the first `?`. */
  function Caminho(url: string): string
  {
    Split(url, '?')[0]
  }

  /** A numeral holds none of the query and path delimiters. */
  lemma NumeralSemDelimitadores(i: int)
    ensures '?' !in IntToString(i) && '&' !in IntToString(i) && '=' !in IntToString(i) && '/' !in IntToString(i)
  {
    IntToStringHasNo(i, '?');
    IntToStringHasNo(i, '&');
    IntToStringHasNo(i, '=');
    IntToStringHasNo(i, '/');
  }

  /** A field `key=value` whose value is a numeral reads back as that pair. */
  lemma ParNumeral(chave: string, i: int)
    requires '=' !in chave
    ensures Par(chave + "=" + IntToString(i)) == (chave, IntToString(i))
  {
    NumeralSemDelimitadores(i);
    SplitAt(chave, IntToString(i), '=');
    SplitNoSep(IntToString(i), '=');
  }

  /** A URL made of a path and `&`-joined fields reads back as that path and those fields, in order. */
  lemma ConsultaDeCampos(caminho: string, campos: seq<string>)
    requires '?' !in caminho && |campos| >= 1
    requires forall i :: 0 <= i < |campos| ==> '?' !in campos[i] && '&' !in campos[i]
    ensures Caminho(caminho + "?" + Join(campos, '&')) == caminho
    ensures Consulta(caminho + "?" + Join(campos, '&')) == seq(|campos|, i requires 0 <= i < |campos| => Par(campos[i]))
  {
    var consulta := Join(campos, '&');
    SemSeparadorNaJuncao(campos, '&', '?');
    SplitAt(caminho, consulta, '?');
    SplitNoSep(consulta, '?');
    SplitJoin(campos, '&');
  }

  /** Joining parts without a character gives a string without it. */
  lemma {:induction false} SemSeparadorNaJuncao(partes: seq<string>, sep: char, c: char)
    requires c != sep && forall i :: 0 <= i < |partes| ==> c !in partes[i]
    ensures c !in Join(partes, sep)
    decreases |partes|
  {
    if |partes| > 1 {
      SemSeparadorNaJuncao(partes[1..], sep, c);
    }
  }

  /** A URL with one field in its query. */
  lemma ConsultaDeUmCampo(caminho: string, campo: string)
    requires '?' !in caminho && '?' !in campo && '&' !in campo
    ensures Caminho(caminho + "?" + campo) == caminho
    ensures Consulta(caminho + "?" + campo) == [Par(campo)]
  {
    assert Join([campo], '&') == campo;
    ConsultaDeCampos(caminho, [campo]);
  }

  /** A URL with three fields in its query. */
  lemma ConsultaDeTresCampos(caminho: string, c1: string, c2: string, c3: string)
    requires '?' !in caminho
    requires '?' !in c1 && '&' !in c1 && '?' !in c2 && '&' !in c2 && '?' !in c3 && '&' !in c3
    ensures Caminho(caminho + "?" + c1 + "&" + c2 + "&" + c3) == caminho
    ensures Consulta(caminho + "?" + c1 + "&" + c2 + "&" + c3) == [Par(c1), Par(c2), Par(c3)]
  {
    var campos := [c1, c2, c3];
    assert Join(campos, '&') == c1 + ['&'] + (c2 + ['&'] + c3) by {
      assert campos[1..] == [c2, c3];
      assert campos[1..][1..] == [c3];
      assert Join([c3], '&') == c3;
      assert Join([c2, c3], '&') == c2 + ['&'] + c3;
    }
    assert caminho + "?" + c1 + "&" + c2 + "&" + c3 == caminho + "?" + Join(campos, '&');
    ConsultaDeCampos(caminho, campos);
  }

  /**
   * `getPerfisTaxas`: `?loja_id=` only when the store id is truthy, so 0
   * and an absent id both ask for every store.
   */
  function PerfisTaxasUrl(base: string, lojaId: Option<int>): (r: string)
    requires '?' !in base
    ensures Caminho(r) == base + "/taxas/perfis/"
    ensures Consulta(r) == if Truthy(lojaId) then [("loja_id", IntToString(lojaId.value))] else []
  {
    var caminho := base + "/taxas/perfis/";
    assert '?' !in caminho;
    SplitNoSep(caminho, '?');
    if Truthy(lojaId) then
      var campo := "loja_id" + "=" + IntToString(lojaId.value);
      NumeralSemDelimitadores(lojaId.value);
      ParNumeral("loja_id", lojaId.value);
      ConsultaDeUmCampo(caminho, campo);
      caminho + "?" + campo
    else
      caminho
  }

  /**
   * `getDespesas`: the store is always sent; month and year are appended
   * only when both are truthy.
   */
  method DespesasUrl(base: string, lojaId: int, mes: Option<int>, ano: Option<int>) returns (url: string)
    requires '?' !in base
    ensures Caminho(url) == base + "/despesas/"
    ensures Consulta(url) == [("loja_id", IntToString(lojaId))]
      + (if Truthy(mes) && Truthy(ano) then [("mes", IntToString(mes.value)), ("ano", IntToString(ano.value))] else [])
  {
    var caminho := base + "/despesas/";
    var campoLoja := "loja_id" + "=" + IntToString(lojaId);
    url := caminho + "?" + campoLoja;
    NumeralSemDelimitadores(lojaId);
    ParNumeral("loja_id", lojaId);
    if Truthy(mes) && Truthy(ano) {
      var campoMes := "mes" + "=" + IntToString(mes.value);
      var campoAno := "ano" + "=" + IntToString(ano.value);
      url := url + "&" + campoMes + "&" + campoAno;
      NumeralSemDelimitadores(mes.value);
      NumeralSemDelimitadores(ano.value);
      ParNumeral("mes", mes.value);
      ParNumeral("ano", ano.value);
      ConsultaDeTresCampos(caminho, campoLoja, campoMes, campoAno);
    } else {
      ConsultaDeUmCampo(caminho, campoLoja);
    }
  }

  /** A URL whose path ends in `/<store>/<month>/<year>`, as the closing and the dashboard calls build it. */
  function UrlDePeriodo(base: string, recurso: string, lojaId: int, mes: int, ano: int): string
  {
    base + recurso + IntToString(lojaId) + "/" + IntToString(mes) + "/" + IntToString(ano)
  }

  /** `getFechamento`'s URL. */
  function FechamentoUrl(base: string, lojaId: int, mes: int, ano: int): string
  {
    UrlDePeriodo(base, "/fechamento/calcular/", lojaId, mes, ano)
  }

  /** `getDashboardResumo`'s URL. */
  function DashboardUrl(base: string, lojaId: int, mes: int, ano: int): string
  {
    UrlDePeriodo(base, "/dashboard/resumo/", lojaId, mes, ano)
  }

  /**
   * The server's router reads the three path parameters back: after the
   * base, the path splits on `/` into the two resource segments and the
   * three numerals of store, month and year.
   */
  lemma RotaDePeriodo(base: string, r1: string, r2: string, lojaId: int, mes: int, ano: int)
    requires '/' !in r1 && '/' !in r2
    ensures var url := UrlDePeriodo(base, "/" + r1 + "/" + r2 + "/", lojaId, mes, ano);
      var partes := Split(url[|base|..], '/');
      && |partes| == 6 && partes[0] == "" && partes[1] == r1 && partes[2] == r2
      && ParseInt(partes[3]) == Some(lojaId) && ParseInt(partes[4]) == Some(mes) && ParseInt(partes[5]) == Some(ano)
  {
    var l := IntToString(lojaId);
    var m := IntToString(mes);
    var a := IntToString(ano);
    var url := UrlDePeriodo(base, "/" + r1 + "/" + r2 + "/", lojaId, mes, ano);
    NumeralSemDelimitadores(lojaId);
    NumeralSemDelimitadores(mes);
    NumeralSemDelimitadores(ano);
    assert url[|base|..] == "" + ['/'] + (r1 + ['/'] + (r2 + ['/'] + (l + ['/'] + (m + ['/'] + a))));
    SplitAt("", r1 + ['/'] + (r2 + ['/'] + (l + ['/'] + (m + ['/'] + a))), '/');
    SplitAt(r1, r2 + ['/'] + (l + ['/'] + (m + ['/'] + a)), '/');
    SplitAt(r2, l + ['/'] + (m + ['/'] + a), '/');
    SplitAt(l, m + ['/'] + a, '/');
    SplitAt(m, a, '/');
    SplitNoSep(a, '/');
    ParseIntToString(lojaId);
    ParseIntToString(mes);
    ParseIntToString(ano);
  }

  /** The closing URL is `/fechamento/calcular/{loja}/{mes}/{ano}` and reads back to the same three numbers. */
  lemma RotaFechamento(base: string, lojaId: int, mes: int, ano: int)
    ensures var partes := Split(FechamentoUrl(base, lojaId, mes, ano)[|base|..], '/');
      && |partes| == 6 && partes[1] == "fechamento" && partes[2] == "calcular"
      && ParseInt(partes[3]) == Some(lojaId) && ParseInt(partes[4]) == Some(mes) && ParseInt(partes[5]) == Some(ano)
  {
    assert "/fechamento/calcular/" == "/" + "fechamento" + "/" + "calcular" + "/";
    RotaDePeriodo(base, "fechamento", "calcular", lojaId, mes, ano);
  }

  /** The dashboard URL is `/dashboard/resumo/{loja}/{mes}/{ano}` and reads back to the same three numbers. */
  lemma RotaDashboard(base: string, lojaId: int, mes: int, ano: int)
    ensures var partes := Split(DashboardUrl(base, lojaId, mes, ano)[|base|..], '/');
      && |partes| == 6 && partes[1] == "dashboard" && partes[2] == "resumo"
      && ParseInt(partes[3]) == Some(lojaId) && ParseInt(partes[4]) == Some(mes) && ParseInt(partes[5]) == Some(ano)
  {
    assert "/dashboard/resumo/" == "/" + "dashboard" + "/" + "resumo" + "/";
    RotaDePeriodo(base, "dashboard", "resumo", lojaId, mes, ano);
  }

  // ---------------------------------------------------------------------------
  // Bodies and errors
  // ---------------------------------------------------------------------------

  /** The body of `createCategoria` and `updateCategoria`. */
  datatype CategoriaIn = CategoriaIn(nome: string, ativa: bool)

  /** Both category calls send `ativa: true`. */
  function CorpoCategoria(nome: string): CategoriaIn
  {
    CategoriaIn(nome, true)
  }

  /**
   * A category edited from the front-end is active afterwards, whatever it
   * was, so `listar_categorias` lists it again.
   */
  lemma CategoriaEditadaFicaAtiva(c: Entidades.CategoriaDespesa, nome: string)
    ensures var corpo := CorpoCategoria(nome);
      Endpoints.Ativa(c.(nome := corpo.nome, ativa := corpo.ativa))
  {
  }

  /** The message thrown for a failed call whose body may carry `detail`: the detail when non-empty, else the call's fixed message. */
  function MensagemErro(detail: Option<string>, padrao: string): (r: string)
    ensures detail.Some? && detail.value != "" ==> r == detail.value
    ensures (detail.None? || detail.value == "") ==> r == padrao
  {
    if detail.Some? && detail.value != "" then detail.value else padrao
  }

  /** The server's error details are never empty, so they reach the user unchanged. */
  lemma MensagemErroDoServidor(e: Http.HttpErro, padrao: string)
    requires e.detalhe != ""
    ensures MensagemErro(Some(e.detalhe), padrao) == e.detalhe
  {
  }

  // ---------------------------------------------------------------------------
  // switchStore
  // ---------------------------------------------------------------------------

  /** The body of `switchStore`, `{ loja_id }`: the server reads it as its `SwitchLojaSchema`. */
  datatype SwitchLojaIn = SwitchLojaIn(lojaId: int)

  /** What `switchStore` reads from the response: its status, the `X-New-Token` header and the body's store. */
  datatype RespostaTroca = RespostaTroca(ok: bool, novoToken: Option<string>, activeLoja: MockAuth.Loja)

  /**
   * `switchStore`: a non-empty `X-New-Token` replaces the stored token
   * before the status is checked, so even a failed switch replaces it;
   * a failed response then throws.
   */
  method SwitchStore(armazenamento: Armazenamento, base: string, lojaId: int, resposta: RespostaTroca)
    returns (pedido: Pedido, corpo: SwitchLojaIn, r: Result<MockAuth.Loja, string>)
    modifies armazenamento
    ensures pedido == Pedido("POST", base + "/auth/switch-loja", GetHeaders(old(armazenamento.itens)))
    ensures corpo == SwitchLojaIn(lojaId)
    ensures resposta.novoToken.Some? && resposta.novoToken.value != "" ==>
      armazenamento.itens == old(armazenamento.itens)[CHAVE_TOKEN := resposta.novoToken.value]
    ensures !(resposta.novoToken.Some? && resposta.novoToken.value != "") ==>
      armazenamento.itens == old(armazenamento.itens)
    ensures r == if resposta.ok then Ok(resposta.activeLoja) else Err("Falha ao trocar de loja")
  {
    pedido := Pedido("POST", base + "/auth/switch-loja", GetHeaders(armazenamento.itens));
    corpo := SwitchLojaIn(lojaId);
    var newToken := resposta.novoToken;
    if newToken.Some? && newToken.value != "" {
      armazenamento.SetItem(CHAVE_TOKEN, newToken.value);
    }
    if !resposta.ok {
      return pedido, corpo, Err("Falha ao trocar de loja");
    }
    r := Ok(resposta.activeLoja);
  }

  /**
   * The server's side of a `switchStore` request: `switch_loja` reads the
   * Authorization header the client built from the stored token and the
   * store of the body. With a valid stored token of a known user, the switch
   * succeeds exactly when one of the user's groups holds the requested
   * store, and then activates that store; with no token stored it is 401.
   * This takes the mock-auth router to be mounted under the API base.
   */
  method TrocaNoServidor(users: MockAuth.Usuarios, decode: Jwt.Decodificador, armazenado: map<string, string>, lojaId: int)
    returns (r: Result<(MockAuth.Loja, Jwt.Token), Http.HttpErro>)
    ensures r.Ok? ==> r.value.0.id == lojaId && r.value.1.activeLojaId == Some(lojaId)
    ensures CHAVE_TOKEN !in armazenado ==> r == Err(Http.HttpErro(401, "Token ausente"))
    ensures (CHAVE_TOKEN in armazenado && armazenado[CHAVE_TOKEN] != "" && ' ' !in armazenado[CHAVE_TOKEN]
      && decode(armazenado[CHAVE_TOKEN]).Valido?
      && MockAuth.UsuarioPorId(users, decode(armazenado[CHAVE_TOKEN]).payload.userId).Some?) ==>
      var u := MockAuth.UsuarioPorId(users, decode(armazenado[CHAVE_TOKEN]).payload.userId).value;
      (r.Ok? <==> MockAuth.LojaEmGrupos(u.grupos, lojaId).Some?)
  {
    var cabecalhos := GetHeaders(armazenado);
    var corpo := SwitchLojaIn(lojaId);
    CabecalhoLidoPeloServidor(armazenado);
    r := MockAuth.SwitchLoja(users, Cabecalho(cabecalhos, "Authorization"), decode, corpo.lojaId);
  }
}
