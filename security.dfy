/**
 * The Bearer authentication of the API (financeiro_core/app/api/security.py):
 * a valid token's claims are copied onto the request, and a store-scoped
 * endpoint may only be used for the store that is active in the token.
 */
module Security {

  import opened Wrappers
  import opened Text
  import opened Http
  import opened Jwt

  /** The request object, with the two attributes authentication may set; None is an attribute never set. */
  class Requisicao {
    var userId: Option<int>
    var activeLojaId: Option<int>

    /** A request authentication has not touched yet. */
    constructor()
      ensures userId == None && activeLojaId == None
    {
      userId := None;
      activeLojaId := None;
    }
  }

  /**
   * `AuthBearer.authenticate`: a token that decodes copies its user id and
   * active store onto the request and is accepted; an expired or invalid
   * token is refused (401) and leaves the request as it was.
   */
  method Authenticate(req: Requisicao, decode: Decodificador, token: string) returns (r: Option<Token>)
    modifies req
    ensures decode(token).Valido? ==>
      && r == Some(decode(token).payload)
      && req.userId == Some(decode(token).payload.userId)
      && req.activeLojaId == decode(token).payload.activeLojaId
    ensures !decode(token).Valido? ==> r == None && req.userId == old(req.userId) && req.activeLojaId == old(req.activeLojaId)
  {
    var decodificado := decode(token);
    if !decodificado.Valido? {
      return None;
    }
    var payload := decodificado.payload;
    req.userId := Some(payload.userId);
    req.activeLojaId := payload.activeLojaId;
    r := Some(payload);
  }

  /** `get_current_user_id`. */
  function GetCurrentUserId(req: Requisicao): Option<int>
    reads req
  {
    req.userId
  }

  /** `get_current_active_loja_id`. */
  function GetCurrentActiveLojaId(req: Requisicao): Option<int>
    reads req
  {
    req.activeLojaId
  }

  const PREFIXO_ACESSO_NEGADO := "Acesso negado: Voc\U{EA} est\U{E1} logado na loja "
  const MEIO_ACESSO_NEGADO := " mas tentou acessar a loja "

  /** The 403 message naming the active store and the requested one. */
  function MensagemAcessoNegado(active: int, requested: int): string
  {
    PREFIXO_ACESSO_NEGADO + IntToString(active) + [','] + MEIO_ACESSO_NEGADO + IntToString(requested) + "."
  }

  /**
   * `check_permission`: 401 when the request has no active store (never
   * set, or 0); 403 when the active store is another one; passes exactly
   * when the active store is the requested one and is not 0.
   */
  function CheckPermission(req: Requisicao, lojaIdRequested: int): (r: Outcome<HttpErro>)
    reads req
    ensures r.Pass? <==> req.activeLojaId == Some(lojaIdRequested) && lojaIdRequested != 0
    ensures !Truthy(req.activeLojaId) ==> r == Fail(HttpErro(401, "Usu\U{E1}rio sem loja ativa"))
    ensures Truthy(req.activeLojaId) && req.activeLojaId.value != lojaIdRequested ==>
      r == Fail(HttpErro(403, MensagemAcessoNegado(req.activeLojaId.value, lojaIdRequested)))
  {
    var active := GetCurrentActiveLojaId(req);
    if !Truthy(active) then Fail(HttpErro(401, "Usu\U{E1}rio sem loja ativa"))
    else if active.value != lojaIdRequested then Fail(HttpErro(403, MensagemAcessoNegado(active.value, lojaIdRequested)))
    else Pass
  }

  /** The 403 message tells the two stores apart: equal messages come from the same pair of stores. */
  lemma MensagemAcessoNegadoInjetiva(a1: int, r1: int, a2: int, r2: int)
    requires MensagemAcessoNegado(a1, r1) == MensagemAcessoNegado(a2, r2)
    ensures a1 == a2 && r1 == r2
  {
    IntToStringHasNo(a1, ',');
    IntToStringHasNo(a2, ',');
    CamposEntre(PREFIXO_ACESSO_NEGADO, IntToString(a1), IntToString(r1), IntToString(a2), IntToString(r2), MEIO_ACESSO_NEGADO, ".", ',');
    ParseIntToString(a1);
    ParseIntToString(a2);
    ParseIntToString(r1);
    ParseIntToString(r2);
  }

  /** Two fields of a fixed template are recovered when the first cannot contain the character that ends it. */
  lemma CamposEntre(p: string, x1: string, y1: string, x2: string, y2: string, q: string, e: string, c: char)
    requires c !in x1 && c !in x2
    requires p + x1 + [c] + q + y1 + e == p + x2 + [c] + q + y2 + e
    ensures x1 == x2 && y1 == y2
  {
    assert p + x1 + [c] + q + y1 + e == p + (x1 + [c] + (q + y1 + e));
    assert p + x2 + [c] + q + y2 + e == p + (x2 + [c] + (q + y2 + e));
    CancelaPrefixo(p, x1 + [c] + (q + y1 + e), x2 + [c] + (q + y2 + e));
    SeparadoPor(x1, q + y1 + e, x2, q + y2 + e, c);
    assert q + y1 + e == q + (y1 + e);
    assert q + y2 + e == q + (y2 + e);
    CancelaPrefixo(q, y1 + e, y2 + e);
    CancelaSufixo(y1, y2, e);
  }

  lemma CancelaPrefixo(p: string, x: string, y: string)
    requires p + x == p + y
    ensures x == y
  {
    assert x == (p + x)[|p|..];
    assert y == (p + y)[|p|..];
  }

  lemma CancelaSufixo(x: string, y: string, e: string)
    requires x + e == y + e
    ensures x == y
  {
    assert x == (x + e)[..|x + e| - |e|];
    assert y == (y + e)[..|y + e| - |e|];
  }

  /** A field without the separator is recovered from the front of "field, separator, rest". */
  lemma SeparadoPor(x1: string, t1: string, x2: string, t2: string, c: char)
    requires c !in x1 && c !in x2 && x1 + [c] + t1 == x2 + [c] + t2
    ensures x1 == x2 && t1 == t2
  {
    SplitAt(x1, t1, c);
    SplitAt(x2, t2, c);
    assert x1 == Split(x1 + [c] + t1, c)[0];
    assert x2 == Split(x2 + [c] + t2, c)[0];
    assert (x1 + [c]) + t1 == (x1 + [c]) + t2;
    CancelaPrefixo(x1 + [c], t1, t2);
  }
}
