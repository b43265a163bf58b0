/**
 * The mock of the sales system's authentication
 * (financeiro_core/app/api/mock_auth.py): a fixed table of users with their
 * groups and stores, password login, the Bearer header check, the session
 * description of `/me`, and the store switch that issues a new token.
 * Tokens are the abstract records of the Jwt module.
 */
module MockAuth {

  import opened Wrappers
  import opened Text
  import opened Http
  import opened Jwt

  /** `LojaOut`: a store and the user's role in it. */
  datatype Loja = Loja(id: int, nome: string, role: string)

  /** `GrupoOut`: a group of stores and the user's role in it. */
  datatype Grupo = Grupo(id: int, nome: string, role: string, lojas: seq<Loja>)

  /** One entry of `USERS`. */
  datatype Usuario = Usuario(id: int, password: string, nome: string, email: string, grupos: seq<Grupo>)

  /** `UserOut`. */
  datatype UserOut = UserOut(id: int, nome: string, email: string)

  /** `AuthMeOut`: the user, the groups exactly as stored, and the active store if one was found. */
  datatype AuthMeOut = AuthMeOut(user: UserOut, grupos: seq<Grupo>, activeLoja: Option<Loja>)

  /** The user table, keyed by username, in the order the dictionary lists them. */
  type Usuarios = seq<(string, Usuario)>

  /** `USERS`. */
  const USERS: Usuarios := [
    ("usuario", Usuario(10, "senha", "Jo\U{E3}o", "joao@email.com", [
      Grupo(1, "Grupo SP", "SUPER_GRUPO", [Loja(1, "Loja Centro", "GESTOR"), Loja(2, "Loja Norte", "LEITURA")])
    ])),
    ("leitura", Usuario(11, "senha", "Maria", "maria@email.com", [
      Grupo(1, "Grupo SP", "LEITURA", [Loja(2, "Loja Norte", "LEITURA")])
    ]))
  ]

  // ---------------------------------------------------------------------------
  // login
  // ---------------------------------------------------------------------------

  /** `USERS.get(username)`. */
  function BuscarUsuario(users: Usuarios, username: string): (r: Option<Usuario>)
    ensures r.Some? ==> exists i :: 0 <= i < |users| && users[i] == (username, r.value)
    ensures r.None? <==> forall i :: 0 <= i < |users| ==> users[i].0 != username
    decreases |users|
  {
    if |users| == 0 then None
    else if users[0].0 == username then Some(users[0].1)
    else
      var r := BuscarUsuario(users[1..], username);
      assert r.Some? ==> exists i :: 0 <= i < |users| && users[i] == (username, r.value) by {
        if r.Some? {
          var i :| 0 <= i < |users[1..]| && users[1..][i] == (username, r.value);
          assert users[i + 1] == (username, r.value);
        }
      }
      r
  }

  /** The default active store: the first store of the first group, if there is one. */
  function LojaPadrao(u: Usuario): (r: Option<int>)
    ensures r.Some? <==> |u.grupos| > 0 && |u.grupos[0].lojas| > 0
    ensures r.Some? ==> r.value == u.grupos[0].lojas[0].id
  {
    if |u.grupos| > 0 && |u.grupos[0].lojas| > 0 then Some(u.grupos[0].lojas[0].id) else None
  }

  /**
   * `login`: 401 for an unknown username or a wrong password; otherwise a
   * token for the user with the default active store.
   */
  function Login(users: Usuarios, username: string, password: string): (r: Result<Token, HttpErro>)
    ensures r.Err? <==> BuscarUsuario(users, username).None? || BuscarUsuario(users, username).value.password != password
    ensures r.Err? ==> r.error == HttpErro(401, "Credenciais inv\U{E1}lidas")
    ensures r.Ok? ==> var u := BuscarUsuario(users, username).value;
      r.value.userId == u.id && r.value.activeLojaId == LojaPadrao(u)
  {
    var user := BuscarUsuario(users, username);
    if user.None? || user.value.password != password then Err(HttpErro(401, "Credenciais inv\U{E1}lidas"))
    else Ok(Token(user.value.id, LojaPadrao(user.value)))
  }

  /** With the shipped table: each user logs in to the first store of their first group; a wrong password is refused. */
  lemma LoginUsuariosFixos()
    ensures Login(USERS, "usuario", "senha") == Ok(Token(10, Some(1)))
    ensures Login(USERS, "leitura", "senha") == Ok(Token(11, Some(2)))
    ensures Login(USERS, "usuario", "errada").Err?
    ensures Login(USERS, "admin", "senha").Err?
  {
    assert BuscarUsuario(USERS, "leitura") == Some(USERS[1].1) by {
      assert USERS[0].0 != "leitura";
      assert USERS[1..][0].0 == "leitura";
    }
    assert BuscarUsuario(USERS, "admin") == None by {
      assert USERS[0].0 != "admin" && USERS[1].0 != "admin";
    }
  }

  // ---------------------------------------------------------------------------
  // get_user_from_request
  // ---------------------------------------------------------------------------

  const PREFIXO_BEARER := "Bearer "

  /**
   * The token part of an `Authorization` header: 401 when the header is
   * missing or empty or does not start with "Bearer "; otherwise the second
   * space-separated field.
   */
  function TokenDoCabecalho(cabecalho: Option<string>): (r: Result<string, HttpErro>)
    ensures r.Err? <==> cabecalho.None? || !IsPrefix(PREFIXO_BEARER, cabecalho.value)
    ensures r.Err? ==> r.error == HttpErro(401, "Token ausente")
    ensures r.Ok? ==> var resto := cabecalho.value[|PREFIXO_BEARER|..];
      r.value == Split(resto, ' ')[0] && IsPrefix(r.value, resto)
  {
    if cabecalho.None? || cabecalho.value == "" || !IsPrefix(PREFIXO_BEARER, cabecalho.value) then
      Err(HttpErro(401, "Token ausente"))
    else
      var h := cabecalho.value;
      var resto := h[|PREFIXO_BEARER|..];
      assert h == "Bearer" + [' '] + resto;
      SplitAt("Bearer", resto, ' ');
      SplitFirstIsPrefix(resto, ' ');
      Ok(Split(h, ' ')[1])
  }

  /** The first field of a split is a prefix of the string. */
  lemma {:induction false} SplitFirstIsPrefix(s: string, sep: char)
    ensures IsPrefix(Split(s, sep)[0], s)
    decreases |s|
  {
    if |s| > 0 && s[0] != sep {
      SplitFirstIsPrefix(s[1..], sep);
    }
  }

  /** A well-formed header "Bearer <token>" (section 2.1 of RFC 6750: the token has no spaces) yields the token. */
  lemma TokenDoCabecalhoBearer(t: string)
    requires ' ' !in t
    ensures TokenDoCabecalho(Some(PREFIXO_BEARER + t)) == Ok(t)
  {
    var h := PREFIXO_BEARER + t;
    assert h[|PREFIXO_BEARER|..] == t;
    assert IsPrefix(PREFIXO_BEARER, h);
    SplitNoSep(t, ' ');
  }

  /** Anything after a second space is ignored: "Bearer a b" yields "a". */
  lemma TokenDoCabecalhoSegundoCampo(t: string, extra: string)
    requires ' ' !in t
    ensures TokenDoCabecalho(Some(PREFIXO_BEARER + t + " " + extra)) == Ok(t)
  {
    var h := PREFIXO_BEARER + t + " " + extra;
    assert h[|PREFIXO_BEARER|..] == t + [' '] + extra;
    assert IsPrefix(PREFIXO_BEARER, h);
    SplitAt(t, extra, ' ');
  }

  /** The first user whose id is `userId`. */
  function UsuarioPorId(users: Usuarios, userId: int): (r: Option<Usuario>)
    ensures r.Some? ==> r.value.id == userId && exists i :: 0 <= i < |users| && users[i].1 == r.value
    ensures r.None? <==> forall i :: 0 <= i < |users| ==> users[i].1.id != userId
    decreases |users|
  {
    if |users| == 0 then None
    else if users[0].1.id == userId then Some(users[0].1)
    else
      var r := UsuarioPorId(users[1..], userId);
      assert r.Some? ==> exists i :: 0 <= i < |users| && users[i].1 == r.value by {
        if r.Some? {
          var i :| 0 <= i < |users[1..]| && users[1..][i].1 == r.value;
          assert users[i + 1].1 == r.value;
        }
      }
      r
  }

  /** The message of a token the decoder rejects. */
  function ErroDeToken(d: Decodificado): HttpErro
    requires !d.Valido?
  {
    if d.Expirado? then HttpErro(401, "Token expirado") else HttpErro(401, "Token inv\U{E1}lido")
  }

  /**
   * The outcome of authenticating a request: the header's token, its
   * decoding, and the user its id names, each failure a 401.
   */
  function Autenticacao(users: Usuarios, cabecalho: Option<string>, decode: Decodificador): Result<(Usuario, Option<int>), HttpErro>
  {
    var token := TokenDoCabecalho(cabecalho);
    if token.Err? then Err(token.error)
    else if !decode(token.value).Valido? then Err(ErroDeToken(decode(token.value)))
    else
      var payload := decode(token.value).payload;
      var user := UsuarioPorId(users, payload.userId);
      if user.None? then Err(HttpErro(401, "Usu\U{E1}rio n\U{E3}o encontrado"))
      else Ok((user.value, payload.activeLojaId))
  }

  /**
   * `get_user_from_request`: the header check, then the token's decoding,
   * then a scan of the users for the token's user id; 401 at each failure.
   * Returns the user and the token's active store.
   */
  method GetUserFromRequest(users: Usuarios, cabecalho: Option<string>, decode: Decodificador)
    returns (r: Result<(Usuario, Option<int>), HttpErro>)
    ensures TokenDoCabecalho(cabecalho).Err? ==> r == Err(TokenDoCabecalho(cabecalho).error)
    ensures TokenDoCabecalho(cabecalho).Ok? && !decode(TokenDoCabecalho(cabecalho).value).Valido? ==>
      r == Err(ErroDeToken(decode(TokenDoCabecalho(cabecalho).value)))
    ensures TokenDoCabecalho(cabecalho).Ok? && decode(TokenDoCabecalho(cabecalho).value).Valido? ==>
      var payload := decode(TokenDoCabecalho(cabecalho).value).payload;
      && (UsuarioPorId(users, payload.userId).None? ==> r == Err(HttpErro(401, "Usu\U{E1}rio n\U{E3}o encontrado")))
      && (UsuarioPorId(users, payload.userId).Some? ==> r == Ok((UsuarioPorId(users, payload.userId).value, payload.activeLojaId)))
    ensures r == Autenticacao(users, cabecalho, decode)
  {
    var token := TokenDoCabecalho(cabecalho);
    if token.Err? {
      return Err(token.error);
    }
    var decodificado := decode(token.value);
    if !decodificado.Valido? {
      return Err(ErroDeToken(decodificado));
    }
    var payload := decodificado.payload;
    var user: Option<Usuario> := None;
    var i := 0;
    while i < |users|
      invariant 0 <= i <= |users|
      invariant user.None? ==> UsuarioPorId(users, payload.userId) == UsuarioPorId(users[i..], payload.userId)
      invariant user.Some? ==> user == UsuarioPorId(users, payload.userId)
      decreases |users| - i, user.None?
    {
      if user.Some? {
        break;
      }
      if users[i].1.id == payload.userId {
        user := Some(users[i].1);
        assert users[i..][0] == users[i];
      } else {
        assert users[i..][1..] == users[i + 1..];
        i := i + 1;
      }
    }
    if user.None? {
      assert users[i..] == [];
      return Err(HttpErro(401, "Usu\U{E1}rio n\U{E3}o encontrado"));
    }
    r := Ok((user.value, payload.activeLojaId));
  }

  // ---------------------------------------------------------------------------
  // The store search of me and switch_loja
  // ---------------------------------------------------------------------------

  /** The first store of a group with the given id. */
  function LojaNoGrupo(lojas: seq<Loja>, lojaId: int): (r: Option<Loja>)
    ensures r.Some? ==> r.value.id == lojaId && r.value in lojas
    ensures r.None? <==> forall j :: 0 <= j < |lojas| ==> lojas[j].id != lojaId
    decreases |lojas|
  {
    if |lojas| == 0 then None
    else if lojas[0].id == lojaId then Some(lojas[0])
    else LojaNoGrupo(lojas[1..], lojaId)
  }

  /**
   * The store the nested search of `me` and `switch_loja` ends with: the
   * inner `break` leaves only the inner loop, so the last group holding the
   * store decides, and within it the first matching store.
   */
  function LojaEmGrupos(grupos: seq<Grupo>, lojaId: int): (r: Option<Loja>)
    ensures r.Some? ==> r.value.id == lojaId
    ensures r.None? <==> forall g :: 0 <= g < |grupos| ==> LojaNoGrupo(grupos[g].lojas, lojaId).None?
    decreases |grupos|
  {
    if |grupos| == 0 then None
    else
      var ultimo := LojaNoGrupo(grupos[|grupos| - 1].lojas, lojaId);
      if ultimo.Some? then ultimo else LojaEmGrupos(grupos[..|grupos| - 1], lojaId)
  }

  /** The last group holding the store decides. */
  lemma {:induction false} LojaEmGruposUltimoVence(grupos: seq<Grupo>, lojaId: int, k: int)
    requires 0 <= k < |grupos| && LojaNoGrupo(grupos[k].lojas, lojaId).Some?
    requires forall g :: k < g < |grupos| ==> LojaNoGrupo(grupos[g].lojas, lojaId).None?
    ensures LojaEmGrupos(grupos, lojaId) == LojaNoGrupo(grupos[k].lojas, lojaId)
    decreases |grupos|
  {
    if k < |grupos| - 1 {
      var anteriores := grupos[..|grupos| - 1];
      assert forall g :: k < g < |anteriores| ==> anteriores[g] == grupos[g];
      LojaEmGruposUltimoVence(anteriores, lojaId, k);
    }
  }

  /** A store listed in two groups under different roles is reported with the role of the later group. */
  lemma LojaEmGruposExemplo()
    ensures var grupos := [
        Grupo(1, "A", "SUPER_GRUPO", [Loja(7, "Loja", "GESTOR")]),
        Grupo(2, "B", "LEITURA", [Loja(7, "Loja", "LEITURA")])];
      LojaEmGrupos(grupos, 7) == Some(Loja(7, "Loja", "LEITURA"))
  {
  }

  /** The nested loops of `me` and `switch_loja`: the inner one stops at the first match, the outer one always goes on. */
  method ProcurarLoja(grupos: seq<Grupo>, lojaId: int) returns (encontrada: Option<Loja>)
    ensures encontrada == LojaEmGrupos(grupos, lojaId)
  {
    encontrada := None;
    for g := 0 to |grupos|
      invariant encontrada == LojaEmGrupos(grupos[..g], lojaId)
    {
      var lojas := grupos[g].lojas;
      var j := 0;
      while j < |lojas|
        invariant 0 <= j <= |lojas|
        invariant LojaNoGrupo(lojas, lojaId) == LojaNoGrupo(lojas[j..], lojaId)
        invariant encontrada == LojaEmGrupos(grupos[..g], lojaId)
      {
        if lojas[j].id == lojaId {
          assert lojas[j..][0] == lojas[j];
          encontrada := Some(lojas[j]);
          break;
        }
        assert lojas[j..][1..] == lojas[j + 1..];
        j := j + 1;
      }
      assert grupos[..g + 1][..g] == grupos[..g];
      assert grupos[..g + 1][g] == grupos[g];
      if j == |lojas| {
        assert lojas[j..] == [];
      }
    }
    assert grupos[..|grupos|] == grupos;
  }

  // ---------------------------------------------------------------------------
  // me and switch_loja
  // ---------------------------------------------------------------------------

  /**
   * `me`: the authenticated user, the groups unchanged, and the active store
   * found in them; none when the token's store is absent or 0.
   */
  method Me(users: Usuarios, cabecalho: Option<string>, decode: Decodificador) returns (r: Result<AuthMeOut, HttpErro>)
    ensures var a := Autenticacao(users, cabecalho, decode);
      && (a.Err? ==> r == Err(a.error))
      && (a.Ok? ==> var (u, lojaAtiva) := a.value;
        r == Ok(AuthMeOut(UserOut(u.id, u.nome, u.email), u.grupos,
          if Truthy(lojaAtiva) then LojaEmGrupos(u.grupos, lojaAtiva.value) else None)))
  {
    var autenticado := GetUserFromRequest(users, cabecalho, decode);
    if autenticado.Err? {
      return Err(autenticado.error);
    }
    var (user, activeLojaId) := autenticado.value;
    var activeLoja: Option<Loja> := None;
    if Truthy(activeLojaId) {
      activeLoja := ProcurarLoja(user.grupos, activeLojaId.value);
    }
    r := Ok(AuthMeOut(UserOut(user.id, user.nome, user.email), user.grupos, activeLoja));
  }

  /**
   * `switch_loja`: 403 when none of the user's groups holds the store, and
   * then no token is issued; otherwise the store and a new token for the
   * same user with that store active (sent in the `X-New-Token` header).
   */
  method SwitchLoja(users: Usuarios, cabecalho: Option<string>, decode: Decodificador, lojaId: int)
    returns (r: Result<(Loja, Token), HttpErro>)
    ensures var a := Autenticacao(users, cabecalho, decode);
      && (a.Err? ==> r == Err(a.error))
      && (a.Ok? && LojaEmGrupos(a.value.0.grupos, lojaId).None? ==> r == Err(HttpErro(403, "Acesso negado \U{E0} loja solicitada")))
      && (a.Ok? && LojaEmGrupos(a.value.0.grupos, lojaId).Some? ==>
        r == Ok((LojaEmGrupos(a.value.0.grupos, lojaId).value, Token(a.value.0.id, Some(lojaId)))))
    ensures r.Ok? ==> r.value.0.id == lojaId
  {
    var autenticado := GetUserFromRequest(users, cabecalho, decode);
    if autenticado.Err? {
      return Err(autenticado.error);
    }
    var user := autenticado.value.0;
    var targetLoja := ProcurarLoja(user.grupos, lojaId);
    if targetLoja.None? {
      return Err(HttpErro(403, "Acesso negado \U{E0} loja solicitada"));
    }
    var newToken := Token(user.id, Some(targetLoja.value.id));
    r := Ok((targetLoja.value, newToken));
  }

  /** A user can switch to a store exactly when some group of theirs holds it. */
  lemma SwitchLojaAcesso(u: Usuario, lojaId: int)
    ensures LojaEmGrupos(u.grupos, lojaId).None? <==>
      forall g, j :: 0 <= g < |u.grupos| && 0 <= j < |u.grupos[g].lojas| ==> u.grupos[g].lojas[j].id != lojaId
  {
    if LojaEmGrupos(u.grupos, lojaId).Some? {
      var g :| 0 <= g < |u.grupos| && LojaNoGrupo(u.grupos[g].lojas, lojaId).Some?;
      var l := LojaNoGrupo(u.grupos[g].lojas, lojaId).value;
      var j :| 0 <= j < |u.grupos[g].lojas| && u.grupos[g].lojas[j] == l;
    }
  }
}
