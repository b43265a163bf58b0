/**
 * The front-end session (financeiro-frontend/src/contexts/AuthContext.tsx):
 * the user, groups, active store, token and loading flag, the transitions
 * of start-up, `login`, `logout`, `fetchMe` and `switchStore`, and the
 * derived `canEdit`. Server responses are parameters; the last route pushed
 * to the router is kept as state.
 */
module AuthContexto {

  import opened Wrappers
  import opened Navegador
  import Api
  import MockAuth

  /** `canEdit`: every active store allows editing except one where the user's role is LEITURA; no active store allows it. */
  function PodeEditar(activeLoja: Option<MockAuth.Loja>): (r: bool)
    ensures !r <==> activeLoja.Some? && activeLoja.value.role == "LEITURA"
    ensures activeLoja.None? ==> r
  {
    activeLoja.None? || activeLoja.value.role != "LEITURA"
  }

  /**
   * With the shipped users: "usuario" starts in Loja Centro as GESTOR and may
   * edit, but not after switching to Loja Norte, where the role is LEITURA;
   * "leitura" starts in Loja Norte and may not edit.
   */
  lemma PermissoesDosUsuariosFixos()
    ensures var u := MockAuth.USERS[0].1;
      && MockAuth.LojaPadrao(u) == Some(1)
      && MockAuth.LojaEmGrupos(u.grupos, 1) == Some(MockAuth.Loja(1, "Loja Centro", "GESTOR"))
      && PodeEditar(MockAuth.LojaEmGrupos(u.grupos, 1))
      && !PodeEditar(MockAuth.LojaEmGrupos(u.grupos, 2))
    ensures var u := MockAuth.USERS[1].1;
      && MockAuth.LojaPadrao(u) == Some(2)
      && !PodeEditar(MockAuth.LojaEmGrupos(u.grupos, 2))
  {
    var u := MockAuth.USERS[0].1;
    assert MockAuth.LojaNoGrupo(u.grupos[0].lojas, 2) == Some(MockAuth.Loja(2, "Loja Norte", "LEITURA")) by {
      assert u.grupos[0].lojas[1..] == [MockAuth.Loja(2, "Loja Norte", "LEITURA")];
    }
    assert u.grupos[..0] == [];
  }

  class AuthContext {
    var user: Option<MockAuth.UserOut>
    var grupos: seq<MockAuth.Grupo>
    var activeLoja: Option<MockAuth.Loja>
    var token: Option<string>
    var loading: bool
    /** The last route pushed to the router. */
    var rota: Option<string>
    const armazenamento: Armazenamento

    /**
     * `AuthProvider`'s initial state followed by its mount effect: with a
     * stored token the token is taken and the session loaded; without one,
     * loading ends with no user.
     */
    constructor(armazenamento: Armazenamento, respostaMe: Option<MockAuth.AuthMeOut>)
      modifies armazenamento
      ensures this.armazenamento == armazenamento
      ensures var guardado := old(armazenamento.GetItem(Api.CHAVE_TOKEN));
        && (guardado.None? || guardado.value == "" ==>
          user == None && grupos == [] && activeLoja == None && token == None && !loading && rota == None
          && armazenamento.itens == old(armazenamento.itens))
        && (guardado.Some? && guardado.value != "" && respostaMe.Some? ==>
          user == Some(respostaMe.value.user) && grupos == respostaMe.value.grupos
          && activeLoja == respostaMe.value.activeLoja && token == guardado && !loading && rota == None
          && armazenamento.itens == old(armazenamento.itens))
        && (guardado.Some? && guardado.value != "" && respostaMe.None? ==>
          user == None && grupos == [] && activeLoja == None && token == None && !loading && rota == Some("/login")
          && armazenamento.itens == old(armazenamento.itens) - {Api.CHAVE_TOKEN})
    {
      this.armazenamento := armazenamento;
      user := None;
      grupos := [];
      activeLoja := None;
      token := None;
      loading := true;
      rota := None;
      new;
      var storedToken := armazenamento.GetItem(Api.CHAVE_TOKEN);
      if storedToken.Some? && storedToken.value != "" {
        token := storedToken;
        FetchMe(respostaMe);
      } else {
        loading := false;
      }
    }

    /** `canEdit`. */
    function CanEdit(): bool
      reads this
    {
      PodeEditar(activeLoja)
    }

    /**
     * `logout`: the stored token is removed, the session emptied and the
     * router sent to the login page.
     */
    method Logout()
      modifies this, armazenamento
      ensures armazenamento.itens == old(armazenamento.itens) - {Api.CHAVE_TOKEN}
      ensures user == None && grupos == [] && activeLoja == None && token == None
      ensures rota == Some("/login") && loading == old(loading)
    {
      armazenamento.RemoveItem(Api.CHAVE_TOKEN);
      user := None;
      grupos := [];
      activeLoja := None;
      token := None;
      rota := Some("/login");
    }

    /**
     * `fetchMe`: a session from `/auth/me` replaces user, groups and active
     * store; a failed request logs out; loading ends either way.
     */
    method FetchMe(respostaMe: Option<MockAuth.AuthMeOut>)
      modifies this, armazenamento
      ensures !loading
      ensures respostaMe.Some? ==>
        && user == Some(respostaMe.value.user) && grupos == respostaMe.value.grupos
        && activeLoja == respostaMe.value.activeLoja
        && token == old(token) && rota == old(rota) && armazenamento.itens == old(armazenamento.itens)
      ensures respostaMe.None? ==>
        && user == None && grupos == [] && activeLoja == None && token == None && rota == Some("/login")
        && armazenamento.itens == old(armazenamento.itens) - {Api.CHAVE_TOKEN}
    {
      if respostaMe.Some? {
        var data := respostaMe.value;
        user := Some(data.user);
        grupos := data.grupos;
        activeLoja := data.activeLoja;
      } else {
        Logout();
      }
      loading := false;
    }

    /**
     * `login`: the token is stored and kept in state, the router is sent to
     * the home page, and the session is loaded; `fetchMe` is not awaited, so
     * it finishes after the navigation and a failure ends on the login page.
     */
    method Login(newToken: string, respostaMe: Option<MockAuth.AuthMeOut>)
      modifies this, armazenamento
      ensures !loading
      ensures respostaMe.Some? ==>
        && armazenamento.itens == old(armazenamento.itens)[Api.CHAVE_TOKEN := newToken]
        && token == Some(newToken) && rota == Some("/")
        && user == Some(respostaMe.value.user) && grupos == respostaMe.value.grupos
        && activeLoja == respostaMe.value.activeLoja
      ensures respostaMe.None? ==>
        && armazenamento.itens == old(armazenamento.itens) - {Api.CHAVE_TOKEN}
        && token == None && user == None && grupos == [] && activeLoja == None && rota == Some("/login")
    {
      armazenamento.SetItem(Api.CHAVE_TOKEN, newToken);
      token := Some(newToken);
      rota := Some("/");
      FetchMe(respostaMe);
      assert respostaMe.None? ==> armazenamento.itens == old(armazenamento.itens) - {Api.CHAVE_TOKEN};
    }

    /**
     * `switchStore`: the request asks for `lojaId`; a failed switch only
     * raises the alert (the API client may still have replaced the stored
     * token); a successful one sets the active store from the answer and
     * then reloads the session, whose active store is the final one, and a
     * failed reload logs out. The token in state is never updated.
     */
    method SwitchStore(base: string, lojaId: int, respostaTroca: Api.RespostaTroca, respostaMe: Option<MockAuth.AuthMeOut>)
      returns (corpo: Api.SwitchLojaIn, alerta: bool)
      modifies this, armazenamento
      ensures corpo == Api.SwitchLojaIn(lojaId)
      ensures alerta <==> !respostaTroca.ok
      ensures alerta ==>
        && user == old(user) && grupos == old(grupos) && activeLoja == old(activeLoja)
        && token == old(token) && loading == old(loading) && rota == old(rota)
      ensures !alerta && respostaMe.Some? ==>
        && activeLoja == respostaMe.value.activeLoja && user == Some(respostaMe.value.user)
        && grupos == respostaMe.value.grupos && token == old(token) && !loading && rota == old(rota)
      ensures !alerta && respostaMe.None? ==>
        && user == None && grupos == [] && activeLoja == None && token == None
        && rota == Some("/login") && !loading
      ensures var novo := respostaTroca.novoToken;
        var trocado := if novo.Some? && novo.value != "" then old(armazenamento.itens)[Api.CHAVE_TOKEN := novo.value]
                       else old(armazenamento.itens);
        && (alerta || respostaMe.Some? ==> armazenamento.itens == trocado)
        && (!alerta && respostaMe.None? ==> armazenamento.itens == trocado - {Api.CHAVE_TOKEN})
    {
      var pedido, response;
      pedido, corpo, response := Api.SwitchStore(armazenamento, base, lojaId, respostaTroca);
      if response.Err? {
        return corpo, true;
      }
      activeLoja := Some(response.value);
      FetchMe(respostaMe);
      alerta := false;
    }
  }
}
