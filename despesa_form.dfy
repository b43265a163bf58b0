/**
 * The expense form (financeiro-frontend/src/components/DespesaForm.tsx):
 * its initial state, the state loaded from an existing expense, and the
 * submit handler's validation, payload and choice between create and
 * update. `parseFloat` and `String(number)` are parameters; the API call's
 * outcome is a parameter too.
 */
module FormularioDespesa {

  import opened Wrappers
  import opened Text

  /** The form state; every field is the text of its input except the store. */
  datatype Form = Form(
    descricao: string,
    lojaId: int,
    categoriaId: string,
    valor: string,
    dataCompetencia: string,
    dataVencimento: string)

  /** The category reference of a `DespesaDetail`. */
  datatype CategoriaRef = CategoriaRef(id: int, nome: string)

  /** The fields of `DespesaDetail` the form reads. */
  datatype DespesaDetail = DespesaDetail(
    id: int,
    descricao: string,
    valorBruto: real,
    categoria: Option<CategoriaRef>,
    dataCompetencia: string,
    dataVencimento: string,
    lojaIdExterno: int)

  /**
   * The payload sent to the API: the form with the category as a number and
   * the amount parsed. A category that is not a numeral is NaN, sent as null.
   */
  datatype Payload = Payload(
    descricao: string,
    lojaId: int,
    categoriaId: Option<int>,
    valor: real,
    dataCompetencia: string,
    dataVencimento: string)

  /** The API call a submit makes. */
  datatype Chamada = Criar(payload: Payload) | Atualizar(id: int, payload: Payload)

  /** JavaScript's `parseFloat`; None is NaN. */
  type ParseFloat = string -> Option<real>

  /** JavaScript's `String(n)` for a number. */
  type NumeroParaTexto = real -> string

  const MSG_CATEGORIA := "Selecione uma categoria."
  const MSG_VALOR := "Valor inv\U{E1}lido."
  const MSG_DESCONHECIDO := "Erro desconhecido ao salvar."
  const MSG_CATEGORIAS := "N\U{E3}o foi poss\U{ED}vel carregar as categorias."

  /** The form before any data: empty fields, store 1, both dates today (the clock's ISO date is a parameter). */
  function FormInicial(hoje: string): Form
  {
    Form("", 1, "", "", hoje, hoje)
  }

  /**
   * The form loaded from an existing expense: the category id as text, or
   * empty when the expense has none; the gross amount as text; the store
   * from `loja_id_externo`.
   */
  function FormDeDetalhe(d: DespesaDetail, texto: NumeroParaTexto): (r: Form)
    ensures r.categoriaId == "" <==> d.categoria.None?
    ensures r.valor == texto(d.valorBruto) && r.lojaId == d.lojaIdExterno
  {
    Form(
      d.descricao,
      d.lojaIdExterno,
      if d.categoria.Some? then IntToString(d.categoria.value.id) else "",
      texto(d.valorBruto),
      d.dataCompetencia,
      d.dataVencimento)
  }

  /**
   * The checks and the payload of `handleSubmit`: an empty category fails
   * first; then the amount, with only its first comma turned into a dot,
   * must parse; otherwise the payload is the form with the category read
   * as a number and the parsed amount.
   */
  function ValidarFormulario(form: Form, parseFloat: ParseFloat): (r: Result<Payload, string>)
    ensures form.categoriaId == "" ==> r == Err(MSG_CATEGORIA)
    ensures form.categoriaId != "" && parseFloat(ReplaceFirst(form.valor, ',', '.')).None? ==> r == Err(MSG_VALOR)
    ensures r.Ok? <==> form.categoriaId != "" && parseFloat(ReplaceFirst(form.valor, ',', '.')).Some?
    ensures r.Ok? ==>
      && r.value.descricao == form.descricao && r.value.lojaId == form.lojaId
      && r.value.dataCompetencia == form.dataCompetencia && r.value.dataVencimento == form.dataVencimento
      && r.value.categoriaId == ParseInt(form.categoriaId)
      && Some(r.value.valor) == parseFloat(ReplaceFirst(form.valor, ',', '.'))
  {
    if form.categoriaId == "" then Err(MSG_CATEGORIA)
    else
      var valorNumerico := parseFloat(ReplaceFirst(form.valor, ',', '.'));
      if valorNumerico.None? then Err(MSG_VALOR)
      else Ok(Payload(form.descricao, form.lojaId, ParseInt(form.categoriaId), valorNumerico.value,
        form.dataCompetencia, form.dataVencimento))
  }

  /** Replacing the first comma of a text without commas changes nothing. */
  lemma ReplaceFirstSemVirgula(s: string)
    requires ',' !in s
    ensures ReplaceFirst(s, ',', '.') == s
  {
  }

  /** Only the first comma is replaced: "1,234,5" becomes "1.234,5". */
  lemma ReplaceFirstSoPrimeira()
    ensures ReplaceFirst("1,234,5", ',', '.') == "1.234,5"
  {
    var s := "1,234,5";
    var r := ReplaceFirst(s, ',', '.');
    assert s[..1] == "1";
    assert forall i :: 2 <= i < |s| ==> ',' in s[..i] by {
      forall i | 2 <= i < |s| ensures ',' in s[..i] {
        assert s[..i][1] == ',';
      }
    }
  }

  /**
   * Submitting an expense loaded into the form, unchanged, sends its own
   * values back, when the number-to-text conversion is one `parseFloat`
   * reads back (JavaScript's `String` of a number has no comma).
   */
  lemma EdicaoSemMudancasIdaEVolta(d: DespesaDetail, texto: NumeroParaTexto, parseFloat: ParseFloat)
    requires d.categoria.Some?
    requires ',' !in texto(d.valorBruto) && parseFloat(texto(d.valorBruto)) == Some(d.valorBruto)
    ensures ValidarFormulario(FormDeDetalhe(d, texto), parseFloat) ==
      Ok(Payload(d.descricao, d.lojaIdExterno, Some(d.categoria.value.id), d.valorBruto, d.dataCompetencia, d.dataVencimento))
  {
    ReplaceFirstSemVirgula(texto(d.valorBruto));
    ParseIntToString(d.categoria.value.id);
  }

  /** An expense without a category cannot be saved from the form until one is chosen. */
  lemma EdicaoSemCategoria(d: DespesaDetail, texto: NumeroParaTexto, parseFloat: ParseFloat)
    requires d.categoria.None?
    ensures ValidarFormulario(FormDeDetalhe(d, texto), parseFloat) == Err(MSG_CATEGORIA)
  {
  }

  class DespesaForm {
    var form: Form
    var loading: bool
    var errorMsg: string
    var categorias: seq<CategoriaRef>

    /** The initial state. */
    constructor(hoje: string)
      ensures form == FormInicial(hoje) && !loading && errorMsg == "" && categorias == []
    {
      form := FormInicial(hoje);
      loading := false;
      errorMsg := "";
      categorias := [];
    }

    /** The effect on `initialData`: an expense replaces the whole form; no expense leaves it. */
    method CarregarInicial(initialData: Option<DespesaDetail>, texto: NumeroParaTexto)
      modifies this
      ensures initialData.Some? ==> form == FormDeDetalhe(initialData.value, texto)
      ensures initialData.None? ==> form == old(form)
      ensures loading == old(loading) && errorMsg == old(errorMsg) && categorias == old(categorias)
    {
      if initialData.Some? {
        form := FormDeDetalhe(initialData.value, texto);
      }
    }

    /** The effect loading the categories: the list on success, an error message on failure. */
    method CarregarCategorias(resposta: Option<seq<CategoriaRef>>)
      modifies this
      ensures resposta.Some? ==> categorias == resposta.value && errorMsg == old(errorMsg)
      ensures resposta.None? ==> categorias == old(categorias) && errorMsg == MSG_CATEGORIAS
      ensures form == old(form) && loading == old(loading)
    {
      if resposta.Some? {
        categorias := resposta.value;
      } else {
        errorMsg := MSG_CATEGORIAS;
      }
    }

    /**
     * `handleSubmit`: the error message is cleared; a form that fails the
     * checks makes no call and shows its message; otherwise the payload
     * goes to update (with the loaded expense's id) or to create, and a
     * failed call shows its message or the fallback. Loading ends false.
     */
    method HandleSubmit(initialData: Option<DespesaDetail>, parseFloat: ParseFloat, falhaApi: Option<string>)
      returns (chamada: Option<Chamada>, sucesso: bool)
      modifies this
      ensures !loading && form == old(form) && categorias == old(categorias)
      ensures chamada.None? <==> ValidarFormulario(form, parseFloat).Err?
      ensures chamada.Some? ==> var payload := ValidarFormulario(form, parseFloat).value;
        chamada.value == if initialData.Some? then Atualizar(initialData.value.id, payload) else Criar(payload)
      ensures sucesso <==> chamada.Some? && falhaApi.None?
      ensures chamada.None? ==> errorMsg == ValidarFormulario(form, parseFloat).error
      ensures chamada.Some? && falhaApi.Some? ==> errorMsg == if falhaApi.value != "" then falhaApi.value else MSG_DESCONHECIDO
      ensures sucesso ==> errorMsg == ""
    {
      loading := true;
      errorMsg := "";
      var validado := ValidarFormulario(form, parseFloat);
      if validado.Err? {
        errorMsg := validado.error;
        chamada, sucesso := None, false;
      } else {
        var payload := validado.value;
        if initialData.Some? {
          chamada := Some(Atualizar(initialData.value.id, payload));
        } else {
          chamada := Some(Criar(payload));
        }
        if falhaApi.Some? {
          errorMsg := if falhaApi.value != "" then falhaApi.value else MSG_DESCONHECIDO;
          sucesso := false;
        } else {
          sucesso := true;
        }
      }
      loading := false;
    }
  }
}
