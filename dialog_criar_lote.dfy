/** The lot-creation dialog of componentes/DialogCriarLote.tsx: the form it
    loads when opened, its validity rule (at least one sample and no more
    samples than pieces), the submit and the field-by-field edits. */
module DialogCriarLote {
  import opened Wrappers
  import opened Text
  import opened ApiTypes

  /** `ESTADO_INICIAL_LOTE` */
  const EstadoInicialLote := CriarLoteRequest("", 0, 100, Some(10), Some(""))

  /** `quantidadeAmostrasDesejada ?? 0` */
  function AmostrasOuZero(form: CriarLoteRequest): int {
    form.quantidadeAmostrasDesejada.GetOr(0)
  }

  /** `isFormValid` */
  predicate IsFormValid(form: CriarLoteRequest) {
    Trim(form.descricao) != ""
    && form.tipoPecaId > 0
    && form.quantidadePecas > 0
    && AmostrasOuZero(form) > 0
    && AmostrasOuZero(form) <= form.quantidadePecas
  }

  /** Valid means: a description with a non-whitespace character, a chosen
      part type, and a sample count present, positive and within the lot. */
  lemma IsFormValidSse(form: CriarLoteRequest)
    ensures IsFormValid(form) <==>
      !IsBlank(form.descricao) && form.tipoPecaId > 0 && form.quantidadePecas > 0
      && form.quantidadeAmostrasDesejada.Some?
      && 0 < form.quantidadeAmostrasDesejada.value <= form.quantidadePecas
  {
    TrimEmptyIffBlank(form.descricao);
  }

  /** The form the dialog starts with is not submittable: no description and
      no part type yet. */
  lemma EstadoInicialInvalido()
    ensures !IsFormValid(EstadoInicialLote)
    ensures EstadoInicialLote.descricao == "" && EstadoInicialLote.tipoPecaId == 0
  {
    assert Trim(EstadoInicialLote.descricao) == "";
  }

  /** `Partial<CriarLoteForm>`: every property may be absent. */
  datatype DadosIniciais = DadosIniciais(
    descricao: Option<string>,
    tipoPecaId: Option<int>,
    quantidadePecas: Option<int>,
    quantidadeAmostrasDesejada: Option<int>,
    observacoes: Option<string>)

  function TextoOu(x: Option<string>, padrao: string): string {
    if x.Some? && x.value != "" then x.value else padrao
  }

  function NumeroOu(x: Option<int>, padrao: int): int {
    if x.Some? && x.value != 0 then x.value else padrao
  }

  /** The form loaded when the dialog opens: each absent or falsy value falls
      back to "", 0, 100, 10 and "". */
  function FormAoAbrir(d: DadosIniciais): (r: CriarLoteRequest)
    ensures r.descricao == (if d.descricao.Some? && d.descricao.value != "" then d.descricao.value else "")
    ensures r.tipoPecaId == (if d.tipoPecaId.Some? && d.tipoPecaId.value != 0 then d.tipoPecaId.value else 0)
    ensures r.quantidadePecas != 0 && r.quantidadeAmostrasDesejada.Some? && r.quantidadeAmostrasDesejada.value != 0
    ensures d.quantidadePecas.Some? && d.quantidadePecas.value != 0 ==> r.quantidadePecas == d.quantidadePecas.value
    ensures d.quantidadePecas.None? || d.quantidadePecas.value == 0 ==> r.quantidadePecas == 100
    ensures d.quantidadeAmostrasDesejada.Some? && d.quantidadeAmostrasDesejada.value != 0 ==>
      r.quantidadeAmostrasDesejada == d.quantidadeAmostrasDesejada
    ensures d.quantidadeAmostrasDesejada.None? || d.quantidadeAmostrasDesejada.value == 0 ==>
      r.quantidadeAmostrasDesejada == Some(10)
    ensures r.observacoes == Some(if d.observacoes.Some? && d.observacoes.value != "" then d.observacoes.value else "")
  {
    CriarLoteRequest(
      TextoOu(d.descricao, ""),
      NumeroOu(d.tipoPecaId, 0),
      NumeroOu(d.quantidadePecas, 100),
      Some(NumeroOu(d.quantidadeAmostrasDesejada, 10)),
      Some(TextoOu(d.observacoes, "")))
  }

  /** Opening with no initial data loads exactly the initial state. */
  lemma AbrirSemDados()
    ensures FormAoAbrir(DadosIniciais(None, None, None, None, None)) == EstadoInicialLote
  {
  }

  /** Pre-filled description and part type with the default quantities make a
      valid form: the defaults respect samples <= pieces. */
  lemma PadroesValidos(descricao: string, tipoPecaId: int)
    requires !IsBlank(descricao) && tipoPecaId > 0
    ensures IsFormValid(FormAoAbrir(DadosIniciais(Some(descricao), Some(tipoPecaId), None, None, None)))
  {
    var f := FormAoAbrir(DadosIniciais(Some(descricao), Some(tipoPecaId), None, None, None));
    assert descricao != "";
    IsFormValidSse(f);
  }

  /** One `handleInputChange(campo, valor)` call: the field and its new value. */
  datatype Entrada =
    | Descricao(s: string)
    | TipoPecaId(n: int)
    | QuantidadePecas(n: int)
    | QuantidadeAmostrasDesejada(n: int)
    | Observacoes(s: string)

  function Alterado(form: CriarLoteRequest, e: Entrada): (r: CriarLoteRequest)
    ensures e.Descricao? ==> r == form.(descricao := e.s)
    ensures e.TipoPecaId? ==> r == form.(tipoPecaId := e.n)
    ensures e.QuantidadePecas? ==> r == form.(quantidadePecas := e.n)
    ensures e.QuantidadeAmostrasDesejada? ==> r == form.(quantidadeAmostrasDesejada := Some(e.n))
    ensures e.Observacoes? ==> r == form.(observacoes := Some(e.s))
  {
    match e
    case Descricao(s) => form.(descricao := s)
    case TipoPecaId(n) => form.(tipoPecaId := n)
    case QuantidadePecas(n) => form.(quantidadePecas := n)
    case QuantidadeAmostrasDesejada(n) => form.(quantidadeAmostrasDesejada := Some(n))
    case Observacoes(s) => form.(observacoes := Some(s))
  }

  /** Lowering the piece count below the sample count makes a valid form
      invalid; editing the notes never changes validity. */
  lemma AlteracoesEValidade(form: CriarLoteRequest, n: int, s: string)
    requires IsFormValid(form) && n < AmostrasOuZero(form)
    ensures !IsFormValid(Alterado(form, QuantidadePecas(n)))
    ensures IsFormValid(Alterado(form, Observacoes(s)))
  {
  }

  class Dialogo {
    var open: bool
    var formDataLote: CriarLoteRequest
    var isSubmitting: bool

    constructor (open: bool)
      ensures this.open == open && formDataLote == EstadoInicialLote && !isSubmitting
    {
      this.open := open;
      formDataLote := EstadoInicialLote;
      isSubmitting := false;
    }

    /** The effect on `[open, dadosIniciais]`: an open dialog reloads its form. */
    method AoAbrir(dadosIniciais: DadosIniciais)
      modifies this
      ensures open ==> formDataLote == FormAoAbrir(dadosIniciais)
      ensures !open ==> formDataLote == old(formDataLote)
      ensures open == old(open) && isSubmitting == old(isSubmitting)
    {
      if open {
        formDataLote := FormAoAbrir(dadosIniciais);
      }
    }

    /** `handleCriarLote(resposta)`: an invalid form is never sent; a sent form
        closes the dialog when the parent resolves and leaves it open when it
        rejects; the dialog is no longer submitting afterwards. */
    method HandleCriarLote(resposta: Call<()>) returns (enviado: Option<CriarLoteRequest>)
      modifies this
      ensures !IsFormValid(old(formDataLote)) ==>
        enviado == None && open == old(open) && isSubmitting == old(isSubmitting)
      ensures IsFormValid(old(formDataLote)) ==>
        enviado == Some(old(formDataLote)) && !isSubmitting
        && open == (old(open) && resposta.Fail?)
      ensures formDataLote == old(formDataLote)
    {
      if !IsFormValid(formDataLote) {
        return None;
      }
      isSubmitting := true;
      enviado := Some(formDataLote);
      if resposta.Ok? {
        open := false;
      }
      isSubmitting := false;
    }

    /** `handleInputChange(campo, valor)` */
    method HandleInputChange(e: Entrada)
      modifies this
      ensures formDataLote == Alterado(old(formDataLote), e)
      ensures open == old(open) && isSubmitting == old(isSubmitting)
    {
      formDataLote := Alterado(formDataLote, e);
    }
  }
}
