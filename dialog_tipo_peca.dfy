/** The part-type dialog of componentes/DialogTipoPeca.tsx: its validity rule,
    the editor of a dimension's nominal value and tolerance, and the save that
    either updates the type being edited or registers a new one. */
module DialogTipoPeca {
  import opened Wrappers
  import opened Text
  import opened ApiTypes

  /** `isFormValid`: a name that is not blank once trimmed, and some dimension. */
  predicate IsFormValid(form: CriarTipoPecaRequest) {
    Trim(form.nome) != "" && |form.dimensoes| > 0
  }

  /** The form is valid exactly when the name has a non-whitespace character
      and the list of dimensions is not empty. */
  lemma IsFormValidSse(form: CriarTipoPecaRequest)
    ensures IsFormValid(form) <==> !IsBlank(form.nome) && form.dimensoes != []
  {
    TrimEmptyIffBlank(form.nome);
  }

  datatype CampoEspecificacao = ValorPadrao | Tolerancia

  /** The number typed into a spec input: blank text clears the value, otherwise
      `Number.parseFloat` decides (`None` is NaN). */
  function ValorNumerico(valorString: string, parseFloat: string -> Option<real>): (r: Option<real>)
    ensures IsBlank(valorString) ==> r.None?
    ensures !IsBlank(valorString) ==> r == parseFloat(valorString)
  {
    TrimEmptyIffBlank(valorString);
    if Trim(valorString) == "" then None else parseFloat(valorString)
  }

  /** `Math.abs` */
  function Abs(x: real): (r: real)
    ensures r >= 0.0 && (r == x || r == -x)
  {
    if x < 0.0 then -x else x
  }

  /** The dimension after one spec input: the nominal value keeps its sign, the
      tolerance is stored as a magnitude; nothing else of the dimension moves. */
  function Atualizada(d: CotaMetadata, campo: CampoEspecificacao, valor: Option<real>): (r: CotaMetadata)
    ensures r.nome == d.nome && r.rotulo == d.rotulo && r.tipo == d.tipo && r.unidade == d.unidade
    ensures campo == ValorPadrao ==> r.valorPadrao == valor && r.tolerancia == d.tolerancia
    ensures campo == Tolerancia ==> r.valorPadrao == d.valorPadrao
    ensures campo == Tolerancia ==> (r.tolerancia.None? <==> valor.None?)
    ensures campo == Tolerancia && valor.Some? ==> r.tolerancia.value >= 0.0
    ensures campo == Tolerancia && valor.Some? ==>
      r.tolerancia.value == valor.value || r.tolerancia.value == -valor.value
  {
    match campo
    case ValorPadrao => d.(valorPadrao := valor)
    case Tolerancia => d.(tolerancia := if valor.Some? then Some(Abs(valor.value)) else None)
  }

  /** A tolerance typed with a minus sign is stored as its magnitude, so two
      inputs that differ only in sign leave the same dimension. */
  lemma ToleranciaIgnoraSinal(d: CotaMetadata, x: real)
    ensures Atualizada(d, Tolerancia, Some(x)) == Atualizada(d, Tolerancia, Some(-x))
  {
  }

  datatype IdEdicao = IdNumero(n: int) | IdTexto(s: string)

  /** `!!tipoPecaIdParaEdicao` */
  predicate IdVerdadeiro(id: Option<IdEdicao>) {
    match id
    case None => false
    case Some(IdNumero(n)) => n != 0
    case Some(IdTexto(s)) => s != ""
  }

  /** The backend request `handleSalvarTipo` issues, if any. */
  datatype Pedido =
    | NenhumPedido
    | Atualizar(id: IdEdicao, payload: CriarTipoPecaRequest)
    | Cadastrar(payload: CriarTipoPecaRequest)

  class Dialogo {
    var open: bool
    var formData: CriarTipoPecaRequest
    var isSaving: bool

    constructor (open: bool, formData: CriarTipoPecaRequest)
      ensures this.open == open && this.formData == formData && !isSaving
    {
      this.open := open;
      this.formData := formData;
      isSaving := false;
    }

    /** `handleUpdateEspecificacao(index, tipo, valorString)`: the dimensions are
        copied into a new array whose chosen entry is then updated; an index
        outside the list leaves the form as it was. */
    method HandleUpdateEspecificacao(index: int, campo: CampoEspecificacao, valorString: string,
                                     parseFloat: string -> Option<real>)
      modifies this
      ensures !(0 <= index < |old(formData.dimensoes)|) ==> formData == old(formData)
      ensures 0 <= index < |old(formData.dimensoes)| ==>
        formData == old(formData).(dimensoes := old(formData.dimensoes)[index :=
          Atualizada(old(formData.dimensoes)[index], campo, ValorNumerico(valorString, parseFloat))])
      ensures open == old(open) && isSaving == old(isSaving)
    {
      var prev := formData.dimensoes;
      var novasDimensoes := new CotaMetadata[|prev|](i requires 0 <= i < |prev| => prev[i]);
      if !(0 <= index < novasDimensoes.Length) {
        return;
      }
      var valor := ValorNumerico(valorString, parseFloat);
      novasDimensoes[index] := Atualizada(novasDimensoes[index], campo, valor);
      formData := formData.(dimensoes := novasDimensoes[..]);
    }

    /** `handleSalvarTipo(outcome)`: ignored while the form is invalid or a save
        is running; otherwise it updates the edited type when the edit id is
        truthy and registers a new one when it is not, tells the parent on
        success, and is no longer saving afterwards in either outcome. */
    method HandleSalvarTipo(tipoPecaIdParaEdicao: Option<IdEdicao>, resposta: Call<()>)
      returns (pedido: Pedido, avisouSucesso: bool)
      modifies this
      ensures !IsFormValid(old(formData)) || old(isSaving) ==>
        pedido == NenhumPedido && !avisouSucesso && isSaving == old(isSaving)
      ensures IsFormValid(old(formData)) && !old(isSaving) ==>
        pedido == (if IdVerdadeiro(tipoPecaIdParaEdicao)
                   then Atualizar(tipoPecaIdParaEdicao.value, old(formData))
                   else Cadastrar(old(formData)))
        && avisouSucesso == resposta.Ok?
        && !isSaving
      ensures formData == old(formData) && open == old(open)
    {
      pedido := NenhumPedido;
      avisouSucesso := false;
      var payload := formData;
      var valido := IsFormValid(payload);
      if !valido || isSaving {
        return;
      }
      isSaving := true;
      if IdVerdadeiro(tipoPecaIdParaEdicao) {
        pedido := Atualizar(tipoPecaIdParaEdicao.value, payload);
      } else {
        pedido := Cadastrar(payload);
      }
      avisouSucesso := resposta.Ok?;
      isSaving := false;
    }
  }
}
