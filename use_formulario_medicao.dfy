/** The measurement session of hooks/useFormularioMedicao.ts: one operator
    measuring the samples of a lot, piece by piece or dimension by dimension.
    The hook's `estado` record is a field of a class whose methods replace it
    the way `setEstado` does; every backend call is an outcome parameter. */
module FormularioMedicao {
  import opened Wrappers
  import opened ApiTypes

  // ---------------------------------------------------------------------
  // The form's view of a part type (hooks/formulario-medicao.types.ts)
  // ---------------------------------------------------------------------

  datatype TipoCampo = Number | Text

  datatype CampoPeca = CampoPeca(
    nome: string,
    rotulo: string,
    tipo: TipoCampo,
    obrigatorio: bool,
    min: Option<real>,
    max: Option<real>,
    step: real)

  datatype EspecificacaoCampo = EspecificacaoCampo(min: real, max: real, tolerancia: real)

  datatype TipoPeca = TipoPeca(
    id: int,
    nome: string,
    campos: seq<CampoPeca>,
    especificacoes: map<string, EspecificacaoCampo>)

  datatype Modo = PecaAPeca | CotaACota

  /** `x || fallback` for an optional number. */
  function OrReal(x: Option<real>, fallback: real): real {
    if Truthy(x) then x.value else fallback
  }

  function MapCampo(cota: CotaMetadata): (c: CampoPeca)
    ensures c.nome == cota.nome && c.obrigatorio
    ensures c.tipo == Number <==> cota.tipo == "number"
    ensures c.min.Some? <==> Truthy(cota.valorPadrao)
    ensures c.max.Some? <==> Truthy(cota.valorPadrao)
    ensures c.min.Some? ==>
      c.min.value == cota.valorPadrao.value - OrReal(cota.tolerancia, 0.1)
      && c.max.value == cota.valorPadrao.value + OrReal(cota.tolerancia, 0.1)
  {
    CampoPeca(
      cota.nome,
      cota.rotulo,
      if cota.tipo == "number" then Number else Text,
      true,
      if Truthy(cota.valorPadrao) then Some(cota.valorPadrao.value - OrReal(cota.tolerancia, 0.1)) else None,
      if Truthy(cota.valorPadrao) then Some(cota.valorPadrao.value + OrReal(cota.tolerancia, 0.1)) else None,
      if Truthy(cota.tolerancia) then cota.tolerancia.value / 10.0 else 0.01)
  }

  /** A dimension has a specification when both its tolerance and its nominal
      value are truthy (present and non-zero). */
  predicate TemEspecificacao(cota: CotaMetadata) {
    Truthy(cota.tolerancia) && Truthy(cota.valorPadrao)
  }

  function EspecificacaoDe(cota: CotaMetadata): (s: EspecificacaoCampo)
    requires TemEspecificacao(cota)
    ensures s.max - s.min == 2.0 * s.tolerancia && s.tolerancia != 0.0
  {
    EspecificacaoCampo(
      cota.valorPadrao.value - cota.tolerancia.value,
      cota.valorPadrao.value + cota.tolerancia.value,
      cota.tolerancia.value)
  }

  /** The `reduce` that builds `especificacoes`, left to right: a later dimension
      with the same name overwrites an earlier one. */
  function Especificacoes(cotas: seq<CotaMetadata>): (r: map<string, EspecificacaoCampo>)
    ensures forall n :: n in r ==> r[n].max - r[n].min == 2.0 * r[n].tolerancia
    ensures forall n :: n in r ==> exists i :: 0 <= i < |cotas| && cotas[i].nome == n && TemEspecificacao(cotas[i])
  {
    if cotas == [] then map[]
    else
      var anterior := cotas[..|cotas| - 1];
      var acc := Especificacoes(anterior);
      var cota := cotas[|cotas| - 1];
      assert forall n :: n in acc ==> exists i :: 0 <= i < |cotas| && cotas[i].nome == n && TemEspecificacao(cotas[i]) by {
        forall n | n in acc
          ensures exists i :: 0 <= i < |cotas| && cotas[i].nome == n && TemEspecificacao(cotas[i])
        {
          var i :| 0 <= i < |anterior| && anterior[i].nome == n && TemEspecificacao(anterior[i]);
          assert cotas[i] == anterior[i];
        }
      }
      if TemEspecificacao(cota) then acc[cota.nome := EspecificacaoDe(cota)] else acc
  }

  /** The specification of a name comes from the last dimension of that name
      that has one. */
  lemma {:induction false} EspecificacoesUltimaVence(cotas: seq<CotaMetadata>, j: int)
    requires 0 <= j < |cotas| && TemEspecificacao(cotas[j])
    requires forall k :: j < k < |cotas| && cotas[k].nome == cotas[j].nome ==> !TemEspecificacao(cotas[k])
    ensures cotas[j].nome in Especificacoes(cotas)
    ensures Especificacoes(cotas)[cotas[j].nome] == EspecificacaoDe(cotas[j])
  {
    var anterior := cotas[..|cotas| - 1];
    if j < |cotas| - 1 {
      assert anterior[j] == cotas[j];
      forall k | j < k < |anterior| && anterior[k].nome == anterior[j].nome
        ensures !TemEspecificacao(anterior[k])
      {
        assert anterior[k] == cotas[k];
      }
      EspecificacoesUltimaVence(anterior, j);
    }
  }

  /** A name none of whose dimensions has a tolerance and a nominal value gets
      no specification. */
  lemma EspecificacoesAusente(cotas: seq<CotaMetadata>, nome: string)
    requires forall k :: 0 <= k < |cotas| && cotas[k].nome == nome ==> !TemEspecificacao(cotas[k])
    ensures nome !in Especificacoes(cotas)
  {
  }

  /** `mapTipoPecaApiToFormulario`: every dimension becomes a required field, in
      order, and the specifications come from `Especificacoes`. */
  function MapTipoPecaApiToFormulario(api: TipoPecaResponse): (t: TipoPeca)
    ensures |t.campos| == |api.metadadosCotas|
    ensures forall i :: 0 <= i < |t.campos| ==> t.campos[i] == MapCampo(api.metadadosCotas[i])
    ensures t.especificacoes == Especificacoes(api.metadadosCotas)
  {
    TipoPeca(
      api.id,
      api.nome,
      seq(|api.metadadosCotas|, i requires 0 <= i < |api.metadadosCotas| => MapCampo(api.metadadosCotas[i])),
      Especificacoes(api.metadadosCotas))
  }

  /** The names of a field list. */
  function Nomes(campos: seq<CampoPeca>): set<string> {
    set i | 0 <= i < |campos| :: campos[i].nome
  }

  /** `campos.reduce((acc, campo) => ({ ...acc, [campo.nome]: "" }), {})` */
  function ValoresIniciais(campos: seq<CampoPeca>): (v: map<string, string>)
    ensures v.Keys == Nomes(campos)
    ensures forall k :: k in v ==> v[k] == ""
  {
    map k | k in Nomes(campos) :: ""
  }

  // ---------------------------------------------------------------------
  // Classification of a typed value against its specification
  // ---------------------------------------------------------------------

  datatype Classificacao = Aprovado | ForaSpec | Info

  /** `verificarEspecificacao`; `numero` stands for `Number(valor)`, None for NaN. */
  function VerificarEspecificacao(tipo: Option<TipoPeca>, nomeCampo: string, valor: string,
                                  numero: string -> Option<real>): (r: Classificacao)
    ensures r == Info <==>
      tipo.None? || valor == "" || numero(valor).None? || nomeCampo !in tipo.value.especificacoes
    ensures r == Aprovado <==>
      r != Info && tipo.value.especificacoes[nomeCampo].min <= numero(valor).value <= tipo.value.especificacoes[nomeCampo].max
  {
    if tipo.None? || valor == "" then Info
    else
      var numValor := numero(valor);
      if numValor.None? || nomeCampo !in tipo.value.especificacoes then Info
      else
        var spec := tipo.value.especificacoes[nomeCampo];
        if spec.min <= numValor.value && numValor.value <= spec.max then Aprovado else ForaSpec
  }

  /** End to end: for the last dimension of a name that has a specification, a
      typed number is approved exactly when it lies within the tolerance of the
      nominal value, bounds included. */
  lemma ClassificacaoPelaTolerancia(api: TipoPecaResponse, j: int, valor: string,
                                    numero: string -> Option<real>)
    requires 0 <= j < |api.metadadosCotas| && TemEspecificacao(api.metadadosCotas[j])
    requires forall k :: (j < k < |api.metadadosCotas| && api.metadadosCotas[k].nome == api.metadadosCotas[j].nome
      ==> !TemEspecificacao(api.metadadosCotas[k]))
    requires valor != "" && numero(valor).Some?
    ensures var cota := api.metadadosCotas[j];
      VerificarEspecificacao(Some(MapTipoPecaApiToFormulario(api)), cota.nome, valor, numero)
      == if cota.valorPadrao.value - cota.tolerancia.value <= numero(valor).value <= cota.valorPadrao.value + cota.tolerancia.value
         then Aprovado else ForaSpec
  {
    EspecificacoesUltimaVence(api.metadadosCotas, j);
  }

  /** A field whose dimensions carry no tolerance or no nominal value is only
      ever informational. */
  lemma SemEspecificacaoSempreInfo(api: TipoPecaResponse, nome: string, valor: string,
                                   numero: string -> Option<real>)
    requires forall k :: (0 <= k < |api.metadadosCotas| && api.metadadosCotas[k].nome == nome
      ==> !TemEspecificacao(api.metadadosCotas[k]))
    ensures VerificarEspecificacao(Some(MapTipoPecaApiToFormulario(api)), nome, valor, numero) == Info
  {
    EspecificacoesAusente(api.metadadosCotas, nome);
  }

  // ---------------------------------------------------------------------
  // The session state
  // ---------------------------------------------------------------------

  /** `FormularioState`; the accumulated measurements are kept in the API's form. */
  datatype Estado = Estado(
    loteSelecionadoId: Option<int>,
    loteDetalhe: Option<LoteResponse>,
    pecaAtual: int,
    valores: map<string, string>,
    observacoes: string,
    erros: map<string, string>,
    medicoesAcumuladas: seq<MedicaoResponse>,
    salvando: bool,
    loteCompletado: bool,
    loteAprovado: Option<bool>,
    modo: Option<Modo>,
    cotaIndexAtual: int)

  /** `ESTADO_INICIAL` */
  const EstadoInicial := Estado(None, None, 1, map[], "", map[], [], false, false, None, None, 0)

  const Critico := "critico"
  const MsgObrigatorio := "Este campo é obrigatório."
  const MsgFalhaLotes := "Falha ao carregar a lista de Lotes do servidor."
  const MsgFalhaDetalhe := "Falha ao carregar o detalhe do lote selecionado."
  const MsgFalhaMedicoes := "Falha ao carregar medições anteriores."
  const MsgFalhaEnvio := "Erro ao enviar medição para o servidor. Tente novamente."
  const MsgConclusaoInterna := "Conclusão do lote falhou por motivo interno não detalhado."
  const MsgConclusaoPadrao := "Erro ao concluir lote no servidor. Exibindo Reprovado."
  const MsgFalhaRecomecar := "Erro ao recomeçar o lote no servidor. Tente novamente."

  /** `tipoPeca`, derived from the lot detail. */
  function TipoPecaDe(e: Estado): (t: Option<TipoPeca>)
    ensures t.Some? <==> e.loteDetalhe.Some?
  {
    if e.loteDetalhe.None? then None else Some(MapTipoPecaApiToFormulario(e.loteDetalhe.value.tipoPeca))
  }

  /** `quantidadeAmostrasDesejada || quantidadePecas`: the number of pieces to measure. */
  function LimiteAmostras(l: LoteResponse): (n: int)
    ensures l.quantidadeAmostrasDesejada != 0 ==> n == l.quantidadeAmostrasDesejada
    ensures l.quantidadeAmostrasDesejada == 0 ==> n == l.quantidadePecas
  {
    if l.quantidadeAmostrasDesejada != 0 then l.quantidadeAmostrasDesejada else l.quantidadePecas
  }

  /** `pecasNoLote`: the limit of the current lot, 0 with no lot. */
  function PecasNoLote(e: Estado): (n: int)
    ensures e.loteDetalhe.Some? ==> n == LimiteAmostras(e.loteDetalhe.value)
    ensures e.loteDetalhe.None? ==> n == 0
  {
    if e.loteDetalhe.None? then 0 else LimiteAmostras(e.loteDetalhe.value)
  }

  /** `cotaAtual`: the field at the dimension cursor, when there is one. */
  function CotaAtual(e: Estado): (c: Option<CampoPeca>)
    ensures c.Some? <==> e.loteDetalhe.Some? && 0 <= e.cotaIndexAtual < |TipoPecaDe(e).value.campos|
    ensures c.Some? ==> c.value == TipoPecaDe(e).value.campos[e.cotaIndexAtual]
  {
    var tipo := TipoPecaDe(e);
    if tipo.None? || !(0 <= e.cotaIndexAtual < |tipo.value.campos|) then None
    else Some(tipo.value.campos[e.cotaIndexAtual])
  }

  // ---------------------------------------------------------------------
  // Validation before a save
  // ---------------------------------------------------------------------

  /** `!valores[nome]`: the key is missing or its text is empty. */
  predicate ValorVazio(valores: map<string, string>, nome: string) {
    nome !in valores || valores[nome] == ""
  }

  /** The errors `salvarMedicao` finds in a field list, as its `forEach` fills them. */
  function ErrosObrigatorios(campos: seq<CampoPeca>, valores: map<string, string>): (r: map<string, string>)
    ensures forall k :: k in r ==> r[k] == MsgObrigatorio && ValorVazio(valores, k)
    ensures forall k :: k in r <==>
      exists i :: 0 <= i < |campos| && campos[i].nome == k && campos[i].obrigatorio && ValorVazio(valores, k)
  {
    if campos == [] then map[]
    else
      var anterior := campos[..|campos| - 1];
      var acc := ErrosObrigatorios(anterior, valores);
      var campo := campos[|campos| - 1];
      assert forall i :: 0 <= i < |anterior| ==> anterior[i] == campos[i];
      if campo.obrigatorio && ValorVazio(valores, campo.nome) then acc[campo.nome := MsgObrigatorio] else acc
  }

  /** The fields validated: only the current one dimension by dimension (when
      the cursor is on a field), all of them otherwise. */
  function CamposParaValidar(e: Estado): (campos: seq<CampoPeca>)
    requires e.loteDetalhe.Some?
    ensures e.modo == Some(CotaACota) && CotaAtual(e).Some? ==> campos == [CotaAtual(e).value]
    ensures !(e.modo == Some(CotaACota) && CotaAtual(e).Some?) ==> campos == TipoPecaDe(e).value.campos
  {
    var cotaAtual := CotaAtual(e);
    if e.modo == Some(CotaACota) && cotaAtual.Some? then [cotaAtual.value] else TipoPecaDe(e).value.campos
  }

  function ErrosDeValidacao(e: Estado): map<string, string>
    requires e.loteDetalhe.Some?
  {
    ErrosObrigatorios(CamposParaValidar(e), e.valores)
  }

  /** The validation loop of `salvarMedicao`. */
  method ValidarObrigatorios(camposParaValidar: seq<CampoPeca>, valores: map<string, string>)
    returns (novosErros: map<string, string>)
    ensures novosErros == ErrosObrigatorios(camposParaValidar, valores)
  {
    novosErros := map[];
    var i := 0;
    while i < |camposParaValidar|
      invariant 0 <= i <= |camposParaValidar|
      invariant novosErros == ErrosObrigatorios(camposParaValidar[..i], valores)
    {
      var campo := camposParaValidar[i];
      assert camposParaValidar[..i + 1][..i] == camposParaValidar[..i];
      if campo.obrigatorio && ValorVazio(valores, campo.nome) {
        novosErros := novosErros[campo.nome := MsgObrigatorio];
      }
      i := i + 1;
    }
    assert camposParaValidar[..i] == camposParaValidar;
  }

  /** A filled-in value is never an error, whatever its number: only required
      fields left empty are reported. */
  lemma PreenchidoNuncaErro(campos: seq<CampoPeca>, valores: map<string, string>, nome: string)
    requires nome in valores && valores[nome] != ""
    ensures nome !in ErrosObrigatorios(campos, valores)
  {
  }

  // ---------------------------------------------------------------------
  // Advancing the cursor after a stored measurement
  // ---------------------------------------------------------------------

  datatype Cursor = Cursor(peca: int, cota: int)

  /** What the advancing step decides: the next cursor, whether the lot is now
      complete, and whether only the current dimension's value is cleared. */
  datatype Avanco = Avanco(cursor: Cursor, completado: bool, limpaSoCota: bool)

  /** The advancing branches of `salvarMedicao` (`proximaPeca`,
      `proximaCotaIndex`, `loteCompletado`). */
  function Avancar(modo: Option<Modo>, c: Cursor, pecasNoLote: int, totalCotas: int): (a: Avanco)
    ensures a.completado ==> a.cursor == c && !a.limpaSoCota
    ensures modo.None? ==> a == Avanco(c, false, false)
    ensures modo == Some(PecaAPeca) ==> !a.limpaSoCota && (a.completado <==> c.peca + 1 > pecasNoLote)
    ensures modo == Some(CotaACota) ==>
      (a.completado <==> c.peca >= pecasNoLote && c.cota + 1 >= totalCotas)
    ensures modo == Some(PecaAPeca) && !a.completado ==> a.cursor == Cursor(c.peca + 1, c.cota)
    ensures modo == Some(CotaACota) && c.peca < pecasNoLote ==> a.cursor == Cursor(c.peca + 1, c.cota)
    ensures modo == Some(CotaACota) && c.peca >= pecasNoLote && !a.completado ==> a.cursor == Cursor(1, c.cota + 1)
    ensures a.limpaSoCota <==> modo == Some(CotaACota) && !a.completado
  {
    match modo
    case None => Avanco(c, false, false)
    case Some(PecaAPeca) =>
      if c.peca + 1 > pecasNoLote then Avanco(c, true, false)
      else Avanco(Cursor(c.peca + 1, c.cota), false, false)
    case Some(CotaACota) =>
      if c.peca < pecasNoLote then Avanco(Cursor(c.peca + 1, c.cota), false, true)
      else if c.cota + 1 < totalCotas then Avanco(Cursor(1, c.cota + 1), false, true)
      else Avanco(c, true, false)
  }

  function AvancoDe(e: Estado): Avanco
    requires e.loteDetalhe.Some?
  {
    Avancar(e.modo, Cursor(e.pecaAtual, e.cotaIndexAtual), PecasNoLote(e), |TipoPecaDe(e).value.campos|)
  }

  /** `cotaAtual!.nome` is read while there is no current field: a TypeError,
      raised after the measurement was already stored. */
  predicate LancaTypeError(e: Estado)
    requires e.loteDetalhe.Some?
  {
    AvancoDe(e).limpaSoCota && CotaAtual(e).None?
  }

  /** `novosValores` */
  function ValoresAposAvanco(e: Estado): map<string, string>
    requires e.loteDetalhe.Some? && !LancaTypeError(e)
  {
    if AvancoDe(e).limpaSoCota then e.valores[CotaAtual(e).value.nome := ""]
    else ValoresIniciais(TipoPecaDe(e).value.campos)
  }

  /** The cursor after `k` saves that did not complete the lot. */
  function Apos(k: nat, modo: Modo, pecasNoLote: int, totalCotas: int): Cursor {
    if k == 0 then Cursor(1, 0)
    else Avancar(Some(modo), Apos(k - 1, modo, pecasNoLote, totalCotas), pecasNoLote, totalCotas).cursor
  }

  /** Dimension by dimension, from piece 1 of the first dimension, save number
      `q * N + r` (counting from 0) is taken at piece `r + 1` of dimension `q`,
      and it completes the lot exactly when it is the last piece of the last
      dimension. Along the way the cursor stays on an existing field, so no
      save of the run throws. */
  lemma {:induction false} CotaACotaPercurso(q: int, r: int, n: int, c: int)
    requires 0 <= q < c && 0 <= r < n
    ensures q * n + r >= 0
    ensures Apos(q * n + r, CotaACota, n, c) == Cursor(r + 1, q)
    ensures Avancar(Some(CotaACota), Cursor(r + 1, q), n, c).completado <==> q == c - 1 && r == n - 1
  {
    assert q * n >= 0;
    if r > 0 {
      CotaACotaPercurso(q, r - 1, n, c);
    } else if q > 0 {
      CotaACotaPercurso(q - 1, n - 1, n, c);
      assert (q - 1) * n + (n - 1) + 1 == q * n;
    }
  }

  /** So the completing save is save number `N * C - 1`: exactly `N * C` saves
      complete a lot measured dimension by dimension. */
  lemma CotaACotaConclusao(n: int, c: int)
    requires n >= 1 && c >= 1
    ensures Apos(n * c - 1, CotaACota, n, c) == Cursor(n, c - 1)
    ensures Avancar(Some(CotaACota), Apos(n * c - 1, CotaACota, n, c), n, c).completado
  {
    CotaACotaPercurso(c - 1, n - 1, n, c);
    assert (c - 1) * n + (n - 1) == n * c - 1;
  }

  /** Piece by piece, the `k`-th save is at piece `k + 1`, and the save at
      `k = N - 1` is the one that completes the lot. */
  lemma {:induction false} PecaAPecaPercurso(k: nat, n: int, c: int)
    requires k < n
    ensures Apos(k, PecaAPeca, n, c) == Cursor(k + 1, 0)
    ensures Avancar(Some(PecaAPeca), Apos(k, PecaAPeca, n, c), n, c).completado <==> k == n - 1
  {
    if k > 0 {
      PecaAPecaPercurso(k - 1, n, c);
    }
  }

  // ---------------------------------------------------------------------
  // Resuming a lot from its stored measurements
  // ---------------------------------------------------------------------

  function Max(a: int, b: int): int {
    if a >= b then a else b
  }

  /** `pecaNumeros.length > 0 ? Math.max(...pecaNumeros) : 0` */
  function MaiorPecaNumero(ms: seq<MedicaoResponse>): (m: int)
    ensures forall i :: 0 <= i < |ms| ==> ms[i].pecaNumero <= m
    ensures |ms| == 0 ==> m == 0
    ensures |ms| > 0 ==> exists i :: 0 <= i < |ms| && ms[i].pecaNumero == m
  {
    if |ms| == 0 then 0
    else if |ms| == 1 then ms[0].pecaNumero
    else
      var anterior := ms[..|ms| - 1];
      var m0 := MaiorPecaNumero(anterior);
      assert forall i :: 0 <= i < |anterior| ==> anterior[i] == ms[i];
      Max(m0, ms[|ms| - 1].pecaNumero)
  }

  /** Pieces numbered 1, 2, ..., k resume at piece k + 1. */
  lemma {:induction false} MaiorPecaNumeroContiguo(ms: seq<MedicaoResponse>)
    requires forall i :: 0 <= i < |ms| ==> ms[i].pecaNumero == i + 1
    ensures MaiorPecaNumero(ms) == |ms|
  {
  }

  /** The piece cursor and completion flag computed on resuming. */
  function Retomada(ms: seq<MedicaoResponse>, limite: int): (r: (int, bool))
    ensures r.1 <==> MaiorPecaNumero(ms) + 1 > limite
    ensures r.1 ==> r.0 == limite
    ensures !r.1 ==> r.0 == MaiorPecaNumero(ms) + 1 && r.0 <= limite
  {
    var nextPecaNumero := MaiorPecaNumero(ms) + 1;
    var loteCompletado := nextPecaNumero > limite;
    (if loteCompletado then limite else nextPecaNumero, loteCompletado)
  }

  /** A lot with no measurements, and a positive limit, resumes at piece 1. */
  lemma RetomadaVazia(limite: int)
    requires limite >= 1
    ensures Retomada([], limite) == (1, false)
  {
  }

  /** After `limite` contiguous pieces the lot is complete, clamped at the limit. */
  lemma RetomadaCompleta(ms: seq<MedicaoResponse>)
    requires forall i :: 0 <= i < |ms| ==> ms[i].pecaNumero == i + 1
    ensures Retomada(ms, |ms|) == (|ms|, true)
  {
    MaiorPecaNumeroContiguo(ms);
  }

  // ---------------------------------------------------------------------
  // Concluding a lot
  // ---------------------------------------------------------------------

  datatype Conclusao = Concluido(lote: LoteResponse) | FalhaConclusao(mensagem: string)

  /** `error?.message || default` */
  function MensagemOuPadrao(message: string): (m: string)
    ensures m != ""
  {
    if message != "" then message else MsgConclusaoPadrao
  }

  /** The conclusion block: `concluirLote`, then (on `true`) the re-fetch of
      the lot; `false` is turned into an error with its own message. */
  function ConcluirLote(concluir: Call<bool>, recarga: Call<LoteResponse>): (r: Conclusao)
    ensures r.Concluido? <==> concluir == Ok(true) && recarga.Ok?
    ensures r.Concluido? ==> r.lote == recarga.value
    ensures concluir == Ok(false) ==> r == FalhaConclusao(MsgConclusaoInterna)
    ensures r.FalhaConclusao? ==> r.mensagem != ""
  {
    match concluir
    case Fail(_, m) => FalhaConclusao(MensagemOuPadrao(m))
    case Ok(sucesso) =>
      if !sucesso then FalhaConclusao(MensagemOuPadrao(MsgConclusaoInterna))
      else match recarga
        case Fail(_, m) => FalhaConclusao(MensagemOuPadrao(m))
        case Ok(l) => Concluido(l)
  }

  /** The state shown once a lot is complete. */
  function EstadoConcluido(e: Estado, r: Conclusao): (e': Estado)
    ensures e'.loteCompletado && !e'.salvando
    ensures e'.loteAprovado == Some(r.Concluido? && r.lote.status == "APROVADO")
    ensures r.FalhaConclusao? ==> Critico in e'.erros && e'.erros[Critico] == r.mensagem
    ensures e'.pecaAtual == e.pecaAtual && e'.cotaIndexAtual == e.cotaIndexAtual && e'.valores == e.valores
  {
    match r
    case Concluido(l) =>
      e.(salvando := false, loteCompletado := true, loteAprovado := Some(l.status == "APROVADO"), loteDetalhe := Some(l))
    case FalhaConclusao(m) =>
      e.(erros := e.erros[Critico := m], loteCompletado := true, salvando := false, loteAprovado := Some(false))
  }

  /** The guard of `salvarMedicao`. */
  predicate PodeSalvar(e: Estado, estaLogado: bool) {
    e.loteDetalhe.Some? && e.loteSelecionadoId.Some? && estaLogado && !e.salvando
  }

  predicate ErroCritico(erros: map<string, string>) {
    Critico in erros && erros[Critico] != ""
  }

  /** The advancing block of `salvarMedicao`, run once the measurement is
      stored: it reassigns the next piece, the next dimension, the completion
      flag and the new values branch by branch. `lanca` reports the TypeError of
      `cotaAtual!.nome` on a missing current field. */
  method ProximoPasso(estado: Estado)
    returns (proximaPeca: int, proximaCotaIndex: int, loteCompletado: bool,
             novosValores: map<string, string>, lanca: bool)
    requires estado.loteDetalhe.Some?
    ensures lanca <==> LancaTypeError(estado)
    ensures !lanca ==>
      Cursor(proximaPeca, proximaCotaIndex) == AvancoDe(estado).cursor
      && loteCompletado == AvancoDe(estado).completado
      && novosValores == ValoresAposAvanco(estado)
  {
    var tipoPeca := MapTipoPecaApiToFormulario(estado.loteDetalhe.value.tipoPeca);
    var cotaAtual := CotaAtual(estado);
    var pecasNoLote := PecasNoLote(estado);
    lanca := false;
    proximaPeca := estado.pecaAtual;
    proximaCotaIndex := estado.cotaIndexAtual;
    loteCompletado := false;
    var valoresResetados := ValoresIniciais(tipoPeca.campos);
    novosValores := valoresResetados;

    if estado.modo == Some(PecaAPeca) {
      proximaPeca := estado.pecaAtual + 1;
      loteCompletado := proximaPeca > pecasNoLote;
      proximaPeca := if loteCompletado then estado.pecaAtual else proximaPeca;
      novosValores := valoresResetados;
    } else if estado.modo == Some(CotaACota) {
      var totalCotas := |tipoPeca.campos|;
      if estado.pecaAtual < pecasNoLote {
        proximaPeca := estado.pecaAtual + 1;
        proximaCotaIndex := estado.cotaIndexAtual;
        if cotaAtual.None? {
          lanca := true;
          return;
        }
        novosValores := estado.valores[cotaAtual.value.nome := ""];
      } else {
        var indexProximaCota := estado.cotaIndexAtual + 1;
        if indexProximaCota < totalCotas {
          proximaCotaIndex := indexProximaCota;
          proximaPeca := 1;
          if cotaAtual.None? {
            lanca := true;
            return;
          }
          novosValores := estado.valores[cotaAtual.value.nome := ""];
        } else {
          loteCompletado := true;
          proximaCotaIndex := estado.cotaIndexAtual;
          proximaPeca := estado.pecaAtual;
          novosValores := valoresResetados;
        }
      }
    }
  }

  // ---------------------------------------------------------------------
  // The hook
  // ---------------------------------------------------------------------

  class Controlador {
    var estado: Estado
    var lotesDisponiveis: seq<LoteResumidoResponse>
    var carregandoLotes: bool

    constructor ()
      ensures estado == EstadoInicial && lotesDisponiveis == [] && !carregandoLotes
    {
      estado := EstadoInicial;
      lotesDisponiveis := [];
      carregandoLotes := false;
    }

    /** Effect 1: loads the lots available to the user. */
    method CarregarLotes(estaLogado: bool, resposta: Call<seq<LoteResumidoResponse>>)
      modifies this
      ensures !carregandoLotes
      ensures !estaLogado ==> estado == old(estado) && lotesDisponiveis == old(lotesDisponiveis)
      ensures estaLogado && resposta.Ok? ==>
        lotesDisponiveis == resposta.value && estado == old(estado).(erros := map[])
      ensures estaLogado && resposta.Fail? ==>
        lotesDisponiveis == old(lotesDisponiveis) && estado == old(estado).(erros := map[Critico := MsgFalhaLotes])
    {
      if !estaLogado {
        carregandoLotes := false;
        return;
      }
      carregandoLotes := true;
      estado := estado.(erros := map[]);
      match resposta {
        case Ok(lotes) =>
          lotesDisponiveis := lotes;
        case Fail(_, _) =>
          estado := estado.(erros := map[Critico := MsgFalhaLotes]);
      }
      carregandoLotes := false;
    }

    /** `setLoteSelecionadoId`: null resets the session; otherwise the lot's
        detail is fetched and the field values start empty. The piece cursor is
        left for `CarregarMedicoesExistentes`. */
    method SetLoteSelecionadoId(id: Option<int>, estaLogado: bool, detalhe: Call<LoteResponse>)
      modifies this
      ensures lotesDisponiveis == old(lotesDisponiveis)
      ensures id.None? ==> estado == EstadoInicial && carregandoLotes == old(carregandoLotes)
      ensures id.Some? && !estaLogado ==> estado == old(estado) && carregandoLotes == old(carregandoLotes)
      ensures id.Some? && estaLogado ==> !carregandoLotes
      ensures id.Some? && estaLogado && detalhe.Ok? ==>
        estado == old(estado).(loteSelecionadoId := id, erros := map[], loteDetalhe := Some(detalhe.value),
                               medicoesAcumuladas := [],
                               valores := ValoresIniciais(MapTipoPecaApiToFormulario(detalhe.value.tipoPeca).campos),
                               cotaIndexAtual := 0, loteCompletado := false, loteAprovado := None, modo := None)
      ensures id.Some? && estaLogado && detalhe.Fail? ==>
        estado == old(estado).(loteSelecionadoId := None, erros := map[Critico := MsgFalhaDetalhe],
                               loteDetalhe := None, medicoesAcumuladas := [])
    {
      if id.None? {
        estado := EstadoInicial;
        return;
      }
      if !estaLogado {
        return;
      }
      carregandoLotes := true;
      estado := estado.(loteSelecionadoId := id, erros := map[], loteDetalhe := None, medicoesAcumuladas := []);
      match detalhe {
        case Ok(d) =>
          var tipo := MapTipoPecaApiToFormulario(d.tipoPeca);
          var valoresIniciais := ValoresIniciais(tipo.campos);
          estado := estado.(loteDetalhe := Some(d), valores := valoresIniciais, cotaIndexAtual := 0,
                            loteCompletado := false, loteAprovado := None, modo := None);
        case Fail(_, _) =>
          estado := estado.(erros := map[Critico := MsgFalhaDetalhe], loteDetalhe := None, loteSelecionadoId := None);
      }
      carregandoLotes := false;
    }

    /** Effect 2, `carregarMedicoesExistentes`: with a lot selected and loaded,
        the piece cursor resumes after the highest stored piece number, clamped
        at the limit when the lot is already complete. */
    method CarregarMedicoesExistentes(medicoes: Call<seq<MedicaoResponse>>)
      modifies this
      ensures lotesDisponiveis == old(lotesDisponiveis)
      ensures old(estado).loteSelecionadoId.None? || old(estado).loteDetalhe.None? ==>
        estado == old(estado) && carregandoLotes == old(carregandoLotes)
      ensures old(estado).loteSelecionadoId.Some? && old(estado).loteDetalhe.Some? ==> !carregandoLotes
      ensures old(estado).loteSelecionadoId.Some? && old(estado).loteDetalhe.Some? && medicoes.Ok? ==>
        var r := Retomada(medicoes.value, LimiteAmostras(old(estado).loteDetalhe.value));
        estado == old(estado).(erros := map[], medicoesAcumuladas := medicoes.value,
                               pecaAtual := r.0, loteCompletado := r.1)
      ensures old(estado).loteSelecionadoId.Some? && old(estado).loteDetalhe.Some? && medicoes.Fail? ==>
        estado == old(estado).(erros := map[Critico := MsgFalhaMedicoes])
    {
      if estado.loteSelecionadoId.None? || estado.loteDetalhe.None? {
        return;
      }
      carregandoLotes := true;
      estado := estado.(erros := map[]);
      match medicoes {
        case Ok(medicoesAPI) =>
          var maiorPecaNumero := MaiorPecaNumero(medicoesAPI);
          var nextPecaNumero := maiorPecaNumero + 1;
          var limiteAmostras := LimiteAmostras(estado.loteDetalhe.value);
          var loteCompletado := nextPecaNumero > limiteAmostras;
          estado := estado.(medicoesAcumuladas := medicoesAPI,
                            pecaAtual := if loteCompletado then limiteAmostras else nextPecaNumero,
                            loteCompletado := loteCompletado);
        case Fail(_, _) =>
          estado := estado.(erros := map[Critico := MsgFalhaMedicoes]);
      }
      carregandoLotes := false;
    }

    /** `salvarMedicao`. Returns the add-measurement request sent (if any) and
        whether the lot conclusion was requested. */
    method SalvarMedicao(estaLogado: bool, adicionar: Call<LoteResponse>,
                         concluir: Call<bool>, recarga: Call<LoteResponse>)
      returns (pedido: Option<AdicionarMedicaoRequest>, conclusaoPedida: bool)
      modifies this
      ensures lotesDisponiveis == old(lotesDisponiveis) && carregandoLotes == old(carregandoLotes)
      // Guards: no selected lot, no part type, logged out or already saving.
      ensures !PodeSalvar(old(estado), estaLogado) ==>
        estado == old(estado) && pedido.None? && !conclusaoPedida
      // Validation: the missing required values are merged into the errors and nothing is sent.
      ensures PodeSalvar(old(estado), estaLogado) && ErrosDeValidacao(old(estado)) != map[] ==>
        estado == old(estado).(erros := old(estado).erros + ErrosDeValidacao(old(estado)))
        && pedido.None? && !conclusaoPedida
      ensures pedido.Some? <==> PodeSalvar(old(estado), estaLogado) && ErrosDeValidacao(old(estado)) == map[]
      ensures pedido.Some? ==> pedido.value == AdicionarMedicaoRequest(old(estado).valores, old(estado).observacoes)
      // Failure of the add call, or the TypeError after it: the cursor stays.
      ensures pedido.Some? && (adicionar.Fail? || LancaTypeError(old(estado))) ==>
        estado == old(estado).(salvando := false, erros := map[Critico := MsgFalhaEnvio]) && !conclusaoPedida
      // Advancing without completing.
      ensures pedido.Some? && adicionar.Ok? && !LancaTypeError(old(estado)) && !AvancoDe(old(estado)).completado ==>
        !conclusaoPedida
        && estado == old(estado).(erros := map[], medicoesAcumuladas := adicionar.value.medicoes,
                                  pecaAtual := AvancoDe(old(estado)).cursor.peca,
                                  cotaIndexAtual := AvancoDe(old(estado)).cursor.cota,
                                  loteCompletado := false, loteAprovado := None,
                                  valores := ValoresAposAvanco(old(estado)), observacoes := "",
                                  salvando := false, loteDetalhe := Some(adicionar.value))
      // Completing: the conclusion decides approval; its failure shows the lot as rejected.
      ensures pedido.Some? && adicionar.Ok? && AvancoDe(old(estado)).completado ==>
        conclusaoPedida
        && estado == EstadoConcluido(old(estado).(erros := map[]), ConcluirLote(concluir, recarga))
    {
      pedido, conclusaoPedida := None, false;
      if estado.loteDetalhe.None? || estado.loteSelecionadoId.None? || !estaLogado || estado.salvando {
        return;
      }
      var anterior := estado;
      var camposParaValidar := CamposParaValidar(anterior);
      var errosDeValidacao := ValidarObrigatorios(camposParaValidar, anterior.valores);
      assert errosDeValidacao == ErrosDeValidacao(anterior);
      if errosDeValidacao != map[] {
        estado := anterior.(erros := anterior.erros + errosDeValidacao);
        return;
      }

      estado := estado.(salvando := true, erros := map[]);
      pedido := Some(AdicionarMedicaoRequest(anterior.valores, anterior.observacoes));
      if adicionar.Fail? {
        estado := estado.(salvando := false, erros := estado.erros[Critico := MsgFalhaEnvio]);
        return;
      }
      var loteAtualizado := adicionar.value;

      var proximaPeca, proximaCotaIndex, loteCompletado, novosValores, lanca := ProximoPasso(anterior);
      if lanca {
        estado := estado.(salvando := false, erros := estado.erros[Critico := MsgFalhaEnvio]);
        return;
      }

      if loteCompletado {
        estado := estado.(salvando := true);
        conclusaoPedida := true;
        ConcluirLoteAtual(concluir, recarga);
        return;
      }

      estado := estado.(medicoesAcumuladas := loteAtualizado.medicoes, pecaAtual := proximaPeca,
                        cotaIndexAtual := proximaCotaIndex, loteCompletado := loteCompletado,
                        loteAprovado := None, valores := novosValores, observacoes := "",
                        salvando := false, loteDetalhe := Some(loteAtualizado));
    }

    /** The conclusion block of `salvarMedicao`: `concluirLote`, the re-fetch on
        `true`, and the rejected display on `false` or on any error. */
    method ConcluirLoteAtual(concluir: Call<bool>, recarga: Call<LoteResponse>)
      modifies this
      ensures lotesDisponiveis == old(lotesDisponiveis) && carregandoLotes == old(carregandoLotes)
      ensures estado == EstadoConcluido(old(estado), ConcluirLote(concluir, recarga))
    {
      var falha: Option<string> := None;
      match concluir {
        case Fail(_, m) =>
          falha := Some(m);
        case Ok(sucessoConclusao) =>
          if sucessoConclusao {
            match recarga {
              case Fail(_, m) =>
                falha := Some(m);
              case Ok(loteAtualizado) =>
                var isAprovado := loteAtualizado.status == "APROVADO";
                estado := estado.(salvando := false, loteCompletado := true,
                                  loteAprovado := Some(isAprovado), loteDetalhe := Some(loteAtualizado));
                return;
            }
          } else {
            falha := Some(MsgConclusaoInterna);
          }
      }
      estado := estado.(erros := estado.erros[Critico := MensagemOuPadrao(falha.value)],
                        loteCompletado := true, salvando := false, loteAprovado := Some(false));
    }

    /** `recomecarMedicao`: after the user confirms, the backend restarts the lot
        and the session goes back to the mode choice at piece 1. */
    method RecomecarMedicao(confirmado: bool, resposta: Call<LoteResponse>) returns (chamou: bool)
      modifies this
      ensures lotesDisponiveis == old(lotesDisponiveis) && carregandoLotes == old(carregandoLotes)
      ensures chamou <==> old(estado).loteSelecionadoId.Some? && !old(estado).salvando && confirmado
      ensures !chamou ==> estado == old(estado)
      ensures chamou && resposta.Ok? ==>
        estado == old(estado).(erros := map[], loteDetalhe := Some(resposta.value), medicoesAcumuladas := [],
                               pecaAtual := 1,
                               valores := ValoresIniciais(MapTipoPecaApiToFormulario(resposta.value.tipoPeca).campos),
                               observacoes := "", cotaIndexAtual := 0, loteCompletado := false,
                               loteAprovado := None, modo := None, salvando := false)
      ensures chamou && resposta.Fail? ==>
        estado == old(estado).(erros := map[Critico := MsgFalhaRecomecar], salvando := false)
    {
      chamou := false;
      if estado.loteSelecionadoId.None? || estado.salvando {
        return;
      }
      if !confirmado {
        return;
      }
      chamou := true;
      estado := estado.(salvando := true, erros := map[]);
      match resposta {
        case Ok(loteAtualizado) =>
          var tipo := MapTipoPecaApiToFormulario(loteAtualizado.tipoPeca);
          var valoresIniciais := ValoresIniciais(tipo.campos);
          estado := estado.(loteDetalhe := Some(loteAtualizado), medicoesAcumuladas := [], pecaAtual := 1,
                            valores := valoresIniciais, observacoes := "", cotaIndexAtual := 0,
                            loteCompletado := false, loteAprovado := None, modo := None, salvando := false);
        case Fail(_, _) =>
          estado := estado.(erros := estado.erros[Critico := MsgFalhaRecomecar], salvando := false);
      }
    }

    /** `cancelarMedicao`: the session always returns to its initial state and
        the parent's `onVoltar`, when given, is called. */
    method CancelarMedicao(temOnVoltar: bool) returns (voltou: bool)
      modifies this
      ensures estado == EstadoInicial
      ensures voltou == temOnVoltar
      ensures lotesDisponiveis == old(lotesDisponiveis) && carregandoLotes == old(carregandoLotes)
    {
      if estado.loteSelecionadoId.None? || estado.salvando {
        estado := EstadoInicial;
        voltou := temOnVoltar;
        return;
      }
      estado := estado.(salvando := true, erros := map[]);
      estado := EstadoInicial;
      voltou := temOnVoltar;
    }

    /** `setModo`: a new mode starts at piece 1 of the first dimension with
        empty values, notes and errors. */
    method SetModo(modo: Modo)
      modifies this
      ensures lotesDisponiveis == old(lotesDisponiveis) && carregandoLotes == old(carregandoLotes)
      ensures estado == old(estado).(modo := Some(modo), pecaAtual := 1, cotaIndexAtual := 0,
                                     valores := if TipoPecaDe(old(estado)).Some?
                                                then ValoresIniciais(TipoPecaDe(old(estado)).value.campos) else map[],
                                     observacoes := "", erros := map[])
    {
      var tipoPeca := TipoPecaDe(estado);
      var valores := if tipoPeca.Some? then ValoresIniciais(tipoPeca.value.campos) else map[];
      estado := estado.(modo := Some(modo), pecaAtual := 1, cotaIndexAtual := 0, valores := valores,
                        observacoes := "", erros := map[]);
    }

    /** `atualizarValor`: sets one value and blanks that field's error. */
    method AtualizarValor(campo: string, valor: string)
      modifies this
      ensures lotesDisponiveis == old(lotesDisponiveis) && carregandoLotes == old(carregandoLotes)
      ensures estado == old(estado).(valores := old(estado).valores[campo := valor],
                                     erros := old(estado).erros[campo := ""])
    {
      estado := estado.(valores := estado.valores[campo := valor], erros := estado.erros[campo := ""]);
    }

    method SetObservacoes(obs: string)
      modifies this
      ensures lotesDisponiveis == old(lotesDisponiveis) && carregandoLotes == old(carregandoLotes)
      ensures estado == old(estado).(observacoes := obs)
    {
      estado := estado.(observacoes := obs);
    }

    /** `existeErroCritico`: `!!erros.critico` */
    function ExisteErroCritico(): (b: bool)
      reads this
      ensures b <==> ErroCritico(estado.erros)
    {
      Critico in estado.erros && estado.erros[Critico] != ""
    }

    method ResetarFormulario()
      modifies this
      ensures lotesDisponiveis == old(lotesDisponiveis) && carregandoLotes == old(carregandoLotes)
      ensures estado == EstadoInicial
    {
      estado := EstadoInicial;
    }
  }

  /** Every failure of a save after validation leaves a critical error behind,
      and only a successful conclusion clears it. */
  lemma FalhaConclusaoCritica(e: Estado, concluir: Call<bool>, recarga: Call<LoteResponse>)
    requires !(concluir == Ok(true) && recarga.Ok?)
    ensures ErroCritico(EstadoConcluido(e, ConcluirLote(concluir, recarga)).erros)
    ensures EstadoConcluido(e, ConcluirLote(concluir, recarga)).loteAprovado == Some(false)
  {
  }
}
