/** The older measurement form of componentes/formulario-medicao-pecas.tsx:
    a fixed catalogue of part types, a per-field validator, the specification
    check and the form state. `parseFloat` is a parameter: None stands for NaN. */
module FormularioMedicaoPecas {
  import opened Wrappers
  import opened Text
  import FormularioMedicao

  type Classificacao = FormularioMedicao.Classificacao

  datatype Campo = Campo(nome: string, rotulo: string, obrigatorio: bool, min: Option<real>, max: Option<real>)
  datatype Especificacao = Especificacao(min: real, max: real, tolerancia: real)
  datatype TipoPeca = TipoPeca(id: string, nome: string, campos: seq<Campo>, especificacoes: map<string, Especificacao>)

  /** A field error; `Nenhum` is the empty message "", which JavaScript treats as no error. */
  datatype Erro =
    | Nenhum
    | Obrigatorio(rotulo: string)
    | NumeroInvalido(rotulo: string)
    | MenorQueMin(rotulo: string, min: real)
    | MaiorQueMax(rotulo: string, max: real)
    | SelecioneTipo

  const Geral := "geral"

  /** `obterTiposPecas` */
  function ObterTiposPecas(): seq<TipoPeca> {
    [ TipoPeca("eixo-transmissao", "Eixo de Transmissão",
        [ Campo("comprimento", "Comprimento (mm)", true, Some(0.0), Some(500.0)),
          Campo("diametro", "Diâmetro (mm)", true, Some(0.0), Some(100.0)) ],
        map["comprimento" := Especificacao(140.0, 160.0, 0.1), "diametro" := Especificacao(24.0, 26.0, 0.1)]),
      TipoPeca("engrenagem", "Engrenagem",
        [ Campo("diametro", "Diâmetro (mm)", true, Some(0.0), Some(200.0)),
          Campo("espessura", "Espessura (mm)", true, Some(0.0), Some(50.0)),
          Campo("numeroDentes", "Número de Dentes", true, Some(1.0), Some(200.0)) ],
        map["diametro" := Especificacao(75.0, 85.0, 0.05), "espessura" := Especificacao(10.0, 14.0, 0.05)]),
      TipoPeca("parafuso-m8", "Parafuso M8",
        [ Campo("comprimento", "Comprimento (mm)", true, Some(0.0), Some(100.0)),
          Campo("diametro", "Diâmetro (mm)", true, Some(0.0), Some(20.0)),
          Campo("passo", "Passo da Rosca (mm)", true, Some(0.0), Some(5.0)) ],
        map["comprimento" := Especificacao(38.0, 42.0, 0.02), "diametro" := Especificacao(7.8, 8.2, 0.02)]),
      TipoPeca("bucha", "Bucha",
        [ Campo("diametroInterno", "Diâmetro Interno (mm)", true, Some(0.0), Some(100.0)),
          Campo("diametroExterno", "Diâmetro Externo (mm)", true, Some(0.0), Some(100.0)),
          Campo("altura", "Altura (mm)", true, Some(0.0), Some(100.0)) ],
        map["diametroInterno" := Especificacao(14.5, 15.5, 0.03), "diametroExterno" := Especificacao(24.5, 25.5, 0.03)]) ]
  }

  /** `parseFloat` gives NaN on text with nothing but whitespace. */
  ghost predicate ParseFloatJs(parseFloat: string -> Option<real>) {
    forall s :: IsBlank(s) ==> parseFloat(s).None?
  }

  /** `validarCampo`: required, then numeric, then the lower bound, then the
      upper bound; the first failing check is reported. */
  function ValidarCampo(campo: Campo, valor: string, parseFloat: string -> Option<real>): (e: Erro)
    ensures e != SelecioneTipo
    ensures campo.obrigatorio && Trim(valor) == "" ==> e == Obrigatorio(campo.rotulo)
    ensures e == Nenhum <==>
      !(campo.obrigatorio && Trim(valor) == "") && parseFloat(valor).Some?
      && (campo.min.None? || campo.min.value <= parseFloat(valor).value)
      && (campo.max.None? || parseFloat(valor).value <= campo.max.value)
  {
    if campo.obrigatorio && Trim(valor) == "" then Obrigatorio(campo.rotulo)
    else
      var numeroValor := parseFloat(valor);
      if numeroValor.None? then NumeroInvalido(campo.rotulo)
      else if campo.min.Some? && numeroValor.value < campo.min.value then MenorQueMin(campo.rotulo, campo.min.value)
      else if campo.max.Some? && numeroValor.value > campo.max.value then MaiorQueMax(campo.rotulo, campo.max.value)
      else Nenhum
  }

  /** The bounds themselves are accepted. */
  lemma LimitesAceitos(campo: Campo, valor: string, parseFloat: string -> Option<real>)
    requires ParseFloatJs(parseFloat)
    requires campo.min.Some? && campo.max.Some? && campo.min.value <= campo.max.value
    requires parseFloat(valor) == campo.min || parseFloat(valor) == campo.max
    ensures ValidarCampo(campo, valor, parseFloat) == Nenhum
  {
    if Trim(valor) == "" {
      TrimEmptyIffBlank(valor);
    }
  }

  /** An optional field left empty is still rejected, as not a valid number. */
  lemma OpcionalVazioInvalido(campo: Campo, parseFloat: string -> Option<real>)
    requires ParseFloatJs(parseFloat) && !campo.obrigatorio
    ensures ValidarCampo(campo, "", parseFloat) == NumeroInvalido(campo.rotulo)
  {
    assert IsBlank("");
  }

  /** A "not a number" error on a required field always means there was text. */
  lemma NumeroInvalidoTemTexto(campo: Campo, valor: string, parseFloat: string -> Option<real>)
    requires campo.obrigatorio && ValidarCampo(campo, valor, parseFloat).NumeroInvalido?
    ensures !IsBlank(valor)
  {
    TrimEmptyIffBlank(valor);
  }

  /** `valores[campo.nome] || ""` */
  function ValorDe(valores: map<string, string>, nome: string): string {
    if nome in valores then valores[nome] else ""
  }

  /** The looked-up value is "" exactly when the key is missing or holds "";
      any other result is the stored value. */
  lemma ValorDeSse(valores: map<string, string>, nome: string)
    ensures ValorDe(valores, nome) == "" <==> nome !in valores || valores[nome] == ""
    ensures ValorDe(valores, nome) != "" ==> nome in valores && valores[nome] == ValorDe(valores, nome)
  {
  }

  /** The errors `validarFormulario` collects: one entry per failing field,
      a later field of the same name overwriting an earlier one. */
  function ErrosDoFormulario(campos: seq<Campo>, valores: map<string, string>,
                             parseFloat: string -> Option<real>): (r: map<string, Erro>)
    ensures forall k :: k in r ==> r[k] != Nenhum
  {
    if campos == [] then map[]
    else
      var anterior := campos[..|campos| - 1];
      var acc := ErrosDoFormulario(anterior, valores, parseFloat);
      var campo := campos[|campos| - 1];
      var erro := ValidarCampo(campo, ValorDe(valores, campo.nome), parseFloat);
      if erro != Nenhum then acc[campo.nome := erro] else acc
  }

  predicate FalhaEm(campos: seq<Campo>, valores: map<string, string>,
                    parseFloat: string -> Option<real>, k: string, i: int)
    requires 0 <= i < |campos|
  {
    campos[i].nome == k && ValidarCampo(campos[i], ValorDe(valores, k), parseFloat) != Nenhum
  }

  /** A name has an error exactly when some field of that name fails, its value
      read with `ValorDe`. */
  lemma {:induction false} ErrosDoFormularioChaves(campos: seq<Campo>, valores: map<string, string>,
                                                   parseFloat: string -> Option<real>, k: string)
    ensures k in ErrosDoFormulario(campos, valores, parseFloat) <==>
      exists i :: 0 <= i < |campos| && FalhaEm(campos, valores, parseFloat, k, i)
    decreases |campos|
  {
    if campos != [] {
      var anterior := campos[..|campos| - 1];
      var ultimo := campos[|campos| - 1];
      ErrosUltimo(campos, valores, parseFloat);
      ErrosDoFormularioChaves(anterior, valores, parseFloat, k);
      if k in ErrosDoFormulario(campos, valores, parseFloat) {
        if k in ErrosDoFormulario(anterior, valores, parseFloat) {
          var i :| 0 <= i < |anterior| && FalhaEm(anterior, valores, parseFloat, k, i);
          assert anterior[i] == campos[i];
          assert FalhaEm(campos, valores, parseFloat, k, i);
        } else {
          assert FalhaEm(campos, valores, parseFloat, k, |campos| - 1);
        }
      }
      if exists i :: 0 <= i < |campos| && FalhaEm(campos, valores, parseFloat, k, i) {
        var i :| 0 <= i < |campos| && FalhaEm(campos, valores, parseFloat, k, i);
        if i < |campos| - 1 {
          assert anterior[i] == campos[i];
          assert FalhaEm(anterior, valores, parseFloat, k, i);
        }
      }
    }
  }

  /** The `forEach` of `validarFormulario`. */
  method ColetarErros(campos: seq<Campo>, valores: map<string, string>, parseFloat: string -> Option<real>)
    returns (novosErros: map<string, Erro>)
    ensures novosErros == ErrosDoFormulario(campos, valores, parseFloat)
  {
    novosErros := map[];
    for i := 0 to |campos|
      invariant novosErros == ErrosDoFormulario(campos[..i], valores, parseFloat)
    {
      var campo := campos[i];
      assert campos[..i + 1][..i] == campos[..i];
      var valor := ValorDe(valores, campo.nome);
      var erro := ValidarCampo(campo, valor, parseFloat);
      if erro != Nenhum {
        novosErros := novosErros[campo.nome := erro];
      }
    }
    assert campos[..|campos|] == campos;
  }

  /** With distinct names, each field's entry is exactly its own validation. */
  lemma {:induction false} ErrosPorCampo(campos: seq<Campo>, valores: map<string, string>,
                                         parseFloat: string -> Option<real>, j: int)
    requires 0 <= j < |campos|
    requires forall a, b :: 0 <= a < b < |campos| ==> campos[a].nome != campos[b].nome
    requires ValidarCampo(campos[j], ValorDe(valores, campos[j].nome), parseFloat) != Nenhum
    ensures campos[j].nome in ErrosDoFormulario(campos, valores, parseFloat)
    ensures ErrosDoFormulario(campos, valores, parseFloat)[campos[j].nome]
      == ValidarCampo(campos[j], ValorDe(valores, campos[j].nome), parseFloat)
  {
    var anterior := campos[..|campos| - 1];
    var ultimo := campos[|campos| - 1];
    ErrosUltimo(campos, valores, parseFloat);
    if j < |campos| - 1 {
      assert anterior[j] == campos[j];
      assert ultimo.nome != campos[j].nome;
      ErrosPorCampo(anterior, valores, parseFloat, j);
    }
  }

  /** One step of the `forEach`: the last field updates the errors of the others. */
  lemma ErrosUltimo(campos: seq<Campo>, valores: map<string, string>, parseFloat: string -> Option<real>)
    requires campos != []
    ensures var ultimo := campos[|campos| - 1];
      var erro := ValidarCampo(ultimo, ValorDe(valores, ultimo.nome), parseFloat);
      var acc := ErrosDoFormulario(campos[..|campos| - 1], valores, parseFloat);
      ErrosDoFormulario(campos, valores, parseFloat) == if erro != Nenhum then acc[ultimo.nome := erro] else acc
  {
  }

  /** `tiposPecas.find((t) => t.id === id)` */
  function Encontrar(tipos: seq<TipoPeca>, id: string): (r: Option<TipoPeca>)
    ensures r.Some? <==> exists i :: 0 <= i < |tipos| && tipos[i].id == id
    ensures r.Some? ==> r.value.id == id && r.value in tipos
  {
    if tipos == [] then None
    else if tipos[0].id == id then Some(tipos[0])
    else
      var r := Encontrar(tipos[1..], id);
      assert forall i :: 1 <= i < |tipos| ==> tipos[i] == tipos[1..][i - 1];
      r
  }

  /** `verificarEspecificacao` */
  function VerificarEspecificacao(tipo: Option<TipoPeca>, nomeCampo: string, valor: string,
                                  parseFloat: string -> Option<real>): (r: Classificacao)
    ensures r == FormularioMedicao.Info <==>
      tipo.None? || nomeCampo !in tipo.value.especificacoes || parseFloat(valor).None?
    ensures r == FormularioMedicao.Aprovado <==>
      r != FormularioMedicao.Info
      && tipo.value.especificacoes[nomeCampo].min <= parseFloat(valor).value <= tipo.value.especificacoes[nomeCampo].max
  {
    if tipo.None? || nomeCampo !in tipo.value.especificacoes then FormularioMedicao.Info
    else
      var numeroValor := parseFloat(valor);
      if numeroValor.None? then FormularioMedicao.Info
      else
        var spec := tipo.value.especificacoes[nomeCampo];
        if numeroValor.value >= spec.min && numeroValor.value <= spec.max then FormularioMedicao.Aprovado
        else FormularioMedicao.ForaSpec
  }

  /** For the M8 bolt, a length is approved exactly within [38, 42] mm, and the
      thread pitch, which has no specification, is only informational. */
  lemma ParafusoM8(valor: string, parseFloat: string -> Option<real>)
    requires parseFloat(valor).Some?
    ensures var m8 := Encontrar(ObterTiposPecas(), "parafuso-m8");
      m8.Some?
      && VerificarEspecificacao(m8, "comprimento", valor, parseFloat)
         == (if 38.0 <= parseFloat(valor).value <= 42.0 then FormularioMedicao.Aprovado else FormularioMedicao.ForaSpec)
      && VerificarEspecificacao(m8, "passo", valor, parseFloat) == FormularioMedicao.Info
  {
    var tipos := ObterTiposPecas();
    assert tipos[0].id != "parafuso-m8";
    assert tipos[1].id != "parafuso-m8";
    assert Encontrar(tipos, "parafuso-m8") == Some(tipos[2]);
  }

  class Formulario {
    var tipoPecaSelecionada: string
    var valores: map<string, string>
    var observacoes: string
    var erros: map<string, Erro>
    var salvando: bool
    var medicaoSalva: bool

    constructor ()
      ensures tipoPecaSelecionada == "" && valores == map[] && observacoes == ""
      ensures erros == map[] && !salvando && !medicaoSalva
    {
      tipoPecaSelecionada := "";
      valores := map[];
      observacoes := "";
      erros := map[];
      salvando := false;
      medicaoSalva := false;
    }

    /** `tipoPeca`: the catalogue entry selected, if any. */
    function TipoPecaAtual(): Option<TipoPeca>
      reads this
    {
      Encontrar(ObterTiposPecas(), tipoPecaSelecionada)
    }

    /** `atualizarValor`: sets one value and, when that field shows an error,
        blanks it; no other error changes. */
    method AtualizarValor(campo: string, valor: string)
      modifies this
      ensures valores == old(valores)[campo := valor]
      ensures campo in old(erros) && old(erros)[campo] != Nenhum ==> erros == old(erros)[campo := Nenhum]
      ensures !(campo in old(erros) && old(erros)[campo] != Nenhum) ==> erros == old(erros)
      ensures tipoPecaSelecionada == old(tipoPecaSelecionada) && observacoes == old(observacoes)
      ensures salvando == old(salvando) && medicaoSalva == old(medicaoSalva)
    {
      valores := valores[campo := valor];
      if campo in erros && erros[campo] != Nenhum {
        erros := erros[campo := Nenhum];
      }
    }

    /** `validarFormulario`: with no type selected the only error is the
        general one; otherwise the errors become exactly the failing fields. */
    method ValidarFormulario(parseFloat: string -> Option<real>) returns (valido: bool)
      modifies this
      ensures tipoPecaSelecionada == old(tipoPecaSelecionada) && valores == old(valores)
      ensures observacoes == old(observacoes) && salvando == old(salvando) && medicaoSalva == old(medicaoSalva)
      ensures tipoPecaSelecionada == "" ==> erros == map[Geral := SelecioneTipo] && !valido
      ensures tipoPecaSelecionada != "" && TipoPecaAtual().Some? ==>
        erros == ErrosDoFormulario(TipoPecaAtual().value.campos, valores, parseFloat)
      ensures tipoPecaSelecionada != "" && TipoPecaAtual().None? ==> erros == map[]
      ensures tipoPecaSelecionada != "" ==> (valido <==> erros == map[])
    {
      if tipoPecaSelecionada == "" {
        erros := map[Geral := SelecioneTipo];
        return false;
      }
      var novosErros: map<string, Erro> := map[];
      var tipoPeca := TipoPecaAtual();
      if tipoPeca.Some? {
        novosErros := ColetarErros(tipoPeca.value.campos, valores, parseFloat);
      }
      erros := novosErros;
      valido := novosErros == map[];
    }

    /** `resetarFormulario` */
    method ResetarFormulario()
      modifies this
      ensures tipoPecaSelecionada == "" && valores == map[] && observacoes == "" && erros == map[]
      ensures !medicaoSalva && salvando == old(salvando)
    {
      tipoPecaSelecionada := "";
      valores := map[];
      observacoes := "";
      erros := map[];
      medicaoSalva := false;
    }

    /** `salvarMedicao`: nothing is recorded unless the form validates; the
        simulated backend always succeeds. */
    method SalvarMedicao(parseFloat: string -> Option<real>) returns (salvou: bool)
      modifies this
      ensures tipoPecaSelecionada == old(tipoPecaSelecionada) && valores == old(valores)
      ensures observacoes == old(observacoes)
      ensures salvou <==> old(tipoPecaSelecionada) != "" && erros == map[]
      ensures tipoPecaSelecionada == "" ==> erros == map[Geral := SelecioneTipo]
      ensures tipoPecaSelecionada != "" && TipoPecaAtual().Some? ==>
        erros == ErrosDoFormulario(TipoPecaAtual().value.campos, valores, parseFloat)
      ensures tipoPecaSelecionada != "" && TipoPecaAtual().None? ==> erros == map[]
      ensures salvou ==> medicaoSalva && !salvando
      ensures !salvou ==> medicaoSalva == old(medicaoSalva) && salvando == old(salvando)
    {
      var valido := ValidarFormulario(parseFloat);
      if !valido {
        return false;
      }
      salvando := true;
      salvando := false;
      medicaoSalva := true;
      salvou := true;
    }
  }
}
