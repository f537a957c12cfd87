/** The part-type manager of componentes/gerenciamento-tipos-pecas.tsx: a list
    of part types kept in component state, a dialog form that builds a new type
    field by field, and the handlers that create, edit, duplicate and toggle
    types, plus the statistics tab that sorts the list in place. */
module GerenciamentoTiposPecas {
  import opened Wrappers
  import opened Text
  import opened Lists
  import Ordenacao

  datatype TipoCampo = Number | Text

  datatype CampoMedicao = CampoMedicao(
    nome: string,
    rotulo: string,  // `label`
    tipo: TipoCampo,
    obrigatorio: bool,
    min: Option<real>,
    max: Option<real>,
    step: Option<real>,
    unidade: Option<string>)

  datatype Especificacao = Especificacao(min: real, max: real, tolerancia: real)

  datatype TipoPeca = TipoPeca(
    id: string,
    nome: string,
    descricao: string,
    campos: seq<CampoMedicao>,
    especificacoes: map<string, Especificacao>,
    ativo: bool,
    criadoEm: string,
    criadoPor: string,
    totalMedicoes: Option<int>)

  datatype FormData = FormData(
    nome: string,
    descricao: string,
    campos: seq<CampoMedicao>,
    especificacoes: map<string, Especificacao>)

  const FormVazio := FormData("", "", [], map[])

  /** The defaults `novoCampo` starts with and returns to after each addition. */
  const NovoCampoPadrao := CampoMedicao("", "", Number, true, None, None, None, Some("mm"))

  function Campo(nome: string, rotulo: string, min: real, max: real, step: Option<real>, unidade: string): CampoMedicao {
    CampoMedicao(nome, rotulo, Number, true, Some(min), Some(max), step, Some(unidade))
  }

  /** `tiposPecasIniciais` */
  function TiposPecasIniciais(): seq<TipoPeca> {
    [ TipoPeca("eixo-transmissao", "Eixo de Transmissão",
        "Eixo principal para transmissão de movimento rotativo",
        [ Campo("comprimento", "Comprimento", 0.0, 500.0, None, "mm"),
          Campo("diametro", "Diâmetro", 0.0, 100.0, None, "mm"),
          Campo("tolerancia", "Tolerância", 0.0, 1.0, Some(0.01), "±mm") ],
        map["comprimento" := Especificacao(140.0, 160.0, 0.1),
            "diametro" := Especificacao(24.0, 26.0, 0.1)],
        true, "2024-01-01", "Sistema", Some(312)),
      TipoPeca("engrenagem", "Engrenagem",
        "Engrenagem cilíndrica de dentes retos",
        [ Campo("diametro", "Diâmetro", 0.0, 200.0, None, "mm"),
          Campo("espessura", "Espessura", 0.0, 50.0, None, "mm"),
          Campo("numeroDentes", "Número de Dentes", 1.0, 200.0, None, "un"),
          Campo("tolerancia", "Tolerância", 0.0, 1.0, Some(0.01), "±mm") ],
        map["diametro" := Especificacao(75.0, 85.0, 0.05),
            "espessura" := Especificacao(10.0, 14.0, 0.05)],
        true, "2024-01-01", "Sistema", Some(287)),
      TipoPeca("parafuso-m8", "Parafuso M8",
        "Parafuso métrico M8 com rosca padrão",
        [ Campo("comprimento", "Comprimento", 0.0, 100.0, None, "mm"),
          Campo("diametro", "Diâmetro", 0.0, 20.0, None, "mm"),
          Campo("passo", "Passo da Rosca", 0.0, 5.0, Some(0.1), "mm"),
          Campo("tolerancia", "Tolerância", 0.0, 1.0, Some(0.01), "±mm") ],
        map["comprimento" := Especificacao(38.0, 42.0, 0.02),
            "diametro" := Especificacao(7.8, 8.2, 0.02)],
        true, "2024-01-01", "Sistema", Some(234)) ]
  }

  // ---------------------------------------------------------------------------
  // Names and ids

  /** `nome.toLowerCase().replace(/\s+/g, "")`: the stored name of a new field. */
  function NormalizarNomeCampo(nome: string): (r: string)
    ensures r == RemoveWhitespace(ToLower(nome))
    ensures forall i :: 0 <= i < |r| ==> !IsWhitespace(r[i]) && LowerChar(r[i]) == r[i]
  {
    SemMaiusculas(ToLower(nome));
    RemoveWhitespace(ToLower(nome))
  }

  lemma {:induction false} SemMaiusculas(s: string)
    requires forall i :: 0 <= i < |s| ==> LowerChar(s[i]) == s[i]
    ensures forall i :: 0 <= i < |RemoveWhitespace(s)| ==> LowerChar(RemoveWhitespace(s)[i]) == RemoveWhitespace(s)[i]
  {
    if s != [] {
      SemMaiusculas(s[1..]);
      if !IsWhitespace(s[0]) {
        var r := [s[0]] + RemoveWhitespace(s[1..]);
        assert forall i :: 1 <= i < |r| ==> r[i] == RemoveWhitespace(s[1..])[i - 1];
      }
    }
  }

  /** A name that is already normalized is stored unchanged, so normalizing twice
      is normalizing once. */
  lemma NormalizarIdempotente(nome: string)
    ensures NormalizarNomeCampo(NormalizarNomeCampo(nome)) == NormalizarNomeCampo(nome)
  {
    var r := NormalizarNomeCampo(nome);
    assert ToLower(r) == r;
    RemoveWhitespaceSemEspaco(r);
  }

  /** `nome.toLowerCase().replace(/\s+/g, "-")`: the id of a newly created type. */
  function SlugId(nome: string): (r: string)
    ensures r == ReplaceWhitespaceRuns(ToLower(nome), "-")
    ensures forall i :: 0 <= i < |r| ==> !IsWhitespace(r[i])
  {
    ReplaceWhitespaceRunsSemEspaco(ToLower(nome), "-");
    ReplaceWhitespaceRuns(ToLower(nome), "-")
  }

  // ---------------------------------------------------------------------------
  // Search

  /** The search predicate of `tiposFiltrados`: name or description contains the
      term, both sides lowercased. */
  predicate Corresponde(termoBusca: string, tipo: TipoPeca) {
    Contains(ToLower(tipo.nome), ToLower(termoBusca))
    || Contains(ToLower(tipo.descricao), ToLower(termoBusca))
  }

  function TiposFiltrados(tipos: seq<TipoPeca>, termoBusca: string): (r: seq<TipoPeca>)
    ensures forall t :: t in r ==> t in tipos && Corresponde(termoBusca, t)
  {
    Filter(tipos, t => Corresponde(termoBusca, t))
  }

  /** A type is listed exactly when it is in the list and matches the term. */
  lemma TiposFiltradosPertence(tipos: seq<TipoPeca>, termoBusca: string, t: TipoPeca)
    ensures t in TiposFiltrados(tipos, termoBusca) <==> t in tipos && Corresponde(termoBusca, t)
  {
    if t in tipos && Corresponde(termoBusca, t) {
      FilterKeepsPassing(tipos, t => Corresponde(termoBusca, t), t);
    }
  }

  /** An empty search lists every type, in order. */
  lemma BuscaVaziaListaTodos(tipos: seq<TipoPeca>)
    ensures TiposFiltrados(tipos, "") == tipos
  {
    forall i | 0 <= i < |tipos| ensures Corresponde("", tipos[i]) {
      ContainsEmpty(ToLower(tipos[i].nome));
    }
    FilterAllPass(tipos, t => Corresponde("", t));
  }

  // ---------------------------------------------------------------------------
  // List transforms used by the handlers

  /** `campos.filter((_, i) => i !== index)` */
  function SemIndice<T>(s: seq<T>, index: int): (r: seq<T>)
    ensures 0 <= index < |s| ==> r == s[..index] + s[index + 1..]
    ensures !(0 <= index < |s|) ==> r == s
  {
    if s == [] then []
    else (if index == 0 then [] else [s[0]]) + SemIndice(s[1..], index - 1)
  }

  /** `prev.map((tipo) => (tipo.id === id ? novo : tipo))` */
  function Substituir(s: seq<TipoPeca>, id: string, novo: TipoPeca): (r: seq<TipoPeca>)
    ensures |r| == |s|
    ensures forall i :: 0 <= i < |s| ==> r[i] == if s[i].id == id then novo else s[i]
  {
    seq(|s|, i requires 0 <= i < |s| => if s[i].id == id then novo else s[i])
  }

  /** `prev.map((tipo) => (tipo.id === id ? { ...tipo, ativo: !tipo.ativo } : tipo))` */
  function Alternado(s: seq<TipoPeca>, id: string): (r: seq<TipoPeca>)
    ensures |r| == |s|
    ensures forall i :: 0 <= i < |s| && s[i].id != id ==> r[i] == s[i]
    ensures forall i :: 0 <= i < |s| && s[i].id == id ==> r[i] == s[i].(ativo := !s[i].ativo)
  {
    seq(|s|, i requires 0 <= i < |s| => if s[i].id == id then s[i].(ativo := !s[i].ativo) else s[i])
  }

  /** Toggling the same id twice restores the list. */
  lemma AlternarDuasVezes(s: seq<TipoPeca>, id: string)
    ensures Alternado(Alternado(s, id), id) == s
  {
  }

  function Ids(s: seq<TipoPeca>): (r: seq<string>)
    ensures |r| == |s| && forall i :: 0 <= i < |s| ==> r[i] == s[i].id
  {
    seq(|s|, i requires 0 <= i < |s| => s[i].id)
  }

  /** Toggling keeps every id, so it never adds or removes a type. */
  lemma AlternarPreservaIds(s: seq<TipoPeca>, id: string)
    ensures Ids(Alternado(s, id)) == Ids(s)
  {
  }

  /** The type `salvarTipo` builds from the form; when editing, the edited type's
      id, creation date, author and count are kept unless they are falsy. */
  function NovoTipo(form: FormData, tipoEditando: Option<TipoPeca>, hoje: string, usuarioNome: Option<string>): (t: TipoPeca)
    ensures t.nome == form.nome && t.descricao == form.descricao
    ensures t.campos == form.campos && t.especificacoes == form.especificacoes
    ensures t.ativo
    ensures tipoEditando.Some? && tipoEditando.value.id != "" ==> t.id == tipoEditando.value.id
    ensures tipoEditando.None? ==> t.id == SlugId(form.nome)
    ensures tipoEditando.None? ==> t.criadoEm == hoje && t.totalMedicoes == Some(0)
    ensures tipoEditando.Some? && tipoEditando.value.criadoEm != "" ==> t.criadoEm == tipoEditando.value.criadoEm
    ensures tipoEditando.Some? && tipoEditando.value.criadoPor != "" ==> t.criadoPor == tipoEditando.value.criadoPor
    ensures tipoEditando.None? && usuarioNome.Some? && usuarioNome.value != "" ==> t.criadoPor == usuarioNome.value
    ensures t.totalMedicoes.Some? && (tipoEditando.None? || t.totalMedicoes.value == TotalOuZero(tipoEditando.value))
  {
    var e := tipoEditando;
    var autor := if usuarioNome.Some? && usuarioNome.value != "" then usuarioNome.value else "Admin";
    TipoPeca(
      if e.Some? && e.value.id != "" then e.value.id else SlugId(form.nome),
      form.nome,
      form.descricao,
      form.campos,
      form.especificacoes,
      true,
      if e.Some? && e.value.criadoEm != "" then e.value.criadoEm else hoje,
      if e.Some? && e.value.criadoPor != "" then e.value.criadoPor else autor,
      Some(if e.Some? then TotalOuZero(e.value) else 0))
  }

  /** Saving an edit whose type has an id replaces entries in place: the list of
      ids, and so their uniqueness, is unchanged. */
  lemma EdicaoPreservaIds(s: seq<TipoPeca>, form: FormData, editado: TipoPeca, hoje: string, usuarioNome: Option<string>)
    requires editado.id != ""
    ensures Ids(Substituir(s, editado.id, NovoTipo(form, Some(editado), hoje, usuarioNome))) == Ids(s)
  {
  }

  /** Creating does not check the new id against the list: a second type named
      like an existing one gets that type's id. */
  lemma CriarRepeteId(hoje: string, usuarioNome: Option<string>)
    ensures NovoTipo(FormData("Engrenagem", "", [], map[]), None, hoje, usuarioNome).id
      == TiposPecasIniciais()[1].id
  {
    var n := "Engrenagem";
    assert ToLower(n) == "engrenagem";
    assert ReplaceWhitespaceRuns("engrenagem", "-") == "engrenagem" by {
      ReplaceSemEspacoIdentidade("engrenagem", "-");
    }
  }

  /** A space inside the name becomes a hyphen in the id: "Parafuso M8"
      gives the id of the built-in M8 bolt. */
  lemma SlugParafusoM8()
    ensures SlugId("Parafuso M8") == "parafuso-m8" == TiposPecasIniciais()[2].id
  {
    assert ToLower("Parafuso M8") == "parafuso" + " " + "m8";
    ReplaceSemEspacoIdentidade("m8", "-");
    ReplaceWhitespaceRunsDecompoe("parafuso", " ", "m8", "-");
  }

  lemma {:induction false} ReplaceSemEspacoIdentidade(s: string, sep: string)
    requires forall i :: 0 <= i < |s| ==> !IsWhitespace(s[i])
    ensures ReplaceWhitespaceRuns(s, sep) == s
  {
    if s != [] {
      ReplaceSemEspacoIdentidade(s[1..], sep);
    }
  }

  // ---------------------------------------------------------------------------
  // Statistics tab

  /** `tipo.totalMedicoes || 0` */
  function TotalOuZero(t: TipoPeca): (r: int)
    ensures t.totalMedicoes.Some? ==> r == t.totalMedicoes.value
    ensures t.totalMedicoes.None? ==> r == 0
  {
    if t.totalMedicoes.Some? then t.totalMedicoes.value else 0
  }

  function ChaveUso(t: TipoPeca): real {
    TotalOuZero(t) as real
  }

  /** `tiposPecas.reduce((acc, tipo) => acc + (tipo.totalMedicoes || 0), 0)` */
  function TotalMedicoes(s: seq<TipoPeca>): int {
    if s == [] then 0 else TotalMedicoes(s[..|s| - 1]) + TotalOuZero(s[|s| - 1])
  }

  /** The sum is additive: the total of a concatenation is the sum of the
      totals, and one type contributes its `totalMedicoes || 0`. */
  lemma {:induction false} TotalMedicoesConcat(a: seq<TipoPeca>, b: seq<TipoPeca>)
    ensures TotalMedicoes(a + b) == TotalMedicoes(a) + TotalMedicoes(b)
    ensures |b| == 1 ==> TotalMedicoes(b) == TotalOuZero(b[0])
    decreases |b|
  {
    if b == [] {
      assert a + b == a;
    } else {
      assert (a + b)[..|a + b| - 1] == a + b[..|b| - 1];
      TotalMedicoesConcat(a, b[..|b| - 1]);
      if |b| == 1 {
        assert b[..0] == [];
      }
    }
  }

  /** `tiposPecas.reduce((acc, tipo) => acc + tipo.campos.length, 0)` */
  function TotalCampos(s: seq<TipoPeca>): (r: nat)
    ensures s != [] && (forall i :: 0 <= i < |s| ==> |s[i].campos| >= 1) ==> r >= |s|
  {
    if s == [] then 0 else TotalCampos(s[..|s| - 1]) + |s[|s| - 1].campos|
  }

  /** The field count is additive, one type contributing its number of fields. */
  lemma {:induction false} TotalCamposConcat(a: seq<TipoPeca>, b: seq<TipoPeca>)
    ensures TotalCampos(a + b) == TotalCampos(a) + TotalCampos(b)
    ensures |b| == 1 ==> TotalCampos(b) == |b[0].campos|
    decreases |b|
  {
    if b == [] {
      assert a + b == a;
    } else {
      assert (a + b)[..|a + b| - 1] == a + b[..|b| - 1];
      TotalCamposConcat(a, b[..|b| - 1]);
      if |b| == 1 {
        assert b[..0] == [];
      }
    }
  }

  /** `Math.round(x)`: the nearest integer, halves rounded up. */
  function Arredondar(x: real): (r: int)
    ensures x - 1.0 / 2.0 < r as real <= x + 1.0 / 2.0
  {
    (x + 1.0 / 2.0).Floor
  }

  /** "Campos Médios": the rounded average number of fields; an empty list
      divides by zero and renders NaN, modelled as `None`. */
  function CamposMedios(s: seq<TipoPeca>): (r: Option<int>)
    ensures r.None? <==> s == []
    ensures r.Some? ==> (r.value as real - 1.0 / 2.0) * |s| as real <= TotalCampos(s) as real
    ensures r.Some? ==> TotalCampos(s) as real < (r.value as real + 1.0 / 2.0) * |s| as real
  {
    if s == [] then None
    else
      var media := TotalCampos(s) as real / |s| as real;
      var r := Arredondar(media);
      ArredondamentoDaMedia(TotalCampos(s) as real, |s| as real, r);
      Some(r)
  }

  /** A rounded quotient, multiplied back, brackets the dividend. */
  lemma ArredondamentoDaMedia(t: real, n: real, r: int)
    requires n > 0.0
    requires t / n - 1.0 / 2.0 < r as real <= t / n + 1.0 / 2.0
    ensures (r as real - 1.0 / 2.0) * n <= t < (r as real + 1.0 / 2.0) * n
  {
    var m := t / n;
    assert m * n == t;
    var a := r as real - 1.0 / 2.0;
    var b := r as real + 1.0 / 2.0;
    assert a <= m < b;
    assert a * n <= m * n by {
      assert (m - a) * n >= 0.0;
    }
    assert m * n < b * n by {
      assert (b - m) * n > 0.0;
    }
  }

  /** The "ativos" count: `tiposPecas.filter((t) => t.ativo).length`. */
  function Ativos(s: seq<TipoPeca>): (r: nat)
    ensures r <= |s|
  {
    |Filter(s, EstaAtivo)|
  }

  predicate EstaAtivo(t: TipoPeca) {
    t.ativo
  }

  /** The count is additive, and one type counts 1 exactly when it is active. */
  lemma AtivosConcat(a: seq<TipoPeca>, b: seq<TipoPeca>)
    ensures Ativos(a + b) == Ativos(a) + Ativos(b)
    ensures |b| == 1 ==> (Ativos(b) == 1 <==> b[0].ativo)
  {
    FilterConcat(a, b, EstaAtivo);
    if |b| == 1 {
      assert b == [b[0]];
      FilterSingleton(b[0], EstaAtivo);
    }
  }

  class GerenciadorTiposPecas {
    var tiposPecas: seq<TipoPeca>
    var termoBusca: string
    var dialogAberto: bool
    var tipoEditando: Option<TipoPeca>
    var formData: FormData
    var novoCampo: CampoMedicao

    constructor ()
      ensures tiposPecas == TiposPecasIniciais() && termoBusca == ""
      ensures !dialogAberto && tipoEditando == None
      ensures formData == FormVazio && novoCampo == NovoCampoPadrao
    {
      tiposPecas := TiposPecasIniciais();
      termoBusca := "";
      dialogAberto := false;
      tipoEditando := None;
      formData := FormVazio;
      novoCampo := NovoCampoPadrao;
    }

    function TiposVisiveis(): (r: seq<TipoPeca>)
      reads this
      ensures forall t :: t in r ==> t in tiposPecas && Corresponde(termoBusca, t)
    {
      TiposFiltrados(tiposPecas, termoBusca)
    }

    method SetTermoBusca(termo: string)
      modifies this
      ensures termoBusca == termo
      ensures tiposPecas == old(tiposPecas) && dialogAberto == old(dialogAberto)
      ensures tipoEditando == old(tipoEditando) && formData == old(formData) && novoCampo == old(novoCampo)
    {
      termoBusca := termo;
    }

    /** `abrirNovoTipo` */
    method AbrirNovoTipo()
      modifies this
      ensures tipoEditando == None && formData == FormVazio && dialogAberto
      ensures tiposPecas == old(tiposPecas) && termoBusca == old(termoBusca) && novoCampo == old(novoCampo)
    {
      tipoEditando := None;
      formData := FormVazio;
      dialogAberto := true;
    }

    /** `abrirEdicaoTipo`: the form starts from copies of the type's data. */
    method AbrirEdicaoTipo(tipo: TipoPeca)
      modifies this
      ensures tipoEditando == Some(tipo) && dialogAberto
      ensures formData == FormData(tipo.nome, tipo.descricao, tipo.campos, tipo.especificacoes)
      ensures tiposPecas == old(tiposPecas) && termoBusca == old(termoBusca) && novoCampo == old(novoCampo)
    {
      tipoEditando := Some(tipo);
      formData := FormData(tipo.nome, tipo.descricao, tipo.campos, tipo.especificacoes);
      dialogAberto := true;
    }

    method SetNovoCampo(campo: CampoMedicao)
      modifies this
      ensures novoCampo == campo
      ensures tiposPecas == old(tiposPecas) && termoBusca == old(termoBusca) && dialogAberto == old(dialogAberto)
      ensures tipoEditando == old(tipoEditando) && formData == old(formData)
    {
      novoCampo := campo;
    }

    /** `adicionarCampo`: nothing happens while the new field lacks a name or a
        label; otherwise it is appended with its name normalized and the editor
        returns to its defaults. */
    method AdicionarCampo()
      modifies this
      ensures old(novoCampo.nome) == "" || old(novoCampo.rotulo) == "" ==>
        formData == old(formData) && novoCampo == old(novoCampo)
      ensures old(novoCampo.nome) != "" && old(novoCampo.rotulo) != "" ==>
        formData == old(formData).(campos := old(formData.campos)
          + [old(novoCampo).(nome := NormalizarNomeCampo(old(novoCampo.nome)))])
        && novoCampo == NovoCampoPadrao
      ensures tiposPecas == old(tiposPecas) && termoBusca == old(termoBusca)
      ensures dialogAberto == old(dialogAberto) && tipoEditando == old(tipoEditando)
    {
      if novoCampo.nome == "" || novoCampo.rotulo == "" {
        return;
      }
      var campoFormatado := novoCampo.(nome := NormalizarNomeCampo(novoCampo.nome));
      formData := formData.(campos := formData.campos + [campoFormatado]);
      novoCampo := NovoCampoPadrao;
    }

    /** `removerCampo(index)`: exactly that position goes; an index outside the
        list removes nothing. */
    method RemoverCampo(index: int)
      modifies this
      ensures formData == old(formData).(campos := SemIndice(old(formData.campos), index))
      ensures 0 <= index < |old(formData.campos)| ==>
        formData.campos == old(formData.campos)[..index] + old(formData.campos)[index + 1..]
      ensures tiposPecas == old(tiposPecas) && termoBusca == old(termoBusca) && novoCampo == old(novoCampo)
      ensures dialogAberto == old(dialogAberto) && tipoEditando == old(tipoEditando)
    {
      formData := formData.(campos := SemIndice(formData.campos, index));
    }

    /** `adicionarEspecificacao`: sets (or replaces) the spec of one field. */
    method AdicionarEspecificacao(nomeCampo: string, spec: Especificacao)
      modifies this
      ensures formData == old(formData).(especificacoes := old(formData.especificacoes)[nomeCampo := spec])
      ensures tiposPecas == old(tiposPecas) && termoBusca == old(termoBusca) && novoCampo == old(novoCampo)
      ensures dialogAberto == old(dialogAberto) && tipoEditando == old(tipoEditando)
    {
      formData := formData.(especificacoes := formData.especificacoes[nomeCampo := spec]);
    }

    /** `salvarTipo(hoje, usuario?.nome)`: nothing happens without a name or a
        field; an edit replaces every entry carrying the edited id and keeps the
        length, a creation appends one entry; the dialog closes. */
    method SalvarTipo(hoje: string, usuarioNome: Option<string>)
      modifies this
      ensures old(formData.nome) == "" || old(formData.campos) == [] ==>
        tiposPecas == old(tiposPecas) && dialogAberto == old(dialogAberto)
      ensures old(formData.nome) != "" && old(formData.campos) != [] && old(tipoEditando).Some? ==>
        tiposPecas == Substituir(old(tiposPecas), old(tipoEditando).value.id,
          NovoTipo(old(formData), old(tipoEditando), hoje, usuarioNome))
        && !dialogAberto
      ensures old(formData.nome) != "" && old(formData.campos) != [] && old(tipoEditando).None? ==>
        tiposPecas == old(tiposPecas) + [NovoTipo(old(formData), None, hoje, usuarioNome)]
        && !dialogAberto
      ensures termoBusca == old(termoBusca) && novoCampo == old(novoCampo)
      ensures formData == old(formData) && tipoEditando == old(tipoEditando)
    {
      if formData.nome == "" || |formData.campos| == 0 {
        return;
      }
      var novoTipo := NovoTipo(formData, tipoEditando, hoje, usuarioNome);
      if tipoEditando.Some? {
        tiposPecas := Substituir(tiposPecas, tipoEditando.value.id, novoTipo);
      } else {
        tiposPecas := tiposPecas + [novoTipo];
      }
      dialogAberto := false;
    }

    /** `duplicarTipo(tipo)`, with `Date.now()` given as its decimal text: one
        copy appended, same fields and specs, a fresh count. */
    method DuplicarTipo(tipo: TipoPeca, agora: string, hoje: string, usuarioNome: Option<string>)
      modifies this
      ensures tiposPecas == old(tiposPecas) + [Duplicado(tipo, agora, hoje, usuarioNome)]
      ensures termoBusca == old(termoBusca) && novoCampo == old(novoCampo) && formData == old(formData)
      ensures dialogAberto == old(dialogAberto) && tipoEditando == old(tipoEditando)
    {
      tiposPecas := tiposPecas + [Duplicado(tipo, agora, hoje, usuarioNome)];
    }

    /** `alternarStatus(id)` */
    method AlternarStatus(id: string)
      modifies this
      ensures tiposPecas == Alternado(old(tiposPecas), id)
      ensures termoBusca == old(termoBusca) && novoCampo == old(novoCampo) && formData == old(formData)
      ensures dialogAberto == old(dialogAberto) && tipoEditando == old(tipoEditando)
    {
      tiposPecas := Alternado(tiposPecas, id);
    }

    /** `tiposPecas.sort((a, b) => (b.totalMedicoes || 0) - (a.totalMedicoes || 0))`:
        the state array itself is reordered, most used first. */
    method OrdenarPorUtilizacao()
      modifies this
      ensures Ordenacao.DecrescentePor(tiposPecas, ChaveUso)
      ensures multiset(tiposPecas) == multiset(old(tiposPecas))
      ensures termoBusca == old(termoBusca) && novoCampo == old(novoCampo) && formData == old(formData)
      ensures dialogAberto == old(dialogAberto) && tipoEditando == old(tipoEditando)
    {
      var s := tiposPecas;
      var a := new TipoPeca[|s|](i requires 0 <= i < |s| => s[i]);
      assert a[..] == s;
      Ordenacao.OrdenarDecrescente(a, ChaveUso);
      tiposPecas := a[..];
    }

    /** "Mais Utilizado": the head of the sorted list, which has the largest count. */
    method MaisUtilizado() returns (r: Option<TipoPeca>)
      modifies this
      ensures r.Some? <==> tiposPecas != []
      ensures r.Some? ==> r.value == tiposPecas[0]
      ensures r.Some? ==> forall t :: t in tiposPecas ==> TotalOuZero(t) <= TotalOuZero(r.value)
      ensures multiset(tiposPecas) == multiset(old(tiposPecas))
      ensures termoBusca == old(termoBusca) && novoCampo == old(novoCampo) && formData == old(formData)
      ensures dialogAberto == old(dialogAberto) && tipoEditando == old(tipoEditando)
    {
      OrdenarPorUtilizacao();
      if tiposPecas == [] {
        r := None;
      } else {
        r := Some(tiposPecas[0]);
        forall t | t in tiposPecas ensures TotalOuZero(t) <= TotalOuZero(r.value) {
          var j :| 0 <= j < |tiposPecas| && tiposPecas[j] == t;
          if j > 0 {
            assert ChaveUso(tiposPecas[0]) >= ChaveUso(tiposPecas[j]);
          }
        }
      }
    }
  }

  /** The copy `duplicarTipo` appends. */
  function Duplicado(tipo: TipoPeca, agora: string, hoje: string, usuarioNome: Option<string>): (t: TipoPeca)
    ensures t.nome == tipo.nome + " (Cópia)"
    ensures t.id == tipo.id + "-copia-" + agora
    ensures t.campos == tipo.campos && t.especificacoes == tipo.especificacoes
    ensures t.descricao == tipo.descricao && t.ativo == tipo.ativo
    ensures t.totalMedicoes == Some(0) && t.criadoEm == hoje
  {
    tipo.(id := tipo.id + "-copia-" + agora,
          nome := tipo.nome + " (Cópia)",
          criadoEm := hoje,
          criadoPor := if usuarioNome.Some? && usuarioNome.value != "" then usuarioNome.value else "Admin",
          totalMedicoes := Some(0))
  }

  /** Appending a duplicate adds no measurements to the total. */
  lemma {:induction false} DuplicarPreservaTotal(s: seq<TipoPeca>, tipo: TipoPeca, agora: string, hoje: string, usuarioNome: Option<string>)
    ensures TotalMedicoes(s + [Duplicado(tipo, agora, hoje, usuarioNome)]) == TotalMedicoes(s)
  {
    var s' := s + [Duplicado(tipo, agora, hoje, usuarioNome)];
    assert s'[..|s'| - 1] == s;
  }
}
