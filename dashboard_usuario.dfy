/** The selectors of the user dashboard (componentes/dashboard-usuario.tsx):
    the "my lots" filter, the recent-lot progress bar and the status and
    approval styling rules. */
module DashboardUsuario {
  import opened Text
  import opened Lists
  import opened ApiTypes
  import Ordenacao

  const Todos := "todos"

  /** The predicate of `lotesFiltrados`: the status filter ("todos" or an exact
      status) and a case-insensitive search on the lot code or the part name. */
  predicate PassaFiltro(filtroStatus: string, termoBusca: string, lote: LoteResumidoResponse) {
    (filtroStatus == Todos || lote.status == filtroStatus)
    && (Contains(ToLower(lote.codigoLote), ToLower(termoBusca))
        || Contains(ToLower(lote.tipoPeca.nome), ToLower(termoBusca)))
  }

  function LotesFiltrados(lotes: seq<LoteResumidoResponse>, filtroStatus: string, termoBusca: string)
    : (r: seq<LoteResumidoResponse>)
    ensures |r| <= |lotes|
    ensures forall l :: l in r ==> l in lotes && PassaFiltro(filtroStatus, termoBusca, l)
  {
    Filter(lotes, l => PassaFiltro(filtroStatus, termoBusca, l))
  }

  /** A lot is listed exactly when it is one of the user's lots and passes
      both filters. */
  lemma LotesFiltradosPertence(lotes: seq<LoteResumidoResponse>, filtroStatus: string, termoBusca: string,
                               l: LoteResumidoResponse)
    ensures l in LotesFiltrados(lotes, filtroStatus, termoBusca)
      <==> l in lotes && PassaFiltro(filtroStatus, termoBusca, l)
  {
    if l in lotes && PassaFiltro(filtroStatus, termoBusca, l) {
      FilterKeepsPassing(lotes, l => PassaFiltro(filtroStatus, termoBusca, l), l);
    }
  }

  /** With "todos" and an empty search every lot is listed, in order. */
  lemma SemFiltroListaTodos(lotes: seq<LoteResumidoResponse>)
    ensures LotesFiltrados(lotes, Todos, "") == lotes
  {
    forall i | 0 <= i < |lotes| ensures PassaFiltro(Todos, "", lotes[i]) {
      ContainsEmpty(ToLower(lotes[i].codigoLote));
    }
    FilterAllPass(lotes, l => PassaFiltro(Todos, "", l));
  }

  /** The filter keeps the original order: filtering a concatenation is
      concatenating the filtered parts. */
  lemma LotesFiltradosOrdem(a: seq<LoteResumidoResponse>, b: seq<LoteResumidoResponse>,
                            filtroStatus: string, termoBusca: string)
    ensures LotesFiltrados(a + b, filtroStatus, termoBusca)
      == LotesFiltrados(a, filtroStatus, termoBusca) + LotesFiltrados(b, filtroStatus, termoBusca)
  {
    FilterConcat(a, b, l => PassaFiltro(filtroStatus, termoBusca, l));
  }

  /** Filtering the filtered list again with the same settings changes nothing. */
  lemma LotesFiltradosIdempotente(lotes: seq<LoteResumidoResponse>, filtroStatus: string, termoBusca: string)
    ensures LotesFiltrados(LotesFiltrados(lotes, filtroStatus, termoBusca), filtroStatus, termoBusca)
      == LotesFiltrados(lotes, filtroStatus, termoBusca)
  {
    var r := LotesFiltrados(lotes, filtroStatus, termoBusca);
    assert forall i :: 0 <= i < |r| ==> r[i] in r;
    FilterAllPass(r, l => PassaFiltro(filtroStatus, termoBusca, l));
  }

  /** `dashboardData.lotesRecentes.slice(0, 4)` */
  function LotesRecentes(lotesRecentes: seq<LoteResumidoResponse>): (r: seq<LoteResumidoResponse>)
    ensures |r| <= 4 && |r| <= |lotesRecentes| && r == lotesRecentes[..|r|]
    ensures |lotesRecentes| >= 4 ==> |r| == 4
    ensures |lotesRecentes| < 4 ==> r == lotesRecentes
  {
    Ordenacao.Primeiros(lotesRecentes, 4)
  }

  /** The progress bar of a recent lot, in percent of the desired samples. */
  function Progresso(lote: LoteResumidoResponse): (r: real)
    ensures lote.quantidadeAmostrasDesejada > 0 ==>
      r * lote.quantidadeAmostrasDesejada as real == (lote.pecasAprovadas + lote.pecasReprovadas) as real * 100.0
    ensures lote.quantidadeAmostrasDesejada <= 0 ==> r == 0.0
  {
    var amostrasFeitas := lote.pecasAprovadas + lote.pecasReprovadas;
    if lote.quantidadeAmostrasDesejada > 0 then
      var q := lote.quantidadeAmostrasDesejada as real;
      var p := (amostrasFeitas as real / q) * 100.0;
      assert p * q == amostrasFeitas as real * 100.0 by {
        assert (amostrasFeitas as real / q) * q == amostrasFeitas as real;
      }
      p
    else 0.0
  }

  /** While no more samples are done than desired, the bar stays within 0-100%. */
  lemma ProgressoEntre0e100(lote: LoteResumidoResponse)
    requires lote.pecasAprovadas >= 0 && lote.pecasReprovadas >= 0
    requires lote.pecasAprovadas + lote.pecasReprovadas <= lote.quantidadeAmostrasDesejada
    ensures 0.0 <= Progresso(lote) <= 100.0
  {
    if lote.quantidadeAmostrasDesejada > 0 {
      var q := lote.quantidadeAmostrasDesejada as real;
      var f := (lote.pecasAprovadas + lote.pecasReprovadas) as real;
      var p := Progresso(lote);
      assert p * q == f * 100.0;
      FatorNaoNegativo(p, q);
      assert (100.0 - p) * q == 100.0 * q - p * q;
      FatorNaoNegativo(100.0 - p, q);
    }
  }

  /** A factor whose product with a positive number is non-negative is non-negative. */
  lemma FatorNaoNegativo(a: real, q: real)
    requires q > 0.0 && a * q >= 0.0
    ensures a >= 0.0
  {
  }

  /** `status.replace("_", " ")` */
  function StatusLabel(status: string): (r: string)
    ensures |r| == |status|
  {
    ReplaceFirst(status, '_', ' ')
  }

  /** Only the first underscore becomes a space; any later one is kept. */
  lemma StatusLabelPrimeiro(status: string, k: int)
    requires 0 <= k < |status| && status[k] == '_'
    requires forall i :: 0 <= i < k ==> status[i] != '_'
    ensures StatusLabel(status) == status[..k] + " " + status[k + 1..]
    ensures forall i :: k < i < |status| ==> StatusLabel(status)[i] == status[i]
  {
    ReplaceFirstAt(status, '_', ' ', k);
  }

  /** A status without an underscore is shown as it is. */
  lemma StatusLabelSemSublinhado(status: string)
    requires forall i :: 0 <= i < |status| ==> status[i] != '_'
    ensures StatusLabel(status) == status
  {
    ReplaceFirstAbsent(status, '_', ' ');
  }

  datatype Cor = Verde | Vermelho
  datatype VarianteBadge = Destructive | Secondary

  /** The colour of the approval cell. */
  function CorTaxa(taxaAprovacao: real): (c: Cor)
    ensures c == Verde <==> taxaAprovacao >= 90.0
  {
    if taxaAprovacao >= 90.0 then Verde else Vermelho
  }

  /** The status badge of the lot table: destructive only for "REPROVADO". */
  function VarianteStatus(status: string): (v: VarianteBadge)
    ensures v == Destructive <==> status == "REPROVADO"
  {
    if status == "REPROVADO" then Destructive else Secondary
  }
}
