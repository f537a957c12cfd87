/** The response and request records of the quality-control REST API, as the
    front end declares them (contextos/api/controlequalidade.ts). Numbers are
    exact reals or integers; an optional JSON property is an `Option`. */
module ApiTypes {
  import opened Wrappers

  datatype UsuarioDto = UsuarioDto(id: int, username: string, email: string)

  /** Metadata of one dimension ("cota") of a part type. */
  datatype CotaMetadata = CotaMetadata(
    nome: string,
    rotulo: string,            // `label`
    tipo: string,              // "number" | "text"
    unidade: string,
    tolerancia: Option<real>,
    valorPadrao: Option<real>)

  datatype TipoPecaResponse = TipoPecaResponse(
    id: int,
    nome: string,
    descricao: string,
    metadadosCotas: seq<CotaMetadata>)

  datatype MedicaoResponse = MedicaoResponse(
    id: int,
    data: string,
    pecaNumero: int,
    dimensoes: map<string, real>,
    status: string,            // "APROVADO" | "REPROVADO"
    observacoes: string)

  /** The detail of a lot, with its measurements. */
  datatype LoteResponse = LoteResponse(
    id: int,
    codigoLote: string,
    descricao: string,
    tipoPeca: TipoPecaResponse,
    quantidadePecas: int,
    quantidadeAmostrasDesejada: int,
    porcentagemAmostragem: real,
    pecasAprovadas: int,
    pecasReprovadas: int,
    taxaAprovacao: real,
    status: string,
    dataCriacao: string,
    medicoes: seq<MedicaoResponse>)

  /** The summary of a lot, as listed on the dashboards. */
  datatype LoteResumidoResponse = LoteResumidoResponse(
    id: int,
    codigoLote: string,
    descricao: string,
    tipoPeca: TipoPecaResponse,
    quantidadePecas: int,
    quantidadeAmostrasDesejada: int,
    porcentagemAmostragem: real,
    pecasAprovadas: int,
    pecasReprovadas: int,
    taxaAprovacao: real,
    status: string,
    dataCriacao: string)

  datatype CriarTipoPecaRequest = CriarTipoPecaRequest(
    nome: string,
    descricao: string,
    dimensoes: seq<CotaMetadata>)

  datatype CriarLoteRequest = CriarLoteRequest(
    descricao: string,
    tipoPecaId: int,
    quantidadePecas: int,
    quantidadeAmostrasDesejada: Option<int>,
    observacoes: Option<string>)

  /** The body of "add measurement": the raw field texts and the notes. The
      numeric coercion `Number(value)` of each entry is not modelled. */
  datatype AdicionarMedicaoRequest = AdicionarMedicaoRequest(
    dimensoes: map<string, string>,
    observacoes: string)

  /** JavaScript truthiness of an optional number (NaN is not modelled). */
  predicate Truthy(x: Option<real>) {
    x.Some? && x.value != 0.0
  }
}
