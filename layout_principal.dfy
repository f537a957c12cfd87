/** The page shell of componentes/layout-principal.tsx: loading and login
    gates, then the sidebar with the content routed by the active page and the
    user's role. */
module LayoutPrincipal {
  import opened Wrappers
  import opened ContextoAutenticacao

  datatype Conteudo =
    | Filhos
    | PainelAdministrador
    | PainelUsuario
    | FormularioMedicao
    | GerenciamentoTipos
    | AcessoNegado

  datatype Tela =
    | Carregando
    | FormularioLogin
    | ComSidebar(paginaAtiva: string, conteudo: Conteudo)

  /** `renderizarConteudo`: the switch over the active page. */
  function RenderizarConteudo(paginaAtiva: string, ehAdmin: bool): (c: Conteudo)
    ensures c == GerenciamentoTipos <==> paginaAtiva == "tipos-pecas" && ehAdmin
    ensures c == AcessoNegado <==> paginaAtiva == "tipos-pecas" && !ehAdmin
    ensures c == FormularioMedicao <==> paginaAtiva == "nova-medicao"
    ensures paginaAtiva != "tipos-pecas" && paginaAtiva != "nova-medicao" ==>
      c == (if ehAdmin then PainelAdministrador else PainelUsuario)
  {
    match paginaAtiva
    case "dashboard" => if ehAdmin then PainelAdministrador else PainelUsuario
    case "nova-medicao" => FormularioMedicao
    case "medicoes" => if ehAdmin then PainelAdministrador else PainelUsuario
    case "tipos-pecas" => if ehAdmin then GerenciamentoTipos else AcessoNegado
    case _ => if ehAdmin then PainelAdministrador else PainelUsuario
  }

  /** `usuario?.tipo === "administrador"` */
  predicate EhAdmin(usuario: Option<Usuario>) {
    usuario.Some? && usuario.value.tipo == Administrador
  }

  /** What the layout shows: loading first, then the login form for a visitor,
      else the sidebar with the children (when given) or the routed content. */
  function Render(carregando: bool, usuario: Option<Usuario>, paginaAtiva: string, temChildren: bool): (t: Tela)
    ensures carregando ==> t == Carregando
    ensures !carregando && usuario.None? ==> t == FormularioLogin
    ensures !carregando && usuario.Some? ==> t.ComSidebar? && t.paginaAtiva == paginaAtiva
    ensures !carregando && usuario.Some? && temChildren ==> t.conteudo == Filhos
    ensures !carregando && usuario.Some? && !temChildren ==>
      t.conteudo == RenderizarConteudo(paginaAtiva, EhAdmin(usuario))
  {
    if carregando then Carregando
    else if usuario.None? then FormularioLogin
    else ComSidebar(paginaAtiva, if temChildren then Filhos else RenderizarConteudo(paginaAtiva, EhAdmin(usuario)))
  }

  /** The type manager is reachable only by a signed-in administrator, on the
      "tipos-pecas" page, without children. */
  lemma GerenciamentoSoParaAdmin(carregando: bool, usuario: Option<Usuario>, paginaAtiva: string, temChildren: bool)
    ensures Render(carregando, usuario, paginaAtiva, temChildren) == ComSidebar(paginaAtiva, GerenciamentoTipos)
      <==> !carregando && EhAdmin(usuario) && paginaAtiva == "tipos-pecas" && !temChildren
  {
  }

  /** A common user never sees an administrator screen, whatever the page. */
  lemma UsuarioComumNuncaVeAdmin(usuario: Usuario, paginaAtiva: string)
    requires usuario.tipo == Comum
    ensures RenderizarConteudo(paginaAtiva, EhAdmin(Some(usuario))) != PainelAdministrador
    ensures RenderizarConteudo(paginaAtiva, EhAdmin(Some(usuario))) != GerenciamentoTipos
  {
  }

  class Layout {
    var paginaAtiva: string

    constructor ()
      ensures paginaAtiva == "dashboard"
    {
      paginaAtiva := "dashboard";
    }

    /** `setPaginaAtiva`, as the sidebar calls it. */
    method MudarPagina(pagina: string)
      modifies this
      ensures paginaAtiva == pagina
    {
      paginaAtiva := pagina;
    }

    /** The measurement form's `onVoltar`: back to the dashboard. */
    method Voltar()
      modifies this
      ensures paginaAtiva == "dashboard"
    {
      paginaAtiva := "dashboard";
    }
  }
}
