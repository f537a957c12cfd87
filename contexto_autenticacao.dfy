/** The authentication context of contextos/contexto-autenticacao.tsx: two
    fixed demonstration accounts, a login that checks the credential table and
    the user table, a logout, and the copy of the signed-in user kept in the
    browser's local storage. */
module ContextoAutenticacao {
  import opened Wrappers
  import opened Lists

  datatype TipoUsuario = Comum | Administrador

  datatype Usuario = Usuario(id: string, nome: string, email: string, tipo: TipoUsuario)

  datatype Credencial = Credencial(email: string, senha: string)

  /** `usuariosFixos` */
  function UsuariosFixos(): seq<Usuario> {
    [ Usuario("1", "João Silva", "usuario@empresa.com", Comum),
      Usuario("2", "Maria Santos", "admin@empresa.com", Administrador) ]
  }

  /** `credenciaisFixas` */
  function CredenciaisFixas(): seq<Credencial> {
    [ Credencial("usuario@empresa.com", "123456"),
      Credencial("admin@empresa.com", "admin123") ]
  }

  /** The user a successful `login(email, senha)` signs in: the credential
      must match exactly, and a user with that e-mail must exist. */
  function Autenticar(email: string, senha: string): (r: Option<Usuario>)
    ensures r.Some? ==> r.value in UsuariosFixos() && r.value.email == email
    ensures r.Some? ==> Credencial(email, senha) in CredenciaisFixas()
  {
    var cred := Find(CredenciaisFixas(), (c: Credencial) => c.email == email && c.senha == senha);
    if cred.Some? then Find(UsuariosFixos(), (u: Usuario) => u.email == email) else None
  }

  /** Exactly the two demonstration pairs sign in, each as its own user. */
  lemma AutenticarSse(email: string, senha: string)
    ensures Autenticar(email, senha).Some? <==>
      (email == "usuario@empresa.com" && senha == "123456")
      || (email == "admin@empresa.com" && senha == "admin123")
    ensures email == "usuario@empresa.com" && senha == "123456" ==>
      Autenticar(email, senha) == Some(UsuariosFixos()[0])
    ensures email == "admin@empresa.com" && senha == "admin123" ==>
      Autenticar(email, senha) == Some(UsuariosFixos()[1])
  {
    var cs := CredenciaisFixas();
    var us := UsuariosFixos();
    var pc := (c: Credencial) => c.email == email && c.senha == senha;
    var pu := (u: Usuario) => u.email == email;
    if email == "usuario@empresa.com" && senha == "123456" {
      assert pc(cs[0]) && pu(us[0]);
    } else if email == "admin@empresa.com" && senha == "admin123" {
      assert pc(cs[1]) && pu(us[1]) && !pu(us[0]);
    } else {
      assert !pc(cs[0]) && !pc(cs[1]);
    }
  }

  /** Only the administrator's pair gives an administrator. */
  lemma AdministradorSoComSenhaDeAdmin(email: string, senha: string)
    requires Autenticar(email, senha).Some? && Autenticar(email, senha).value.tipo == Administrador
    ensures email == "admin@empresa.com" && senha == "admin123"
  {
    AutenticarSse(email, senha);
  }

  class Provedor {
    var usuario: Option<Usuario>
    var carregando: bool
    /** The "usuario-logado" entry of local storage. */
    var usuarioSalvo: Option<Usuario>

    /** The provider mounts with no user and loading, over whatever the
        storage holds. */
    constructor (armazenado: Option<Usuario>)
      ensures usuario == None && carregando && usuarioSalvo == armazenado
    {
      usuario := None;
      carregando := true;
      usuarioSalvo := armazenado;
    }

    /** The mount effect: a stored user is restored; loading ends. */
    method RestaurarSessao()
      modifies this
      ensures usuario == (if old(usuarioSalvo).Some? then old(usuarioSalvo) else old(usuario))
      ensures !carregando && usuarioSalvo == old(usuarioSalvo)
    {
      if usuarioSalvo.Some? {
        usuario := usuarioSalvo;
      }
      carregando := false;
    }

    /** `estaLogado: !!usuario` */
    predicate EstaLogado()
      reads this
    {
      usuario.Some?
    }

    /** `login(email, senha)`: on success the user is signed in and stored; on
        failure nothing but the loading flag changes; loading is off afterwards
        either way. */
    method Login(email: string, senha: string) returns (ok: bool)
      modifies this
      ensures ok <==> Autenticar(email, senha).Some?
      ensures ok ==> usuario == Autenticar(email, senha) && usuarioSalvo == usuario
      ensures !ok ==> usuario == old(usuario) && usuarioSalvo == old(usuarioSalvo)
      ensures !carregando
    {
      carregando := true;
      var credencialValida := Find(CredenciaisFixas(), (c: Credencial) => c.email == email && c.senha == senha);
      if credencialValida.Some? {
        var usuarioEncontrado := Find(UsuariosFixos(), (u: Usuario) => u.email == email);
        if usuarioEncontrado.Some? {
          usuario := usuarioEncontrado;
          usuarioSalvo := usuarioEncontrado;
          carregando := false;
          return true;
        }
      }
      carregando := false;
      return false;
    }

    /** `logout`: signs out and clears the stored user; loading is untouched. */
    method Logout()
      modifies this
      ensures usuario == None && usuarioSalvo == None && carregando == old(carregando)
    {
      usuario := None;
      usuarioSalvo := None;
    }
  }
}
