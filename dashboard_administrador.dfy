/** The selectors of the administrator dashboard
    (componentes/dashboard-administrador.tsx): the user filter, the top
    performers (sorted in place on the module's mock array), the approval band
    of each part type, avatar initials and the badge fallbacks. */
module DashboardAdministrador {
  import opened Text
  import opened Lists
  import Ordenacao

  datatype UsuarioMock = UsuarioMock(
    id: string,
    nome: string,
    email: string,
    tipo: string,
    medicoes: int,
    taxaAprovacao: real,
    ultimaAtividade: string,
    status: string)

  /** `usuariosMock`, in declaration order. */
  function UsuariosMockIniciais(): seq<UsuarioMock> {
    [ UsuarioMock("1", "João Silva", "joao@empresa.com", "usuario", 248, 95.2, "2024-01-15 14:30", "ativo"),
      UsuarioMock("2", "Maria Santos", "maria@empresa.com", "usuario", 186, 97.1, "2024-01-15 13:45", "ativo"),
      UsuarioMock("3", "Pedro Costa", "pedro@empresa.com", "usuario", 142, 92.8, "2024-01-15 12:20", "ativo"),
      UsuarioMock("4", "Ana Oliveira", "ana@empresa.com", "usuario", 98, 96.4, "2024-01-14 16:15", "inativo") ]
  }

  /** The predicate of `usuariosFiltrados`: the name is searched
      case-insensitively, the e-mail case-sensitively. */
  predicate PassaFiltro(filtroUsuario: string, termoBusca: string, u: UsuarioMock) {
    (filtroUsuario == "todos" || u.status == filtroUsuario)
    && (Contains(ToLower(u.nome), ToLower(termoBusca)) || Contains(u.email, termoBusca))
  }

  function UsuariosFiltrados(usuarios: seq<UsuarioMock>, filtroUsuario: string, termoBusca: string)
    : (r: seq<UsuarioMock>)
    ensures forall u :: u in r ==> u in usuarios && PassaFiltro(filtroUsuario, termoBusca, u)
  {
    Filter(usuarios, u => PassaFiltro(filtroUsuario, termoBusca, u))
  }

  /** A user is listed exactly when they pass both filters. */
  lemma UsuariosFiltradosPertence(usuarios: seq<UsuarioMock>, filtroUsuario: string, termoBusca: string, u: UsuarioMock)
    ensures u in UsuariosFiltrados(usuarios, filtroUsuario, termoBusca)
      <==> u in usuarios && PassaFiltro(filtroUsuario, termoBusca, u)
  {
    if u in usuarios && PassaFiltro(filtroUsuario, termoBusca, u) {
      FilterKeepsPassing(usuarios, u => PassaFiltro(filtroUsuario, termoBusca, u), u);
    }
  }

  /** The e-mail search is case-sensitive: the term "JOAO" does not match the
      first user's lowercase e-mail. */
  lemma BuscaEmailSensivel()
    ensures !Contains(UsuariosMockIniciais()[0].email, "JOAO")
  {
    var e := UsuariosMockIniciais()[0].email;
    NaoContemMaiuscula(e, "JOAO");
  }

  /** A lowercase-only text never contains a term starting with an uppercase letter. */
  lemma {:induction false} NaoContemMaiuscula(s: string, sub: string)
    requires sub != [] && 'A' <= sub[0] <= 'Z'
    requires forall i :: 0 <= i < |s| ==> !('A' <= s[i] <= 'Z')
    ensures !Contains(s, sub)
  {
    if s != [] {
      NaoContemMaiuscula(s[1..], sub);
    }
  }

  function Taxa(u: UsuarioMock): real {
    u.taxaAprovacao
  }

  /** The page's module-level data; the top-performer card sorts its array in
      place, so every later render sees the sorted order. */
  class Painel {
    var usuariosMock: array<UsuarioMock>

    constructor ()
      ensures usuariosMock[..] == UsuariosMockIniciais()
      ensures fresh(usuariosMock)
    {
      var s := UsuariosMockIniciais();
      usuariosMock := new UsuarioMock[|s|](i requires 0 <= i < |s| => s[i]);
    }

    function Filtrados(filtroUsuario: string, termoBusca: string): (r: seq<UsuarioMock>)
      reads this, usuariosMock
      ensures forall u :: u in r ==> u in usuariosMock[..] && PassaFiltro(filtroUsuario, termoBusca, u)
    {
      UsuariosFiltrados(usuariosMock[..], filtroUsuario, termoBusca)
    }

    /** `usuariosMock.sort((a, b) => b.taxaAprovacao - a.taxaAprovacao).slice(0, 3)` */
    method MelhoresPerformers() returns (top: seq<UsuarioMock>)
      modifies usuariosMock
      ensures Ordenacao.DecrescentePor(usuariosMock[..], Taxa)
      ensures multiset(usuariosMock[..]) == multiset(old(usuariosMock[..]))
      ensures top == Ordenacao.Primeiros(usuariosMock[..], 3)
      ensures forall i, j :: 0 <= i < |top| <= j < usuariosMock.Length ==> top[i].taxaAprovacao >= usuariosMock[j].taxaAprovacao
    {
      Ordenacao.OrdenarDecrescente(usuariosMock, Taxa);
      top := Ordenacao.Primeiros(usuariosMock[..], 3);
    }
  }

  datatype Faixa = Excelente | Bom | Atencao

  /** The approval band of a part type. */
  function FaixaAprovacao(aprovacao: real): (f: Faixa)
    ensures f == Excelente <==> aprovacao >= 95.0
    ensures f == Bom <==> 90.0 <= aprovacao < 95.0
    ensures f == Atencao <==> aprovacao < 90.0
  {
    if aprovacao >= 95.0 then Excelente else if aprovacao >= 90.0 then Bom else Atencao
  }

  function Rotulo(f: Faixa): string {
    match f
    case Excelente => "Excelente"
    case Bom => "Bom"
    case Atencao => "Atenção"
  }

  function Nivel(f: Faixa): int {
    match f
    case Atencao => 0
    case Bom => 1
    case Excelente => 2
  }

  /** A higher approval rate never gets a worse band. */
  lemma FaixaMonotona(a: real, b: real)
    requires a <= b
    ensures Nivel(FaixaAprovacao(a)) <= Nivel(FaixaAprovacao(b))
  {
  }

  /** `nome.split(" ").map((n) => n[0]).join("")`: an empty word (from a
      doubled or edge space) contributes nothing, as `undefined` joins as "". */
  function Iniciais(nome: string): (r: string)
    ensures |r| <= |Split(nome, ' ')|
  {
    IniciaisDe(Split(nome, ' '))
  }

  function IniciaisDe(palavras: seq<string>): (r: string)
    ensures |r| <= |palavras|
  {
    if palavras == [] then []
    else
      var resto := IniciaisDe(palavras[1..]);
      if palavras[0] == [] then resto
      else [palavras[0][0]] + resto
  }

  /** Every initial is the first character of one of the non-empty words. */
  lemma {:induction false} IniciaisDeVemDasPalavras(palavras: seq<string>, i: int)
    requires 0 <= i < |IniciaisDe(palavras)|
    ensures exists p :: p in palavras && p != [] && IniciaisDe(palavras)[i] == p[0]
  {
    var resto := IniciaisDe(palavras[1..]);
    if palavras[0] == [] {
      IniciaisDeVemDasPalavras(palavras[1..], i);
      var p :| p in palavras[1..] && p != [] && resto[i] == p[0];
      assert p in palavras;
    } else if i == 0 {
      assert palavras[0] in palavras;
    } else {
      assert IniciaisDe(palavras)[i] == resto[i - 1];
      IniciaisDeVemDasPalavras(palavras[1..], i - 1);
      var p :| p in palavras[1..] && p != [] && resto[i - 1] == p[0];
      assert p in palavras;
    }
  }

  /** Each word contributes its own initial, in order: the initials of two
      word lists joined are the two lists' initials joined. */
  lemma {:induction false} IniciaisDeConcat(p: seq<string>, q: seq<string>)
    ensures IniciaisDe(p + q) == IniciaisDe(p) + IniciaisDe(q)
  {
    if p == [] {
      assert p + q == q;
    } else {
      assert (p + q)[0] == p[0];
      assert (p + q)[1..] == p[1..] + q;
      IniciaisDeConcat(p[1..], q);
    }
  }

  /** One word gives its first character, an empty word nothing. */
  lemma IniciaisDeUnica(w: string)
    ensures IniciaisDe([w]) == if w == [] then [] else [w[0]]
  {
    assert [w][1..] == [];
  }

  /** A name is read word by word: the first word's initial, then the
      initials of the rest after the first space. */
  lemma IniciaisPrimeiraPalavra(a: string, resto: string)
    requires forall i :: 0 <= i < |a| ==> a[i] != ' '
    ensures Iniciais(a + " " + resto) == (if a == [] then [] else [a[0]]) + Iniciais(resto)
  {
    SplitAntesDoSeparador(a, " " + resto, ' ');
    assert a + " " + resto == a + (" " + resto);
    assert (" " + resto)[1..] == resto;
    IniciaisDeConcat([a], Split(resto, ' '));
    IniciaisDeUnica(a);
  }

  /** A single word gives its first letter. */
  lemma IniciaisPalavraUnica(nome: string)
    requires nome != [] && forall i :: 0 <= i < |nome| ==> nome[i] != ' '
    ensures Iniciais(nome) == [nome[0]]
  {
    SplitSemSeparador(nome, ' ');
  }

  /** Two words separated by one space give their two first letters. */
  lemma IniciaisDuasPalavras(a: string, b: string)
    requires a != [] && b != []
    requires forall i :: 0 <= i < |a| ==> a[i] != ' '
    requires forall i :: 0 <= i < |b| ==> b[i] != ' '
    ensures Iniciais(a + " " + b) == [a[0], b[0]]
  {
    SplitSemSeparador(b, ' ');
    SplitAntesDoSeparador(a, " " + b, ' ');
    assert a + " " + b == a + (" " + b);
    assert (" " + b)[1..] == b;
    var ws := Split(a + " " + b, ' ');
    assert ws == [a, b];
    assert ws[1..] == [b] && [b][1..] == [];
    assert IniciaisDe([b]) == [b[0]];
  }

  /** Splitting a word followed by the separator and a rest. */
  lemma {:induction false} SplitAntesDoSeparador(a: string, resto: string, sep: char)
    requires forall i :: 0 <= i < |a| ==> a[i] != sep
    requires resto != [] && resto[0] == sep
    ensures Split(a + resto, sep) == [a] + Split(resto[1..], sep)
  {
    if a != [] {
      SplitAntesDoSeparador(a[1..], resto, sep);
      assert (a + resto)[1..] == a[1..] + resto;
      assert [a[0]] + a[1..] == a;
    } else {
      assert a + resto == resto;
    }
  }

  datatype VarianteBadge = Default | Secondary | Destructive | Outline

  /** `StatusBadge`: unknown statuses fall back to the "Inativo" badge. */
  function StatusBadge(status: string): (b: (string, VarianteBadge))
    ensures status == "ativo" ==> b == ("Ativo", Default)
    ensures status == "bloqueado" ==> b == ("Bloqueado", Destructive)
    ensures status != "ativo" && status != "bloqueado" ==> b == ("Inativo", Secondary)
  {
    if status == "ativo" then ("Ativo", Default)
    else if status == "bloqueado" then ("Bloqueado", Destructive)
    else ("Inativo", Secondary)
  }

  /** `SeveridadeBadge`: unknown severities fall back to the "Baixa" badge. */
  function SeveridadeBadge(severidade: string): (b: (string, VarianteBadge))
    ensures severidade == "alta" ==> b == ("Alta", Destructive)
    ensures severidade == "media" ==> b == ("Média", Secondary)
    ensures severidade != "alta" && severidade != "media" ==> b == ("Baixa", Outline)
  {
    if severidade == "alta" then ("Alta", Destructive)
    else if severidade == "media" then ("Média", Secondary)
    else ("Baixa", Outline)
  }
}
