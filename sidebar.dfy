/** The sidebar of componentes/sidebar.tsx: its own copy of the micrometer
    decoder, the older connection hook it embeds, the connect/disconnect
    button and the role-dependent navigation menu. */
module Sidebar {
  import opened Wrappers
  import opened Lists
  import Mitutoyo
  import opened BluetoothConnection

  /** The sidebar's local `decodeMitutoyoUwave`, with its own 4-byte buffer. */
  method DecodeMitutoyoUwave(bytes: seq<Mitutoyo.Byte>) returns (valorBruto: Option<int>)
    ensures valorBruto.None? <==> |bytes| != 7
    ensures valorBruto == Mitutoyo.Decode(bytes)
  {
    if |bytes| != 7 {
      return None;
    }
    var tempView := new Mitutoyo.Byte[4];
    tempView[0] := bytes[3];
    tempView[1] := bytes[4];
    tempView[2] := bytes[5];
    if bytes[5] >= 128 {
      tempView[3] := 0xFF;
    } else {
      tempView[3] := 0x00;
    }
    valorBruto := Some(Mitutoyo.Int32LE(tempView[0], tempView[1], tempView[2], tempView[3]));
  }

  /** The older hook: no `isConnected` field (it is derived from the GATT link),
      the device is stored before the GATT connect, and notifications are
      started by an effect once a characteristic is present. */
  class LegacyConnection {
    var status: string
    var valorMicrometro: int
    var device: Option<Device>
    var characteristic: Option<Characteristic>
    var isConnecting: bool

    constructor ()
      ensures status == StatusInicial && valorMicrometro == Sentinela
      ensures device == None && characteristic == None && !isConnecting
    {
      status := StatusInicial;
      valorMicrometro := Sentinela;
      device := None;
      characteristic := None;
      isConnecting := false;
    }

    /** `isConnected: !!device?.gatt?.connected` */
    predicate IsConnected(gattConnected: bool)
      reads this
    {
      device.Some? && gattConnected
    }

    method ResetarValorMicrometro()
      modifies this
      ensures valorMicrometro == Sentinela
      ensures status == old(status) && device == old(device)
      ensures characteristic == old(characteristic) && isConnecting == old(isConnecting)
    {
      valorMicrometro := Sentinela;
    }

    method HandleNotifications(value: Option<seq<Mitutoyo.Byte>>)
      modifies this
      ensures value.Some? && |value.value| == Mitutoyo.FrameLength
        ==> valorMicrometro == Mitutoyo.Decode(value.value).value
      ensures value.None? || |value.value| != Mitutoyo.FrameLength
        ==> valorMicrometro == old(valorMicrometro)
      ensures status == old(status) && device == old(device)
      ensures characteristic == old(characteristic) && isConnecting == old(isConnecting)
    {
      if value.None? {
        return;
      }
      var valorFinal := DecodeMitutoyoUwave(value.value);
      if valorFinal.Some? {
        valorMicrometro := valorFinal.value;
      }
    }

    /** `onDisconnected`: unlike the newer hook it leaves `isConnecting` alone. */
    method OnDisconnected()
      modifies this
      ensures status == StatusDesconectado(old(device))
      ensures valorMicrometro == Sentinela && device == None && characteristic == None
      ensures isConnecting == old(isConnecting)
    {
      status := StatusDesconectado(device);
      valorMicrometro := Sentinela;
      device := None;
      characteristic := None;
    }

    /** `connect`: the picker's device is stored at once; a later failure clears
        the device but not a characteristic already present. */
    method Connect(bluetoothSupported: bool, requestDevice: Call<Device>, link: Call<Characteristic>)
      modifies this
      ensures valorMicrometro == old(valorMicrometro)
      ensures !bluetoothSupported ==>
        status == StatusNaoSuportado && device == old(device)
        && characteristic == old(characteristic) && isConnecting == old(isConnecting)
      ensures bluetoothSupported ==> !isConnecting
      ensures bluetoothSupported && requestDevice.Fail? ==>
        device == None && characteristic == old(characteristic)
        && status == StatusErro(requestDevice.name, requestDevice.message)
      ensures bluetoothSupported && requestDevice.Ok? && link.Fail? ==>
        device == None && characteristic == old(characteristic)
        && status == StatusErro(link.name, link.message)
      ensures bluetoothSupported && requestDevice.Ok? && link.Ok? ==>
        device == Some(requestDevice.value) && characteristic == Some(link.value)
        && status == StatusConectandoA(requestDevice.value)
    {
      if !bluetoothSupported {
        status := StatusNaoSuportado;
        return;
      }
      isConnecting := true;
      status := StatusProcurando;
      match requestDevice {
        case Fail(n, m) =>
          status := StatusErro(n, m);
          device := None;
        case Ok(newDevice) =>
          device := Some(newDevice);
          status := StatusConectandoA(newDevice);
          match link {
            case Fail(n, m) =>
              status := StatusErro(n, m);
              device := None;
            case Ok(newCharacteristic) =>
              characteristic := Some(newCharacteristic);
          }
      }
      isConnecting := false;
    }

    /** The effect that runs once a characteristic is present: it starts the
        notifications and reports the outcome in the status. */
    method IniciarNotificacoes(startNotifications: Call<()>)
      modifies this
      ensures characteristic.None? ==> status == old(status)
      ensures characteristic.Some? && startNotifications.Ok? ==>
        status == "PRONTO! Conectado a: " + Interpolate(if device.Some? then device.value.name else None) + "."
      ensures characteristic.Some? && startNotifications.Fail? ==>
        status == "Erro ao iniciar notificações: " + startNotifications.message
      ensures valorMicrometro == old(valorMicrometro) && device == old(device)
      ensures characteristic == old(characteristic) && isConnecting == old(isConnecting)
    {
      if characteristic.Some? {
        match startNotifications {
          case Ok(_) =>
            status := "PRONTO! Conectado a: " + Interpolate(if device.Some? then device.value.name else None) + ".";
          case Fail(_, m) =>
            status := "Erro ao iniciar notificações: " + m;
        }
      }
    }

    /** `disconnect`: acts only on a live GATT link, and then only by asking the
        device to drop it; the state changes when the disconnect event arrives. */
    method Disconnect(gattConnected: bool) returns (requested: bool)
      ensures requested <==> IsConnected(gattConnected)
    {
      requested := device.Some? && gattConnected;
    }
  }

  datatype AcaoBotao = Conectar | Desconectar
  datatype BotaoConexao = BotaoConexao(rotulo: string, desabilitado: bool, acao: AcaoBotao)

  /** The connection button of `BluetoothStatus`. */
  function Botao(isConnected: bool, isConnecting: bool): (b: BotaoConexao)
    ensures b.desabilitado <==> isConnecting
    ensures b.acao == Desconectar <==> isConnected
    ensures isConnecting ==> b.rotulo == "Conectando..."
    ensures !isConnecting && isConnected ==> b.rotulo == "Desconectar"
    ensures !isConnecting && !isConnected ==> b.rotulo == "Conectar Micrômetro"
  {
    BotaoConexao(
      if isConnecting then "Conectando..." else if isConnected then "Desconectar" else "Conectar Micrômetro",
      isConnecting,
      if isConnected then Desconectar else Conectar)
  }

  datatype ItemMenu = ItemMenu(id: string, titulo: string, visivel: bool)

  /** `itensMenu`, in declaration order. */
  function ItensMenu(ehAdmin: bool): seq<ItemMenu> {
    [ ItemMenu("dashboard", "Dashboard", true),
      ItemMenu("nova-medicao", "Cadastrar Medição", true),
      ItemMenu("medicoes", "Medições", false),
      ItemMenu("tipos-pecas", "Lotes", ehAdmin) ]
  }

  function Visivel(item: ItemMenu): bool {
    item.visivel
  }

  /** `itensMenu.filter((item) => item.visivel)` */
  function ItensVisiveis(ehAdmin: bool): (r: seq<ItemMenu>)
    ensures forall x :: x in r ==> x.visivel
  {
    Filter(ItensMenu(ehAdmin), Visivel)
  }

  function Ids(items: seq<ItemMenu>): (r: seq<string>)
    ensures |r| == |items|
    ensures forall i :: 0 <= i < |items| ==> r[i] == items[i].id
  {
    seq(|items|, i requires 0 <= i < |items| => items[i].id)
  }

  /** The visible pages, in order: the dashboard and the new measurement for
      everybody, the type manager for administrators only, "medicoes" never. */
  lemma ItensVisiveisIds(ehAdmin: bool)
    ensures Ids(ItensVisiveis(ehAdmin))
      == if ehAdmin then ["dashboard", "nova-medicao", "tipos-pecas"] else ["dashboard", "nova-medicao"]
  {
    ItensVisiveisLista(ehAdmin);
    var s := ItensMenu(ehAdmin);
    var r := ItensVisiveis(ehAdmin);
    assert Ids(r)[0] == s[0].id && Ids(r)[1] == s[1].id;
  }

  lemma ItensVisiveisLista(ehAdmin: bool)
    ensures var s := ItensMenu(ehAdmin);
      ItensVisiveis(ehAdmin) == if ehAdmin then [s[0], s[1], s[3]] else [s[0], s[1]]
  {
    var s := ItensMenu(ehAdmin);
    var p := [s[0], s[1]];
    var q := p + [s[2]];
    var ultimo := if ehAdmin then [s[3]] else [];
    assert s == q + [s[3]];
    FilterAllPass(p, Visivel);
    FilterSingleton(s[2], Visivel);
    FilterConcat(p, [s[2]], Visivel);
    assert Filter(q, Visivel) == p;
    FilterSingleton(s[3], Visivel);
    FilterConcat(q, [s[3]], Visivel);
    assert Filter(s, Visivel) == p + ultimo;
  }

  /** `ativo={paginaAtiva === item.id}` */
  predicate Ativo(paginaAtiva: string, item: ItemMenu) {
    paginaAtiva == item.id
  }

  /** The visible menu never highlights two entries at once. */
  lemma AtivoUnico(ehAdmin: bool, paginaAtiva: string, i: int, j: int)
    requires 0 <= i < |ItensVisiveis(ehAdmin)| && 0 <= j < |ItensVisiveis(ehAdmin)|
    requires Ativo(paginaAtiva, ItensVisiveis(ehAdmin)[i]) && Ativo(paginaAtiva, ItensVisiveis(ehAdmin)[j])
    ensures i == j
  {
    ItensVisiveisIds(ehAdmin);
    var ids := Ids(ItensVisiveis(ehAdmin));
    assert ids[i] == paginaAtiva == ids[j];
  }

  class SidebarState {
    var menuAberto: bool

    constructor ()
      ensures !menuAberto
    {
      menuAberto := false;
    }

    /** `handleItemClick`: forwards the page id to the parent's callback, when
        there is one, and closes the mobile menu. */
    method HandleItemClick(itemId: string, temOnMudarPagina: bool) returns (paginaPedida: Option<string>)
      modifies this
      ensures !menuAberto
      ensures paginaPedida == if temOnMudarPagina then Some(itemId) else None
    {
      paginaPedida := if temOnMudarPagina then Some(itemId) else None;
      menuAberto := false;
    }
  }
}
