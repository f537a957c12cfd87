/** The Mitutoyo U-WAVE notification frame decoder. A frame is the byte buffer
    behind the characteristic's DataView; a reading is an integer number of
    thousandths of a millimetre (the source divides it by 10^3 afterwards). */
module Mitutoyo {
  import opened Wrappers

  type Byte = b: int | 0 <= b < 0x100

  const FrameLength: nat := 7
  /** `CASAS_DECIMAIS`: a reading is `raw / 10^3`. */
  const CasasDecimais: nat := 3

  /** `DataView.getInt32(0, true)` over four bytes: little-endian two's complement. */
  function Int32LE(b0: Byte, b1: Byte, b2: Byte, b3: Byte): (v: int)
    ensures -0x8000_0000 <= v < 0x8000_0000
  {
    var u := b0 + 0x100 * b1 + 0x1_0000 * b2 + 0x100_0000 * b3;
    if b3 >= 0x80 then u - 0x1_0000_0000 else u
  }

  /** The byte the decoder writes at offset 3 of its temporary buffer. */
  function SignExtension(b5: Byte): Byte {
    if b5 >= 128 then 0xFF else 0x00
  }

  /** The decoder as a value: None when the frame is not exactly 7 bytes long,
      otherwise the signed 24-bit little-endian integer at offsets 3..5. */
  function Decode(frame: seq<Byte>): (r: Option<int>)
    ensures r.None? <==> |frame| != FrameLength
  {
    if |frame| != FrameLength then None
    else Some(Int32LE(frame[3], frame[4], frame[5], SignExtension(frame[5])))
  }

  /** `decodeMitutoyoUwave`: fills a 4-byte temporary buffer with bytes 3, 4, 5
      and the sign byte, and reads it back as a little-endian int32. */
  method DecodeMitutoyoUwave(bytes: seq<Byte>) returns (valorBruto: Option<int>)
    ensures valorBruto == Decode(bytes)
  {
    if |bytes| != 7 {
      return None;
    }
    var tempView := new Byte[4];
    tempView[0] := bytes[3];
    tempView[1] := bytes[4];
    tempView[2] := bytes[5];
    if bytes[5] >= 128 {
      tempView[3] := 0xFF;
    } else {
      tempView[3] := 0x00;
    }
    valorBruto := Some(Int32LE(tempView[0], tempView[1], tempView[2], tempView[3]));
  }

  /** Reference definition: the 24-bit two's-complement value of three bytes. */
  function Raw24(b3: Byte, b4: Byte, b5: Byte): int {
    b3 + 0x100 * b4 + 0x1_0000 * b5 - (if b5 >= 128 then 0x100_0000 else 0)
  }

  /** Sign-extending into an int32 gives exactly the 24-bit two's-complement value. */
  lemma DecodeIsRaw24(frame: seq<Byte>)
    requires |frame| == FrameLength
    ensures Decode(frame) == Some(Raw24(frame[3], frame[4], frame[5]))
  {
  }

  /** A decoded reading always fits in 24 signed bits. */
  lemma DecodeRange(frame: seq<Byte>)
    requires |frame| == FrameLength
    ensures -0x80_0000 <= Decode(frame).value < 0x80_0000
  {
    DecodeIsRaw24(frame);
  }

  /** The reading is negative exactly when the top bit of byte 5 is set. */
  lemma DecodeNegativeIff(frame: seq<Byte>)
    requires |frame| == FrameLength
    ensures Decode(frame).value < 0 <==> frame[5] >= 128
  {
    DecodeIsRaw24(frame);
  }

  /** Only bytes 3, 4 and 5 influence the reading. */
  lemma DecodeOnlyMiddleBytes(f: seq<Byte>, g: seq<Byte>)
    requires |f| == |g| == FrameLength
    requires f[3] == g[3] && f[4] == g[4] && f[5] == g[5]
    ensures Decode(f) == Decode(g)
  {
  }

  /** A 7-byte frame that carries a given reading (the other bytes are zero). */
  function Encode(raw: int): (frame: seq<Byte>)
    requires -0x80_0000 <= raw < 0x80_0000
    ensures |frame| == FrameLength
  {
    var u := raw % 0x100_0000;
    [0, 0, 0, u % 0x100, (u / 0x100) % 0x100, (u / 0x100) / 0x100, 0]
  }

  /** Round trip: every 24-bit reading survives encoding and decoding. */
  lemma DecodeEncode(raw: int)
    requires -0x80_0000 <= raw < 0x80_0000
    ensures Decode(Encode(raw)) == Some(raw)
  {
    var u := raw % 0x100_0000;
    assert u == if raw < 0 then raw + 0x100_0000 else raw;
    var q := u / 0x100;
    assert u == 0x100 * q + u % 0x100;
    assert q == 0x100 * (q / 0x100) + q % 0x100;
    assert q / 0x100 < 0x100;
    assert q / 0x100 >= 128 <==> raw < 0;
    DecodeIsRaw24(Encode(raw));
  }

  /** The reading determines bytes 3..5: re-encoding a decoded frame gives them back. */
  lemma EncodeDecode(frame: seq<Byte>)
    requires |frame| == FrameLength
    ensures -0x80_0000 <= Decode(frame).value < 0x80_0000
    ensures Encode(Decode(frame).value)[3..6] == frame[3..6]
  {
    DecodeIsRaw24(frame);
    var raw := Decode(frame).value;
    var b3: int, b4: int, b5: int := frame[3], frame[4], frame[5];
    var u := raw % 0x100_0000;
    assert u == b3 + 0x100 * b4 + 0x1_0000 * b5;
    var q := b4 + 0x100 * b5;
    assert u == b3 + 0x100 * q;
    assert u % 0x100 == b3 && u / 0x100 == q;
    assert q % 0x100 == b4 && q / 0x100 == b5;
  }

  /** Two frames with the same reading agree on bytes 3..5. */
  lemma DecodeInjective(f: seq<Byte>, g: seq<Byte>)
    requires |f| == |g| == FrameLength
    requires Decode(f) == Decode(g)
    ensures f[3..6] == g[3..6]
  {
    EncodeDecode(f);
    EncodeDecode(g);
  }

  /** Bytes 0x10 0x27 0x00 at offsets 3..5 are 10000 thousandths, i.e. 10.000. */
  lemma DecodeTenMillimetres(frame: seq<Byte>)
    requires |frame| == FrameLength && frame[3] == 0x10 && frame[4] == 0x27 && frame[5] == 0x00
    ensures Decode(frame) == Some(10000)
  {
  }

  /** Byte 5 equal to 0xFF always gives a negative reading. */
  lemma DecodeHighByteFF(frame: seq<Byte>)
    requires |frame| == FrameLength && frame[5] == 0xFF
    ensures Decode(frame).value < 0
  {
    DecodeNegativeIff(frame);
  }
}

/** The connection manager of hooks/useConnectarBluetooth.ts: its six state
    fields, the notification handler and the connect/disconnect transitions.
    Each asynchronous step of the Web Bluetooth chain is an outcome parameter. */
module BluetoothConnection {
  import opened Wrappers
  import opened Mitutoyo

  datatype Device = Device(id: string, name: Option<string>)
  datatype Characteristic = Characteristic(uuid: string)

  const MitutoyoServiceUuid := "7eafd361-f150-4785-b307-47d34ed52c3c"
  const MitutoyoCharacteristicUuid := "7eafd361-f151-4785-b307-47d34ed52c3c"

  /** The "no new reading" value, shown as "0.000". */
  const Sentinela: int := 0

  const StatusInicial := "Clique para conectar"
  const StatusNaoSuportado := "Web Bluetooth API não é suportada."
  const StatusProcurando := "Procurando por dispositivo..."
  const StatusCancelado := "Seleção cancelada ou nenhum dispositivo encontrado."

  /** `x || fallback` for an optional string. */
  function OrElse(x: Option<string>, fallback: string): string {
    if x.Some? && x.value != "" then x.value else fallback
  }

  /** A template-literal interpolation of an optional string. */
  function Interpolate(x: Option<string>): string {
    if x.Some? then x.value else "undefined"
  }

  function StatusConectandoA(d: Device): string {
    "Conectando a: " + OrElse(d.name, "Dispositivo") + "..."
  }

  function StatusPronto(d: Device): string {
    "PRONTO! Conectado a: " + Interpolate(d.name) + "."
  }

  function StatusDesconectado(d: Option<Device>): string {
    "Dispositivo \"" + OrElse(if d.Some? then d.value.name else None, "Desconhecido") + "\" desconectado."
  }

  /** The status text of a failed connection attempt. */
  function StatusErro(name: string, message: string): string {
    if name == "NotFoundError" then StatusCancelado else "Erro de Conexão: " + message
  }

  /** The outcomes of the awaited steps of one connection attempt, in order:
      the device picker, the GATT link (connect, primary service, characteristic)
      and `startNotifications`. A step after a failed one is never reached. */
  datatype ConnectRun = ConnectRun(
    requestDevice: Call<Device>,
    link: Call<Characteristic>,
    startNotifications: Call<()>)
  {
    predicate Succeeds() {
      requestDevice.Ok? && link.Ok? && startNotifications.Ok?
    }

    /** The rejection that ends a failed attempt: the first failing step. */
    function FirstFailure(): (e: (string, string))
      requires !Succeeds()
    {
      if requestDevice.Fail? then (requestDevice.name, requestDevice.message)
      else if link.Fail? then (link.name, link.message)
      else (startNotifications.name, startNotifications.message)
    }
  }

  class Connection {
    var status: string
    var valorMicrometro: int
    var device: Option<Device>
    var characteristic: Option<Characteristic>
    var isConnected: bool
    var isConnecting: bool

    /** Between two handlers the device and characteristic are set together,
        exactly when connected, and no attempt is in flight. */
    ghost predicate Valid()
      reads this
    {
      (device.Some? <==> characteristic.Some?) && (isConnected <==> device.Some?) && !isConnecting
    }

    constructor ()
      ensures Valid()
      ensures status == StatusInicial && valorMicrometro == Sentinela
      ensures device == None && characteristic == None && !isConnected && !isConnecting
    {
      status := StatusInicial;
      valorMicrometro := Sentinela;
      device := None;
      characteristic := None;
      isConnected := false;
      isConnecting := false;
    }

    /** `deviceName`: `device?.name ?? null` */
    function DeviceName(): (n: Option<string>)
      reads this
      ensures device.None? ==> n.None?
    {
      if device.Some? then device.value.name else None
    }

    /** `resetarValorMicrometro`: back to the sentinel, whatever the reading was. */
    method ResetarValorMicrometro()
      requires Valid()
      modifies this
      ensures Valid()
      ensures valorMicrometro == Sentinela
      ensures status == old(status) && device == old(device) && characteristic == old(characteristic)
      ensures isConnected == old(isConnected) && isConnecting == old(isConnecting)
    {
      valorMicrometro := Sentinela;
    }

    /** `handleNotifications`: an absent value or an undecodable frame leaves the
        reading alone; otherwise the reading becomes the decoded value. */
    method HandleNotifications(value: Option<seq<Byte>>)
      requires Valid()
      modifies this
      ensures Valid()
      ensures value.None? ==> valorMicrometro == old(valorMicrometro)
      ensures value.Some? && |value.value| != FrameLength ==> valorMicrometro == old(valorMicrometro)
      ensures value.Some? && |value.value| == FrameLength ==> valorMicrometro == Decode(value.value).value
      ensures status == old(status) && device == old(device) && characteristic == old(characteristic)
      ensures isConnected == old(isConnected) && isConnecting == old(isConnecting)
    {
      if value.None? {
        return;
      }
      var valorFinal := DecodeMitutoyoUwave(value.value);
      if valorFinal.Some? {
        valorMicrometro := valorFinal.value;
      }
    }

    /** `onDisconnected`: the transport dropped (or a forced cleanup). */
    method OnDisconnected()
      requires Valid()
      modifies this
      ensures Valid()
      ensures status == StatusDesconectado(old(device))
      ensures valorMicrometro == Sentinela
      ensures device == None && characteristic == None && !isConnected && !isConnecting
    {
      status := StatusDesconectado(device);
      valorMicrometro := Sentinela;
      device := None;
      characteristic := None;
      isConnected := false;
      isConnecting := false;
    }

    /** `connect`: one whole attempt. Without Web Bluetooth only the status
        changes; otherwise the attempt ends connected exactly when every step
        succeeded, and cleared on any failure. */
    method Connect(bluetoothSupported: bool, run: ConnectRun)
      requires Valid()
      modifies this
      ensures Valid()
      ensures valorMicrometro == old(valorMicrometro)
      ensures !bluetoothSupported ==>
        status == StatusNaoSuportado && device == old(device) && characteristic == old(characteristic)
        && isConnected == old(isConnected) && isConnecting == old(isConnecting)
      ensures bluetoothSupported ==> !isConnecting && (isConnected <==> run.Succeeds())
      ensures bluetoothSupported && run.Succeeds() ==>
        device == Some(run.requestDevice.value) && characteristic == Some(run.link.value)
        && status == StatusPronto(run.requestDevice.value)
      ensures bluetoothSupported && !run.Succeeds() ==>
        device == None && characteristic == None
        && status == StatusErro(run.FirstFailure().0, run.FirstFailure().1)
    {
      if !bluetoothSupported {
        status := StatusNaoSuportado;
        return;
      }
      status := StatusProcurando;
      isConnecting := true;
      isConnected := false;

      var failed := true;
      var errName, errMessage := "", "";
      match run.requestDevice {
        case Fail(n, m) =>
          errName, errMessage := n, m;
        case Ok(newDevice) =>
          status := StatusConectandoA(newDevice);
          match run.link {
            case Fail(n, m) =>
              errName, errMessage := n, m;
            case Ok(newCharacteristic) =>
              match run.startNotifications {
                case Fail(n, m) =>
                  errName, errMessage := n, m;
                case Ok(_) =>
                  device := Some(newDevice);
                  characteristic := Some(newCharacteristic);
                  isConnected := true;
                  status := StatusPronto(newDevice);
                  failed := false;
              }
          }
      }
      if failed {
        status := StatusErro(errName, errMessage);
        device := None;
        characteristic := None;
        isConnected := false;
      }
      isConnecting := false;
    }

    /** `disconnect`: with a live GATT link it only asks the device to drop the
        link (the `gattserverdisconnected` event then runs `OnDisconnected`);
        without one it runs the cleanup at once. */
    method Disconnect(gattConnected: bool) returns (requested: bool)
      requires Valid()
      modifies this
      ensures Valid()
      ensures requested <==> old(device).Some? && gattConnected
      ensures requested ==>
        status == old(status) && valorMicrometro == old(valorMicrometro) && device == old(device)
        && characteristic == old(characteristic) && isConnected == old(isConnected)
      ensures !requested ==>
        status == StatusDesconectado(old(device)) && valorMicrometro == Sentinela
        && device == None && characteristic == None && !isConnected && !isConnecting
    {
      if device.Some? && gattConnected {
        requested := true;
      } else {
        requested := false;
        OnDisconnected();
      }
    }
  }
}
