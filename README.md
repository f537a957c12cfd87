# Front-Coester quality-control dashboard — a Dafny model

This project models the front-end logic of Front-Coester. Front-Coester is a quality-control dashboard in which operators measure sampled pieces of a production lot (*lote*) against the dimensions (*cotas*) of a part type (*tipo de peça*). The model covers:

- **Measurement session** (`FormularioMedicao`). This is the state machine of the `useFormularioMedicao` hook. It selects a lot and computes where measuring resumes. In piece-by-piece (*peça a peça*) or dimension-by-dimension (*cota a cota*) mode it validates the active fields, advances the piece/dimension cursor, and concludes the lot as approved or rejected. It can also restart, cancel or reset the session.
- **Micrometer** (`Mitutoyo`, `BluetoothConnection`, `Sidebar`). The Mitutoyo U-WAVE frame decoder is a sign-extended little-endian 24-bit integer of thousandths. The model also covers the connection state of the Bluetooth hook, the older copy of that hook inside the sidebar, the sidebar's connect button and its role-dependent menu.
- **Legacy measurement form** (`FormularioMedicaoPecas`): the per-field validator, the spec classifier, form validation, value editing, reset and save.
- **Part-type management** (`GerenciamentoTiposPecas`, `DialogTipoPeca`):
  - the list editor (search, add and remove fields, save, duplicate, toggle active, usage statistics and ranking);
  - the dialog that edits a dimension's nominal value and tolerance and saves the type.
- **Lot creation dialog** (`DialogCriarLote`): its validity rule (samples ≤ pieces), the form it shows on opening, submission and field edits.
- **Dashboards** (`DashboardUsuario`, `DashboardAdministrador`):
  - the lot filter, progress, status labels and colours;
  - the user filter, the top-3 ranking (sorted in place), the approval band, initials and badge fallbacks.
- **Shell** (`LayoutPrincipal`, `ContextoAutenticacao`, `Api`):
  - page routing with its admin-only gate;
  - fixed-credential login and logout;
  - the `Authorization: Basic …` header rule of the request interceptor.

Shared pieces live in `common.dfy`:

- `Wrappers`: `Option`, and `Call`, the outcome of a backend or Bluetooth step;
- `Text`: the string operations JavaScript provides (`trim`, `toLowerCase`, `includes`, `replace`, `split`);
- `Lists`: `filter` and `find`.

Two more files hold shared definitions:

- `api_types.dfy`: the API's DTOs;
- `ordenacao.dfy`: the in-place descending sort that `Array.prototype.sort` performs, and `slice(0, n)`.

How the model is built:

- **Stateful code becomes classes.** React components and hooks that hold state are classes whose methods update the fields as `setState` does, one handler per atomic step.
- **Pure expressions become functions and lemmas.**
- **Inputs the code does not control are parameters.** Every backend call, Bluetooth step, clock reading, `window.confirm` answer and `Number`/`parseFloat` conversion is passed in. Backend and Bluetooth outcomes are `Call` values: `Ok(value)` or `Fail(name, message)`.
- **Numbers.** JavaScript numbers are `real`; micrometer readings are integer thousandths.

## Model

| member | source | states |
|---|---|---|
| Text.TrimStart | componentes/DialogTipoPeca.tsx:61-62 | the result is a suffix of the input that starts with a non-whitespace character or is empty |
| Text.TrimEnd | componentes/DialogTipoPeca.tsx:61-62 | the result is a prefix of the input that ends with a non-whitespace character or is empty |
| Text.Trim | componentes/DialogTipoPeca.tsx:61-62 | `trim()` is never longer than its input, and a non-empty result neither starts nor ends with whitespace |
| Text.TrimEmptyIffBlank | componentes/DialogCriarLote.tsx:75 | `trim()` yields "" exactly when every character is whitespace |
| Text.TrimStartBlank | componentes/DialogTipoPeca.tsx:61-62 | stripping leading whitespace leaves "" exactly on an all-whitespace string |
| Text.TrimEndBlank | componentes/DialogTipoPeca.tsx:61-62 | stripping trailing whitespace leaves "" exactly on an all-whitespace string |
| Text.ToLower | componentes/gerenciamento-tipos-pecas.tsx:180 | lowercasing keeps the length and maps each character through the ASCII case fold |
| Text.ToLowerIdempotent | componentes/gerenciamento-tipos-pecas.tsx:180 | lowercasing twice equals lowercasing once |
| Text.ContainsEmpty | componentes/gerenciamento-tipos-pecas.tsx:180 | every string includes the empty term |
| Text.ContainsIffOccurs | componentes/dashboard-usuario.tsx:139-141 | `includes(sub)` holds iff `sub` occurs at some position |
| Text.RemoveWhitespace | componentes/gerenciamento-tipos-pecas.tsx:215 | `replace(/\s+/g, "")` leaves no whitespace and is never longer than the input; its contents are given by `RemoveWhitespaceFiltra` |
| Text.RemoveWhitespaceConcat | componentes/gerenciamento-tipos-pecas.tsx:215 | removing whitespace from a concatenation is removing it from each part and concatenating |
| Text.RemoveWhitespaceFiltra | componentes/gerenciamento-tipos-pecas.tsx:215 | removing whitespace keeps exactly the non-whitespace characters, in their order |
| Text.RemoveWhitespaceTrimStart | componentes/gerenciamento-tipos-pecas.tsx:215 | a leading whitespace run makes no difference to what survives removal |
| Text.RemoveWhitespaceSemEspaco | componentes/gerenciamento-tipos-pecas.tsx:215 | removing whitespace from a string that has none changes nothing |
| Text.ReplaceWhitespaceRuns | componentes/gerenciamento-tipos-pecas.tsx:256 | `replace(/\s+/g, sep)`; with an empty separator it equals `replace(/\s+/g, "")`, and its contents are given by `ReplaceWhitespaceRunsDecompoe` |
| Text.TrimStartRun | componentes/gerenciamento-tipos-pecas.tsx:256 | a regular-expression match of `\s+` ends exactly where the whitespace run ends: a run in front of a non-whitespace text is all that is consumed |
| Text.ReplaceWhitespaceRunsDecompoe | componentes/gerenciamento-tipos-pecas.tsx:256 | the text before the first whitespace run is kept, the whole run becomes one separator, and replacement continues after it |
| Text.ReplaceWhitespaceRunsSemEspaco | componentes/gerenciamento-tipos-pecas.tsx:256 | replacing whitespace runs with a separator that has no whitespace leaves a result with none |
| Text.ReplaceFirst | componentes/dashboard-usuario.tsx:254 | `replace("_", " ")` with a one-character pattern keeps the length (which position changes is `ReplaceFirstAt`) |
| Text.ReplaceFirstAt | componentes/dashboard-usuario.tsx:254 | when the first `from` is at position k, only position k becomes `to` |
| Text.ReplaceFirstAbsent | componentes/dashboard-usuario.tsx:339 | with no occurrence of `from`, the string is unchanged |
| Text.Split | componentes/dashboard-administrador.tsx:372 | `split(sep)` always returns at least one piece |
| Text.SplitSemSeparador | componentes/dashboard-administrador.tsx:372 | a string without the separator splits into itself alone |
| Lists.Filter | componentes/dashboard-usuario.tsx:132-143 | `filter` keeps only passing elements, each from the input, and is no longer than the input |
| Lists.FilterKeepsPassing | componentes/dashboard-usuario.tsx:132-143 | an element is in the filtered list iff it is in the input and passes |
| Lists.FilterConcat | componentes/dashboard-usuario.tsx:132-143 | filtering a concatenation is the concatenation of the filtered parts, so order is preserved |
| Lists.FilterSingleton | componentes/sidebar.tsx:355 | a one-element list keeps its element exactly when it passes |
| Lists.FilterAllPass | componentes/dashboard-usuario.tsx:135-139 | when every element passes, the filter returns the list unchanged |
| Lists.Find | contextos/contexto-autenticacao.tsx:79-85 | `find` returns None iff no element passes; otherwise it returns an element that passes and that no earlier element does |
| Mitutoyo.Int32LE | hooks/useConnectarBluetooth.ts:23-33 | reading four bytes as a little-endian signed 32-bit integer gives a value in [-2^31, 2^31) |
| Mitutoyo.Decode | hooks/useConnectarBluetooth.ts:20-34 | the decoder yields no value exactly when the frame is not 7 bytes long |
| Mitutoyo.DecodeMitutoyoUwave | hooks/useConnectarBluetooth.ts:20-34 | the byte-by-byte buffer fill equals the decoding function |
| Mitutoyo.DecodeIsRaw24 | hooks/useConnectarBluetooth.ts:25-33 | a 7-byte frame decodes to b3 + 256·b4 + 65536·b5 − 2^24·[b5 ≥ 128] |
| Mitutoyo.DecodeRange | hooks/useConnectarBluetooth.ts:28-33 | a decoded value lies in [−2^23, 2^23 − 1] |
| Mitutoyo.DecodeNegativeIff | hooks/useConnectarBluetooth.ts:28-33 | a decoded value is negative iff byte 5 is at least 128 |
| Mitutoyo.DecodeOnlyMiddleBytes | hooks/useConnectarBluetooth.ts:25-28 | frames that agree on bytes 3-5 decode to the same value |
| Mitutoyo.Encode | hooks/useConnectarBluetooth.ts:20-34 | every 24-bit signed value has a 7-byte frame (the inverse used to state the round trip) |
| Mitutoyo.DecodeEncode | hooks/useConnectarBluetooth.ts:20-34 | decoding the frame of a value gives the value back |
| Mitutoyo.EncodeDecode | hooks/useConnectarBluetooth.ts:20-34 | encoding a decoded value gives back bytes 3-5 of the frame |
| Mitutoyo.DecodeInjective | hooks/useConnectarBluetooth.ts:20-34 | equal readings come from equal bytes 3-5 |
| Mitutoyo.DecodeTenMillimetres | hooks/useConnectarBluetooth.ts:25-34 | bytes 0x10 0x27 0x00 read 10000 thousandths (10.000 mm) |
| Mitutoyo.DecodeHighByteFF | hooks/useConnectarBluetooth.ts:28-33 | a high byte of 0xFF always gives a negative reading |
| BluetoothConnection.Connection.constructor | hooks/useConnectarBluetooth.ts:41-47 | the hook starts with "Clique para conectar", reading "0.000", no device, neither connected nor connecting |
| BluetoothConnection.Connection.DeviceName | hooks/useConnectarBluetooth.ts:164 | there is no device name without a device |
| BluetoothConnection.Connection.ResetarValorMicrometro | hooks/useConnectarBluetooth.ts:49-51 | the reading becomes "0.000" whatever it was; nothing else changes |
| BluetoothConnection.Connection.HandleNotifications | hooks/useConnectarBluetooth.ts:53-62 | a missing value or a frame not 7 bytes long leaves the reading; otherwise it becomes the decoded value |
| BluetoothConnection.Connection.OnDisconnected | hooks/useConnectarBluetooth.ts:64-71 | device and characteristic are cleared, not connected or connecting, reading "0.000", status names the old device |
| BluetoothConnection.Connection.Connect | hooks/useConnectarBluetooth.ts:97-144 | without Web Bluetooth only the status changes; otherwise it is not connecting afterwards, connected iff every step succeeded, and every failure clears device and characteristic |
| BluetoothConnection.Connection.Disconnect | hooks/useConnectarBluetooth.ts:147-155 | a link disconnect is requested iff there is a device with a live GATT link; without one, the state is reset as on disconnection |
| Sidebar.DecodeMitutoyoUwave | componentes/sidebar.tsx:48-63 | the sidebar's copy of the decoder is the same function as the hook's: null iff the length is not 7 |
| Sidebar.LegacyConnection.constructor | componentes/sidebar.tsx:68-74 | the older hook starts disconnected with reading "0.000" |
| Sidebar.LegacyConnection.ResetarValorMicrometro | componentes/sidebar.tsx:76-78 | the reading becomes "0.000"; nothing else changes |
| Sidebar.LegacyConnection.HandleNotifications | componentes/sidebar.tsx:80-91 | only a 7-byte frame changes the reading, to its decoded value |
| Sidebar.LegacyConnection.OnDisconnected | componentes/sidebar.tsx:93-98 | the reading is reset, device and characteristic are cleared, the connecting flag is untouched |
| Sidebar.LegacyConnection.Connect | componentes/sidebar.tsx:132-166 | the device is stored before the link step and cleared when any step fails; never connecting afterwards |
| Sidebar.LegacyConnection.IniciarNotificacoes | componentes/sidebar.tsx:104-117 | with a characteristic, starting notifications reports ready or the error; only the status changes |
| Sidebar.LegacyConnection.Disconnect | componentes/sidebar.tsx:168-177 | a disconnect is requested iff the device's GATT link is connected |
| Sidebar.Botao | componentes/sidebar.tsx:228-246 | the button is disabled iff connecting, disconnects iff connected, and shows the matching label |
| Sidebar.ItensVisiveis | componentes/sidebar.tsx:353-355 | only items marked visible are shown |
| Sidebar.Ids | componentes/sidebar.tsx:353-358 | the item keys are the item ids in order |
| Sidebar.ItensVisiveisLista | componentes/sidebar.tsx:293-355 | the filter keeps the first two entries, drops "medicoes" and keeps the type manager exactly when the user is an administrator, in menu order |
| Sidebar.ItensVisiveisIds | componentes/sidebar.tsx:293-355 | the menu is "dashboard", "nova-medicao", plus "tipos-pecas" exactly for an administrator; "medicoes" never |
| Sidebar.AtivoUnico | componentes/sidebar.tsx:360 | at most one visible item is active for a given page |
| Sidebar.SidebarState.constructor | componentes/sidebar.tsx:290 | the mobile menu starts closed |
| Sidebar.SidebarState.HandleItemClick | componentes/sidebar.tsx:328-331 | a click forwards the id when a page handler is given and always closes the mobile menu |
| FormularioMedicaoPecas.ValidarCampo | componentes/formulario-medicao-pecas.tsx:201-220 | required and blank gives the required message; valid ("") iff the value parses and lies within the given bounds |
| FormularioMedicaoPecas.LimitesAceitos | componentes/formulario-medicao-pecas.tsx:211-217 | values equal to `min` or `max` are accepted |
| FormularioMedicaoPecas.OpcionalVazioInvalido | componentes/formulario-medicao-pecas.tsx:206-209 | an empty optional field is reported as not a valid number |
| FormularioMedicaoPecas.NumeroInvalidoTemTexto | componentes/formulario-medicao-pecas.tsx:202-209 | a required field only gets the number error when it has text |
| FormularioMedicaoPecas.ValorDeSse | componentes/formulario-medicao-pecas.tsx:247 | the value looked up with a "" fallback is "" exactly when the key is missing or holds "", and otherwise the stored value |
| FormularioMedicaoPecas.ErrosDoFormulario | componentes/formulario-medicao-pecas.tsx:244-255 | every entry of the error map is an actual error; which keys it has is `ErrosDoFormularioChaves` |
| FormularioMedicaoPecas.ErrosDoFormularioChaves | componentes/formulario-medicao-pecas.tsx:244-255 | a name has an error exactly when some field of that name fails, a missing value counting as "" |
| FormularioMedicaoPecas.ColetarErros | componentes/formulario-medicao-pecas.tsx:244-251 | the `forEach` loop builds exactly that error map |
| FormularioMedicaoPecas.ErrosPorCampo | componentes/formulario-medicao-pecas.tsx:246-250 | with distinct field names, each failing field carries its own error |
| FormularioMedicaoPecas.Encontrar | componentes/formulario-medicao-pecas.tsx:189 | a type is found iff one has that id, and it is one with that id |
| FormularioMedicaoPecas.VerificarEspecificacao | componentes/formulario-medicao-pecas.tsx:223-235 | "info" without a type, a spec or a number; otherwise "aprovado" iff min ≤ v ≤ max |
| FormularioMedicaoPecas.ParafusoM8 | componentes/formulario-medicao-pecas.tsx:223-235 | on the built-in M8 bolt, the length ("comprimento") is approved exactly inside [38, 42] and the thread pitch ("passo"), which has no specification, is always info |
| FormularioMedicaoPecas.Formulario.constructor | componentes/formulario-medicao-pecas.tsx:176-182 | the form starts with no selection, values, notes or errors, not saving or saved |
| FormularioMedicaoPecas.Formulario.AtualizarValor | componentes/formulario-medicao-pecas.tsx:192-198 | sets one value and clears only that field's existing error |
| FormularioMedicaoPecas.Formulario.ValidarFormulario | componentes/formulario-medicao-pecas.tsx:238-256 | no type gives exactly `{geral}` and false; otherwise the errors become the failing fields and the result is true iff there are none |
| FormularioMedicaoPecas.Formulario.ResetarFormulario | componentes/formulario-medicao-pecas.tsx:259-265 | clears the selection, values, notes, errors and the saved flag |
| FormularioMedicaoPecas.Formulario.SalvarMedicao | componentes/formulario-medicao-pecas.tsx:268-291 | saves (and marks saved) iff validation passes; the errors are left as `validarFormulario` sets them (the general error without a type, else exactly the failing fields), so nothing is saved unless the form validates; inputs are untouched |
| FormularioMedicao.MapCampo | hooks/useFormularioMedicao.ts:25-36 | a dimension becomes a required field whose bounds exist iff the nominal value is truthy, at nominal ± tolerance |
| FormularioMedicao.EspecificacaoDe | hooks/useFormularioMedicao.ts:39-49 | a spec interval is centred on the nominal value with width twice the non-zero tolerance |
| FormularioMedicao.Especificacoes | hooks/useFormularioMedicao.ts:39-49 | every spec comes from a dimension of that name whose tolerance and nominal value are both truthy |
| FormularioMedicao.EspecificacoesUltimaVence | hooks/useFormularioMedicao.ts:39-49 | the last dimension with a spec under a name decides that name's spec |
| FormularioMedicao.EspecificacoesAusente | hooks/useFormularioMedicao.ts:39-49 | a name none of whose dimensions has a spec gets none |
| FormularioMedicao.MapTipoPecaApiToFormulario | hooks/useFormularioMedicao.ts:23-57 | one field per dimension, in order, and the spec map above |
| FormularioMedicao.ValoresIniciais | hooks/useFormularioMedicao.ts:594-598 | the reset values have exactly the field names as keys, each "" |
| FormularioMedicao.VerificarEspecificacao | hooks/useFormularioMedicao.ts:622-632 | "info" iff no type, empty value, not a number or no spec; "aprovado" iff within [min, max] inclusive; else "fora-spec" |
| FormularioMedicao.ClassificacaoPelaTolerancia | hooks/useFormularioMedicao.ts:39-49 | for a mapped API type, a number is approved iff within nominal ± tolerance |
| FormularioMedicao.SemEspecificacaoSempreInfo | hooks/useFormularioMedicao.ts:39-49 | a dimension with a zero tolerance or nominal value is always "info" |
| FormularioMedicao.TipoPecaDe | hooks/useFormularioMedicao.ts:115-118 | there is a part type iff a lot detail is loaded |
| FormularioMedicao.LimiteAmostras | hooks/useFormularioMedicao.ts:120-123 | the limit is the desired sample count, falling back to the piece count when it is 0 |
| FormularioMedicao.PecasNoLote | hooks/useFormularioMedicao.ts:120-123 | the lot's limit when a detail is loaded, 0 otherwise |
| FormularioMedicao.CotaAtual | hooks/useFormularioMedicao.ts:125-128 | the current dimension exists iff the index is within the type's fields, and is that field |
| FormularioMedicao.ErrosObrigatorios | hooks/useFormularioMedicao.ts:284-296 | a key has an error iff it is a required field whose value is missing or empty; range is never checked |
| FormularioMedicao.CamposParaValidar | hooks/useFormularioMedicao.ts:284-287 | cota-a-cota validates only the current dimension; other modes validate all fields |
| FormularioMedicao.ValidarObrigatorios | hooks/useFormularioMedicao.ts:288-296 | the `forEach` loop computes exactly that error map |
| FormularioMedicao.PreenchidoNuncaErro | hooks/useFormularioMedicao.ts:289-295 | a field with a non-empty value never gets an error |
| FormularioMedicao.Avancar | hooks/useFormularioMedicao.ts:332-375 | peca-a-peca moves to the next piece and completes past the limit; cota-a-cota moves along pieces, then to the next dimension at piece 1, then completes; completion keeps the cursor; no mode keeps it. From any cursor: peca-a-peca goes to (peca + 1, cota) unless completing; cota-a-cota goes to (peca + 1, cota) below the limit, otherwise to (1, cota + 1) unless completing; only a non-completing cota-a-cota step clears just the current dimension |
| FormularioMedicao.CotaACotaPercurso | hooks/useFormularioMedicao.ts:347-375 | after q·n + r saves from (1, 0), the cursor is at piece r+1 of dimension q; only the last save completes |
| FormularioMedicao.CotaACotaConclusao | hooks/useFormularioMedicao.ts:347-375 | exactly pieces × dimensions saves reach completion, at (pieces, last dimension) |
| FormularioMedicao.PecaAPecaPercurso | hooks/useFormularioMedicao.ts:341-346 | after k saves the cursor is at piece k+1, and save number n completes |
| FormularioMedicao.MaiorPecaNumero | hooks/useFormularioMedicao.ts:232-235 | the largest piece number measured, 0 when there are none |
| FormularioMedicao.MaiorPecaNumeroContiguo | hooks/useFormularioMedicao.ts:232-235 | with pieces 1..k measured, the largest is k |
| FormularioMedicao.Retomada | hooks/useFormularioMedicao.ts:238-250 | resume at largest+1; completed iff that exceeds the limit, and then the piece is clamped to the limit |
| FormularioMedicao.RetomadaVazia | hooks/useFormularioMedicao.ts:238-250 | a lot with no measurements resumes at piece 1, not completed |
| FormularioMedicao.RetomadaCompleta | hooks/useFormularioMedicao.ts:238-250 | a lot with all pieces measured is completed at the last piece |
| FormularioMedicao.MensagemOuPadrao | hooks/useFormularioMedicao.ts:430-441 | the error message shown is never empty |
| FormularioMedicao.ConcluirLote | hooks/useFormularioMedicao.ts:379-441 | concluded iff `concluirLote` returned true and the reload succeeded, with the reloaded lot; `false` gives the internal-error message |
| FormularioMedicao.EstadoConcluido | hooks/useFormularioMedicao.ts:395-441 | completed and not saving; approved iff concluded with status "APROVADO"; a failure sets `critico`; cursor and values are kept |
| FormularioMedicao.FalhaConclusaoCritica | hooks/useFormularioMedicao.ts:422-441 | when concluding fails or throws, `critico` is set and the lot shows as not approved |
| FormularioMedicao.ProximoPasso | hooks/useFormularioMedicao.ts:332-375 | the branchy local-variable update computes the cursor, completion and cleared values of `Avancar`, or throws when cota-a-cota has no current dimension |
| FormularioMedicao.Controlador.constructor | hooks/useFormularioMedicao.ts:86-112 | the hook starts in its initial state with no lots loaded |
| FormularioMedicao.Controlador.CarregarLotes | hooks/useFormularioMedicao.ts:132-157 | logged in: the list becomes the response, or empty with `critico` on failure; not loading afterwards |
| FormularioMedicao.Controlador.SetLoteSelecionadoId | hooks/useFormularioMedicao.ts:161-212 | null resets to the initial state; a logged-in selection loads the detail with fresh values, or records `critico` |
| FormularioMedicao.Controlador.CarregarMedicoesExistentes | hooks/useFormularioMedicao.ts:215-269 | the measured pieces and the resume point of `Retomada` are installed; a failure sets `critico` |
| FormularioMedicao.Controlador.SalvarMedicao | hooks/useFormularioMedicao.ts:273-484 | no-op unless a lot, a type and a login are present and not saving; validation errors stop before any call; a failed add keeps the cursor and sets `critico`; success advances by `Avancar` or concludes the lot |
| FormularioMedicao.Controlador.ConcluirLoteAtual | hooks/useFormularioMedicao.ts:379-453 | the state after concluding is `EstadoConcluido` of the outcome |
| FormularioMedicao.Controlador.RecomecarMedicao | hooks/useFormularioMedicao.ts:501-549 | calls the backend iff a lot is selected, not saving and confirmed; success returns to piece 1, dimension 0, no mode, not completed, empty values |
| FormularioMedicao.Controlador.CancelarMedicao | hooks/useFormularioMedicao.ts:553-583 | the state returns to the initial one and the parent is told iff it gave a handler |
| FormularioMedicao.Controlador.SetModo | hooks/useFormularioMedicao.ts:587-604 | sets the mode, piece 1, dimension 0, every value "", and clears notes and errors |
| FormularioMedicao.Controlador.AtualizarValor | hooks/useFormularioMedicao.ts:606-612 | changes only that key's value and sets only that key's error to "" |
| FormularioMedicao.Controlador.SetObservacoes | hooks/useFormularioMedicao.ts:613-615 | replaces the notes only |
| FormularioMedicao.Controlador.ExisteErroCritico | hooks/useFormularioMedicao.ts:616-618 | true iff a non-empty `critico` message is present |
| FormularioMedicao.Controlador.ResetarFormulario | hooks/useFormularioMedicao.ts:619-621 | the state returns to the initial one |
| GerenciamentoTiposPecas.NormalizarNomeCampo | componentes/gerenciamento-tipos-pecas.tsx:215 | a field's key is the lowercased name with every whitespace character removed, so it has no whitespace and no upper-case letter |
| GerenciamentoTiposPecas.SemMaiusculas | componentes/gerenciamento-tipos-pecas.tsx:215 | removing whitespace keeps a lower-case string lower-case |
| GerenciamentoTiposPecas.NormalizarIdempotente | componentes/gerenciamento-tipos-pecas.tsx:215 | normalising a key twice equals normalising once |
| GerenciamentoTiposPecas.SlugId | componentes/gerenciamento-tipos-pecas.tsx:256 | a new type's id is the lowercased name with each whitespace run replaced by "-", so it has no whitespace |
| GerenciamentoTiposPecas.SlugParafusoM8 | componentes/gerenciamento-tipos-pecas.tsx:256 | the name "Parafuso M8" gives "parafuso-m8", the id of the built-in M8 bolt |
| GerenciamentoTiposPecas.TiposFiltrados | componentes/gerenciamento-tipos-pecas.tsx:178-182 | the search keeps types from the list whose name or description contains the term, case-insensitively |
| GerenciamentoTiposPecas.TiposFiltradosPertence | componentes/gerenciamento-tipos-pecas.tsx:178-182 | a type is listed iff it is in the list and matches |
| GerenciamentoTiposPecas.BuscaVaziaListaTodos | componentes/gerenciamento-tipos-pecas.tsx:178-182 | an empty search lists every type in order |
| GerenciamentoTiposPecas.SemIndice | componentes/gerenciamento-tipos-pecas.tsx:232-237 | removing position i keeps the others in order; an index outside the list removes nothing |
| GerenciamentoTiposPecas.Substituir | componentes/gerenciamento-tipos-pecas.tsx:258-262 | the entry with the edited id is replaced and all others kept, same length |
| GerenciamentoTiposPecas.Alternado | componentes/gerenciamento-tipos-pecas.tsx:290-292 | `ativo` flips only on entries with that id |
| GerenciamentoTiposPecas.AlternarDuasVezes | componentes/gerenciamento-tipos-pecas.tsx:290-292 | toggling twice restores the list |
| GerenciamentoTiposPecas.Ids | componentes/gerenciamento-tipos-pecas.tsx:258-262 | the ids of the list, in order |
| GerenciamentoTiposPecas.AlternarPreservaIds | componentes/gerenciamento-tipos-pecas.tsx:290-292 | toggling keeps every id in place |
| GerenciamentoTiposPecas.NovoTipo | componentes/gerenciamento-tipos-pecas.tsx:254-268 | the saved type takes the form's data and is active; editing keeps the id, creation date, author and measurement count; creating uses the slug id, today and count 0 |
| GerenciamentoTiposPecas.EdicaoPreservaIds | componentes/gerenciamento-tipos-pecas.tsx:258-262 | saving an edit leaves the id sequence unchanged |
| GerenciamentoTiposPecas.CriarRepeteId | componentes/gerenciamento-tipos-pecas.tsx:256 | creating "Engrenagem" yields the id "engrenagem", which a built-in type already has |
| GerenciamentoTiposPecas.ReplaceSemEspacoIdentidade | componentes/gerenciamento-tipos-pecas.tsx:256 | a name without whitespace keeps its characters in the slug |
| GerenciamentoTiposPecas.TotalOuZero | componentes/gerenciamento-tipos-pecas.tsx:439 | a type's usage count, or 0 when it has none |
| GerenciamentoTiposPecas.TotalMedicoesConcat | componentes/gerenciamento-tipos-pecas.tsx:439 | the measurement total `TotalMedicoes` is additive over concatenation, one type contributing its count, or 0 when it has none |
| GerenciamentoTiposPecas.TotalCampos | componentes/gerenciamento-tipos-pecas.tsx:426 | when every type has a field, there are at least as many fields as types |
| GerenciamentoTiposPecas.TotalCamposConcat | componentes/gerenciamento-tipos-pecas.tsx:426 | the field total is additive over concatenation, one type contributing its number of fields |
| GerenciamentoTiposPecas.Arredondar | componentes/gerenciamento-tipos-pecas.tsx:426 | `Math.round` lands within half a unit: x − ½ < r ≤ x + ½ |
| GerenciamentoTiposPecas.CamposMedios | componentes/gerenciamento-tipos-pecas.tsx:426 | no average for an empty list; otherwise the rounded average is within half a field of total/count |
| GerenciamentoTiposPecas.ArredondamentoDaMedia | componentes/gerenciamento-tipos-pecas.tsx:426 | rounding t/n within half a unit bounds t between (r ∓ ½)·n |
| GerenciamentoTiposPecas.Ativos | componentes/gerenciamento-tipos-pecas.tsx:399 | the active count never exceeds the list length; its value is given by `AtivosConcat` |
| GerenciamentoTiposPecas.AtivosConcat | componentes/gerenciamento-tipos-pecas.tsx:399 | the active count is additive over concatenation, and one type counts 1 exactly when it is active |
| GerenciamentoTiposPecas.Duplicado | componentes/gerenciamento-tipos-pecas.tsx:276-287 | the copy is named "… (Cópia)", has a fresh "-copia-" id, count 0, today's date and the same fields and specs |
| GerenciamentoTiposPecas.DuplicarPreservaTotal | componentes/gerenciamento-tipos-pecas.tsx:276-287 | duplicating does not change the total measurement count |
| GerenciamentoTiposPecas.GerenciadorTiposPecas.constructor | componentes/gerenciamento-tipos-pecas.tsx:152-175 | starts with the three built-in types, no search, the dialog closed and empty forms |
| GerenciamentoTiposPecas.GerenciadorTiposPecas.TiposVisiveis | componentes/gerenciamento-tipos-pecas.tsx:178-182 | the listed types are stored types matching the current search |
| GerenciamentoTiposPecas.GerenciadorTiposPecas.SetTermoBusca | componentes/gerenciamento-tipos-pecas.tsx:163 | replaces only the search term |
| GerenciamentoTiposPecas.GerenciadorTiposPecas.AbrirNovoTipo | componentes/gerenciamento-tipos-pecas.tsx:185-194 | opens the dialog with an empty form and nothing being edited |
| GerenciamentoTiposPecas.GerenciadorTiposPecas.AbrirEdicaoTipo | componentes/gerenciamento-tipos-pecas.tsx:197-206 | opens the dialog with the type's data, marking it as edited |
| GerenciamentoTiposPecas.GerenciadorTiposPecas.SetNovoCampo | componentes/gerenciamento-tipos-pecas.tsx:167-175 | replaces only the new-field draft |
| GerenciamentoTiposPecas.GerenciadorTiposPecas.AdicionarCampo | componentes/gerenciamento-tipos-pecas.tsx:209-229 | no-op when name or label is empty; otherwise appends exactly one field with the normalised key and resets the draft |
| GerenciamentoTiposPecas.GerenciadorTiposPecas.RemoverCampo | componentes/gerenciamento-tipos-pecas.tsx:232-237 | removes exactly position i of the form's fields |
| GerenciamentoTiposPecas.GerenciadorTiposPecas.AdicionarEspecificacao | componentes/gerenciamento-tipos-pecas.tsx:240-248 | sets one field's spec in the form |
| GerenciamentoTiposPecas.GerenciadorTiposPecas.SalvarTipo | componentes/gerenciamento-tipos-pecas.tsx:251-273 | no-op without a name or fields; an edit replaces the entry by id; a creation appends one; the dialog closes |
| GerenciamentoTiposPecas.GerenciadorTiposPecas.DuplicarTipo | componentes/gerenciamento-tipos-pecas.tsx:276-287 | appends exactly one copy |
| GerenciamentoTiposPecas.GerenciadorTiposPecas.AlternarStatus | componentes/gerenciamento-tipos-pecas.tsx:290-292 | the list becomes `Alternado` of itself; nothing else changes |
| GerenciamentoTiposPecas.GerenciadorTiposPecas.OrdenarPorUtilizacao | componentes/gerenciamento-tipos-pecas.tsx:455 | the state list is reordered in place by descending measurement count, as a permutation |
| GerenciamentoTiposPecas.GerenciadorTiposPecas.MaisUtilizado | componentes/gerenciamento-tipos-pecas.tsx:410-413 | after the in-place sort the first entry has the largest count; none for an empty list |
| DialogTipoPeca.IsFormValidSse | componentes/DialogTipoPeca.tsx:61-62 | valid iff the name has a non-whitespace character and there is a dimension |
| DialogTipoPeca.ValorNumerico | componentes/DialogTipoPeca.tsx:74-77 | blank input clears the value; otherwise `parseFloat` decides |
| DialogTipoPeca.Abs | componentes/DialogTipoPeca.tsx:79-84 | `Math.abs` is non-negative and equals x or −x |
| DialogTipoPeca.Atualizada | componentes/DialogTipoPeca.tsx:69-86 | only the targeted field changes; the nominal value keeps its sign; the tolerance is stored as a magnitude or cleared |
| DialogTipoPeca.ToleranciaIgnoraSinal | componentes/DialogTipoPeca.tsx:79-84 | tolerances x and −x give the same dimension |
| DialogTipoPeca.Dialogo.constructor | componentes/DialogTipoPeca.tsx:57-58 | a dialog starts not saving |
| DialogTipoPeca.Dialogo.HandleUpdateEspecificacao | componentes/DialogTipoPeca.tsx:64-88 | an index outside the list leaves the form; otherwise only that dimension becomes `Atualizada` |
| DialogTipoPeca.Dialogo.HandleSalvarTipo | componentes/DialogTipoPeca.tsx:90-122 | no request when invalid or saving; update iff the edit id is truthy, else create; success is reported iff the call succeeds; not saving afterwards |
| DialogCriarLote.IsFormValidSse | componentes/DialogCriarLote.tsx:73-79 | valid iff non-blank description, type id > 0, pieces > 0 and 0 < samples ≤ pieces (missing samples as 0) |
| DialogCriarLote.EstadoInicialInvalido | componentes/DialogCriarLote.tsx:41-79 | the initial form is invalid: empty description and type id 0 |
| DialogCriarLote.FormAoAbrir | componentes/DialogCriarLote.tsx:60-71 | opening takes each of the five initial values unless it is missing or falsy, then "", 0, 100, 10 and "" respectively |
| DialogCriarLote.AbrirSemDados | componentes/DialogCriarLote.tsx:60-71 | opening with no initial data gives the initial form |
| DialogCriarLote.PadroesValidos | componentes/DialogCriarLote.tsx:60-79 | the 100/10 defaults satisfy samples ≤ pieces |
| DialogCriarLote.Alterado | componentes/DialogCriarLote.tsx:103-111 | an input change replaces only the named field |
| DialogCriarLote.AlteracoesEValidade | componentes/DialogCriarLote.tsx:103-111 | lowering pieces below the samples invalidates a valid form; editing notes keeps it valid |
| DialogCriarLote.Dialogo.constructor | componentes/DialogCriarLote.tsx:57-58 | the dialog starts with the initial form, not submitting |
| DialogCriarLote.Dialogo.AoAbrir | componentes/DialogCriarLote.tsx:60-71 | while open, the form becomes `FormAoAbrir` of the initial data |
| DialogCriarLote.Dialogo.HandleCriarLote | componentes/DialogCriarLote.tsx:81-101 | an invalid form sends nothing; a valid one is sent, closes on success, stays open on failure; not submitting afterwards |
| DialogCriarLote.Dialogo.HandleInputChange | componentes/DialogCriarLote.tsx:103-111 | the form becomes `Alterado` of the change |
| DashboardUsuario.LotesFiltrados | componentes/dashboard-usuario.tsx:132-143 | keeps lots from the list matching the status filter and the case-insensitive search |
| DashboardUsuario.LotesFiltradosPertence | componentes/dashboard-usuario.tsx:132-143 | a lot is kept iff it is listed, its status passes and its code or type name contains the term |
| DashboardUsuario.SemFiltroListaTodos | componentes/dashboard-usuario.tsx:135-139 | "todos" with an empty term keeps every lot |
| DashboardUsuario.LotesFiltradosOrdem | componentes/dashboard-usuario.tsx:132-143 | filtering preserves the original order |
| DashboardUsuario.LotesFiltradosIdempotente | componentes/dashboard-usuario.tsx:132-143 | filtering a filtered list changes nothing |
| DashboardUsuario.LotesRecentes | componentes/dashboard-usuario.tsx:238 | at most the first 4 lots |
| DashboardUsuario.Progresso | componentes/dashboard-usuario.tsx:239-244 | progress × desired = measured × 100 when desired > 0, else 0 |
| DashboardUsuario.ProgressoEntre0e100 | componentes/dashboard-usuario.tsx:239-244 | with measured ≤ desired, progress lies in [0, 100] |
| DashboardUsuario.StatusLabel | componentes/dashboard-usuario.tsx:254 | the label keeps the status's length |
| DashboardUsuario.StatusLabelPrimeiro | componentes/dashboard-usuario.tsx:254 | only the first "_" becomes a space; later ones stay |
| DashboardUsuario.StatusLabelSemSublinhado | componentes/dashboard-usuario.tsx:254 | a status without "_" is its own label |
| DashboardUsuario.CorTaxa | componentes/dashboard-usuario.tsx:348-352 | green iff the approval rate is at least 90 |
| DashboardUsuario.VarianteStatus | componentes/dashboard-usuario.tsx:331-336 | the destructive badge iff the status is "REPROVADO" |
| DashboardAdministrador.UsuariosFiltrados | componentes/dashboard-administrador.tsx:204-211 | keeps users from the list that pass the status and search filter |
| DashboardAdministrador.UsuariosFiltradosPertence | componentes/dashboard-administrador.tsx:204-211 | a user is kept iff listed, the status passes, and the lowercased name contains the lowercased term or the e-mail contains the term as typed |
| DashboardAdministrador.BuscaEmailSensivel | componentes/dashboard-administrador.tsx:209 | the upper-case term "JOAO" does not match João's e-mail |
| DashboardAdministrador.NaoContemMaiuscula | componentes/dashboard-administrador.tsx:209 | a term starting with an upper-case letter never occurs in a string without one |
| DashboardAdministrador.Painel.constructor | componentes/dashboard-administrador.tsx:63-104 | the module array holds the four mock users |
| DashboardAdministrador.Painel.Filtrados | componentes/dashboard-administrador.tsx:204-211 | the listed users come from the array and pass the filter |
| DashboardAdministrador.Painel.MelhoresPerformers | componentes/dashboard-administrador.tsx:361-363 | the array is sorted in place by descending approval rate as a permutation; the top list is its first 3, no lower than anyone after them |
| DashboardAdministrador.FaixaAprovacao | componentes/dashboard-administrador.tsx:569-580 | "Excelente" iff ≥ 95, "Bom" iff in [90, 95), "Atenção" iff < 90 |
| DashboardAdministrador.FaixaMonotona | componentes/dashboard-administrador.tsx:569-580 | a higher rate never gets a lower band |
| DashboardAdministrador.Iniciais | componentes/dashboard-administrador.tsx:371-374 | at most one initial per space-separated word; the contents are given by `IniciaisPrimeiraPalavra` and `IniciaisPalavraUnica` |
| DashboardAdministrador.IniciaisDe | componentes/dashboard-administrador.tsx:371-374 | at most one initial per word; the contents are given by `IniciaisDeConcat` and `IniciaisDeUnica` |
| DashboardAdministrador.IniciaisDeVemDasPalavras | componentes/dashboard-administrador.tsx:371-374 | each initial is the first character of some non-empty word |
| DashboardAdministrador.IniciaisDeConcat | componentes/dashboard-administrador.tsx:371-374 | the initials of joined word lists are the joined initials, so every word contributes, in order |
| DashboardAdministrador.IniciaisDeUnica | componentes/dashboard-administrador.tsx:373 | a word contributes its first character, an empty word nothing |
| DashboardAdministrador.IniciaisPrimeiraPalavra | componentes/dashboard-administrador.tsx:371-374 | a name's initials are its first word's initial followed by the initials of the text after the first space |
| DashboardAdministrador.IniciaisPalavraUnica | componentes/dashboard-administrador.tsx:371-374 | a one-word name gives its first letter |
| DashboardAdministrador.IniciaisDuasPalavras | componentes/dashboard-administrador.tsx:371-374 | "A… B…" gives "AB" |
| DashboardAdministrador.SplitAntesDoSeparador | componentes/dashboard-administrador.tsx:372 | splitting a word followed by the separator yields that word first |
| DashboardAdministrador.StatusBadge | componentes/dashboard-administrador.tsx:151-173 | "ativo" and "bloqueado" get their badges; any other status falls back to "Inativo" |
| DashboardAdministrador.SeveridadeBadge | componentes/dashboard-administrador.tsx:175-195 | "alta" and "media" get their badges; any other severity falls back to "Baixa" |
| LayoutPrincipal.RenderizarConteudo | componentes/layout-principal.tsx:44-70 | "tipos-pecas" shows the type manager iff admin, else access denied; "nova-medicao" the form for any role; every other page the admin or user dashboard by role |
| LayoutPrincipal.Render | componentes/layout-principal.tsx:27-80 | loading comes first, then the login form without a user; otherwise the sidebar layout, with `children` replacing the routed content |
| LayoutPrincipal.GerenciamentoSoParaAdmin | componentes/layout-principal.tsx:56-66 | the type manager is on screen iff an admin is logged in on "tipos-pecas" with nothing loading and no children |
| LayoutPrincipal.UsuarioComumNuncaVeAdmin | componentes/layout-principal.tsx:44-70 | a common user never gets the admin dashboard or the type manager |
| LayoutPrincipal.Layout.constructor | componentes/layout-principal.tsx:21 | the first page is "dashboard" |
| LayoutPrincipal.Layout.MudarPagina | componentes/layout-principal.tsx:21 | switches to the requested page |
| LayoutPrincipal.Layout.Voltar | componentes/layout-principal.tsx:51 | going back shows "dashboard" |
| ContextoAutenticacao.Autenticar | contextos/contexto-autenticacao.tsx:72-93 | a found user is a fixed user with that e-mail whose (e-mail, password) pair is a fixed credential |
| ContextoAutenticacao.AutenticarSse | contextos/contexto-autenticacao.tsx:79-89 | login succeeds iff the pair is one of the two fixed credentials, giving the matching user |
| ContextoAutenticacao.AdministradorSoComSenhaDeAdmin | contextos/contexto-autenticacao.tsx:79-89 | only the admin credential pair logs in an administrator |
| ContextoAutenticacao.Provedor.constructor | contextos/contexto-autenticacao.tsx:53-54 | no user and loading at start |
| ContextoAutenticacao.Provedor.RestaurarSessao | contextos/contexto-autenticacao.tsx:57-69 | a stored user is restored; loading ends |
| ContextoAutenticacao.Provedor.Login | contextos/contexto-autenticacao.tsx:72-93 | true iff the credentials match, then the user is set and stored; false leaves the user; never loading afterwards |
| ContextoAutenticacao.Provedor.Logout | contextos/contexto-autenticacao.tsx:96-99 | the user and the stored user are cleared |
| Api.ComPrefixo | contextos/api/api.ts:28-30 | the header always starts with "Basic "; a prefixed token is kept verbatim, another gets the prefix |
| Api.ComPrefixoIdempotente | contextos/api/api.ts:28-30 | prefixing twice equals prefixing once |
| Api.Autorizacao | contextos/api/api.ts:23-31 | a header is set iff the token is truthy and the URL does not contain "api/auth/login" |
| Api.HeadersApos | contextos/api/api.ts:20-32 | only `Authorization` may change among the headers |
| Api.InterceptorIdempotente | contextos/api/api.ts:20-32 | intercepting twice equals intercepting once |
| Api.RequestConfig.constructor | contextos/api/api.ts:20 | a request config holds its URL and headers |
| Api.ModuloApi.constructor | contextos/api/api.ts:12 | the module starts without a token |
| Api.ModuloApi.SetAuthToken | contextos/api/api.ts:15-17 | the module token is replaced, null included |
| Api.ModuloApi.Interceptar | contextos/api/api.ts:20-32 | the same config object is returned with its headers rewritten by `HeadersApos` |
| Ordenacao.OrdenarDecrescente | componentes/dashboard-administrador.tsx:362 | the array is reordered in place into descending key order, as a permutation |
| Ordenacao.Trocar | componentes/dashboard-administrador.tsx:362 | a swap exchanges two cells and keeps the multiset |
| Ordenacao.Primeiros | componentes/dashboard-administrador.tsx:363 | `slice(0, n)` is the prefix of length min(n, length) |
| Ordenacao.PrimeirosSaoMaiores | componentes/dashboard-administrador.tsx:361-363 | in a descending list, the first n have keys no smaller than any later one |

## Left out

- Backend calls (the axios wrappers in contextos/api/controlequalidade.ts) are `Call` parameters. Their logging and HTTP plumbing are not part of this model.
- Web Bluetooth (`requestDevice`, the GATT connect, service and characteristic lookups, `startNotifications`, event listeners and the effect that subscribes them) is foreign browser code. Only the state changes each outcome causes are modelled.
- Floating point: numbers are exact reals. NaN, `toFixed(3)` and the division by 1000 are left out, so readings stay integer thousandths. `Number` and `parseFloat` are parameters, and `Number("")` = 0 in the save payload is not modelled.
- Clocks and storage: `Date.now()` and `new Date()` are the `agora`/`hoje` parameters. `localStorage` is the `usuarioSalvo` field, not a JSON string. The `setTimeout` delays are left out.
- Concurrency: each handler is one atomic step on the state. Overlapping async handlers, stale `useCallback` closures and effects re-running after a state change (such as effect 2 of the measurement hook after a save) are not modelled.
- React rendering, toasts, `console` output and `window.confirm` are left out; the confirmation is the `confirmado` input.
- Case folding is ASCII only; "João" lowercases its ASCII letters only. `trim` and `\s` use JavaScript's full whitespace set: the ASCII controls 9-13 and space, U+00A0, U+1680, U+2000-U+200A, U+2028, U+2029, U+202F, U+205F, U+3000 and U+FEFF.
- Badge lookups by key ignore keys inherited from `Object.prototype`.
- DialogTipoPeca.Dialogo.HandleUpdateEspecificacao: the source copies the array but mutates the shared dimension object, so the original props also change. The model updates only the copy.
- DialogCriarLote: quantities are integers. The fractional or NaN values `Number()` can give an input are not modelled.
- Ordenacao.OrdenarDecrescente: stability among equal keys is not stated.
- hooks/useDashboardData.ts, componentes/DialogCadastrarUsuario.tsx, componentes/formulario-login.tsx and app/layout.tsx are not part of this model. They are loader plumbing over mock data, a call to an API function that does not exist, and thin shells.
- The dashboard's fetching state and its `handleCriarLote` plumbing are not part of this model.
- The dashboards' tab state (`abaAtiva`) is not part of this model.
- No file feeds the micrometer reading into form fields, so there is no autofill to model.
