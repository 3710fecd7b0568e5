# POS transaction orchestrator — a Dafny model

This project models the transaction core of a point-of-sale backend, written in Java
with Spring.

- `TransaccionService` creates a card-payment transaction:
  - it checks the brand against MSCD, VISA, AMEX and DINE;
  - it stamps the defaults (type PAG, modality SIM, currency USD, state ENV, receipt PEN, detail
    `Transacción POS - <brand>`);
  - it generates a unique code of the form `TRXnnnnnn-yyyy-MM-dd-HH-mm-ss-000000000001`;
  - it checks the amount and saves the record.
- It then sends the record to a payment gateway and turns the gateway's HTTP answer into state
  AUT (authorized) or REC (rejected), or leaves the state as it was. The record is saved again.
- A later push from the gateway reconciles a record's state and detail by its code.
- `TransaccionController` answers the reconciliation push with a status code. It also has a
  not-found handler.
- The two payment endpoints (`ProcesamientoTransaccionController` and `PagoController`) share
  the same code:
  - they read a JSON map;
  - they normalise the deferred-interest flag and the installments;
  - they call the service and map exceptions to 400 or 500.

Modules, one file each:

| file | module | models |
|---|---|---|
| `resultados.dfy` | `Resultados` | `Option`, `Result`, `Outcome`, and the Java exception kinds that reach a catch |
| `cadenas.dfy` | `Cadenas` | `String.contains`, `String.join`, splitting at a character |
| `codigo_unico.dfy` | `CodigoUnico` | `generarCodigoUnico`: the `%0Nd` formatting, and a reader proving the code carries its inputs |
| `transacciones.dfy` | `Transacciones` | the record, the brand check, `validarDatos`, the record `guardarTransaccionInicial` builds |
| `gateway.dfy` | `Gateway` | `prepararGatewayDTO`, and the status/body decision of `procesarConGateway` |
| `servicio.dfy` | `Servicio` | class `TransaccionService`: the repository as a `map` keyed by unique code, plus its methods |
| `controlador_transacciones.dfy` | `ControladorTransacciones` | `actualizarEstado` and `handleNotFoundException` |
| `controlador_pagos.dfy` | `ControladorPagos` | `procesarPago` of both payment controllers, as one model |

Collaborators the model cannot see become parameters or fields of `Gateway.Entorno`:

- the configuration lookup, the billing lookup and the gateway call;
- the two clock readings (`fecha` for the record, `relojCodigo` inside `generarCodigoUnico`);
- the random number of the code (`aleatorio`);
- the iteration order of the brand `Set.of` (`ordenMarcas`);
- the JVM's NullPointerException message (`mensajeNulo`).

The class keeps a ghost log `escrituras` of every record handed to `save`. Methods use it to
state how many saves happen: nothing is saved on refusal, one save on the initial record, and
two saves per successful creation.

Behaviour of the code worth noting:

- A 202 answer leaves both the state and the detail unchanged.
- Reconciliation has no forward-only check: it overwrites any state, including AUT.
- An unknown code during reconciliation throws a plain `RuntimeException`. The endpoint answers
  it with 400, not the 404 its API documentation announces.
- An amount that does not parse raises a `NumberFormatException`. That class is an
  `IllegalArgumentException` in Java, so the payment endpoints answer it with 400.
- The payload's `tipo` is the transaction's modality (SIM), not its type (PAG).

## Model

| member | source | states |
|---|---|---|
| Cadenas.Contiene | src/main/java/ec/edu/espe/pos/service/TransaccionService.java:125-131 | the body test is true exactly when the marker occurs at some position of the body |
| Cadenas.UnirContieneCada | src/main/java/ec/edu/espe/pos/service/TransaccionService.java:84 | each joined brand occurs in the joined text |
| CodigoUnico.CampoRellenado | src/main/java/ec/edu/espe/pos/service/TransaccionService.java:222 | a `%0Nd` field of a number below 10^N has exactly N characters and reads back as the number |
| CodigoUnico.SecuenciaFija | src/main/java/ec/edu/espe/pos/service/TransaccionService.java:222-230 | `%012d` of 1 is `000000000001` |
| CodigoUnico.CamposAnchos | src/main/java/ec/edu/espe/pos/service/TransaccionService.java:222-229 | for a random number below 1000000 and a valid timestamp, every field has its width: `TRX` plus 6 digits, a year, five 2-digit fields, the 12-digit sequence |
| CodigoUnico.CamposValores | src/main/java/ec/edu/espe/pos/service/TransaccionService.java:222-229 | each field reads back as the random number, year, month, day, hour, minute or second written into it |
| CodigoUnico.SepararGenerar | src/main/java/ec/edu/espe/pos/service/TransaccionService.java:222 | splitting the code at dashes gives back its eight fields |
| CodigoUnico.LeerGenerar | src/main/java/ec/edu/espe/pos/service/TransaccionService.java:220-231 | round trip: reading a generated code recovers its random number and its timestamp |
| CodigoUnico.GenerarInyectiva | src/main/java/ec/edu/espe/pos/service/TransaccionService.java:220-231 | two codes collide only for the same random number in the same second |
| CodigoUnico.FormaGenerar | src/main/java/ec/edu/espe/pos/service/TransaccionService.java:222-230 | the code starts with `TRX`, ends with `-000000000001`, and is 42 characters long for a 4-digit year |
| Transacciones.MensajeNombraCadaMarca | src/main/java/ec/edu/espe/pos/service/TransaccionService.java:83-84 | the invalid-brand message names every accepted brand, whatever order the set iterates in |
| Transacciones.ValidarDatos | src/main/java/ec/edu/espe/pos/service/TransaccionService.java:158-165 | passes exactly when the amount is present and positive and the brand is present and not blank; a missing or non-positive amount fails first with "El monto debe ser mayor que cero"; every failure is an InvalidDataException |
| Transacciones.ValidarDatosTrasMarca | src/main/java/ec/edu/espe/pos/service/TransaccionService.java:162-164 | after the brand check has passed, only the amount can make `validarDatos` fail |
| Transacciones.CrearInicial | src/main/java/ec/edu/espe/pos/service/TransaccionService.java:79-109 | the error cases: a refused brand gives an IllegalArgumentException listing the brands; an accepted brand with a missing or non-positive amount gives the amount error. Success holds exactly when brand and amount are valid, and the record then has the code, PAG, SIM, USD, ENV, PEN and `Transacción POS - <brand>` |
| Transacciones.CodigoDeCreada | src/main/java/ec/edu/espe/pos/service/TransaccionService.java:96-97 | a created record's code reads back as the random number and the second clock reading |
| Gateway.PrepararGatewayDTO | src/main/java/ec/edu/espe/pos/service/TransaccionService.java:167-175 | a payload is built exactly when both the configuration lookup and the billing lookup succeed |
| Gateway.PayloadCopiaTransaccion | src/main/java/ec/edu/espe/pos/service/TransaccionService.java:177-192 | the payload copies brand, detail, amount, code, date, state and currency; it takes `tipo` from the modality and sets country EC; it copies merchant and terminal from the configuration; card data, interest flag and installments pass through |
| Gateway.AutorizaSiiAceptada | src/main/java/ec/edu/espe/pos/service/TransaccionService.java:125-128 | from ENV, AUT holds exactly when the status is 2xx and the body contains "aceptada" |
| Gateway.RechazaSiiNoAutorizaNi202 | src/main/java/ec/edu/espe/pos/service/TransaccionService.java:130-141 | from ENV, REC holds exactly when the answer does not authorize and is not a 202 without a reject marker |
| Gateway.SinCambioSolo202 | src/main/java/ec/edu/espe/pos/service/TransaccionService.java:134-137 | the decision yields AUT, REC or the previous state; the previous state survives exactly for a 202 whose body holds neither marker |
| Gateway.EstadoTrasGateway | src/main/java/ec/edu/espe/pos/service/TransaccionService.java:114-155 | the new state is AUT, REC or the old state; a failed payload build or a failed call gives REC; from ENV, AUT is reached exactly by an answered 2xx carrying "aceptada" |
| Gateway.FalloComunicacionRechaza | src/main/java/ec/edu/espe/pos/service/TransaccionService.java:149-155 | when the gateway call always throws, the state is REC |
| Servicio.Consultar | src/main/java/ec/edu/espe/pos/service/TransaccionService.java:197-201 | the lookup succeeds exactly for a stored code and returns its record; otherwise it fails with "Transacción no encontrada" |
| Servicio.Reconciliar | src/main/java/ec/edu/espe/pos/service/TransaccionService.java:203-218 | it fails with "Transacción no encontrada" exactly for an unknown code; otherwise the keys are the same, the record gets the pushed state and message, and every other record is unchanged |
| Servicio.ReconciliarConservaClaves | src/main/java/ec/edu/espe/pos/service/TransaccionService.java:207-216 | after reconciliation every record is still filed under its own code |
| Servicio.ConsultaTrasReconciliar | src/main/java/ec/edu/espe/pos/service/TransaccionService.java:207-216 | a lookup after reconciliation sees the pushed state and message on that code, and the same result as before on every other code |
| Servicio.ResultadoCrear | src/main/java/ec/edu/espe/pos/service/TransaccionService.java:64-76 | creation fails exactly when the initial save refuses, with the same exception; on success only the state differs from the initial record, and it is AUT, REC or ENV, with the detail `Transacción POS - <brand>` |
| Servicio.EscenarioVisaAceptada | src/main/java/ec/edu/espe/pos/service/TransaccionService.java:125-128 | VISA with amount 4999 and a gateway answering 200 "pago aceptada" ends AUT |
| Servicio.EscenariosRechazados | src/main/java/ec/edu/espe/pos/service/TransaccionService.java:79-109 | amount -500 is refused with the amount error; brand XXXX is refused with an IllegalArgumentException naming every accepted brand |
| Servicio.TransaccionService.constructor | src/main/java/ec/edu/espe/pos/service/TransaccionService.java:54-62 | a new service sits over the injected repository's rows, each filed under its own code, with no writes yet |
| Servicio.TransaccionService.Guardar | src/main/java/ec/edu/espe/pos/service/TransaccionService.java:108 | `save` files the record under its code and appends it to the write log, keeping every record under its own code |
| Servicio.TransaccionService.GuardarTransaccionInicial | src/main/java/ec/edu/espe/pos/service/TransaccionService.java:78-109 | returns `CrearInicial` of its inputs; a refusal leaves the store and the log unchanged; a success saves the record exactly once |
| Servicio.TransaccionService.ProcesarConGateway | src/main/java/ec/edu/espe/pos/service/TransaccionService.java:111-156 | the returned record differs from the input only in its state, which is `EstadoTrasGateway`; it is saved exactly once, with or without an exception |
| Servicio.TransaccionService.Crear | src/main/java/ec/edu/espe/pos/service/TransaccionService.java:64-76 | returns `ResultadoCrear`; a refusal writes nothing; a success writes the ENV record and then the processed record, and the store holds the processed one |
| Servicio.TransaccionService.ObtenerPorCodigoUnico | src/main/java/ec/edu/espe/pos/service/TransaccionService.java:197-201 | returns `Consultar` on the current store and changes nothing |
| Servicio.TransaccionService.ActualizarEstadoTransaccion | src/main/java/ec/edu/espe/pos/service/TransaccionService.java:203-218 | throws exactly for an unknown code and then saves nothing; otherwise the store becomes `Reconciliar` of the old store, with one save of the updated record |
| ControladorTransacciones.CodigoActualizacion | src/main/java/ec/edu/espe/pos/controller/TransaccionController.java:85-97 | 400 exactly when the service threw or the pushed state is REC; 201 exactly when the service returned and the state is anything else, AUT included |
| ControladorTransacciones.ActualizarEstado | src/main/java/ec/edu/espe/pos/controller/TransaccionController.java:82-99 | a known code has its record reconciled and saved once before the code is chosen; an unknown code saves nothing, leaves the store unchanged and answers 400 |
| ControladorTransacciones.RechazoPersistidoCon400 | src/main/java/ec/edu/espe/pos/controller/TransaccionController.java:86-91 | a pushed REC is stored and answered 400; a pushed AUT is stored and answered 201 |
| ControladorTransacciones.CodigoDesconocidoResponde400 | src/main/java/ec/edu/espe/pos/controller/TransaccionController.java:95-97 | an unknown code raises a non-NotFound exception and is answered 400 |
| ControladorTransacciones.ManejarNoEncontrada | src/main/java/ec/edu/espe/pos/controller/TransaccionController.java:101-107 | a NotFoundException is answered 404 with state REC and the exception's message as the detail |
| ControladorPagos.LeerCarga | src/main/java/ec/edu/espe/pos/controller/ProcesamientoTransaccionController.java:35-46 | succeeds exactly when amount, brand and card data are present, the amount parses, the interest flag is absent or a boolean, and (flag true) the installments are absent or parse; only amount and brand go into the new transaction; a missing flag reads as false; installments pass on exactly when the flag is true and they are present; a failure is an IllegalArgumentException exactly when the amount, or installments that get read, do not parse |
| ControladorPagos.RespuestaPago | src/main/java/ec/edu/espe/pos/controller/ProcesamientoTransaccionController.java:55-69 | the body always has the single key "mensaje"; 200 with the detail exactly on success; 400 with the raw message exactly for an IllegalArgumentException; 500 with "Error al procesar el pago: " + the message exactly for any other exception |
| ControladorPagos.ProcesarPago | src/main/java/ec/edu/espe/pos/controller/PagoController.java:34-73 | the answer is `RespuestaPago` of the payload read followed by creation; an unreadable payload or a refused brand or amount changes neither the store nor the write log; a created payment writes the ENV record and then the processed record, and the store holds the processed one |
| ControladorPagos.PagoMarcaInvalida | src/main/java/ec/edu/espe/pos/controller/PagoController.java:62-66 | a refused brand is answered 400 with a message naming every accepted brand |
| ControladorPagos.PagoMontoNoPositivo | src/main/java/ec/edu/espe/pos/controller/PagoController.java:67-71 | an accepted brand with a non-positive amount is answered 500 with "Error al procesar el pago: El monto debe ser mayor que cero" |
| ControladorPagos.PagoMontoIlegible | src/main/java/ec/edu/espe/pos/controller/PagoController.java:39-66 | an amount that does not parse is answered 400 with the parser's message |
| ControladorPagos.PagoCreadoResponde200 | src/main/java/ec/edu/espe/pos/controller/PagoController.java:54-60 | a valid brand and positive amount are answered 200 with `Transacción POS - <brand>`, whether the gateway authorized or rejected |
| ControladorPagos.CuotasSoloConDiferido | src/main/java/ec/edu/espe/pos/controller/PagoController.java:46-49 | the gateway payload always carries an interest flag; it carries installments only with the flag true; the flag is true exactly when the payload said true |

## Left out

- The Feign clients (`GatewayComercioClient`, `ValidacionTarjetaClient`, the gateway client) and `ConfiguracionService` are remote calls with no logic here. Their outcomes are parameters in `Gateway.Entorno`.
- Logging, the Spring annotations, CORS and the Swagger metadata are not modelled.
- `@Transactional` rollback is not modelled. The model saves exactly where the code calls `save`.
- `TransaccionMapper` is not part of this model. The endpoints `crearTransaccion` and `consultarEstado` only wrap `crear` and `obtenerPorCodigoUnico` in mapper conversions, so they are left out.
- `MONEDAS_VALIDAS` is declared but never read, so there is no currency check.
- Amounts are integers in minor currency units, not `BigDecimal`. Payload text that `BigDecimal` parses but that has more decimals than the currency is outside the model.
- The JSON payload is abstracted to `ControladorPagos.Entrada`: absent, present, or refused by the conversion the controller applies, with that exception's message.
- `CodigoUnico.Decimal` and `CodigoUnico.Rellenar` write ASCII digits. `String.format` uses the digits of the JVM's default locale, which are not modelled.
- Clock readings carry whole seconds and non-negative years. Sub-second time and the sign of negative years in `%d` are not modelled.
- `Servicio.TransaccionService.Guardar`: a unique-code collision overwrites the row in the model. A JPA `save` of a new entity would insert a second row instead. The model's store is keyed by code.
- `Servicio.TransaccionService.GuardarTransaccionInicial` does not model that Java sets the defaults on the caller's object before the amount check throws. Only the saved or returned record is modelled.
- Null fields of `ActualizacionEstadoDTO` are not modelled. The code, state and message are strings.
- Only `estado` and `detalle` of the not-found `TransaccionDTO` are modelled, because the handler sets nothing else.
- `InvalidDataException` is kept distinct from `IllegalArgumentException`, so a non-positive amount is answered 500. Its class hierarchy is not part of this model.
- `Servicio.ResultadoCrear` states only that the final state is AUT, REC or ENV. The exact state is the one `Servicio.TransaccionService.ProcesarConGateway` states through `Gateway.EstadoTrasGateway`.
- Failures of the repository itself, and the race between a gateway-flow save and a concurrent reconciliation of the same record, are concurrency and infrastructure. They are not modelled.
