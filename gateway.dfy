/** The gateway side of `TransaccionService`: the outbound payload of
    `prepararGatewayDTO`, and the rule of `procesarConGateway` that turns the
    gateway's HTTP answer into a transaction state. Status classes follow
    section 15 of RFC 9110 (2xx Successful is section 15.3, 202 Accepted is
    section 15.3.3, 400 Bad Request is section 15.5.1). */
module Gateway {
  import opened Resultados
  import opened Cadenas
  import opened CodigoUnico
  import opened Transacciones

  /** A status code as Spring's `HttpStatusCode` holds it: three digits. */
  type CodigoHttp = c: int | 100 <= c <= 999 witness 200

  /** `HttpStatusCode.is2xxSuccessful()`. */
  predicate Es2xx(c: CodigoHttp) {
    200 <= c <= 299
  }

  const HTTP_ACEPTADO: CodigoHttp := 202
  const HTTP_SOLICITUD_INCORRECTA: CodigoHttp := 400

  /** The body markers the decision looks for. */
  const MARCA_ACEPTADA := "aceptada"
  const MARCA_RECHAZADA := "rechazada"

  /** The country code every payload carries. */
  const PAIS := "EC"

  /** What `gatewayClient.sincronizarTransaccion` gives back: an answer with a
      status and a body that may be null, or an exception. */
  datatype RespuestaGateway = Respuesta(codigo: CodigoHttp, cuerpo: Option<string>) | FalloComunicacion

  /** The current `Configuracion`: the terminal's identity and its merchant. */
  datatype Configuracion = Configuracion(codigoComercio: int, codigoPos: string, modeloPos: string)

  /** The merchant billing data, passed through without being read. */
  datatype FacturacionComercio = FacturacionComercio(atributos: map<string, string>)

  /** `GatewayTransaccionDTO` as `prepararGatewayDTO` fills it. */
  datatype GatewayTransaccionDTO = GatewayTransaccionDTO(
    codigoComercio: int,
    facturacionComercio: FacturacionComercio,
    tipo: string,
    marca: string,
    detalle: string,
    monto: int,
    codigoUnicoTransaccion: string,
    fecha: FechaHora,
    estado: string,
    moneda: string,
    pais: string,
    codigoPos: string,
    modeloPos: string,
    tarjeta: string,
    interesDiferido: Option<bool>,
    cuotas: Option<int>)

  /** The collaborators the service calls and this model cannot see: the
      configuration lookup (`None` when it throws), the billing lookup by
      merchant code (`None` when it throws) and the gateway call itself. */
  datatype Entorno = Entorno(
    configuracion: Option<Configuracion>,
    facturacion: int -> Option<FacturacionComercio>,
    gateway: GatewayTransaccionDTO -> RespuestaGateway)

  /** `prepararGatewayDTO`: `None` when one of its lookups throws. */
  function PrepararGatewayDTO(t: Transaccion, datosSensibles: string, interesDiferido: Option<bool>,
                              cuotas: Option<int>, configuracion: Option<Configuracion>,
                              facturacion: int -> Option<FacturacionComercio>): (r: Option<GatewayTransaccionDTO>)
    ensures r.Some? <==> configuracion.Some? && facturacion(configuracion.value.codigoComercio).Some?
  {
    match configuracion
    case None => None
    case Some(config) =>
      match facturacion(config.codigoComercio)
      case None => None
      case Some(datosFacturacion) =>
        Some(GatewayTransaccionDTO(
          config.codigoComercio, datosFacturacion, t.modalidad, t.marca, t.detalle, t.monto,
          t.codigoUnico, t.fecha, t.estado, t.moneda, PAIS, config.codigoPos, config.modeloPos,
          datosSensibles, interesDiferido, cuotas))
  }

  /** The payload agrees with the transaction on every field they share, takes
      its `tipo` from the transaction's modality, and carries the card data,
      the interest flag and the installments through untouched. */
  lemma PayloadCopiaTransaccion(t: Transaccion, datosSensibles: string, interesDiferido: Option<bool>,
                                cuotas: Option<int>, configuracion: Option<Configuracion>,
                                facturacion: int -> Option<FacturacionComercio>)
    requires PrepararGatewayDTO(t, datosSensibles, interesDiferido, cuotas, configuracion, facturacion).Some?
    ensures var d := PrepararGatewayDTO(t, datosSensibles, interesDiferido, cuotas, configuracion, facturacion).value;
      && d.marca == t.marca && d.detalle == t.detalle && d.monto == t.monto
      && d.codigoUnicoTransaccion == t.codigoUnico && d.fecha == t.fecha
      && d.estado == t.estado && d.moneda == t.moneda && d.tipo == t.modalidad
      && d.pais == PAIS && d.tarjeta == datosSensibles
      && d.interesDiferido == interesDiferido && d.cuotas == cuotas
      && d.codigoComercio == configuracion.value.codigoComercio
      && d.codigoPos == configuracion.value.codigoPos && d.modeloPos == configuracion.value.modeloPos
      && Some(d.facturacionComercio) == facturacion(configuracion.value.codigoComercio)
  {
  }

  /** The ordered rule of `procesarConGateway` (`actual` is the state the
      transaction holds before the call). */
  function DecidirEstado(actual: string, codigo: CodigoHttp, cuerpo: Option<string>): string {
    if Es2xx(codigo) && cuerpo.Some? && Contiene(cuerpo.value, MARCA_ACEPTADA) then
      ESTADO_AUTORIZADO
    else if codigo == HTTP_SOLICITUD_INCORRECTA || (cuerpo.Some? && Contiene(cuerpo.value, MARCA_RECHAZADA)) then
      ESTADO_RECHAZADO
    else if codigo == HTTP_ACEPTADO then
      actual
    else
      ESTADO_RECHAZADO
  }

  /** Whether the gateway's answer contains a marker. */
  predicate CuerpoContiene(cuerpo: Option<string>, marca: string) {
    cuerpo.Some? && Contiene(cuerpo.value, marca)
  }

  /** Authorization, both directions: a transaction sent in state ENV is
      authorized exactly when the status is 2xx and the body contains
      "aceptada" (an explicit marker wins over every later rule). */
  lemma AutorizaSiiAceptada(codigo: CodigoHttp, cuerpo: Option<string>)
    ensures DecidirEstado(ESTADO_ENVIADO, codigo, cuerpo) == ESTADO_AUTORIZADO <==>
              Es2xx(codigo) && CuerpoContiene(cuerpo, MARCA_ACEPTADA)
  {
  }

  /** Rejection, both directions: a transaction sent in state ENV is rejected
      exactly when it is not authorized and the answer is not a plain 202. */
  lemma RechazaSiiNoAutorizaNi202(codigo: CodigoHttp, cuerpo: Option<string>)
    ensures DecidirEstado(ESTADO_ENVIADO, codigo, cuerpo) == ESTADO_RECHAZADO <==>
              !(Es2xx(codigo) && CuerpoContiene(cuerpo, MARCA_ACEPTADA)) &&
              (codigo == HTTP_SOLICITUD_INCORRECTA || CuerpoContiene(cuerpo, MARCA_RECHAZADA) ||
               codigo != HTTP_ACEPTADO)
  {
  }

  /** The state is left as it was only for a 202 whose body holds neither
      marker; from any state the result is AUT, REC or the previous state. */
  lemma SinCambioSolo202(actual: string, codigo: CodigoHttp, cuerpo: Option<string>)
    ensures DecidirEstado(actual, codigo, cuerpo) in {ESTADO_AUTORIZADO, ESTADO_RECHAZADO, actual}
    ensures actual != ESTADO_AUTORIZADO && actual != ESTADO_RECHAZADO ==>
              (DecidirEstado(actual, codigo, cuerpo) == actual <==>
                codigo == HTTP_ACEPTADO && !CuerpoContiene(cuerpo, MARCA_ACEPTADA) &&
                !CuerpoContiene(cuerpo, MARCA_RECHAZADA))
  {
  }

  /** The gateway's answer to the payload built for `t`, or `None` when the
      payload could not be built (the call is then never made). */
  function RespuestaPara(t: Transaccion, datosSensibles: string, interesDiferido: Option<bool>,
                         cuotas: Option<int>, e: Entorno): Option<RespuestaGateway>
  {
    match PrepararGatewayDTO(t, datosSensibles, interesDiferido, cuotas, e.configuracion, e.facturacion)
    case None => None
    case Some(dto) => Some(e.gateway(dto))
  }

  /** The state the transaction holds after `procesarConGateway`: the decision
      rule on the gateway's answer, or REC when building the payload or
      calling the gateway threw. Only an answered 2xx call carrying "aceptada"
      authorizes a transaction sent in state ENV. */
  function EstadoTrasGateway(t: Transaccion, datosSensibles: string, interesDiferido: Option<bool>,
                             cuotas: Option<int>, e: Entorno): (estado: string)
    ensures estado in {ESTADO_AUTORIZADO, ESTADO_RECHAZADO, t.estado}
    ensures var r := RespuestaPara(t, datosSensibles, interesDiferido, cuotas, e);
      && (r.None? ==> estado == ESTADO_RECHAZADO)
      && (r == Some(FalloComunicacion) ==> estado == ESTADO_RECHAZADO)
      && (t.estado == ESTADO_ENVIADO ==>
            (estado == ESTADO_AUTORIZADO <==>
               r.Some? && r.value.Respuesta? && Es2xx(r.value.codigo) &&
               CuerpoContiene(r.value.cuerpo, MARCA_ACEPTADA)))
  {
    match RespuestaPara(t, datosSensibles, interesDiferido, cuotas, e)
    case None => ESTADO_RECHAZADO
    case Some(FalloComunicacion) => ESTADO_RECHAZADO
    case Some(Respuesta(codigo, cuerpo)) =>
      SinCambioSolo202(t.estado, codigo, cuerpo);
      DecidirEstado(t.estado, codigo, cuerpo)
  }

  /** A transport failure of the gateway call always ends in REC. */
  lemma FalloComunicacionRechaza(t: Transaccion, datosSensibles: string, interesDiferido: Option<bool>,
                                 cuotas: Option<int>, e: Entorno)
    requires forall d :: e.gateway(d) == FalloComunicacion
    ensures EstadoTrasGateway(t, datosSensibles, interesDiferido, cuotas, e) == ESTADO_RECHAZADO
  {
  }
}
