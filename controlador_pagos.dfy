/** `ProcesamientoTransaccionController.procesarPago` and
    `PagoController.procesarPago`, which are the same code behind two routes:
    read the payload, create the transaction, and map the outcome or the
    exception to an HTTP answer. */
module ControladorPagos {
  import opened Resultados
  import opened Cadenas
  import opened CodigoUnico
  import opened Transacciones
  import opened Gateway
  import opened Servicio

  const HTTP_OK := 200
  const HTTP_PETICION_INVALIDA := 400
  const HTTP_ERROR_INTERNO := 500

  const CLAVE_MENSAJE := "mensaje"
  const PREFIJO_ERROR_PAGO := "Error al procesar el pago: "

  /** One value of the request's `Map<String, Object>`: missing (or JSON
      null), present, or present but refused by the conversion the controller
      applies to it, with that exception's message. */
  datatype Entrada<T> = Ausente | Presente(valor: T) | Ilegible(mensaje: string)

  /** The request payload. `monto` (in minor units) and `cuotas` are
      `Ilegible` when their text is not a number Java parses
      (NumberFormatException); `interesDiferido` is `Ilegible` when the value
      is not a JSON boolean (ClassCastException). `marca` and `datosTarjeta`
      are read with `toString()`, which any present value has. */
  datatype CargaPago = CargaPago(
    monto: Entrada<int>,
    marca: Option<string>,
    datosTarjeta: Option<string>,
    interesDiferido: Entrada<bool>,
    cuotas: Entrada<int>)

  /** What the controller passes to `crear`. */
  datatype SolicitudPago = SolicitudPago(
    nueva: TransaccionNueva,
    datosTarjeta: string,
    interesDiferido: bool,
    cuotas: Option<int>)

  /** An HTTP answer whose body is a map of strings. */
  datatype RespuestaHttp = RespuestaHttp(codigo: int, cuerpo: map<string, string>)

  /** Whether reading the payload throws an IllegalArgumentException: the
      amount, or the installments when they are read, are not a number. */
  predicate FallaComoArgumento(c: CargaPago) {
    c.monto.Ilegible? ||
    (c.monto.Presente? && c.marca.Some? && c.datosTarjeta.Some? &&
     c.interesDiferido == Presente(true) && c.cuotas.Ilegible?)
  }

  /** The payload reads of `procesarPago`, in the controller's order; the
      first read that throws decides the exception. `mensajeNulo` is the
      message the JVM gives the NullPointerException of `toString()` on a
      missing key. */
  function LeerCarga(c: CargaPago, mensajeNulo: string): (r: Result<SolicitudPago, Excepcion>)
    ensures r.Success? <==>
              c.monto.Presente? && c.marca.Some? && c.datosTarjeta.Some? &&
              !c.interesDiferido.Ilegible? && !(c.interesDiferido == Presente(true) && c.cuotas.Ilegible?)
    ensures r.Success? ==>
              r.value.nueva == TransaccionNueva(Some(c.monto.valor), c.marca) &&
              r.value.datosTarjeta == c.datosTarjeta.value
    ensures r.Success? ==> (r.value.interesDiferido <==> c.interesDiferido == Presente(true))
    ensures r.Success? ==> (r.value.cuotas.Some? <==> r.value.interesDiferido && c.cuotas.Presente?)
    ensures r.Success? && r.value.cuotas.Some? ==> r.value.cuotas.value == c.cuotas.valor
    ensures r.Failure? ==> (r.error.EsArgumentoIlegal() <==> FallaComoArgumento(c))
  {
    match c.monto
    case Ausente => Failure(PunteroNulo(mensajeNulo))
    case Ilegible(m) => Failure(FormatoNumerico(m))
    case Presente(monto) =>
      if c.marca.None? || c.datosTarjeta.None? then
        Failure(PunteroNulo(mensajeNulo))
      else if c.interesDiferido.Ilegible? then
        Failure(ConversionTipo(c.interesDiferido.mensaje))
      else
        var interes := c.interesDiferido == Presente(true);
        if interes && c.cuotas.Ilegible? then
          Failure(FormatoNumerico(c.cuotas.mensaje))
        else
          var cuotas := if interes && c.cuotas.Presente? then Some(c.cuotas.valor) else None;
          Success(SolicitudPago(TransaccionNueva(Some(monto), c.marca), c.datosTarjeta.value, interes, cuotas))
  }

  /** The answer for `crear`'s outcome: 200 with the record's detail, 400
      with the raw message for an IllegalArgumentException, 500 with a
      prefixed message for every other exception. The body always has the
      single key "mensaje". */
  function RespuestaPago(r: Result<Transaccion, Excepcion>): (resp: RespuestaHttp)
    ensures resp.cuerpo.Keys == {CLAVE_MENSAJE}
    ensures resp.codigo == HTTP_OK <==> r.Success?
    ensures resp.codigo == HTTP_PETICION_INVALIDA <==> r.Failure? && r.error.EsArgumentoIlegal()
    ensures resp.codigo == HTTP_ERROR_INTERNO <==> r.Failure? && !r.error.EsArgumentoIlegal()
    ensures r.Success? ==> resp.cuerpo[CLAVE_MENSAJE] == r.value.detalle
    ensures r.Failure? && r.error.EsArgumentoIlegal() ==> resp.cuerpo[CLAVE_MENSAJE] == r.error.mensaje
    ensures r.Failure? && !r.error.EsArgumentoIlegal() ==>
              resp.cuerpo[CLAVE_MENSAJE] == PREFIJO_ERROR_PAGO + r.error.mensaje
  {
    match r
    case Success(t) => RespuestaHttp(HTTP_OK, map[CLAVE_MENSAJE := t.detalle])
    case Failure(e) =>
      if e.EsArgumentoIlegal() then RespuestaHttp(HTTP_PETICION_INVALIDA, map[CLAVE_MENSAJE := e.mensaje])
      else RespuestaHttp(HTTP_ERROR_INTERNO, map[CLAVE_MENSAJE := PREFIJO_ERROR_PAGO + e.mensaje])
  }

  /** The outcome of `crear` as reached from the payment endpoint. */
  function ResultadoPago(c: CargaPago, mensajeNulo: string, orden: seq<string>, fecha: FechaHora,
                         relojCodigo: FechaHora, aleatorio: nat, e: Entorno): Result<Transaccion, Excepcion>
  {
    match LeerCarga(c, mensajeNulo)
    case Failure(x) => Failure(x)
    case Success(s) =>
      ResultadoCrear(s.nueva, orden, fecha, relojCodigo, aleatorio, s.datosTarjeta,
                     Some(s.interesDiferido), s.cuotas, e)
  }

  /** `procesarPago`: read the payload, delegate to the service, answer. A
      payload that cannot be read and a refused creation write nothing; a
      created payment is written first in state ENV, then as processed. */
  method ProcesarPago(svc: TransaccionService, c: CargaPago, mensajeNulo: string, fecha: FechaHora,
                      relojCodigo: FechaHora, aleatorio: nat, e: Entorno) returns (resp: RespuestaHttp)
    requires svc.Valid()
    modifies svc
    ensures svc.Valid()
    ensures resp == RespuestaPago(ResultadoPago(c, mensajeNulo, svc.ordenMarcas, fecha, relojCodigo, aleatorio, e))
    ensures var r := ResultadoPago(c, mensajeNulo, svc.ordenMarcas, fecha, relojCodigo, aleatorio, e);
            && (r.Failure? ==> svc.almacen == old(svc.almacen) && svc.escrituras == old(svc.escrituras))
            && (r.Success? ==>
                  svc.almacen == old(svc.almacen)[r.value.codigoUnico := r.value] &&
                  svc.escrituras == old(svc.escrituras) + [r.value.(estado := ESTADO_ENVIADO), r.value])
  {
    var solicitud := LeerCarga(c, mensajeNulo);
    if solicitud.Failure? {
      return RespuestaPago(Failure(solicitud.error));
    }
    var s := solicitud.value;
    var r := svc.Crear(s.nueva, fecha, relojCodigo, aleatorio, s.datosTarjeta, Some(s.interesDiferido),
                       s.cuotas, e);
    resp := RespuestaPago(r);
  }

  /** A readable payload whose brand is refused is answered 400, and the
      message names every accepted brand. */
  lemma PagoMarcaInvalida(c: CargaPago, mensajeNulo: string, orden: seq<string>, fecha: FechaHora,
                          relojCodigo: FechaHora, aleatorio: nat, e: Entorno)
    requires EnumeraMarcas(orden)
    requires LeerCarga(c, mensajeNulo).Success? && !MarcaAceptada(c.marca)
    ensures var resp := RespuestaPago(ResultadoPago(c, mensajeNulo, orden, fecha, relojCodigo, aleatorio, e));
            && resp.codigo == HTTP_PETICION_INVALIDA
            && forall m :: m in MARCAS_VALIDAS ==> Contiene(resp.cuerpo[CLAVE_MENSAJE], m)
  {
    forall m | m in MARCAS_VALIDAS ensures Contiene(MensajeMarcaInvalida(orden), m) {
      MensajeNombraCadaMarca(orden, m);
    }
  }

  /** An accepted brand with an amount that is not positive is answered 500:
      InvalidDataException is not caught as an IllegalArgumentException. */
  lemma PagoMontoNoPositivo(c: CargaPago, mensajeNulo: string, orden: seq<string>, fecha: FechaHora,
                            relojCodigo: FechaHora, aleatorio: nat, e: Entorno)
    requires LeerCarga(c, mensajeNulo).Success? && MarcaAceptada(c.marca) && c.monto.valor <= 0
    ensures RespuestaPago(ResultadoPago(c, mensajeNulo, orden, fecha, relojCodigo, aleatorio, e)) ==
              RespuestaHttp(HTTP_ERROR_INTERNO, map[CLAVE_MENSAJE := PREFIJO_ERROR_PAGO + MENSAJE_MONTO])
  {
  }

  /** An amount that is not a number is answered 400 with the parser's
      message: NumberFormatException is an IllegalArgumentException. */
  lemma PagoMontoIlegible(c: CargaPago, mensajeNulo: string, orden: seq<string>, fecha: FechaHora,
                          relojCodigo: FechaHora, aleatorio: nat, e: Entorno)
    requires c.monto.Ilegible?
    ensures RespuestaPago(ResultadoPago(c, mensajeNulo, orden, fecha, relojCodigo, aleatorio, e)) ==
              RespuestaHttp(HTTP_PETICION_INVALIDA, map[CLAVE_MENSAJE := c.monto.mensaje])
  {
  }

  /** Once the transaction is created the answer is 200 with the creation
      detail, whatever the gateway decided: a rejected payment is answered
      like an authorized one. */
  lemma PagoCreadoResponde200(c: CargaPago, mensajeNulo: string, orden: seq<string>, fecha: FechaHora,
                              relojCodigo: FechaHora, aleatorio: nat, e: Entorno)
    requires LeerCarga(c, mensajeNulo).Success? && MarcaAceptada(c.marca) && c.monto.valor > 0
    ensures ResultadoPago(c, mensajeNulo, orden, fecha, relojCodigo, aleatorio, e).Success?
    ensures RespuestaPago(ResultadoPago(c, mensajeNulo, orden, fecha, relojCodigo, aleatorio, e)) ==
              RespuestaHttp(HTTP_OK, map[CLAVE_MENSAJE := PREFIJO_DETALLE + c.marca.value])
  {
  }

  /** From the payment endpoints the gateway receives installments only
      together with deferred interest set to true. */
  lemma CuotasSoloConDiferido(c: CargaPago, mensajeNulo: string, orden: seq<string>, fecha: FechaHora,
                              relojCodigo: FechaHora, aleatorio: nat, e: Entorno)
    requires LeerCarga(c, mensajeNulo).Success?
    requires CrearInicial(LeerCarga(c, mensajeNulo).value.nueva, orden, fecha, relojCodigo, aleatorio).Success?
    ensures var s := LeerCarga(c, mensajeNulo).value;
            var t := CrearInicial(s.nueva, orden, fecha, relojCodigo, aleatorio).value;
            var dto := PrepararGatewayDTO(t, s.datosTarjeta, Some(s.interesDiferido), s.cuotas,
                                          e.configuracion, e.facturacion);
            dto.Some? ==>
              && dto.value.interesDiferido.Some?
              && (dto.value.cuotas.Some? ==> dto.value.interesDiferido == Some(true))
              && (dto.value.interesDiferido == Some(true) <==> c.interesDiferido == Presente(true))
  {
  }
}
