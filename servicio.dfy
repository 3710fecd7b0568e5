/** `TransaccionService`: the transaction store and the lifecycle that writes
    to it — initial save, gateway processing, lookup and reconciliation. */
module Servicio {
  import opened Resultados
  import opened Cadenas
  import opened CodigoUnico
  import opened Transacciones
  import opened Gateway

  const MENSAJE_NO_ENCONTRADA := "Transacción no encontrada"

  /** `ActualizacionEstadoDTO`: a state update pushed later by the gateway. */
  datatype ActualizacionEstado = ActualizacionEstado(codigoUnicoTransaccion: string, estado: string, mensaje: string)

  /** Every record is filed under its own unique code. */
  predicate ClavesCoherentes(almacen: map<string, Transaccion>) {
    forall k :: k in almacen ==> almacen[k].codigoUnico == k
  }

  /** `obtenerPorCodigoUnico` on a store: the record filed under `codigo`, or
      the RuntimeException it throws when there is none. */
  function Consultar(almacen: map<string, Transaccion>, codigo: string): (r: Result<Transaccion, Excepcion>)
    ensures r.Success? <==> codigo in almacen
    ensures r.Success? ==> r.value == almacen[codigo]
    ensures r.Failure? ==> r.error == Ejecucion(MENSAJE_NO_ENCONTRADA)
  {
    if codigo in almacen then Success(almacen[codigo]) else Failure(Ejecucion(MENSAJE_NO_ENCONTRADA))
  }

  /** The store after `actualizarEstadoTransaccion`, or the exception it throws
      for an unknown code. State and detail are overwritten whatever the
      record held: there is no forward-only check. */
  function Reconciliar(almacen: map<string, Transaccion>, a: ActualizacionEstado): (r: Result<map<string, Transaccion>, Excepcion>)
    ensures r.Failure? <==> a.codigoUnicoTransaccion !in almacen
    ensures r.Failure? ==> r.error == Ejecucion(MENSAJE_NO_ENCONTRADA)
    ensures r.Success? ==> r.value.Keys == almacen.Keys
    ensures r.Success? ==>
              r.value[a.codigoUnicoTransaccion] ==
              almacen[a.codigoUnicoTransaccion].(estado := a.estado, detalle := a.mensaje)
    ensures r.Success? ==>
              forall k :: k in almacen && k != a.codigoUnicoTransaccion ==> r.value[k] == almacen[k]
  {
    if a.codigoUnicoTransaccion !in almacen then
      Failure(Ejecucion(MENSAJE_NO_ENCONTRADA))
    else
      var t := almacen[a.codigoUnicoTransaccion];
      Success(almacen[a.codigoUnicoTransaccion := t.(estado := a.estado, detalle := a.mensaje)])
  }

  /** Reconciliation keeps every record filed under its own code. */
  lemma ReconciliarConservaClaves(almacen: map<string, Transaccion>, a: ActualizacionEstado)
    requires ClavesCoherentes(almacen) && Reconciliar(almacen, a).Success?
    ensures ClavesCoherentes(Reconciliar(almacen, a).value)
  {
  }

  /** Two lookups of the same code agree unless a reconciliation of that code
      came between them; after one, the lookup sees the pushed state and
      message and every other field as before. */
  lemma ConsultaTrasReconciliar(almacen: map<string, Transaccion>, a: ActualizacionEstado, codigo: string)
    requires Reconciliar(almacen, a).Success?
    ensures codigo != a.codigoUnicoTransaccion ==>
              Consultar(Reconciliar(almacen, a).value, codigo) == Consultar(almacen, codigo)
    ensures Consultar(Reconciliar(almacen, a).value, a.codigoUnicoTransaccion) ==
              Success(almacen[a.codigoUnicoTransaccion].(estado := a.estado, detalle := a.mensaje))
  {
  }

  /** What `crear` returns: the exception of the initial save, or the record
      after the gateway flow. */
  function ResultadoCrear(nueva: TransaccionNueva, orden: seq<string>, fecha: FechaHora, relojCodigo: FechaHora,
                          aleatorio: nat, datosSensibles: string, interesDiferido: Option<bool>,
                          cuotas: Option<int>, e: Entorno): (r: Result<Transaccion, Excepcion>)
    ensures r.Success? <==> CrearInicial(nueva, orden, fecha, relojCodigo, aleatorio).Success?
    ensures r.Failure? ==> r == CrearInicial(nueva, orden, fecha, relojCodigo, aleatorio)
    ensures r.Success? ==>
              var t := CrearInicial(nueva, orden, fecha, relojCodigo, aleatorio).value;
              && r.value == t.(estado := r.value.estado)
              && r.value.estado in {ESTADO_AUTORIZADO, ESTADO_RECHAZADO, ESTADO_ENVIADO}
              && r.value.detalle == PREFIJO_DETALLE + nueva.marca.value
  {
    match CrearInicial(nueva, orden, fecha, relojCodigo, aleatorio)
    case Failure(err) => Failure(err)
    case Success(t) => Success(t.(estado := EstadoTrasGateway(t, datosSensibles, interesDiferido, cuotas, e)))
  }

  /** An accepted brand with amount 49.99 whose gateway answers 200 with
      "pago aceptada" ends AUTHORIZED. */
  lemma EscenarioVisaAceptada(orden: seq<string>, fecha: FechaHora, relojCodigo: FechaHora, aleatorio: nat,
                              datosSensibles: string, e: Entorno)
    requires e.configuracion.Some? && e.facturacion(e.configuracion.value.codigoComercio).Some?
    requires forall d :: e.gateway(d) == Respuesta(200, Some("pago aceptada"))
    ensures var r := ResultadoCrear(TransaccionNueva(Some(4999), Some("VISA")), orden, fecha, relojCodigo,
                                    aleatorio, datosSensibles, Some(false), None, e);
            r.Success? && r.value.estado == ESTADO_AUTORIZADO
  {
    assert OcurreEn("pago aceptada", MARCA_ACEPTADA, 5);
  }

  /** A negative amount is refused before anything is saved, and an unknown
      brand is refused with a message that names every accepted brand. */
  lemma EscenariosRechazados(orden: seq<string>, fecha: FechaHora, relojCodigo: FechaHora, aleatorio: nat,
                             datosSensibles: string, e: Entorno)
    requires EnumeraMarcas(orden)
    ensures ResultadoCrear(TransaccionNueva(Some(-500), Some("VISA")), orden, fecha, relojCodigo, aleatorio,
                           datosSensibles, None, None, e) == Failure(DatosInvalidos(MENSAJE_MONTO))
    ensures var r := ResultadoCrear(TransaccionNueva(Some(1000), Some("XXXX")), orden, fecha, relojCodigo,
                                    aleatorio, datosSensibles, None, None, e);
            && r.Failure? && r.error.ArgumentoIlegal?
            && forall m :: m in MARCAS_VALIDAS ==> Contiene(r.error.mensaje, m)
  {
    forall m | m in MARCAS_VALIDAS ensures Contiene(MensajeMarcaInvalida(orden), m) {
      MensajeNombraCadaMarca(orden, m);
    }
  }

  class TransaccionService {
    /** The repository's rows, by unique code. */
    var almacen: map<string, Transaccion>
    /** Every record handed to `save`, in order. */
    ghost var escrituras: seq<Transaccion>
    /** The order in which `MARCAS_VALIDAS` iterates in this JVM. */
    const ordenMarcas: seq<string>

    ghost predicate Valid()
      reads this
    {
      EnumeraMarcas(ordenMarcas) && ClavesCoherentes(almacen)
    }

    /** A service over an injected repository that may already hold rows,
        each filed under its own code. */
    constructor (orden: seq<string>, inicial: map<string, Transaccion>)
      requires EnumeraMarcas(orden) && ClavesCoherentes(inicial)
      ensures Valid() && ordenMarcas == orden
      ensures almacen == inicial && escrituras == []
    {
      ordenMarcas := orden;
      almacen := inicial;
      escrituras := [];
    }

    /** `transaccionRepository.save`: the row under the record's code now
        holds the record. */
    method Guardar(t: Transaccion)
      requires Valid()
      modifies this
      ensures Valid()
      ensures almacen == old(almacen)[t.codigoUnico := t]
      ensures escrituras == old(escrituras) + [t]
    {
      almacen := almacen[t.codigoUnico := t];
      escrituras := escrituras + [t];
    }

    /** `guardarTransaccionInicial`: check the brand, stamp the defaults,
        generate the code and the detail, check the amount, then save once.
        On either exception nothing is saved. */
    method GuardarTransaccionInicial(nueva: TransaccionNueva, fecha: FechaHora, relojCodigo: FechaHora,
                                     aleatorio: nat) returns (r: Result<Transaccion, Excepcion>)
      requires Valid()
      modifies this
      ensures Valid()
      ensures r == CrearInicial(nueva, ordenMarcas, fecha, relojCodigo, aleatorio)
      ensures r.Failure? ==> almacen == old(almacen) && escrituras == old(escrituras)
      ensures r.Success? ==>
                almacen == old(almacen)[r.value.codigoUnico := r.value] &&
                escrituras == old(escrituras) + [r.value]
    {
      if !MarcaAceptada(nueva.marca) {
        return Failure(ArgumentoIlegal(MensajeMarcaInvalida(ordenMarcas)));
      }
      var marca := nueva.marca.value;
      var tipo, modalidad, moneda := TIPO_PAGO, MODALIDAD_SIMPLE, MONEDA_POR_DEFECTO;
      var estado, estadoRecibo := ESTADO_ENVIADO, ESTADO_RECIBO_PENDIENTE;
      var codigo := Generar(aleatorio, relojCodigo);
      var detalle := PREFIJO_DETALLE + marca;
      var validacion := ValidarDatos(nueva.monto, nueva.marca);
      if validacion.Fail? {
        return Failure(validacion.error);
      }
      var t := Transaccion(codigo, tipo, modalidad, marca, nueva.monto.value, moneda, fecha,
                           estado, estadoRecibo, detalle);
      Guardar(t);
      r := Success(t);
    }

    /** `procesarConGateway`: build the payload, call the gateway, decide the
        state, save once and return the record. Every failure of the first
        two steps is caught and turns into REC; nothing but the state changes. */
    method ProcesarConGateway(t: Transaccion, datosSensibles: string, interesDiferido: Option<bool>,
                              cuotas: Option<int>, e: Entorno) returns (r: Transaccion)
      requires Valid()
      modifies this
      ensures Valid()
      ensures r == t.(estado := EstadoTrasGateway(t, datosSensibles, interesDiferido, cuotas, e))
      ensures almacen == old(almacen)[t.codigoUnico := r]
      ensures escrituras == old(escrituras) + [r]
    {
      var dto := PrepararGatewayDTO(t, datosSensibles, interesDiferido, cuotas, e.configuracion, e.facturacion);
      if dto.None? {
        r := t.(estado := ESTADO_RECHAZADO);
      } else {
        var respuesta := e.gateway(dto.value);
        match respuesta {
          case FalloComunicacion =>
            r := t.(estado := ESTADO_RECHAZADO);
          case Respuesta(codigo, cuerpo) =>
            r := t.(estado := DecidirEstado(t.estado, codigo, cuerpo));
        }
      }
      Guardar(r);
    }

    /** `crear`: the initial save, then the gateway flow on the saved record.
        A success writes the store twice, first the ENV record and then the
        processed one; a refused creation writes nothing. */
    method Crear(nueva: TransaccionNueva, fecha: FechaHora, relojCodigo: FechaHora, aleatorio: nat,
                 datosSensibles: string, interesDiferido: Option<bool>, cuotas: Option<int>, e: Entorno)
      returns (r: Result<Transaccion, Excepcion>)
      requires Valid()
      modifies this
      ensures Valid()
      ensures r == ResultadoCrear(nueva, ordenMarcas, fecha, relojCodigo, aleatorio, datosSensibles,
                                  interesDiferido, cuotas, e)
      ensures r.Failure? ==> almacen == old(almacen) && escrituras == old(escrituras)
      ensures r.Success? ==>
                almacen == old(almacen)[r.value.codigoUnico := r.value] &&
                escrituras == old(escrituras) +
                              [CrearInicial(nueva, ordenMarcas, fecha, relojCodigo, aleatorio).value, r.value]
    {
      var inicial := GuardarTransaccionInicial(nueva, fecha, relojCodigo, aleatorio);
      if inicial.Failure? {
        return Failure(inicial.error);
      }
      var procesada := ProcesarConGateway(inicial.value, datosSensibles, interesDiferido, cuotas, e);
      r := Success(procesada);
    }

    /** `obtenerPorCodigoUnico`. */
    method ObtenerPorCodigoUnico(codigo: string) returns (r: Result<Transaccion, Excepcion>)
      ensures r == Consultar(almacen, codigo)
    {
      if codigo in almacen {
        r := Success(almacen[codigo]);
      } else {
        r := Failure(Ejecucion(MENSAJE_NO_ENCONTRADA));
      }
    }

    /** `actualizarEstadoTransaccion`: look the record up, overwrite its state
        and detail, save. An unknown code throws and saves nothing. */
    method ActualizarEstadoTransaccion(a: ActualizacionEstado) returns (r: Outcome<Excepcion>)
      requires Valid()
      modifies this
      ensures Valid()
      ensures r.Fail? <==> Reconciliar(old(almacen), a).Failure?
      ensures r.Fail? ==>
                r.error == Reconciliar(old(almacen), a).error &&
                almacen == old(almacen) && escrituras == old(escrituras)
      ensures r.Pass? ==>
                almacen == Reconciliar(old(almacen), a).value &&
                escrituras == old(escrituras) + [almacen[a.codigoUnicoTransaccion]]
    {
      if a.codigoUnicoTransaccion !in almacen {
        return Fail(Ejecucion(MENSAJE_NO_ENCONTRADA));
      }
      var t := almacen[a.codigoUnicoTransaccion];
      t := t.(estado := a.estado);
      t := t.(detalle := a.mensaje);
      Guardar(t);
      r := Pass;
    }
  }
}
