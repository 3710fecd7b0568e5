/** `TransaccionController`: the reconciliation endpoint's choice of response
    code and the `NotFoundException` handler. */
module ControladorTransacciones {
  import opened Resultados
  import opened Transacciones
  import opened Servicio

  const HTTP_CREADO := 201
  const HTTP_PETICION_INVALIDA := 400
  const HTTP_NO_ENCONTRADO := 404

  /** The body of the not-found answer; every other field of the DTO is null. */
  datatype TransaccionDTO = TransaccionDTO(estado: string, detalle: string)

  datatype RespuestaTransaccion = RespuestaTransaccion(codigo: int, cuerpo: TransaccionDTO)

  /** The code `actualizarEstado` answers with, once the service call has
      returned (`Pass`) or thrown (`Fail`): 400 for any exception and for a
      pushed REC, 201 for AUT and for every other state. */
  function CodigoActualizacion(r: Outcome<Excepcion>, estado: string): (codigo: int)
    ensures codigo == HTTP_PETICION_INVALIDA <==> r.Fail? || estado == ESTADO_RECHAZADO
    ensures codigo == HTTP_CREADO <==> r.Pass? && estado != ESTADO_RECHAZADO
  {
    if r.Fail? then HTTP_PETICION_INVALIDA
    else if estado == ESTADO_AUTORIZADO then HTTP_CREADO
    else if estado == ESTADO_RECHAZADO then HTTP_PETICION_INVALIDA
    else HTTP_CREADO
  }

  /** `PUT /actualizar-estado`: the update is applied first and the code is
      chosen afterwards, so a REC update is stored even though the caller is
      answered 400. */
  method ActualizarEstado(svc: TransaccionService, a: ActualizacionEstado) returns (codigo: int)
    requires svc.Valid()
    modifies svc
    ensures svc.Valid()
    ensures Reconciliar(old(svc.almacen), a).Success? ==>
              svc.almacen == Reconciliar(old(svc.almacen), a).value &&
              svc.escrituras == old(svc.escrituras) + [svc.almacen[a.codigoUnicoTransaccion]] &&
              codigo == CodigoActualizacion(Pass, a.estado)
    ensures Reconciliar(old(svc.almacen), a).Failure? ==>
              svc.almacen == old(svc.almacen) && svc.escrituras == old(svc.escrituras) &&
              codigo == HTTP_PETICION_INVALIDA
  {
    var r := svc.ActualizarEstadoTransaccion(a);
    codigo := CodigoActualizacion(r, a.estado);
  }

  /** A REC update of a known code is persisted and answered 400; an AUT
      update is persisted and answered 201. */
  lemma RechazoPersistidoCon400(almacen: map<string, Transaccion>, a: ActualizacionEstado)
    requires a.codigoUnicoTransaccion in almacen
    ensures Reconciliar(almacen, a).Success?
    ensures Reconciliar(almacen, a).value[a.codigoUnicoTransaccion].estado == a.estado
    ensures a.estado == ESTADO_RECHAZADO ==> CodigoActualizacion(Pass, a.estado) == HTTP_PETICION_INVALIDA
    ensures a.estado == ESTADO_AUTORIZADO ==> CodigoActualizacion(Pass, a.estado) == HTTP_CREADO
  {
  }

  /** An unknown code is answered 400, not 404: the service throws a plain
      RuntimeException, which the endpoint's own catch turns into 400 before
      the `NotFoundException` handler could see it. */
  lemma CodigoDesconocidoResponde400(almacen: map<string, Transaccion>, a: ActualizacionEstado)
    requires a.codigoUnicoTransaccion !in almacen
    ensures Reconciliar(almacen, a).Failure?
    ensures !Reconciliar(almacen, a).error.NoEncontrada?
    ensures CodigoActualizacion(Fail(Reconciliar(almacen, a).error), a.estado) == HTTP_PETICION_INVALIDA
  {
  }

  /** `handleNotFoundException`: 404 with state REC and the exception's message
      as the detail. */
  function ManejarNoEncontrada(e: Excepcion): (r: RespuestaTransaccion)
    requires e.NoEncontrada?
    ensures r.codigo == HTTP_NO_ENCONTRADO
    ensures r.cuerpo == TransaccionDTO(ESTADO_RECHAZADO, e.mensaje)
  {
    RespuestaTransaccion(HTTP_NO_ENCONTRADO, TransaccionDTO(ESTADO_RECHAZADO, e.mensaje))
  }
}
