/** The transaction record and the creation rules of `TransaccionService`:
    the accepted brands, the defaults stamped on a new transaction, and the
    amount check of `validarDatos`. */
module Transacciones {
  import opened Resultados
  import opened Cadenas
  import opened CodigoUnico

  const TIPO_PAGO := "PAG"
  const TIPO_REVERSO := "REV"
  const MODALIDAD_SIMPLE := "SIM"
  const MODALIDAD_RECURRENTE := "REC"
  const ESTADO_ENVIADO := "ENV"
  const ESTADO_AUTORIZADO := "AUT"
  const ESTADO_RECHAZADO := "REC"
  const ESTADO_RECIBO_IMPRESO := "IMP"
  const ESTADO_RECIBO_PENDIENTE := "PEN"
  const MONEDA_POR_DEFECTO := "USD"

  /** `MARCAS_VALIDAS`: the card networks a transaction may carry. */
  const MARCAS_VALIDAS: set<string> := {"MSCD", "VISA", "AMEX", "DINE"}
  const LONGITUD_MAXIMA_MARCA := 4

  const PREFIJO_DETALLE := "Transacción POS - "
  const PREFIJO_MARCA_INVALIDA := "Marca inválida. Debe ser una de: "
  const MENSAJE_MONTO := "El monto debe ser mayor que cero"
  const MENSAJE_MARCA_OBLIGATORIA := "La marca es obligatoria"

  /** A persisted transaction. The amount is in minor currency units. */
  datatype Transaccion = Transaccion(
    codigoUnico: string,
    tipo: string,
    modalidad: string,
    marca: string,
    monto: int,
    moneda: string,
    fecha: FechaHora,
    estado: string,
    estadoRecibo: string,
    detalle: string)

  /** What a caller hands to `guardarTransaccionInicial`: only the amount and
      the brand survive it (every other field is overwritten), and either may
      be null. */
  datatype TransaccionNueva = TransaccionNueva(monto: Option<int>, marca: Option<string>)

  /** `orden` lists the accepted brands once each: an iteration order of the
      unordered `Set.of(...)`, which the JVM does not fix. */
  predicate EnumeraMarcas(orden: seq<string>) {
    |orden| == |MARCAS_VALIDAS| && (forall m :: m in MARCAS_VALIDAS ==> m in orden)
  }

  /** The brand check of `guardarTransaccionInicial`: non-null, at most four
      characters, and one of `MARCAS_VALIDAS`. */
  predicate MarcaAceptada(marca: Option<string>) {
    marca.Some? && |marca.value| <= LONGITUD_MAXIMA_MARCA && marca.value in MARCAS_VALIDAS
  }

  /** The message of the invalid-brand exception: the accepted brands joined
      by ", " in the set's iteration order. */
  function MensajeMarcaInvalida(orden: seq<string>): string {
    PREFIJO_MARCA_INVALIDA + Unir(orden, ", ")
  }

  /** The invalid-brand message names every accepted brand, whatever order the
      set iterates in. */
  lemma MensajeNombraCadaMarca(orden: seq<string>, m: string)
    requires EnumeraMarcas(orden) && m in MARCAS_VALIDAS
    ensures Contiene(MensajeMarcaInvalida(orden), m)
  {
    var k :| 0 <= k < |orden| && orden[k] == m;
    UnirContieneCada(orden, ", ", k);
    var i :| OcurreEn(Unir(orden, ", "), m, i);
    OcurreTrasPrefijo(PREFIJO_MARCA_INVALIDA, Unir(orden, ", "), m, i);
  }

  /** Java's `s.trim().isEmpty()`: every character is at most U+0020. */
  predicate EnBlanco(s: string) {
    forall i :: 0 <= i < |s| ==> s[i] <= ' '
  }

  /** `validarDatos`: the amount must be present and positive, then the brand
      present and not blank. */
  function ValidarDatos(monto: Option<int>, marca: Option<string>): (r: Outcome<Excepcion>)
    ensures r.Pass? <==> monto.Some? && monto.value > 0 && marca.Some? && !EnBlanco(marca.value)
    ensures (monto.None? || monto.value <= 0) ==> r == Fail(DatosInvalidos(MENSAJE_MONTO))
    ensures r.Fail? ==> r.error.DatosInvalidos?
  {
    if monto.None? || monto.value <= 0 then Fail(DatosInvalidos(MENSAJE_MONTO))
    else if marca.None? || EnBlanco(marca.value) then Fail(DatosInvalidos(MENSAJE_MARCA_OBLIGATORIA))
    else Pass
  }

  /** The brand half of `validarDatos` can never fail once the brand check of
      `guardarTransaccionInicial` has passed: only the amount decides. */
  lemma ValidarDatosTrasMarca(monto: Option<int>, marca: Option<string>)
    requires MarcaAceptada(marca)
    ensures ValidarDatos(monto, marca).Pass? <==> monto.Some? && monto.value > 0
  {
    var m := marca.value;
    assert m == "MSCD" || m == "VISA" || m == "AMEX" || m == "DINE";
    assert !EnBlanco(m) by {
      assert |m| > 0 && m[0] > ' ';
    }
  }

  /** The record `guardarTransaccionInicial` hands to `save`, or the exception
      it throws instead. `fecha` is the clock reading stored in the record,
      `relojCodigo` the separate reading taken inside `generarCodigoUnico`. */
  function CrearInicial(nueva: TransaccionNueva, orden: seq<string>, fecha: FechaHora,
                        relojCodigo: FechaHora, aleatorio: nat): (r: Result<Transaccion, Excepcion>)
    ensures !MarcaAceptada(nueva.marca) ==> r == Failure(ArgumentoIlegal(MensajeMarcaInvalida(orden)))
    ensures MarcaAceptada(nueva.marca) && (nueva.monto.None? || nueva.monto.value <= 0) ==>
              r == Failure(DatosInvalidos(MENSAJE_MONTO))
    ensures r.Success? <==> MarcaAceptada(nueva.marca) && nueva.monto.Some? && nueva.monto.value > 0
    ensures r.Success? ==> r.value == Transaccion(
              Generar(aleatorio, relojCodigo), TIPO_PAGO, MODALIDAD_SIMPLE, nueva.marca.value,
              nueva.monto.value, MONEDA_POR_DEFECTO, fecha, ESTADO_ENVIADO, ESTADO_RECIBO_PENDIENTE,
              PREFIJO_DETALLE + nueva.marca.value)
  {
    if !MarcaAceptada(nueva.marca) then
      Failure(ArgumentoIlegal(MensajeMarcaInvalida(orden)))
    else
      ValidarDatosTrasMarca(nueva.monto, nueva.marca);
      var marca := nueva.marca.value;
      var codigo := Generar(aleatorio, relojCodigo);
      match ValidarDatos(nueva.monto, nueva.marca)
      case Fail(e) => Failure(e)
      case Pass =>
        Success(Transaccion(codigo, TIPO_PAGO, MODALIDAD_SIMPLE, marca, nueva.monto.value,
                            MONEDA_POR_DEFECTO, fecha, ESTADO_ENVIADO, ESTADO_RECIBO_PENDIENTE,
                            PREFIJO_DETALLE + marca))
  }

  /** A created record's code is a well-formed code that carries the random
      number and the clock reading it was generated from. */
  lemma CodigoDeCreada(nueva: TransaccionNueva, orden: seq<string>, fecha: FechaHora,
                       relojCodigo: FechaHora, aleatorio: nat)
    requires aleatorio < LIMITE_ALEATORIO && FechaValida(relojCodigo)
    requires CrearInicial(nueva, orden, fecha, relojCodigo, aleatorio).Success?
    ensures Leer(CrearInicial(nueva, orden, fecha, relojCodigo, aleatorio).value.codigoUnico)
              == Some((aleatorio, relojCodigo))
  {
    LeerGenerar(aleatorio, relojCodigo);
  }
}
