/** Option, Result and Outcome wrappers, and the Java exception kinds that the
    point-of-sale core throws or catches. */
module Resultados {

  datatype Option<+T> = None | Some(value: T)

  /** A value, or the exception that was thrown instead of returning it. */
  datatype Result<+T, +E> = Success(value: T) | Failure(error: E)

  /** The result of a `void` Java method: it returned, or it threw. */
  datatype Outcome<+E> = Pass | Fail(error: E)

  /** The exception classes that reach a `catch` clause in the core; each
      carries the text that `getMessage()` returns. */
  datatype Excepcion =
    | ArgumentoIlegal(mensaje: string)   // IllegalArgumentException
    | FormatoNumerico(mensaje: string)   // NumberFormatException (a subclass of IllegalArgumentException)
    | DatosInvalidos(mensaje: string)    // the project's InvalidDataException
    | NoEncontrada(mensaje: string)      // the project's NotFoundException
    | Ejecucion(mensaje: string)         // a plain RuntimeException
    | PunteroNulo(mensaje: string)       // NullPointerException
    | ConversionTipo(mensaje: string)    // ClassCastException
  {
    /** Whether `catch (IllegalArgumentException e)` catches this exception. */
    predicate EsArgumentoIlegal() {
      ArgumentoIlegal? || FormatoNumerico?
    }
  }
}
