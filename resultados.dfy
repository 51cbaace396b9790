/** Failure values shared by the whole model: the `ValueError`s that the entities, the
    use cases and the repositories raise, and the Option/Result/Outcome wrappers that
    stand for a raised exception. */
module Resultados {

  datatype Option<+T> = None | Some(value: T)

  /** A value, or the error a Python `raise` would have carried instead. */
  datatype Result<+T> = Ok(value: T) | Err(error: Error)

  /** A check that passes, or the error raised by the first violated rule. */
  datatype Outcome = Pass | Fail(error: Error)

  datatype Error =
    // ProductoPrecio._validar_valor
    | PrecioNegativo
    | PrecioExcedeMaximo
    // Producto._validar_codigo, _validar_nombre, _validar_empresa_nit
    | CodigoRequerido
    | CodigoExcedeLongitud
    | NombreProductoRequerido
    | NombreProductoExcedeLongitud
    | NitEmpresaRequerido
    // Empresa._validar_nit, _validar_nombre, _validar_direccion, _validar_telefono
    | NitRequerido
    | NitExcedeLongitud
    | NombreEmpresaRequerido
    | NombreEmpresaExcedeLongitud
    | DireccionRequerida
    | DireccionExcedeLongitud
    | TelefonoRequerido
    | TelefonoExcedeLongitud
    // use cases: "Ya existe ...", "No existe ..."
    | EmpresaYaExiste(nit: string)
    | EmpresaNoExiste(nit: string)
    | ProductoYaExiste(codigo: string)
    | ProductoNoExiste(codigo: string)
    // the storage's ProtectedError: a company still owning products cannot be deleted
    | EmpresaProtegida(nit: string)
}
