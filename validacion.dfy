/** `validarUsuario`: the Joi schema `{ nombre: Joi.string().min(3).required() }`
    applied to the `nombre` field of a request body. */
module Validacion {

  /** What `req.body.nombre` holds: nothing, a string, or any other JSON value
      (a number, `null`, an object, ...). */
  datatype Campo = Ausente | Texto(s: string) | OtroValor

  /** The `{error, value}` pair Joi returns: either the validated name or an error message. */
  datatype Resultado = Valido(nombre: string) | Invalido(mensaje: string)

  /** The rule: the name is present, is a string, and has at least three
      characters (no trimming). */
  predicate NombreValido(c: Campo) {
    c.Texto? && |c.s| >= 3
  }

  /** Joi checks the rules in the order `required`, `string`, not empty, `min(3)`
      and reports the first one that fails. */
  function ValidarUsuario(nom: Campo): (r: Resultado)
    ensures r.Valido? <==> NombreValido(nom)
    ensures r.Valido? ==> nom == Texto(r.nombre)
    ensures r.Invalido? ==> |r.mensaje| > 0
  {
    match nom
    case Ausente => Invalido("\"nombre\" is required")
    case OtroValor => Invalido("\"nombre\" must be a string")
    case Texto(s) =>
      if |s| == 0 then Invalido("\"nombre\" is not allowed to be empty")
      else if |s| < 3 then Invalido("\"nombre\" length must be at least 3 characters long")
      else Valido(s)
  }

  /** "Al" is refused, "Ana" is accepted as it is. */
  lemma EjemplosDeValidacion()
    ensures ValidarUsuario(Texto("Al")).Invalido?
    ensures ValidarUsuario(Texto("Ana")) == Valido("Ana")
    ensures ValidarUsuario(Texto("   ")) == Valido("   ")
  {
  }
}
