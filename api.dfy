/** The handlers of the `/api/usuarios` routes over the in-memory table
    `usuarios`, with the HTTP layer taken off: each handler takes the parsed
    path parameter and the `nombre` field of the body, changes the table in
    place, and returns what it sends. */
module Api {
  import opened Datos
  import opened Validacion

  /** The body of a response. */
  datatype Cuerpo = Registro(usuario: Usuario) | Lista(usuarios: seq<Usuario>) | Error(mensaje: string)

  /** What a handler sends: a status code with a body, or nothing at all. */
  datatype Respuesta = Enviada(estado: int, cuerpo: Cuerpo) | SinRespuesta

  const NoEncontrado: string := "Usuario no encontrado"

  /** The process-wide table `usuarios` and the handlers that read and change it. */
  class TablaUsuarios {
    var usuarios: seq<Usuario>

    constructor ()
      ensures usuarios == Iniciales
    {
      usuarios := Iniciales;
    }

    /** GET /api/usuarios: the whole table, in order; nothing changes. */
    method ListarUsuarios() returns (r: Respuesta)
      ensures r.Enviada? && r.estado == 200 && r.cuerpo == Lista(usuarios)
    {
      r := Enviada(200, Lista(usuarios));
    }

    /** GET /api/usuarios/:id as written: 404 when the id is missing, and no
        response at all when it is found (the `res.send` sits inside the
        not-found branch). */
    method ObtenerUsuario(p: Parametro) returns (r: Respuesta)
      ensures r == SinRespuesta <==> exists i :: 0 <= i < |usuarios| && Coincide(usuarios[i], p)
      ensures r != SinRespuesta ==> r == Enviada(404, Error(NoEncontrado))
    {
      var u := ExisteUsuario(usuarios, p);
      if u.None? {
        r := Enviada(404, Error(NoEncontrado));
      } else {
        r := SinRespuesta;
        assert usuarios[IndexOf(usuarios, u.value)] == u.value;
      }
    }

    /** GET /api/usuarios/:id with the response sent in the found branch. */
    method ObtenerUsuarioCorregido(p: Parametro) returns (r: Respuesta)
      ensures r.Enviada?
      ensures r.estado == 404 <==> forall i :: 0 <= i < |usuarios| ==> !Coincide(usuarios[i], p)
      ensures r.estado == 404 ==> r.cuerpo == Error(NoEncontrado)
      ensures r.estado != 404 ==> r.estado == 200 && r.cuerpo.Registro?
                                  && ExisteUsuario(usuarios, p) == Some(r.cuerpo.usuario)
      ensures r.estado != 404 ==>
                (exists i :: 0 <= i < |usuarios| && usuarios[i] == r.cuerpo.usuario
                   && Coincide(usuarios[i], p)
                   && forall j :: 0 <= j < i ==> !Coincide(usuarios[j], p))
    {
      var u := ExisteUsuario(usuarios, p);
      if u.None? {
        r := Enviada(404, Error(NoEncontrado));
      } else {
        r := Enviada(200, Registro(u.value));
        var k := IndexOf(usuarios, u.value);
        assert usuarios[k] == u.value;
      }
    }

    /** POST /api/usuarios as written: a valid name is appended as a record
        whose id is the old length plus one; an invalid one is answered with
        400 and the table stays as it was. */
    method CrearUsuario(nombre: Campo) returns (r: Respuesta)
      modifies this
      ensures NombreValido(nombre) ==>
                var nuevo := Usuario(|old(usuarios)| + 1, nombre.s);
                usuarios == old(usuarios) + [nuevo] && r == Enviada(200, Registro(nuevo))
      ensures !NombreValido(nombre) ==>
                usuarios == old(usuarios) && r.Enviada? && r.estado == 400 && r.cuerpo.Error?
                && |r.cuerpo.mensaje| > 0
    {
      var v := ValidarUsuario(nombre);
      if v.Valido? {
        var nuevo := Usuario(|usuarios| + 1, v.nombre);
        usuarios := usuarios + [nuevo];
        r := Enviada(200, Registro(nuevo));
      } else {
        r := Enviada(400, Error(v.mensaje));
      }
    }

    /** POST /api/usuarios with the id taken one past the largest id, so that
        ids stay unique. */
    method CrearUsuarioConIdNuevo(nombre: Campo) returns (r: Respuesta)
      modifies this
      ensures NombreValido(nombre) ==>
                var nuevo := Usuario(MaxId(old(usuarios)) + 1, nombre.s);
                usuarios == old(usuarios) + [nuevo] && r == Enviada(200, Registro(nuevo))
                && forall i :: 0 <= i < |old(usuarios)| ==> old(usuarios)[i].id < nuevo.id
      ensures !NombreValido(nombre) ==>
                usuarios == old(usuarios) && r.Enviada? && r.estado == 400 && r.cuerpo.Error?
      ensures IdsUnicos(old(usuarios)) ==> IdsUnicos(usuarios)
    {
      var v := ValidarUsuario(nombre);
      if v.Valido? {
        var antes := usuarios;
        var nuevo := Usuario(MaxId(antes) + 1, v.nombre);
        assert forall i :: 0 <= i < |antes| ==> antes[i].id < nuevo.id;
        if IdsUnicos(antes) {
          IdNuevoEsUnico(antes, nuevo);
        }
        usuarios := antes + [nuevo];
        r := Enviada(200, Registro(nuevo));
      } else {
        r := Enviada(400, Error(v.mensaje));
      }
    }

    /** PUT /api/usuarios/:id: an unknown id is answered with 404 before the
        name is looked at; a known id with an invalid name with 400; otherwise
        the found record's name is overwritten in place and the record sent. */
    method ActualizarUsuario(p: Parametro, nombre: Campo) returns (r: Respuesta)
      modifies this
      ensures ExisteUsuario(old(usuarios), p).None? ==>
                usuarios == old(usuarios) && r == Enviada(404, Error(NoEncontrado))
      ensures ExisteUsuario(old(usuarios), p).Some? && !NombreValido(nombre) ==>
                usuarios == old(usuarios) && r.Enviada? && r.estado == 400 && r.cuerpo.Error?
      ensures ExisteUsuario(old(usuarios), p).Some? && NombreValido(nombre) ==>
                var k := IndexOf(old(usuarios), ExisteUsuario(old(usuarios), p).value);
                0 <= k < |usuarios| == |old(usuarios)|
                && usuarios[k] == Usuario(old(usuarios)[k].id, nombre.s)
                && (forall j :: 0 <= j < |usuarios| && j != k ==> usuarios[j] == old(usuarios)[j])
                && r == Enviada(200, Registro(usuarios[k]))
      ensures forall j :: 0 <= j < |usuarios| ==> usuarios[j].id == old(usuarios)[j].id
      ensures |usuarios| == |old(usuarios)|
      ensures IdsUnicos(old(usuarios)) ==> IdsUnicos(usuarios)
    {
      var u := ExisteUsuario(usuarios, p);
      if u.None? {
        return Enviada(404, Error(NoEncontrado));
      }
      var v := ValidarUsuario(nombre);
      if v.Invalido? {
        return Enviada(400, Error(v.mensaje));
      }
      // `usuario.nombre = value.nombre` changes the record at the position
      // `existeUsuario` found it in.
      var k := IndexOf(usuarios, u.value);
      if IdsUnicos(usuarios) {
        RenombrarConservaUnicos(usuarios, k, v.nombre);
      }
      usuarios := usuarios[k := Usuario(usuarios[k].id, v.nombre)];
      r := Enviada(200, Registro(usuarios[k]));
    }

    /** DELETE /api/usuarios/:id: an unknown id is answered with 404; otherwise
        the found record is spliced out at its `indexOf` position and sent. */
    method EliminarUsuario(p: Parametro) returns (r: Respuesta)
      modifies this
      ensures ExisteUsuario(old(usuarios), p).None? ==>
                usuarios == old(usuarios) && r == Enviada(404, Error(NoEncontrado))
      ensures ExisteUsuario(old(usuarios), p).Some? ==>
                var k := IndexOf(old(usuarios), ExisteUsuario(old(usuarios), p).value);
                0 <= k < |old(usuarios)|
                && Coincide(old(usuarios)[k], p)
                && (forall j :: 0 <= j < k ==> !Coincide(old(usuarios)[j], p))
                && usuarios == old(usuarios)[..k] + old(usuarios)[k + 1..]
                && |usuarios| == |old(usuarios)| - 1
                && r == Enviada(200, Registro(old(usuarios)[k]))
      ensures IdsUnicos(old(usuarios)) ==> IdsUnicos(usuarios)
    {
      var u := ExisteUsuario(usuarios, p);
      if u.None? {
        return Enviada(404, Error(NoEncontrado));
      }
      var k := IndexOf(usuarios, u.value);
      if IdsUnicos(usuarios) {
        QuitarConservaUnicos(usuarios, k);
      }
      usuarios := usuarios[..k] + usuarios[k + 1..];
      r := Enviada(200, Registro(u.value));
    }
  }
}
