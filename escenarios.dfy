/** Request sequences run through the handlers, each stated as what is sent
    and what of the table it checks afterwards. Most start from the table the
    process starts with; BorrarGrover and BorrarAna are single steps of those
    sequences, and CrearYObtenerCorregidos holds for any table. */
module Escenarios {
  import opened Datos
  import opened Validacion
  import opened Api

  /** DELETE /api/usuarios/1 on the initial table leaves Pablo and Ana. */
  method BorrarGrover(t: TablaUsuarios)
    requires t.usuarios == Iniciales
    modifies t
    ensures t.usuarios == [Usuario(2, "Pablo"), Usuario(3, "Ana")]
  {
    assert ExisteUsuario(Iniciales, Some(1)) == Some(Usuario(1, "Grover"));
    assert IndexOf(Iniciales, Usuario(1, "Grover")) == 0;
    var borrado := t.EliminarUsuario(Some(1));
  }

  /** DELETE /api/usuarios/1 then POST {nombre: "Luis"}: the new record gets
      id 3, which Ana already has. Looking up id 3 then finds Ana, so a
      following DELETE /api/usuarios/3 sends and removes Ana and leaves Luis. */
  method ColisionDeIds() returns (ids: seq<int>, creado: Respuesta, borrado: Respuesta, tabla: seq<Usuario>)
    ensures ids == [2, 3, 3]
    ensures creado == Enviada(200, Registro(Usuario(3, "Luis")))
    ensures borrado == Enviada(200, Registro(Usuario(3, "Ana")))
    ensures tabla == [Usuario(2, "Pablo"), Usuario(3, "Luis")]
  {
    var t := new TablaUsuarios();
    BorrarGrover(t);
    creado := t.CrearUsuario(Texto("Luis"));
    var despues := [Usuario(2, "Pablo"), Usuario(3, "Ana"), Usuario(3, "Luis")];
    assert t.usuarios == despues;
    ids := [t.usuarios[0].id, t.usuarios[1].id, t.usuarios[2].id];
    borrado := BorrarAna(t);
    tabla := t.usuarios;
  }

  /** DELETE /api/usuarios/3 on a table where Ana and Luis share id 3 removes
      Ana, the first of the two. */
  method BorrarAna(t: TablaUsuarios) returns (r: Respuesta)
    requires t.usuarios == [Usuario(2, "Pablo"), Usuario(3, "Ana"), Usuario(3, "Luis")]
    modifies t
    ensures r == Enviada(200, Registro(Usuario(3, "Ana")))
    ensures t.usuarios == [Usuario(2, "Pablo"), Usuario(3, "Luis")]
  {
    var antes := t.usuarios;
    assert antes[1..] == [Usuario(3, "Ana"), Usuario(3, "Luis")];
    assert ExisteUsuario(antes[1..], Some(3)) == Some(Usuario(3, "Ana"));
    assert ExisteUsuario(antes, Some(3)) == Some(Usuario(3, "Ana"));
    assert IndexOf(antes, Usuario(3, "Ana")) == 1;
    r := t.EliminarUsuario(Some(3));
    assert t.usuarios == antes[..1] + antes[2..];
  }

  /** The same requests with the id taken one past the largest: the new
      record gets id 4 and is the one found under it. */
  method SinColisionConIdNuevo() returns (ids: seq<int>, buscado: Respuesta)
    ensures ids == [2, 3, 4]
    ensures buscado == Enviada(200, Registro(Usuario(4, "Luis")))
  {
    var t := new TablaUsuarios();
    BorrarGrover(t);
    var antes := [Usuario(2, "Pablo"), Usuario(3, "Ana")];
    assert MaxId(antes) == 3;
    var creado := t.CrearUsuarioConIdNuevo(Texto("Luis"));
    var despues := antes + [Usuario(4, "Luis")];
    assert t.usuarios == despues;
    ids := [t.usuarios[0].id, t.usuarios[1].id, t.usuarios[2].id];
    IdNuevoSeEncuentra(antes, Usuario(4, "Luis"));
    assert Coincide(t.usuarios[2], Some(4));
    buscado := t.ObtenerUsuarioCorregido(Some(4));
  }

  /** For any table and any valid name, the corrected POST then the corrected
      GET of the id it assigned sends back the record just created, with the
      name as sent. */
  method CrearYObtenerCorregidos(t: TablaUsuarios, nombre: Campo) returns (creado: Respuesta, obtenido: Respuesta)
    requires NombreValido(nombre)
    modifies t
    ensures creado == Enviada(200, Registro(Usuario(MaxId(old(t.usuarios)) + 1, nombre.s)))
    ensures obtenido == creado
  {
    var antes := t.usuarios;
    creado := t.CrearUsuarioConIdNuevo(nombre);
    IdNuevoSeEncuentra(antes, creado.cuerpo.usuario);
    assert Coincide(t.usuarios[|antes|], Some(MaxId(antes) + 1));
    obtenido := t.ObtenerUsuarioCorregido(Some(MaxId(antes) + 1));
  }

  /** GET /api/usuarios/999 and GET /api/usuarios/abc are answered with 404;
      GET /api/usuarios/3 gets no response. */
  method ObtenerTresCasos() returns (inexistente: Respuesta, noNumerico: Respuesta, existente: Respuesta)
    ensures inexistente == Enviada(404, Error(NoEncontrado))
    ensures noNumerico == Enviada(404, Error(NoEncontrado))
    ensures existente == SinRespuesta
  {
    var t := new TablaUsuarios();
    inexistente := t.ObtenerUsuario(Some(999));
    noNumerico := t.ObtenerUsuario(None);
    assert Coincide(t.usuarios[2], Some(3));
    existente := t.ObtenerUsuario(Some(3));
  }

  /** PUT /api/usuarios/2 with {nombre: "Lu"} is refused with 400 and
      leaves Pablo as he was; PUT /api/usuarios/9 with the same short name
      is answered with 404, because the lookup comes first. */
  method ActualizarConNombreCorto() returns (corto: Respuesta, desconocido: Respuesta, tabla: seq<Usuario>)
    ensures corto.Enviada? && corto.estado == 400
    ensures desconocido == Enviada(404, Error(NoEncontrado))
    ensures tabla == Iniciales
  {
    var t := new TablaUsuarios();
    assert Coincide(t.usuarios[1], Some(2));
    corto := t.ActualizarUsuario(Some(2), Texto("Lu"));
    desconocido := t.ActualizarUsuario(Some(9), Texto("Lu"));
    tabla := t.usuarios;
  }

  /** PUT /api/usuarios/2 with {nombre: "Luis"} renames Pablo and nothing else. */
  method ActualizarConNombreValido() returns (r: Respuesta, tabla: seq<Usuario>)
    ensures r == Enviada(200, Registro(Usuario(2, "Luis")))
    ensures tabla == [Usuario(1, "Grover"), Usuario(2, "Luis"), Usuario(3, "Ana")]
  {
    var t := new TablaUsuarios();
    assert Iniciales[1] == Usuario(2, "Pablo");
    assert ExisteUsuario(Iniciales, Some(2)) == Some(Usuario(2, "Pablo"));
    r := t.ActualizarUsuario(Some(2), Texto("Luis"));
    tabla := t.usuarios;
  }

  /** DELETE /api/usuarios/1 sends Grover and removes him; a second
      DELETE /api/usuarios/1 is answered with 404. */
  method EliminarDosVeces() returns (primero: Respuesta, segundo: Respuesta, tabla: seq<Usuario>)
    ensures primero == Enviada(200, Registro(Usuario(1, "Grover")))
    ensures segundo == Enviada(404, Error(NoEncontrado))
    ensures tabla == [Usuario(2, "Pablo"), Usuario(3, "Ana")]
  {
    var t := new TablaUsuarios();
    assert Iniciales[0] == Usuario(1, "Grover");
    primero := t.EliminarUsuario(Some(1));
    segundo := t.EliminarUsuario(Some(1));
    tabla := t.usuarios;
  }

  /** POST {nombre: "Eva"} then GET /api/usuarios/4: the handler as written
      sends nothing, the corrected one sends the record just created; the
      list shows it last. */
  method CrearYObtener() returns (obtenido: Respuesta, corregido: Respuesta, lista: Respuesta)
    ensures obtenido == SinRespuesta
    ensures corregido == Enviada(200, Registro(Usuario(4, "Eva")))
    ensures lista == Enviada(200, Lista(Iniciales + [Usuario(4, "Eva")]))
  {
    var t := new TablaUsuarios();
    var creado := t.CrearUsuario(Texto("Eva"));
    assert Coincide(t.usuarios[3], Some(4));
    obtenido := t.ObtenerUsuario(Some(4));
    corregido := t.ObtenerUsuarioCorregido(Some(4));
    lista := t.ListarUsuarios();
  }
}
