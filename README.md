# Usuarios: the in-memory user table of an Express CRUD demo

The program is a small Express server. It keeps a list of users `{id, nombre}`
in a process-wide array `usuarios`, which starts as Grover (1), Pablo (2) and
Ana (3). Five routes under `/api/usuarios` read and change that array:

- list all users;
- get one user by id;
- create a user;
- rename a user;
- delete a user.

Names are checked with a Joi schema: a string of at least three characters that must be present.

This project models that table and its handlers with the HTTP layer taken off.

- `Datos` holds the record type `Usuario` and the initial table. It also holds
  the two lookups the handlers use: `ExisteUsuario`, which is `existeUsuario`
  (`Array.prototype.find` on the id), and `IndexOf`, which is `usuarios.indexOf`.
  Lemmas about unique ids sit beside them.
- `Validacion` holds the body field `Campo` and `ValidarUsuario`, which is
  `validarUsuario`. The predicate `NombreValido` states the rule it implements.
- `Api` holds the class `TablaUsuarios`, which owns the table as a `seq<Usuario>`
  field. It has one method per handler. Each method takes the parsed path
  parameter and the body's `nombre`, updates the field in place, and returns a
  `Respuesta`: a status code with a body, or `SinRespuesta` when the handler
  sends nothing.
- `Escenarios` holds client methods. Each runs a short request sequence and
  states what is sent and what of the table it checks. Most start from a fresh
  table. `BorrarGrover` and `BorrarAna` are single DELETE steps of longer
  sequences. `CrearYObtenerCorregidos` holds for any table.

The path parameter is a `Parametro = Option<int>`: the result of `parseInt`,
with `None` for NaN. NaN is strictly equal to no id, so it finds nothing.
The body field is `Ausente`, `Texto(s)` or `OtroValor`. `OtroValor` covers
any JSON value that is not a string.

Three behaviours of app.js are easy to miss:

- `validarUsuario` checks the name as sent. Joi's `string().min(3)`
  does not trim, so `"   "` is a valid name (`EjemplosDeValidacion`).
- POST takes the new id as `usuarios.length + 1`, so after a delete it can repeat an id already in the table.
- GET by id sends nothing when the user exists. The misplaced `res.send` in the
  not-found branch comes after the 404 has been sent. It adds nothing that the
  model tracks.

## Model

| member | source | states |
|---|---|---|
| `Api.TablaUsuarios.constructor` | app.js:68-72 | the table starts as Grover (1), Pablo (2), Ana (3) |
| `Datos.ExisteUsuario` | app.js:185-187 | nothing is found exactly when no record's id equals the parameter (so always for NaN); a found record is in the table, has that id, and every record before its position has a different id |
| `Datos.IndexOf` | app.js:168 | -1 exactly when the record is absent; otherwise a position holding the record with no earlier position holding it |
| `Datos.EncuentraUnico` | app.js:185-187 | when ids are unique, looking up the id of any record finds that very record |
| `Validacion.ValidarUsuario` | app.js:189-194 | the result is valid exactly when the name is present, is a string and has length at least 3; a valid result carries that same name; an invalid one carries a non-empty message |
| `Validacion.EjemplosDeValidacion` | app.js:110 | "Al" is refused, "Ana" is accepted, and "   " is accepted (no trimming) |
| `Api.TablaUsuarios.ListarUsuarios` | app.js:81-84 | sends 200 with the table unchanged, in order |
| `Api.TablaUsuarios.ObtenerUsuario` | app.js:97-103 | sends nothing exactly when some record has the id; otherwise sends 404 with the not-found error |
| `Api.TablaUsuarios.ObtenerUsuarioCorregido` | app.js:97-103 | 404 exactly when no record has the id; otherwise 200 with the first record that has it |
| `Api.TablaUsuarios.CrearUsuario` | app.js:106-135 | a valid name appends exactly one record (old length + 1, name) after the unchanged old records, and that record is sent; an invalid name sends 400 with a message and leaves the table unchanged |
| `Api.TablaUsuarios.ActualizarUsuario` | app.js:138-156 | unknown id: 404 and unchanged table, whatever the name; known id with an invalid name: 400 and unchanged table; otherwise only the found record's name changes, and length, order, every id and every other record stay, and the renamed record is sent; unique ids stay unique |
| `Api.TablaUsuarios.EliminarUsuario` | app.js:159-172 | unknown id: 404 and unchanged table; otherwise the first record with the id is removed at its index, the others keep their order, the length drops by one, and the removed record is sent; unique ids stay unique |
| `Datos.RenombrarConservaUnicos` | app.js:154 | renaming a record keeps ids unique |
| `Datos.QuitarConservaUnicos` | app.js:168-169 | splicing one record out keeps ids unique |
| `Datos.MaxId` | app.js:124 | a non-negative bound on every id in the table |
| `Datos.MaxIdEsUnId` | app.js:124 | that bound is 0 or the id of some record; with `MaxId` this makes it the larger of 0 and the largest id |
| `Datos.IdNuevoEsUnico` | app.js:123-127 | appending a record whose id is above every id keeps ids unique |
| `Datos.ExisteAlFinal` | app.js:185-187 | when the lookup matches no record, it finds a matching record appended at the end |
| `Datos.IdNuevoSeEncuentra` | app.js:123-127 | after appending a record whose id is above every id, looking up that id finds the new record |
| `Api.TablaUsuarios.CrearUsuarioConIdNuevo` | app.js:122-128 | create with the id one past the largest: a valid name appends and sends the record, whose id is above every old id; an invalid one sends 400 and changes nothing; unique ids stay unique |
| `Escenarios.ColisionDeIds` | app.js:124 | from the initial table, DELETE 1 then POST "Luis" leaves ids [2, 3, 3] and POST sends (3, "Luis"); looking up id 3 finds Ana, so a following DELETE 3 sends and removes Ana and leaves Pablo and Luis |
| `Escenarios.SinColisionConIdNuevo` | app.js:122-128 | the same requests with the corrected create give ids [2, 3, 4], and id 4 finds Luis |
| `Escenarios.BorrarAna` | app.js:159-172 | on Pablo (2), Ana (3), Luis (3), DELETE 3 sends Ana and leaves Pablo and Luis |
| `Escenarios.CrearYObtenerCorregidos` | app.js:97-135 | on any table, the corrected POST of a valid name sends (one past the largest id, that name), and the corrected GET of that id sends the same record back |
| `Escenarios.ObtenerTresCasos` | app.js:97-103 | GET 999 and GET NaN send 404; GET 3 sends nothing |
| `Escenarios.ActualizarConNombreCorto` | app.js:141-152 | PUT 2 "Lu" sends 400, PUT 9 "Lu" sends 404, and the table is still the initial one |
| `Escenarios.ActualizarConNombreValido` | app.js:154-155 | PUT 2 "Luis" sends (2, "Luis") and renames only Pablo |
| `Escenarios.EliminarDosVeces` | app.js:161-171 | DELETE 1 sends Grover and leaves Pablo and Ana; a second DELETE 1 sends 404 |
| `Escenarios.CrearYObtener` | app.js:97-135 | POST "Eva" then GET 4 sends nothing as written; the corrected GET sends (4, "Eva"); the list ends with it |

## Left out

- Server bootstrap and middleware are not modelled: `express.urlencoded`, `express.json`, static files, `morgan`, `debug`, `config`, `PORT` and `app.listen` (app.js:30-58, app.js:176-181). They are framework and I/O wiring.
- The root route `GET /` (app.js:76-78) sends a fixed greeting and touches no state, so it is not modelled.
- The query-string echo route `/api/usuarios/:year/:month` (app.js:90-92) is not modelled, and neither is Express route matching or route order.
- `parseInt` is not modelled: the path parameter arrives already parsed, as an `Option<int>`. For example, `"3abc"` parsing to 3 is outside the model.
- Joi's internals are not modelled, only the rule. The error messages cover the four failing cases; the model promises only that a message is non-empty.
- Validacion.ValidarUsuario: counts characters as Dafny `char`s, while Joi counts UTF-16 code units of the JavaScript string, so names outside the Basic Multilingual Plane can differ.
- JSON serialisation and the keys of the error bodies (`error`, `mensajeError`, `mensaje`) are not modelled; an error body is `Error(message)`.
- Records are values in a sequence, not shared objects. `usuario.nombre = ...` becomes replacing the record at the position where `existeUsuario` found it. `indexOf` compares by identity in JavaScript and by value here. The two agree because the record found is the first one with its id, so no equal record comes before it.
- Splicing at index -1 is not modelled. The model proves that `indexOf` of the found record is never -1, so that case cannot occur.
- A request body that is not an object is not modelled; in that case `req.body.nombre` would throw.
- Concurrency is not modelled; each handler runs to completion, as on Node's single-threaded event loop.

## Findings

| source | as written | input that shows it | evidently intended | confidence | as-written member | corrected member |
|---|---|---|---|---|---|---|
| app.js:124 | the new id is `usuarios.length + 1` | initial table, DELETE /api/usuarios/1, then POST {nombre: "Luis"}: Ana and Luis both have id 3, and looking up id 3 finds Ana (DELETE 3 removes Ana, not Luis) | a fresh id, unique in the table | high, not executed | `Escenarios.ColisionDeIds` | `Api.TablaUsuarios.CrearUsuarioConIdNuevo` |
| app.js:99-102 | `res.send(usuario)` is inside the not-found branch | initial table, GET /api/usuarios/3: nothing is sent | 200 with the found record | high, not executed | `Escenarios.ObtenerTresCasos` | `Api.TablaUsuarios.ObtenerUsuarioCorregido` |
