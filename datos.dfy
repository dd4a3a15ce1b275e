/** The user record, the table the process starts with, and the two lookups
    the handlers run over it: `existeUsuario` (Array.prototype.find on the id)
    and `usuarios.indexOf` (first position holding a record). */
module Datos {

  datatype Option<T> = None | Some(value: T)

  /** One entry of the table, `{id, nombre}`. */
  datatype Usuario = Usuario(id: int, nombre: string)

  /** The path parameter `:id` after `parseInt`; `None` stands for NaN,
      which is strictly equal to no number. */
  type Parametro = Option<int>

  /** The table the process starts with. */
  const Iniciales: seq<Usuario> :=
    [Usuario(1, "Grover"), Usuario(2, "Pablo"), Usuario(3, "Ana")]

  /** `u.id === parseInt(id)` */
  predicate Coincide(u: Usuario, p: Parametro) {
    p.Some? && u.id == p.value
  }

  /** Every id occurs at most once in the table. */
  predicate IdsUnicos(us: seq<Usuario>) {
    forall i, j :: 0 <= i < j < |us| ==> us[i].id != us[j].id
  }

  /** `us.indexOf(u)`: the first position holding `u`, or -1 when there is none. */
  function IndexOf(us: seq<Usuario>, u: Usuario): (r: int)
    ensures -1 <= r < |us|
    ensures r == -1 ==> forall i :: 0 <= i < |us| ==> us[i] != u
    ensures 0 <= r ==> us[r] == u && forall j :: 0 <= j < r ==> us[j] != u
  {
    if us == [] then -1
    else if us[0] == u then 0
    else
      var k := IndexOf(us[1..], u);
      if k == -1 then -1 else k + 1
  }

  /** `existeUsuario(id)`: the first record whose id equals the parameter;
      nothing when no record does, and always nothing for NaN. */
  function ExisteUsuario(us: seq<Usuario>, p: Parametro): (r: Option<Usuario>)
    ensures r.None? <==> forall i :: 0 <= i < |us| ==> !Coincide(us[i], p)
    ensures r.Some? ==> Coincide(r.value, p) && 0 <= IndexOf(us, r.value)
    ensures r.Some? ==> forall j :: 0 <= j < IndexOf(us, r.value) ==> !Coincide(us[j], p)
  {
    if us == [] then None
    else if Coincide(us[0], p) then Some(us[0])
    else ExisteUsuario(us[1..], p)
  }

  /** The largest id in the table, or 0 for an empty table. */
  function MaxId(us: seq<Usuario>): (r: int)
    ensures r >= 0
    ensures forall i :: 0 <= i < |us| ==> us[i].id <= r
  {
    if us == [] then 0
    else
      var m := MaxId(us[1..]);
      if us[0].id > m then us[0].id else m
  }

  /** Unless it is 0, the bound MaxId gives is the id of some record. With
      MaxId's own contract this makes MaxId the larger of 0 and the largest id. */
  lemma {:induction false} MaxIdEsUnId(us: seq<Usuario>)
    ensures MaxId(us) == 0 || exists i :: 0 <= i < |us| && us[i].id == MaxId(us)
  {
    if us != [] && MaxId(us) != us[0].id {
      MaxIdEsUnId(us[1..]);
      if MaxId(us) != 0 {
        var i :| 0 <= i < |us[1..]| && us[1..][i].id == MaxId(us[1..]);
        assert us[i + 1].id == MaxId(us);
      }
    }
  }

  /** On a table with unique ids, looking up the id of any record finds that record. */
  lemma EncuentraUnico(us: seq<Usuario>, k: nat)
    requires IdsUnicos(us)
    requires k < |us|
    ensures ExisteUsuario(us, Some(us[k].id)) == Some(us[k])
  {
  }

  /** Removing one position keeps ids unique. */
  lemma QuitarConservaUnicos(us: seq<Usuario>, k: nat)
    requires IdsUnicos(us)
    requires k < |us|
    ensures IdsUnicos(us[..k] + us[k + 1..])
  {
  }

  /** Renaming one record keeps every id, so it keeps ids unique. */
  lemma RenombrarConservaUnicos(us: seq<Usuario>, k: nat, nombre: string)
    requires IdsUnicos(us)
    requires k < |us|
    ensures IdsUnicos(us[k := Usuario(us[k].id, nombre)])
  {
  }

  /** Appending a record whose id is above every id (one past MaxId, say)
      keeps ids unique. */
  lemma IdNuevoEsUnico(us: seq<Usuario>, x: Usuario)
    requires IdsUnicos(us)
    requires forall i :: 0 <= i < |us| ==> us[i].id < x.id
    ensures IdsUnicos(us + [x])
  {
  }

  /** A lookup that matches nothing in the table finds a record appended after it. */
  lemma {:induction false} ExisteAlFinal(us: seq<Usuario>, x: Usuario, p: Parametro)
    requires forall i :: 0 <= i < |us| ==> !Coincide(us[i], p)
    requires Coincide(x, p)
    ensures ExisteUsuario(us + [x], p) == Some(x)
  {
    if us != [] {
      assert (us + [x])[1..] == us[1..] + [x];
      ExisteAlFinal(us[1..], x, p);
    }
  }

  /** Looking up the id of an appended record whose id is above every id
      finds that record. */
  lemma IdNuevoSeEncuentra(us: seq<Usuario>, x: Usuario)
    requires forall i :: 0 <= i < |us| ==> us[i].id < x.id
    ensures ExisteUsuario(us + [x], Some(x.id)) == Some(x)
  {
    ExisteAlFinal(us, x, Some(x.id));
  }
}
