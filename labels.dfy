/**
 * Display names fetched by id and memoised for the life of the loaded module
 * (services/labels.ts): a user's name and a lesson's name, each with its own
 * cache. The HTTP answer is a parameter; a rejected request leaves the cache
 * untouched and fails the call.
 */
module Labels {
  import opened Wrappers
  import opened FrontCommon
  import Text

  /** `s || ""` on an optional text field. */
  function OrEmpty(s: Option<string>): string {
    s.GetOr("")
  }

  /** The trimmed "first last" of a user. */
  function NombreCompleto(u: UsuarioRow): string {
    Text.Strip(OrEmpty(u.firstName) + " " + OrEmpty(u.lastName))
  }

  /**
   * The name `getUsuarioNombre` computes from the answer `data` (None for a
   * null body): the full name if it is not blank, else the username, else the
   * email, else the id itself.
   */
  function NombreUsuario(data: Option<UsuarioRow>, id: string): (r: string)
    ensures id != "" ==> r != ""
    ensures data.Some? && NombreCompleto(data.value) != "" ==> r == NombreCompleto(data.value)
    ensures data.Some? && NombreCompleto(data.value) == "" ==>
      r == OrText(data.value.username, OrText(data.value.email, id))
    ensures data.None? ==> r == id
  {
    match data
    case None => id
    case Some(u) =>
      var completo := NombreCompleto(u);
      if completo != "" then completo else OrText(u.username, OrText(u.email, id))
  }

  /** A name taken from the first and last names has no surrounding whitespace. */
  lemma NombreSinEspaciosExternos(data: Option<UsuarioRow>, id: string)
    requires data.Some? && NombreCompleto(data.value) != ""
    ensures var r := NombreUsuario(data, id); !Text.IsSpace(r[0]) && !Text.IsSpace(r[|r| - 1])
  {
  }

  /** The name `getLeccionNombre` computes: the lesson's `nombre` if not empty, else the id. */
  function NombreLeccion(nombre: Option<string>, id: string): (r: string)
    ensures id != "" ==> r != ""
    ensures nombre.Some? && nombre.value != "" ==> r == nombre.value
    ensures nombre.None? || nombre.value == "" ==> r == id
  {
    OrText(nombre, id)
  }

  /** A cache keyed by non-empty ids holding non-empty names. */
  ghost predicate CacheValido(cache: map<string, string>) {
    forall k :: k in cache ==> k != "" && cache[k] != ""
  }

  class LabelCaches {
    var userCache: map<string, string>
    var leccionCache: map<string, string>

    ghost predicate Valid()
      reads this
    {
      CacheValido(userCache) && CacheValido(leccionCache)
    }

    constructor ()
      ensures Valid() && userCache == map[] && leccionCache == map[]
    {
      userCache, leccionCache := map[], map[];
    }

    /**
     * `getUsuarioNombre(id)`: `resp` is what the request for the user would
     * give; `fetched` says whether the request was made at all.
     */
    method GetUsuarioNombre(id: string, resp: ApiResult<Option<UsuarioRow>>) returns (r: Result<string>, fetched: bool)
      requires Valid()
      modifies this
      ensures Valid() && leccionCache == old(leccionCache)
      ensures id == "" ==> r == Ok("") && !fetched && userCache == old(userCache)
      ensures id != "" && id in old(userCache) ==> r == Ok(old(userCache)[id]) && !fetched && userCache == old(userCache)
      ensures id != "" && id !in old(userCache) ==> fetched
      ensures id != "" && id !in old(userCache) && resp.Answered? ==>
        var nombre := NombreUsuario(resp.value, id);
        r == Ok(nombre) && userCache == old(userCache)[id := nombre]
      ensures id != "" && id !in old(userCache) && resp.Failed? ==> r.Err? && userCache == old(userCache)
    {
      if id == "" {
        return Ok(""), false;
      }
      if id in userCache {
        return Ok(userCache[id]), false;
      }
      fetched := true;
      match resp
      case Failed(_) =>
        r := Err("request failed");
      case Answered(data) =>
        var nombre := NombreUsuario(data, id);
        userCache := userCache[id := nombre];
        r := Ok(nombre);
    }

    /** `getLeccionNombre(id)`, with `resp` the lesson's `nombre` field as the request would give it. */
    method GetLeccionNombre(id: string, resp: ApiResult<Option<string>>) returns (r: Result<string>, fetched: bool)
      requires Valid()
      modifies this
      ensures Valid() && userCache == old(userCache)
      ensures id == "" ==> r == Ok("") && !fetched && leccionCache == old(leccionCache)
      ensures id != "" && id in old(leccionCache) ==> r == Ok(old(leccionCache)[id]) && !fetched && leccionCache == old(leccionCache)
      ensures id != "" && id !in old(leccionCache) ==> fetched
      ensures id != "" && id !in old(leccionCache) && resp.Answered? ==>
        var nombre := NombreLeccion(resp.value, id);
        r == Ok(nombre) && leccionCache == old(leccionCache)[id := nombre]
      ensures id != "" && id !in old(leccionCache) && resp.Failed? ==> r.Err? && leccionCache == old(leccionCache)
    {
      if id == "" {
        return Ok(""), false;
      }
      if id in leccionCache {
        return Ok(leccionCache[id]), false;
      }
      fetched := true;
      match resp
      case Failed(_) =>
        r := Err("request failed");
      case Answered(nombre) =>
        var n := NombreLeccion(nombre, id);
        leccionCache := leccionCache[id := n];
        r := Ok(n);
    }
  }

  /** Asking twice for the same user after a successful first call fetches once: the second call answers from the cache with the first call's name. */
  method UsuarioDosVeces(id: string, first: ApiResult<Option<UsuarioRow>>, second: ApiResult<Option<UsuarioRow>>)
    returns (a: Result<string>, b: Result<string>, fetchedTwice: bool)
    ensures a.Ok? ==> b == a && !fetchedTwice
  {
    var caches := new LabelCaches();
    var f1, f2;
    a, f1 := caches.GetUsuarioNombre(id, first);
    b, f2 := caches.GetUsuarioNombre(id, second);
    fetchedTwice := f1 && f2;
  }
}
