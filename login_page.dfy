/**
 * The login form (app/page.tsx): obtains a token, stores it, looks up the
 * user and routes by role; any failure shows one fixed message.
 */
module LoginPage {
  import opened Wrappers
  import opened FrontCommon
  import opened ProtectedRoute
  import Text

  const ErrorLogin := "Usuario o contraseña incorrectos."

  const RolesConPanel: set<string> := {"admin", "docente", "estudiante"}

  /** The route chosen after a successful login: the lowered role's own dashboard when it has one, else `/dashboard`. */
  function RutaPara(u: UsuarioActual): (r: string)
    ensures r in {"/dashboard", "/dashboard/admin", "/dashboard/docente", "/dashboard/estudiante"}
    ensures r != "/dashboard" ==> |r| > 11 && r[..11] == "/dashboard/" && RolMinusculas(u) == Some(r[11..])
    ensures r == "/dashboard" ==> RolMinusculas(u).None? || RolMinusculas(u).value !in RolesConPanel
  {
    var rol := RolMinusculas(u);
    if rol.Some? && rol.value in RolesConPanel then
      var ruta := "/dashboard/" + rol.value;
      assert "/dashboard/" + "admin" == "/dashboard/admin";
      assert "/dashboard/" + "docente" == "/dashboard/docente";
      assert "/dashboard/" + "estudiante" == "/dashboard/estudiante";
      ruta
    else "/dashboard"
  }

  class LoginForm {
    var error: string
    var storage: map<string, string>
    var route: Option<string>

    constructor (storage: map<string, string>)
      ensures error == "" && this.storage == storage && route.None?
    {
      error := "";
      this.storage := storage;
      route := None;
    }

    /**
     * `handleSubmit`: `login` is what the token request answers (the access
     * token), `lookup` what the current-user request answers.
     */
    method HandleSubmit(login: ApiResult<string>, lookup: ApiResult<UsuarioActual>)
      modifies this
      ensures login.Failed? ==> error == ErrorLogin && storage == old(storage) && route == old(route)
      ensures login.Answered? ==> storage == old(storage)["token" := login.value]
      ensures login.Answered? && lookup.Failed? ==> error == ErrorLogin && route == old(route)
      ensures login.Answered? && lookup.Answered? ==> error == "" && route == Some(RutaPara(lookup.value))
    {
      error := "";
      match login
      case Failed(_) =>
        error := ErrorLogin;
      case Answered(access) =>
        storage := storage["token" := access];
        match lookup
        case Failed(_) =>
          error := ErrorLogin;
        case Answered(user) =>
          route := Some(RutaPara(user));
    }
  }

  /**
   * A user routed to a role dashboard at login is admitted by a guard that
   * admits that role; any other user is sent to the plain `/dashboard`.
   */
  lemma LoginYGuardaConcuerdan(u: UsuarioActual, allowedRoles: seq<string>)
    ensures RutaPara(u) != "/dashboard" ==>
      && u.rol.Some? && Text.Lower(u.rol.value) in RolesConPanel
      && RutaPara(u) == "/dashboard/" + Text.Lower(u.rol.value)
      && (Text.Lower(u.rol.value) in allowedRoles ==> Redireccion(Some(u), allowedRoles).None?)
    ensures RutaPara(u) == "/dashboard" <==> !(u.rol.Some? && Text.Lower(u.rol.value) in RolesConPanel)
  {
    if u.rol.Some? && Text.Lower(u.rol.value) in RolesConPanel {
      assert |"/dashboard/" + Text.Lower(u.rol.value)| > |"/dashboard"|;
    }
  }
}
