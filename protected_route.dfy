/**
 * The client-side route guard (components/ProtectedRoute.tsx): where a page
 * sends a visitor who is not logged in, or whose role the page does not admit.
 */
module ProtectedRoute {
  import opened Wrappers
  import Text

  /** The logged-in user as the page holds it; only the role matters here. */
  datatype UsuarioActual = UsuarioActual(rol: Option<string>)

  /** `user.rol?.toLowerCase()`. */
  function RolMinusculas(u: UsuarioActual): (r: Option<string>)
    ensures r.Some? <==> u.rol.Some?
    ensures r.Some? ==> |r.value| == |u.rol.value|
  {
    match u.rol
    case None => None
    case Some(rol) => Some(Text.Lower(rol))
  }

  /** The path segment a template string writes for the lowered role; a missing role prints as `undefined`. */
  function Segmento(rol: Option<string>): string {
    rol.GetOr("undefined")
  }

  /**
   * The effect's decision: None to stay, or the path to replace the current one with.
   * No user goes to the login page; a user whose lowered role is admitted stays;
   * anyone else goes to the dashboard of their own role.
   */
  function Redireccion(user: Option<UsuarioActual>, allowedRoles: seq<string>): (r: Option<string>)
    ensures user.None? ==> r == Some("/")
    ensures r.None? <==> user.Some? && RolMinusculas(user.value).Some? && RolMinusculas(user.value).value in allowedRoles
    ensures user.Some? && r.Some? ==> r == Some("/dashboard/" + Segmento(RolMinusculas(user.value)))
  {
    match user
    case None => Some("/")
    case Some(u) =>
      var rol := RolMinusculas(u);
      if rol.Some? && rol.value in allowedRoles then None
      else Some("/dashboard/" + Segmento(rol))
  }

  /**
   * A user sent away lands on the dashboard of their own role; a page there that
   * admits that role lets them stay, so the guard never sends a user on twice.
   */
  lemma RedireccionEstable(u: UsuarioActual, allowedRoles: seq<string>, destino: seq<string>)
    requires Redireccion(Some(u), allowedRoles).Some?
    requires u.rol.Some? && Text.Lower(u.rol.value) in destino
    ensures Redireccion(Some(u), allowedRoles) == Some("/dashboard/" + Text.Lower(u.rol.value))
    ensures Redireccion(Some(u), destino).None?
  {
  }

  /** The guard does not depend on the case of the role: users whose roles differ only in case are treated alike. */
  lemma RedireccionIgnoraMayusculas(rol: string, allowedRoles: seq<string>)
    ensures Redireccion(Some(UsuarioActual(Some(rol))), allowedRoles)
         == Redireccion(Some(UsuarioActual(Some(Text.Lower(rol)))), allowedRoles)
  {
    Text.LowerIdempotent(rol);
  }
}
