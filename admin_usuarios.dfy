/**
 * The admin user-management page (admin/usuarios/page.tsx): required-field
 * checks, the payloads sent to the API, and the list updates on create
 * (append), delete (remove by id) and edit (replace by id).
 */
module AdminUsuarios {
  import opened Wrappers
  import opened FrontCommon
  import Text

  /** The fields of the create form, and of the edit form besides its id. */
  datatype UsuarioForm = UsuarioForm(
    firstName: string, lastName: string, email: string, password: string, rol: string, estado: string)

  /** The edit form, normalised from a listed user. */
  datatype UsuarioEdicion = UsuarioEdicion(id: string, datos: UsuarioForm)

  /** The create form as it starts and as it is reset. */
  const FormularioVacio := UsuarioForm("", "", "", "", "docente", "Activo")

  /** `{ ...form, [name]: value }`: the input named `name` takes the typed value. */
  function ConCampo(f: UsuarioForm, name: string, value: string): (r: UsuarioForm)
    ensures name == "first_name" ==> r == f.(firstName := value)
    ensures name == "last_name" ==> r == f.(lastName := value)
    ensures name == "email" ==> r == f.(email := value)
    ensures name == "password" ==> r == f.(password := value)
    ensures name == "rol" ==> r == f.(rol := value)
    ensures name == "estado" ==> r == f.(estado := value)
    ensures name !in {"first_name", "last_name", "email", "password", "rol", "estado"} ==> r == f
  {
    match name
    case "first_name" => f.(firstName := value)
    case "last_name" => f.(lastName := value)
    case "email" => f.(email := value)
    case "password" => f.(password := value)
    case "rol" => f.(rol := value)
    case "estado" => f.(estado := value)
    case _ => f
  }

  /** The body of the create request: the form with the role lower-cased. */
  function CreatePayload(f: UsuarioForm): (r: map<string, string>)
    ensures r.Keys == {"first_name", "last_name", "email", "password", "rol", "estado"}
    ensures r["rol"] == Text.Lower(f.rol) && r["password"] == f.password && r["email"] == f.email
    ensures r["first_name"] == f.firstName && r["last_name"] == f.lastName && r["estado"] == f.estado
  {
    map["first_name" := f.firstName, "last_name" := f.lastName, "email" := f.email,
        "password" := f.password, "rol" := Text.Lower(f.rol), "estado" := f.estado]
  }

  /** The body of the edit request: the form with the role lower-cased, and without `password` when it is empty. */
  function EditPayload(f: UsuarioEdicion): (r: map<string, string>)
    ensures "password" in r <==> f.datos.password != ""
    ensures "password" in r ==> r["password"] == f.datos.password
    ensures r.Keys - {"password"} == {"id", "first_name", "last_name", "email", "rol", "estado"}
    ensures r["id"] == f.id && r["rol"] == Text.Lower(f.datos.rol) && r["first_name"] == f.datos.firstName && r["email"] == f.datos.email
    ensures r["last_name"] == f.datos.lastName && r["estado"] == f.datos.estado
  {
    var d := f.datos;
    var base := map["id" := f.id, "first_name" := d.firstName, "last_name" := d.lastName,
                    "email" := d.email, "rol" := Text.Lower(d.rol), "estado" := d.estado];
    if d.password == "" then base else base["password" := d.password]
  }

  /** `handleEditarUsuario`'s normalisation of a listed user into the edit form. */
  function Normalizar(u: UsuarioRow): (r: UsuarioEdicion)
    ensures r.id == u.id && r.datos.password == ""
    ensures r.datos.firstName == OrText(u.firstName, OrText(u.nombre, ""))
    ensures r.datos.lastName == OrText(u.lastName, "") && r.datos.email == OrText(u.email, "")
    ensures r.datos.rol == (if u.rol.Some? && u.rol.value != "" then Text.Lower(u.rol.value) else "docente")
    ensures r.datos.estado == (if u.estado.Some? then u.estado.value else if u.isActive == Some(true) then "Activo" else "Inactivo")
  {
    UsuarioEdicion(u.id, UsuarioForm(
      OrText(u.firstName, OrText(u.nombre, "")),
      OrText(u.lastName, ""),
      OrText(u.email, ""),
      "",
      OrText(if u.rol.Some? then Some(Text.Lower(u.rol.value)) else None, "docente"),
      if u.estado.Some? then u.estado.value else if u.isActive == Some(true) then "Activo" else "Inactivo"))
  }

  /** A normalised role is lower-case already, so lower-casing it again in the payload changes nothing. */
  lemma NormalizedRolIsLower(u: UsuarioRow)
    ensures Text.Lower(Normalizar(u).datos.rol) == Normalizar(u).datos.rol
  {
    var r := Normalizar(u).datos.rol;
    forall i | 0 <= i < |r|
      ensures Text.LowerChar(r[i]) == r[i]
    {
      if u.rol.Some? && u.rol.value != "" {
        Text.LowerCharNotUpper(u.rol.value[i]);
      }
    }
  }

  /** Saving a user opened for editing and left unchanged sends no password and the role exactly as the form shows it. */
  lemma EdicionSinCambios(u: UsuarioRow)
    ensures "password" !in EditPayload(Normalizar(u))
    ensures EditPayload(Normalizar(u))["rol"] == Normalizar(u).datos.rol
    ensures EditPayload(Normalizar(u))["id"] == u.id
  {
    NormalizedRolIsLower(u);
  }

  class UsuariosPage {
    var usuarios: seq<UsuarioRow>
    var nuevoUsuario: UsuarioForm
    var usuarioEnEdicion: Option<UsuarioEdicion>
    var showModal: bool
    var showEditModal: bool
    var mensaje: string
    var tipoMensaje: string

    constructor (usuarios: seq<UsuarioRow>)
      ensures this.usuarios == usuarios && nuevoUsuario == FormularioVacio && usuarioEnEdicion.None?
      ensures !showModal && !showEditModal && mensaje == "" && tipoMensaje == ""
    {
      this.usuarios := usuarios;
      nuevoUsuario := FormularioVacio;
      usuarioEnEdicion := None;
      showModal, showEditModal := false, false;
      mensaje, tipoMensaje := "", "";
    }

    /** `handleInputChange` on the create form. */
    method CambiarCampo(name: string, value: string)
      modifies this
      ensures nuevoUsuario == ConCampo(old(nuevoUsuario), name, value)
      ensures usuarios == old(usuarios) && usuarioEnEdicion == old(usuarioEnEdicion)
      ensures showModal == old(showModal) && showEditModal == old(showEditModal)
      ensures mensaje == old(mensaje) && tipoMensaje == old(tipoMensaje)
    {
      nuevoUsuario := ConCampo(nuevoUsuario, name, value);
    }

    /** `handleEditInputChange`: only while a user is being edited; an input named `id` is not one of the form's inputs. */
    method CambiarCampoEdicion(name: string, value: string)
      modifies this
      ensures usuarioEnEdicion == match old(usuarioEnEdicion)
        case None => None
        case Some(e) => Some(e.(datos := ConCampo(e.datos, name, value)))
      ensures usuarios == old(usuarios) && nuevoUsuario == old(nuevoUsuario)
      ensures showModal == old(showModal) && showEditModal == old(showEditModal)
      ensures mensaje == old(mensaje) && tipoMensaje == old(tipoMensaje)
    {
      if usuarioEnEdicion.Some? {
        var e := usuarioEnEdicion.value;
        usuarioEnEdicion := Some(e.(datos := ConCampo(e.datos, name, value)));
      }
    }

    /**
     * `handleCrearUsuario`. Returns the request body sent, or None when no request
     * was made; `resp` is what the API call would resolve or reject with.
     */
    method CrearUsuario(token: Option<string>, resp: ApiResult<UsuarioRow>) returns (sent: Option<map<string, string>>)
      modifies this
      ensures usuarioEnEdicion == old(usuarioEnEdicion) && showEditModal == old(showEditModal)
      ensures var f := old(nuevoUsuario);
        if f.firstName == "" || f.lastName == "" || f.email == "" || f.password == "" then
          && sent.None? && usuarios == old(usuarios) && nuevoUsuario == f && showModal == old(showModal)
          && mensaje == "Todos los campos son obligatorios" && tipoMensaje == "error"
        else if !HasToken(token) then
          && sent.None? && usuarios == old(usuarios) && nuevoUsuario == f && showModal == old(showModal)
          && mensaje == old(mensaje) && tipoMensaje == old(tipoMensaje)
        else
          && sent == Some(CreatePayload(f))
          && (resp.Answered? ==>
                && usuarios == old(usuarios) + [resp.value] && nuevoUsuario == FormularioVacio && !showModal
                && mensaje == "Usuario creado correctamente" && tipoMensaje == "success")
          && (resp.Failed? ==>
                && usuarios == old(usuarios) && nuevoUsuario == f && showModal == old(showModal)
                && mensaje == OrText(resp.message, "Error al crear usuario") && tipoMensaje == "error")
    {
      var f := nuevoUsuario;
      if f.firstName == "" || f.lastName == "" || f.email == "" || f.password == "" {
        mensaje, tipoMensaje := "Todos los campos son obligatorios", "error";
        return None;
      }
      if !HasToken(token) {
        return None;
      }
      var datos := CreatePayload(f);
      sent := Some(datos);
      match resp
      case Answered(creado) =>
        usuarios := usuarios + [creado];
        nuevoUsuario := FormularioVacio;
        showModal := false;
        mensaje, tipoMensaje := "Usuario creado correctamente", "success";
      case Failed(message) =>
        mensaje, tipoMensaje := OrText(message, "Error al crear usuario"), "error";
    }

    /** `handleEliminarUsuario`: after confirmation and a successful call, drops every user with that id. */
    method EliminarUsuario(id: string, confirmado: bool, token: Option<string>, resp: ApiResult<()>) returns (sent: Option<string>)
      modifies this
      ensures nuevoUsuario == old(nuevoUsuario) && usuarioEnEdicion == old(usuarioEnEdicion)
      ensures showModal == old(showModal) && showEditModal == old(showEditModal)
      ensures !confirmado || !HasToken(token) ==>
        sent.None? && usuarios == old(usuarios) && mensaje == old(mensaje) && tipoMensaje == old(tipoMensaje)
      ensures confirmado && HasToken(token) && resp.Answered? ==>
        && sent == Some(id) && usuarios == Filter(old(usuarios), (u: UsuarioRow) => u.id != id)
        && mensaje == "Usuario eliminado correctamente" && tipoMensaje == "success"
      ensures confirmado && HasToken(token) && resp.Failed? ==>
        && sent == Some(id) && usuarios == old(usuarios)
        && mensaje == OrText(resp.message, "Error al eliminar usuario") && tipoMensaje == "error"
    {
      if !confirmado || !HasToken(token) {
        return None;
      }
      sent := Some(id);
      if resp.Answered? {
        usuarios := Filter(usuarios, (u: UsuarioRow) => u.id != id);
        mensaje, tipoMensaje := "Usuario eliminado correctamente", "success";
      } else {
        mensaje, tipoMensaje := OrText(resp.message, "Error al eliminar usuario"), "error";
      }
    }

    /** `handleEditarUsuario`: opens the edit form on the normalised user. */
    method EditarUsuario(u: UsuarioRow)
      modifies this
      ensures usuarioEnEdicion == Some(Normalizar(u)) && showEditModal
      ensures usuarios == old(usuarios) && nuevoUsuario == old(nuevoUsuario) && showModal == old(showModal)
      ensures mensaje == old(mensaje) && tipoMensaje == old(tipoMensaje)
    {
      usuarioEnEdicion := Some(Normalizar(u));
      showEditModal := true;
    }

    /** `handleGuardarEdicionUsuario`: the page only offers it while a user is being edited. */
    method GuardarEdicionUsuario(token: Option<string>, resp: ApiResult<UsuarioRow>) returns (sent: Option<map<string, string>>)
      requires usuarioEnEdicion.Some?
      modifies this
      ensures nuevoUsuario == old(nuevoUsuario) && showModal == old(showModal)
      ensures var f := old(usuarioEnEdicion).value;
        if f.datos.firstName == "" || f.datos.email == "" then
          && sent.None? && usuarios == old(usuarios) && usuarioEnEdicion == old(usuarioEnEdicion)
          && showEditModal == old(showEditModal)
          && mensaje == "Nombre y correo son obligatorios" && tipoMensaje == "error"
        else if !HasToken(token) then
          && sent.None? && usuarios == old(usuarios) && usuarioEnEdicion == old(usuarioEnEdicion)
          && showEditModal == old(showEditModal) && mensaje == old(mensaje) && tipoMensaje == old(tipoMensaje)
        else
          && sent == Some(EditPayload(f))
          && (resp.Answered? ==>
                && usuarios == ReplaceWhere(old(usuarios), (u: UsuarioRow) => u.id == resp.value.id, resp.value)
                && usuarioEnEdicion.None? && !showEditModal
                && mensaje == "Usuario actualizado correctamente" && tipoMensaje == "success")
          && (resp.Failed? ==>
                && usuarios == old(usuarios) && usuarioEnEdicion == old(usuarioEnEdicion)
                && showEditModal == old(showEditModal)
                && mensaje == OrText(resp.message, "Error al editar usuario") && tipoMensaje == "error")
    {
      var f := usuarioEnEdicion.value;
      if f.datos.firstName == "" || f.datos.email == "" {
        mensaje, tipoMensaje := "Nombre y correo son obligatorios", "error";
        return None;
      }
      if !HasToken(token) {
        return None;
      }
      sent := Some(EditPayload(f));
      match resp
      case Answered(editado) =>
        usuarios := ReplaceWhere(usuarios, (u: UsuarioRow) => u.id == editado.id, editado);
        usuarioEnEdicion := None;
        showEditModal := false;
        mensaje, tipoMensaje := "Usuario actualizado correctamente", "success";
      case Failed(message) =>
        mensaje, tipoMensaje := OrText(message, "Error al editar usuario"), "error";
    }

    /** The timer set after a success: clears the message. */
    method LimpiarMensaje()
      modifies this
      ensures mensaje == "" && tipoMensaje == ""
      ensures usuarios == old(usuarios) && nuevoUsuario == old(nuevoUsuario) && usuarioEnEdicion == old(usuarioEnEdicion)
      ensures showModal == old(showModal) && showEditModal == old(showEditModal)
    {
      mensaje, tipoMensaje := "", "";
    }
  }

  /** Deleting by id leaves no user with that id and keeps every other user, in order. */
  lemma EliminarQuitaSoloEseId(us: seq<UsuarioRow>, id: string, other: seq<UsuarioRow>)
    ensures forall u :: u in Filter(us, (x: UsuarioRow) => x.id != id) ==> u.id != id
    ensures forall i :: 0 <= i < |us| && us[i].id != id ==> us[i] in Filter(us, (x: UsuarioRow) => x.id != id)
    ensures Filter(us + other, (x: UsuarioRow) => x.id != id)
         == Filter(us, (x: UsuarioRow) => x.id != id) + Filter(other, (x: UsuarioRow) => x.id != id)
  {
    FilterAppend(us, other, (x: UsuarioRow) => x.id != id);
  }

  /** Replacing by id keeps the list's length and the id at every position. */
  lemma EditarConservaIds(us: seq<UsuarioRow>, editado: UsuarioRow)
    ensures |ReplaceWhere(us, (u: UsuarioRow) => u.id == editado.id, editado)| == |us|
    ensures forall i :: 0 <= i < |us| ==> ReplaceWhere(us, (u: UsuarioRow) => u.id == editado.id, editado)[i].id == us[i].id
  {
  }
}
