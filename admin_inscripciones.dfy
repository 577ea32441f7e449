/**
 * The admin enrolment page (admin/inscripciones/page.tsx): the students
 * offered for enrolment, the single enrolment form and the bulk CSV upload.
 */
module AdminInscripciones {
  import opened Wrappers
  import opened FrontCommon
  import Text

  /** `(u.rol || "").toLowerCase().trim() === "estudiante"`. */
  predicate EsEstudiante(u: UsuarioRow) {
    Text.Strip(Text.Lower(u.rol.GetOr(""))) == "estudiante"
  }

  /** The students offered: the listed users whose role reads `estudiante` in any case and spacing, in list order. */
  function EstudiantesDisponibles(usuarios: seq<UsuarioRow>): seq<UsuarioRow> {
    Filter(usuarios, EsEstudiante)
  }

  /** Every user offered is a listed student, each listed student is offered as often as listed, and a user without a role never is. */
  lemma EstudiantesExactos(usuarios: seq<UsuarioRow>)
    ensures forall u :: multiset(EstudiantesDisponibles(usuarios))[u] == if EsEstudiante(u) then multiset(usuarios)[u] else 0
    ensures forall i :: 0 <= i < |EstudiantesDisponibles(usuarios)| ==> EstudiantesDisponibles(usuarios)[i].rol.Some?
  {
    forall u {
      FilterCounts(usuarios, EsEstudiante, u);
    }
    forall u: UsuarioRow | u.rol.None?
      ensures !EsEstudiante(u)
    {
      Text.StripAllSpace("");
    }
  }

  /** The `Authorization` header of the CSV upload; a missing token is sent as the text `null`. */
  function Authorization(token: Option<string>): (r: string)
    ensures Text.HasPrefix(r, "Bearer ")
    ensures token.Some? ==> r[7..] == token.value
    ensures token.None? ==> r[7..] == "null"
  {
    "Bearer " + token.GetOr("null")
  }

  const ErrorCsv: map<string, string> := map["status" := "Error al procesar el archivo"]

  class InscripcionesPage {
    var usuarios: seq<UsuarioRow>
    var estudiantesDisponibles: seq<UsuarioRow>
    var estudianteSeleccionado: string
    var cursoSeleccionado: string
    var mensaje: string
    var tipoMensaje: string
    var csvResult: seq<map<string, string>>

    constructor ()
      ensures usuarios == [] && estudiantesDisponibles == [] && estudianteSeleccionado == "" && cursoSeleccionado == ""
      ensures mensaje == "" && tipoMensaje == "" && csvResult == []
    {
      usuarios, estudiantesDisponibles := [], [];
      estudianteSeleccionado, cursoSeleccionado := "", "";
      mensaje, tipoMensaje := "", "";
      csvResult := [];
    }

    /** The users the API listed arrive: they are kept, and the students among them are offered. */
    method CargarUsuarios(data: seq<UsuarioRow>)
      modifies this
      ensures usuarios == data && estudiantesDisponibles == EstudiantesDisponibles(data)
      ensures estudianteSeleccionado == old(estudianteSeleccionado) && cursoSeleccionado == old(cursoSeleccionado)
      ensures mensaje == old(mensaje) && tipoMensaje == old(tipoMensaje) && csvResult == old(csvResult)
    {
      usuarios := data;
      estudiantesDisponibles := EstudiantesDisponibles(data);
    }

    /** `handleInscribirEstudiante`: returns the (student, course) pair sent, or None when no request was made. */
    method Inscribir(resp: ApiResult<()>) returns (sent: Option<(string, string)>)
      modifies this
      ensures usuarios == old(usuarios) && estudiantesDisponibles == old(estudiantesDisponibles) && csvResult == old(csvResult)
      ensures old(estudianteSeleccionado) == "" || old(cursoSeleccionado) == "" ==>
        && sent.None? && estudianteSeleccionado == old(estudianteSeleccionado) && cursoSeleccionado == old(cursoSeleccionado)
        && mensaje == "Por favor selecciona estudiante y curso" && tipoMensaje == "error"
      ensures old(estudianteSeleccionado) != "" && old(cursoSeleccionado) != "" && resp.Answered? ==>
        && sent == Some((old(estudianteSeleccionado), old(cursoSeleccionado)))
        && estudianteSeleccionado == "" && cursoSeleccionado == ""
        && mensaje == "¡Estudiante inscrito correctamente!" && tipoMensaje == "success"
      ensures old(estudianteSeleccionado) != "" && old(cursoSeleccionado) != "" && resp.Failed? ==>
        && sent == Some((old(estudianteSeleccionado), old(cursoSeleccionado)))
        && estudianteSeleccionado == old(estudianteSeleccionado) && cursoSeleccionado == old(cursoSeleccionado)
        && mensaje == OrText(resp.message, "Error al inscribir estudiante") && tipoMensaje == "error"
    {
      if estudianteSeleccionado == "" || cursoSeleccionado == "" {
        mensaje, tipoMensaje := "Por favor selecciona estudiante y curso", "error";
        return None;
      }
      sent := Some((estudianteSeleccionado, cursoSeleccionado));
      if resp.Answered? {
        mensaje, tipoMensaje := "¡Estudiante inscrito correctamente!", "success";
        estudianteSeleccionado, cursoSeleccionado := "", "";
      } else {
        mensaje, tipoMensaje := OrText(resp.message, "Error al inscribir estudiante"), "error";
      }
    }

    /**
     * `handleCsvUpload`: with no file chosen nothing happens; otherwise the file is
     * posted with the token's header and the result rows (or one error row) are shown.
     * Returns the file and header sent, or None when no request was made.
     */
    method CsvUpload(file: Option<string>, token: Option<string>, resp: ApiResult<seq<map<string, string>>>)
      returns (sent: Option<(string, string)>)
      modifies this
      ensures usuarios == old(usuarios) && estudiantesDisponibles == old(estudiantesDisponibles)
      ensures estudianteSeleccionado == old(estudianteSeleccionado) && cursoSeleccionado == old(cursoSeleccionado)
      ensures mensaje == old(mensaje) && tipoMensaje == old(tipoMensaje)
      ensures file.None? ==> sent.None? && csvResult == old(csvResult)
      ensures file.Some? ==> sent == Some((file.value, Authorization(token)))
      ensures file.Some? && resp.Answered? ==> csvResult == resp.value
      ensures file.Some? && resp.Failed? ==> csvResult == [ErrorCsv]
    {
      if file.None? {
        return None;
      }
      sent := Some((file.value, Authorization(token)));
      csvResult := if resp.Answered? then resp.value else [ErrorCsv];
    }
  }
}
