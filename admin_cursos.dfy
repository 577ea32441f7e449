/**
 * The admin course-management page (admin/cursos/page.tsx): the list of
 * active teachers, the form's input handling (the threshold field goes
 * through `Number`), the default teacher chosen when the create form opens,
 * and the list updates on create, delete and edit.
 */
module AdminCursos {
  import opened Wrappers
  import opened FrontCommon
  import Text

  // ---------------------------------------------------------------------------
  // `Number(value)` on the decimal strings a number input produces
  // ---------------------------------------------------------------------------

  datatype JsNumber = Num(v: real) | NaN

  predicate AllDigits(s: string) {
    forall i :: 0 <= i < |s| ==> Text.IsDigit(s[i])
  }

  function Pow10(n: nat): (r: nat)
    ensures r >= 1
  {
    if n == 0 then 1 else 10 * Pow10(n - 1)
  }

  /** Position of the first `c` in `s`, or `|s|` when there is none. */
  function IndexOfChar(s: string, c: char): (r: nat)
    ensures r <= |s|
    ensures forall i :: 0 <= i < r ==> s[i] != c
    ensures r < |s| ==> s[r] == c
  {
    if s == [] then 0 else if s[0] == c then 0 else 1 + IndexOfChar(s[1..], c)
  }

  /** An unsigned decimal: digits with at most one `.`, and at least one digit. */
  function Unsigned(t: string): (r: JsNumber)
    ensures AllDigits(t) && t != [] ==> r == Num(Text.DigitsValue(t) as real)
  {
    var dot := IndexOfChar(t, '.');
    var whole := t[..dot];
    var frac := if dot < |t| then t[dot + 1..] else [];
    if !AllDigits(whole) || !AllDigits(frac) || |whole| + |frac| == 0 then NaN
    else
      assert dot == |t| ==> whole == t;
      Num(Text.DigitsValue(whole) as real + Text.DigitsValue(frac) as real / Pow10(|frac|) as real)
  }

  /** `Number(s)`: surrounding whitespace ignored, blank is 0, an optional sign, then an unsigned decimal; anything else is NaN. */
  function ToNumber(s: string): (r: JsNumber)
    ensures Text.Strip(s) == [] ==> r == Num(0.0)
  {
    var t := Text.Strip(s);
    if t == [] then Num(0.0)
    else if t[0] == '-' then (match Unsigned(t[1..]) case Num(v) => Num(-v) case NaN => NaN)
    else if t[0] == '+' then Unsigned(t[1..])
    else Unsigned(t)
  }

  /** A string without whitespace is its own strip. */
  lemma StripNoSpace(s: string)
    requires forall i :: 0 <= i < |s| ==> !Text.IsSpace(s[i])
    ensures Text.Strip(s) == s
  {
    assert s[0..] == s;
    if s != [] {
      assert Text.LeadingSpace(s) == 0;
    }
  }

  /** A non-empty run of digits reads as its decimal value. */
  lemma ToNumberOfDigits(d: string)
    requires d != [] && AllDigits(d)
    ensures ToNumber(d) == Num(Text.DigitsValue(d) as real)
  {
    assert forall i :: 0 <= i < |d| ==> !Text.IsSpace(d[i]);
    StripNoSpace(d);
    assert d[0] != '-' && d[0] != '+';
  }

  /** What a number input shows for a whole number reads back as that number. */
  lemma ToNumberRoundTrip(n: nat)
    ensures ToNumber(Text.Decimal(n)) == Num(n as real)
  {
    var d := Text.Decimal(n);
    assert Text.IsDigit(d[0]);
    assert AllDigits(d);
    ToNumberOfDigits(d);
    Text.DecimalRoundTrip(n);
  }

  /** A sign in front of an unsigned decimal: `-` negates its value, `+` keeps it, and NaN stays NaN. */
  lemma ToNumberSigned(t: string)
    requires forall i :: 0 <= i < |t| ==> !Text.IsSpace(t[i])
    ensures ToNumber("-" + t) == match Unsigned(t) case Num(v) => Num(-v) case NaN => NaN
    ensures ToNumber("+" + t) == Unsigned(t)
  {
    var m, p := "-" + t, "+" + t;
    assert forall i :: 0 <= i < |m| ==> !Text.IsSpace(m[i]) by {
      forall i | 0 <= i < |m| ensures !Text.IsSpace(m[i]) {
        if i > 0 { assert m[i] == t[i - 1]; }
      }
    }
    assert forall i :: 0 <= i < |p| ==> !Text.IsSpace(p[i]) by {
      forall i | 0 <= i < |p| ensures !Text.IsSpace(p[i]) {
        if i > 0 { assert p[i] == t[i - 1]; }
      }
    }
    StripNoSpace(m);
    StripNoSpace(p);
    assert m[1..] == t && p[1..] == t;
  }

  /** A negative whole number typed with its sign reads as that negative number. */
  lemma ToNumberNegative(n: nat)
    ensures ToNumber("-" + Text.Decimal(n)) == Num(-(n as real))
  {
    var d := Text.Decimal(n);
    assert Text.IsDigit(d[0]);
    assert AllDigits(d);
    assert forall i :: 0 <= i < |d| ==> !Text.IsSpace(d[i]);
    ToNumberSigned(d);
    Text.DecimalRoundTrip(n);
  }

  /** The point after a run of digits is the first point. */
  lemma PointAfterDigits(w: string, f: string)
    requires AllDigits(w)
    ensures IndexOfChar(w + "." + f, '.') == |w|
  {
    var t := w + "." + f;
    assert t[|w|] == '.';
    assert forall i :: 0 <= i < |w| ==> t[i] == w[i];
  }

  /** Digits, a point and digits read as the whole part plus the fraction scaled by its number of digits. */
  lemma UnsignedFraction(w: string, f: string)
    requires AllDigits(w) && AllDigits(f) && |w| + |f| > 0
    ensures Unsigned(w + "." + f) == Num(Text.DigitsValue(w) as real + Text.DigitsValue(f) as real / Pow10(|f|) as real)
  {
    var t := w + "." + f;
    PointAfterDigits(w, f);
    var dot := IndexOfChar(t, '.');
    var whole := t[..dot];
    var frac := if dot < |t| then t[dot + 1..] else [];
    assert whole == w;
    assert frac == f;
    var v := Text.DigitsValue(w) as real + Text.DigitsValue(f) as real / Pow10(|f|) as real;
    assert Unsigned(t) == Num(v);
  }

  /** Digits, a point and digits hold no whitespace. */
  lemma FractionNoSpace(w: string, f: string)
    requires AllDigits(w) && AllDigits(f)
    ensures forall i :: 0 <= i < |w + "." + f| ==> !Text.IsSpace((w + "." + f)[i])
  {
    var t := w + "." + f;
    forall i | 0 <= i < |t| ensures !Text.IsSpace(t[i]) {
      if i < |w| { assert t[i] == w[i]; } else if i > |w| { assert t[i] == f[i - |w| - 1]; }
    }
  }

  /** Text without whitespace or a leading sign is read as an unsigned decimal. */
  lemma ToNumberUnsigned(t: string)
    requires forall i :: 0 <= i < |t| ==> !Text.IsSpace(t[i])
    requires t != [] && t[0] != '-' && t[0] != '+'
    ensures ToNumber(t) == Unsigned(t)
  {
    StripNoSpace(t);
  }

  /** A fraction as a number input shows it (`w.f`) reads back as its value. */
  lemma ToNumberFraction(w: string, f: string)
    requires AllDigits(w) && AllDigits(f) && w != []
    ensures ToNumber(w + "." + f) == Num(Text.DigitsValue(w) as real + Text.DigitsValue(f) as real / Pow10(|f|) as real)
  {
    var t := w + "." + f;
    FractionNoSpace(w, f);
    assert t[0] == w[0];
    ToNumberUnsigned(t);
    UnsignedFraction(w, f);
  }

  // ---------------------------------------------------------------------------
  // Teachers and forms
  // ---------------------------------------------------------------------------

  /** A listed user who can teach: role `docente` in any case, and active by `estado` or by `is_active`. */
  predicate EsDocenteActivo(u: UsuarioRow) {
    u.rol.Some? && Text.Lower(u.rol.value) == "docente" && (u.estado == Some("Activo") || u.isActive == Some(true))
  }

  /** `docentes`. */
  function Docentes(usuarios: seq<UsuarioRow>): seq<UsuarioRow> {
    Filter(usuarios, EsDocenteActivo)
  }

  /** The teachers are exactly the active `docente` users, in list order. */
  lemma DocentesExactos(usuarios: seq<UsuarioRow>)
    ensures forall i :: 0 <= i < |Docentes(usuarios)| ==> Docentes(usuarios)[i] in usuarios && EsDocenteActivo(Docentes(usuarios)[i])
    ensures forall i :: 0 <= i < |usuarios| && EsDocenteActivo(usuarios[i]) ==> usuarios[i] in Docentes(usuarios)
    ensures forall u :: multiset(Docentes(usuarios))[u] == if EsDocenteActivo(u) then multiset(usuarios)[u] else 0
  {
    forall u {
      FilterCounts(usuarios, EsDocenteActivo, u);
    }
  }

  /** The editable fields of a course, as the create and edit forms hold them. */
  datatype CursoForm = CursoForm(nombre: string, descripcion: string, docente: string, umbralNota: JsNumber)

  /** A listed course: its id and its fields. */
  datatype CursoRow = CursoRow(id: string, datos: CursoForm)

  const FormularioVacio := CursoForm("", "", "", Num(70.0))

  /** `handleInputChange` and `handleEditInputChange`: the named field takes the input's value, converted by `Number` for `umbral_nota`. */
  function ConCampo(f: CursoForm, name: string, value: string): (r: CursoForm)
    ensures name == "umbral_nota" ==> r == f.(umbralNota := ToNumber(value))
    ensures name == "nombre" ==> r == f.(nombre := value)
    ensures name == "descripcion" ==> r == f.(descripcion := value)
    ensures name == "docente" ==> r == f.(docente := value)
    ensures name !in {"umbral_nota", "nombre", "descripcion", "docente"} ==> r == f
  {
    if name == "umbral_nota" then f.(umbralNota := ToNumber(value))
    else if name == "nombre" then f.(nombre := value)
    else if name == "descripcion" then f.(descripcion := value)
    else if name == "docente" then f.(docente := value)
    else f
  }

  class CursosPage {
    var cursos: seq<CursoRow>
    var usuarios: seq<UsuarioRow>
    var nuevoCurso: CursoForm
    var cursoEnEdicion: Option<CursoRow>
    var showModal: bool
    var showEditModal: bool
    var mensaje: string
    var tipoMensaje: string

    constructor (cursos: seq<CursoRow>, usuarios: seq<UsuarioRow>)
      ensures this.cursos == cursos && this.usuarios == usuarios && nuevoCurso == FormularioVacio
      ensures cursoEnEdicion.None? && !showModal && !showEditModal && mensaje == "" && tipoMensaje == ""
    {
      this.cursos, this.usuarios := cursos, usuarios;
      nuevoCurso := FormularioVacio;
      cursoEnEdicion := None;
      showModal, showEditModal := false, false;
      mensaje, tipoMensaje := "", "";
    }

    /** The effect run when the create form opens: picks the first teacher if none is chosen. */
    method DocentePorDefecto()
      modifies this
      ensures var ds := Docentes(usuarios);
        if showModal && |ds| > 0 && old(nuevoCurso).docente == ""
        then nuevoCurso == old(nuevoCurso).(docente := ds[0].id)
        else nuevoCurso == old(nuevoCurso)
      ensures cursos == old(cursos) && usuarios == old(usuarios) && cursoEnEdicion == old(cursoEnEdicion)
      ensures showModal == old(showModal) && showEditModal == old(showEditModal)
      ensures mensaje == old(mensaje) && tipoMensaje == old(tipoMensaje)
    {
      var ds := Docentes(usuarios);
      if showModal && |ds| > 0 && nuevoCurso.docente == "" {
        nuevoCurso := nuevoCurso.(docente := ds[0].id);
      }
    }

    /** `handleInputChange`. */
    method CambiarCampo(name: string, value: string)
      modifies this
      ensures nuevoCurso == ConCampo(old(nuevoCurso), name, value)
      ensures cursos == old(cursos) && usuarios == old(usuarios) && cursoEnEdicion == old(cursoEnEdicion)
      ensures showModal == old(showModal) && showEditModal == old(showEditModal)
      ensures mensaje == old(mensaje) && tipoMensaje == old(tipoMensaje)
    {
      nuevoCurso := ConCampo(nuevoCurso, name, value);
    }

    /** `handleEditInputChange`: only while a course is being edited. */
    method CambiarCampoEdicion(name: string, value: string)
      modifies this
      ensures cursoEnEdicion == match old(cursoEnEdicion)
        case None => None
        case Some(c) => Some(c.(datos := ConCampo(c.datos, name, value)))
      ensures cursos == old(cursos) && usuarios == old(usuarios) && nuevoCurso == old(nuevoCurso)
      ensures showModal == old(showModal) && showEditModal == old(showEditModal)
      ensures mensaje == old(mensaje) && tipoMensaje == old(tipoMensaje)
    {
      if cursoEnEdicion.Some? {
        var c := cursoEnEdicion.value;
        cursoEnEdicion := Some(c.(datos := ConCampo(c.datos, name, value)));
      }
    }

    /** `handleCrearCurso`: returns the form sent, or None when no request was made. */
    method CrearCurso(token: Option<string>, resp: ApiResult<CursoRow>) returns (sent: Option<CursoForm>)
      modifies this
      ensures usuarios == old(usuarios) && cursoEnEdicion == old(cursoEnEdicion) && showEditModal == old(showEditModal)
      ensures var f := old(nuevoCurso);
        if f.nombre == "" || f.docente == "" then
          && sent.None? && cursos == old(cursos) && nuevoCurso == f && showModal == old(showModal)
          && mensaje == "El nombre y el docente son obligatorios" && tipoMensaje == "error"
        else if !HasToken(token) then
          && sent.None? && cursos == old(cursos) && nuevoCurso == f && showModal == old(showModal)
          && mensaje == "No estás autenticado" && tipoMensaje == "error"
        else
          && sent == Some(f)
          && (resp.Answered? ==>
                && cursos == old(cursos) + [resp.value] && nuevoCurso == FormularioVacio && !showModal
                && mensaje == "Curso creado correctamente" && tipoMensaje == "success")
          && (resp.Failed? ==>
                && cursos == old(cursos) && nuevoCurso == f && showModal == old(showModal)
                && mensaje == OrText(resp.message, "Error al crear curso") && tipoMensaje == "error")
    {
      var f := nuevoCurso;
      if f.nombre == "" || f.docente == "" {
        mensaje, tipoMensaje := "El nombre y el docente son obligatorios", "error";
        return None;
      }
      if !HasToken(token) {
        mensaje, tipoMensaje := "No estás autenticado", "error";
        return None;
      }
      sent := Some(f);
      match resp
      case Answered(creado) =>
        cursos := cursos + [creado];
        nuevoCurso := FormularioVacio;
        showModal := false;
        mensaje, tipoMensaje := "Curso creado correctamente", "success";
      case Failed(message) =>
        mensaje, tipoMensaje := OrText(message, "Error al crear curso"), "error";
    }

    /** `handleEliminarCurso`. */
    method EliminarCurso(id: string, confirmado: bool, token: Option<string>, resp: ApiResult<()>) returns (sent: Option<string>)
      modifies this
      ensures usuarios == old(usuarios) && nuevoCurso == old(nuevoCurso) && cursoEnEdicion == old(cursoEnEdicion)
      ensures showModal == old(showModal) && showEditModal == old(showEditModal)
      ensures !confirmado ==> sent.None? && cursos == old(cursos) && mensaje == old(mensaje) && tipoMensaje == old(tipoMensaje)
      ensures confirmado && !HasToken(token) ==>
        sent.None? && cursos == old(cursos) && mensaje == "No estás autenticado" && tipoMensaje == "error"
      ensures confirmado && HasToken(token) && resp.Answered? ==>
        && sent == Some(id) && cursos == Filter(old(cursos), (c: CursoRow) => c.id != id)
        && mensaje == "Curso eliminado correctamente" && tipoMensaje == "success"
      ensures confirmado && HasToken(token) && resp.Failed? ==>
        && sent == Some(id) && cursos == old(cursos)
        && mensaje == OrText(resp.message, "Error al eliminar curso") && tipoMensaje == "error"
    {
      if !confirmado {
        return None;
      }
      if !HasToken(token) {
        mensaje, tipoMensaje := "No estás autenticado", "error";
        return None;
      }
      sent := Some(id);
      if resp.Answered? {
        cursos := Filter(cursos, (c: CursoRow) => c.id != id);
        mensaje, tipoMensaje := "Curso eliminado correctamente", "success";
      } else {
        mensaje, tipoMensaje := OrText(resp.message, "Error al eliminar curso"), "error";
      }
    }

    /** `handleEditarCurso`: the edit form holds the listed course as it is. */
    method EditarCurso(c: CursoRow)
      modifies this
      ensures cursoEnEdicion == Some(c) && showEditModal
      ensures cursos == old(cursos) && usuarios == old(usuarios) && nuevoCurso == old(nuevoCurso)
      ensures showModal == old(showModal) && mensaje == old(mensaje) && tipoMensaje == old(tipoMensaje)
    {
      cursoEnEdicion := Some(c);
      showEditModal := true;
    }

    /** `handleGuardarEdicionCurso`: returns the course sent, or None when no request was made. */
    method GuardarEdicionCurso(token: Option<string>, resp: ApiResult<CursoRow>) returns (sent: Option<CursoRow>)
      modifies this
      ensures usuarios == old(usuarios) && nuevoCurso == old(nuevoCurso) && showModal == old(showModal)
      ensures var e := old(cursoEnEdicion);
        if e.None? || e.value.datos.nombre == "" || e.value.datos.docente == "" then
          && sent.None? && cursos == old(cursos) && cursoEnEdicion == e && showEditModal == old(showEditModal)
          && mensaje == "El nombre y el docente son obligatorios" && tipoMensaje == "error"
        else if !HasToken(token) then
          && sent.None? && cursos == old(cursos) && cursoEnEdicion == e && showEditModal == old(showEditModal)
          && mensaje == "No estás autenticado" && tipoMensaje == "error"
        else
          && sent == e
          && (resp.Answered? ==>
                && cursos == ReplaceWhere(old(cursos), (c: CursoRow) => c.id == resp.value.id, resp.value)
                && cursoEnEdicion.None? && !showEditModal
                && mensaje == "Curso actualizado correctamente" && tipoMensaje == "success")
          && (resp.Failed? ==>
                && cursos == old(cursos) && cursoEnEdicion == e && showEditModal == old(showEditModal)
                && mensaje == OrText(resp.message, "Error al editar curso") && tipoMensaje == "error")
    {
      if cursoEnEdicion.None? || cursoEnEdicion.value.datos.nombre == "" || cursoEnEdicion.value.datos.docente == "" {
        mensaje, tipoMensaje := "El nombre y el docente son obligatorios", "error";
        return None;
      }
      if !HasToken(token) {
        mensaje, tipoMensaje := "No estás autenticado", "error";
        return None;
      }
      sent := cursoEnEdicion;
      match resp
      case Answered(editado) =>
        cursos := ReplaceWhere(cursos, (c: CursoRow) => c.id == editado.id, editado);
        cursoEnEdicion := None;
        showEditModal := false;
        mensaje, tipoMensaje := "Curso actualizado correctamente", "success";
      case Failed(message) =>
        mensaje, tipoMensaje := OrText(message, "Error al editar curso"), "error";
    }
  }

  /** The default teacher, when one is picked, is an active teacher. */
  lemma DocentePorDefectoEsDocente(usuarios: seq<UsuarioRow>)
    requires |Docentes(usuarios)| > 0
    ensures Docentes(usuarios)[0] in usuarios && EsDocenteActivo(Docentes(usuarios)[0])
  {
    DocentesExactos(usuarios);
  }

  /** Deleting a course keeps every other course exactly as often as it was listed, and none with the deleted id. */
  lemma EliminarCursoConservaLosDemas(cursos: seq<CursoRow>, id: string)
    ensures forall c :: multiset(Filter(cursos, (x: CursoRow) => x.id != id))[c] == if c.id != id then multiset(cursos)[c] else 0
  {
    forall c {
      FilterCounts(cursos, (x: CursoRow) => x.id != id, c);
    }
  }
}
