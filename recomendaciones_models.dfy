/**
 * Study-history rows and AI recommendations (recomendaciones/models.py): the
 * state choices and their defaults, the 0-100 range check of `clean`, and the
 * one-row-per-(student, phase) key.
 */
module RecomendacionesModels {
  import opened Wrappers

  datatype EstadoRecomendacion = Pendiente | Aprobada | Descartada
  datatype EstadoHistorial = Listo | Observacion | Refuerzo

  /** The values stored in the `estado` columns. */
  function RecomendacionCode(e: EstadoRecomendacion): string {
    match e
    case Pendiente => "pendiente"
    case Aprobada => "aprobada"
    case Descartada => "descartada"
  }

  function HistorialCode(e: EstadoHistorial): string {
    match e
    case Listo => "Listo"
    case Observacion => "Observacion"
    case Refuerzo => "Refuerzo"
  }

  /** Reading a stored `estado` back: only the declared choices are accepted. */
  function ParseRecomendacion(s: string): (r: Option<EstadoRecomendacion>)
    ensures r.Some? ==> RecomendacionCode(r.value) == s
  {
    if s == "pendiente" then Some(Pendiente)
    else if s == "aprobada" then Some(Aprobada)
    else if s == "descartada" then Some(Descartada)
    else None
  }

  function ParseHistorial(s: string): (r: Option<EstadoHistorial>)
    ensures r.Some? ==> HistorialCode(r.value) == s
  {
    if s == "Listo" then Some(Listo)
    else if s == "Observacion" then Some(Observacion)
    else if s == "Refuerzo" then Some(Refuerzo)
    else None
  }

  lemma ChoicesRoundTrip(a: EstadoRecomendacion, b: EstadoHistorial)
    ensures ParseRecomendacion(RecomendacionCode(a)) == Some(a)
    ensures ParseHistorial(HistorialCode(b)) == Some(b)
  {
  }

  const DefaultEstadoRecomendacion: EstadoRecomendacion := Pendiente
  const DefaultEstadoHistorial: EstadoHistorial := Observacion

  datatype Historial = Historial(
    estudiante: string,
    curso: string,
    nivel: string,
    fase: string,
    recurso: Option<string>,
    scoreAtencion: Option<real>,
    notaAcademica: Option<real>,
    estado: EstadoHistorial)

  /** A history row as created without an explicit state. */
  function NuevoHistorial(
    estudiante: string, curso: string, nivel: string, fase: string,
    recurso: Option<string>, scoreAtencion: Option<real>, notaAcademica: Option<real>): (h: Historial)
    ensures h.estado == DefaultEstadoHistorial && ParseHistorial(HistorialCode(h.estado)) == Some(Observacion)
    ensures h.estudiante == estudiante && h.fase == fase && h.scoreAtencion == scoreAtencion && h.notaAcademica == notaAcademica
  {
    Historial(estudiante, curso, nivel, fase, recurso, scoreAtencion, notaAcademica, DefaultEstadoHistorial)
  }

  /** A score is acceptable when it is absent or lies in [0, 100]. */
  predicate InRangeOrNull(v: Option<real>) {
    v.None? || 0.0 <= v.value <= 100.0
  }

  const ScoreError := "El score_atencion debe estar entre 0 y 100."
  const NotaError := "La nota_academica debe estar entre 0 y 100."

  /** `bad` is a truthy score outside [0, 100]: None and 0 are falsy and skip the check. */
  predicate Rejects(v: Option<real>) {
    v.Some? && v.value != 0.0 && (v.value < 0.0 || v.value > 100.0)
  }

  /** `HistorialEstudiante.clean`: the validation error raised, if any; the attention score is checked first. */
  function Clean(h: Historial): (r: Option<string>)
    ensures r.None? <==> InRangeOrNull(h.scoreAtencion) && InRangeOrNull(h.notaAcademica)
    ensures r == Some(ScoreError) <==> !InRangeOrNull(h.scoreAtencion)
    ensures r == Some(NotaError) <==> InRangeOrNull(h.scoreAtencion) && !InRangeOrNull(h.notaAcademica)
  {
    if Rejects(h.scoreAtencion) then Some(ScoreError)
    else if Rejects(h.notaAcademica) then Some(NotaError)
    else None
  }

  /** The `unique_together = (estudiante, fase)` constraint. */
  predicate KeysUnique(hs: seq<Historial>) {
    forall i, j :: 0 <= i < j < |hs| ==> (hs[i].estudiante, hs[i].fase) != (hs[j].estudiante, hs[j].fase)
  }

  predicate HasRowFor(hs: seq<Historial>, estudiante: string, fase: string) {
    exists i :: 0 <= i < |hs| && hs[i].estudiante == estudiante && hs[i].fase == fase
  }

  /** Inserting a row: refused when the (student, phase) pair already has one. */
  function Insert(hs: seq<Historial>, h: Historial): (r: Result<seq<Historial>>)
    ensures r.Ok? <==> !HasRowFor(hs, h.estudiante, h.fase)
    ensures r.Ok? ==> r.value == hs + [h]
  {
    if HasRowFor(hs, h.estudiante, h.fase) then Err("IntegrityError") else Ok(hs + [h])
  }

  lemma InsertKeepsUnique(hs: seq<Historial>, h: Historial)
    requires KeysUnique(hs)
    ensures Insert(hs, h).Ok? ==> KeysUnique(Insert(hs, h).value)
  {
  }

  datatype RecomendacionIA = RecomendacionIA(
    estudiante: string,
    fase: string,
    mensaje: string,
    estado: EstadoRecomendacion,
    docenteAprobo: bool)

  /** A recommendation as created without an explicit state: pending and not approved. */
  function NuevaRecomendacion(estudiante: string, fase: string, mensaje: string): (r: RecomendacionIA)
    ensures r.estado == Pendiente && RecomendacionCode(r.estado) == "pendiente" && !r.docenteAprobo
    ensures r.estudiante == estudiante && r.fase == fase && r.mensaje == mensaje
  {
    RecomendacionIA(estudiante, fase, mensaje, DefaultEstadoRecomendacion, false)
  }
}
