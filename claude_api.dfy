/**
 * The recommendation generator's deterministic part (recomendaciones/claude_api.py):
 * the rule-based fallback suggestion, and the check that decides whether the
 * model's reply is used or replaced by that fallback. The HTTP call, the prompt
 * and JSON parsing are inputs here.
 */
module ClaudeApi {
  import opened Wrappers
  import opened PyValue

  /** The fields of the context dictionary the fallback reads; None is a missing or null entry. */
  datatype Contexto = Contexto(
    scoreAtencion: Option<real>,
    notaAcademica: Option<real>,
    umbralAprobacion: Option<real>,
    recursoId: Value,
    recursoNombre: Value,
    recursoTipo: Value)

  /** `float(x or d)`: a missing, null or zero entry takes the default. */
  function OrDefault(v: Option<real>, d: real): (r: real)
    ensures v.Some? && v.value != 0.0 ==> r == v.value
    ensures v.None? || v.value == 0.0 ==> r == d
  {
    if v.Some? && v.value != 0.0 then v.value else d
  }

  function Atencion(ctx: Contexto): real { OrDefault(ctx.scoreAtencion, 0.0) }
  function Nota(ctx: Contexto): real { OrDefault(ctx.notaAcademica, 0.0) }
  function Umbral(ctx: Contexto): real { OrDefault(ctx.umbralAprobacion, 70.0) }

  /** A threshold of 0 is falsy, so it is replaced by 70 like a missing one. */
  lemma ZeroThresholdIsSeventy(ctx: Contexto)
    requires ctx.umbralAprobacion == Some(0.0) || ctx.umbralAprobacion.None?
    ensures Umbral(ctx) == 70.0
  {
  }

  datatype TipoAccion = Tecnica | Contenido

  datatype RecursoRef = RecursoRef(id: Value, nombre: Value, tipo: Value)

  datatype Accion = Accion(tipo: TipoAccion, descripcion: string, recurso: RecursoRef)

  datatype Sugerencia = Sugerencia(acciones: seq<Accion>, mensaje: string)

  const TecnicaTexto := "Estudia 10 minutos sin distracciones (silencia notificaciones) y repasa solo este recurso."
  const ContenidoTexto := "Abre el recurso indicado y completa la actividad propuesta."
  const ContinuarTexto := "Continúa con el recurso indicado y verifica tu comprensión con las preguntas guía."
  const MensajeBien := "Buen trabajo, sigue así."
  const MensajeMejorar := "Puedes mejorar con estos pasos concretos. Estoy para ayudarte."

  function RecursoOf(ctx: Contexto): RecursoRef {
    RecursoRef(ctx.recursoId, ctx.recursoNombre, ctx.recursoTipo)
  }

  /**
   * Reference definition of the fallback: a concentration technique when
   * attention is below 50, then a content action when the grade is below the
   * threshold, or the single "continue" action when neither applies.
   */
  function FallbackSpec(ctx: Contexto): Sugerencia {
    var rec := RecursoOf(ctx);
    var tecnica := if Atencion(ctx) < 50.0 then [Accion(Tecnica, TecnicaTexto, rec)] else [];
    var contenido := if Nota(ctx) < Umbral(ctx) then [Accion(Contenido, ContenidoTexto, rec)] else [];
    var acciones := if tecnica + contenido == [] then [Accion(Contenido, ContinuarTexto, rec)] else tecnica + contenido;
    Sugerencia(acciones, if Atencion(ctx) >= 50.0 && Nota(ctx) >= Umbral(ctx) then MensajeBien else MensajeMejorar)
  }

  /** What the fallback promises: one or two actions on the context's resource, technique first, and the message choice. */
  lemma FallbackShape(ctx: Contexto)
    ensures var s := FallbackSpec(ctx);
      && 1 <= |s.acciones| <= 2
      && (forall i :: 0 <= i < |s.acciones| ==> s.acciones[i].recurso == RecursoOf(ctx))
      && (s.acciones[0].tipo == Tecnica <==> Atencion(ctx) < 50.0)
      && (forall i :: 1 <= i < |s.acciones| ==> s.acciones[i].tipo == Contenido)
      && (|s.acciones| == 2 <==> Atencion(ctx) < 50.0 && Nota(ctx) < Umbral(ctx))
      && (exists i :: 0 <= i < |s.acciones| && s.acciones[i].descripcion == ContenidoTexto) == (Nota(ctx) < Umbral(ctx))
      && (Atencion(ctx) >= 50.0 && Nota(ctx) >= Umbral(ctx) ==> s.acciones == [Accion(Contenido, ContinuarTexto, RecursoOf(ctx))])
      && (s.mensaje == MensajeBien <==> Atencion(ctx) >= 50.0 && Nota(ctx) >= Umbral(ctx))
      && (s.mensaje != MensajeBien ==> s.mensaje == MensajeMejorar)
  {
    var s := FallbackSpec(ctx);
    if Nota(ctx) < Umbral(ctx) {
      assert s.acciones[|s.acciones| - 1].descripcion == ContenidoTexto;
    }
  }

  /** Python's `xs[:n]`: the first `n` entries, or all of them when there are fewer. */
  function Head<T>(xs: seq<T>, n: nat): (r: seq<T>)
    ensures |r| == if |xs| <= n then |xs| else n
    ensures forall i :: 0 <= i < |r| ==> r[i] == xs[i]
  {
    if |xs| <= n then xs else xs[..n]
  }

  /** `_fallback_personalizado`: builds the action list by appends, then keeps its first two entries. */
  method Fallback(ctx: Contexto) returns (s: Sugerencia)
    ensures s == FallbackSpec(ctx)
  {
    var atencion := OrDefault(ctx.scoreAtencion, 0.0);
    var nota := OrDefault(ctx.notaAcademica, 0.0);
    var umbral := OrDefault(ctx.umbralAprobacion, 70.0);
    var recurso := RecursoRef(ctx.recursoId, ctx.recursoNombre, ctx.recursoTipo);
    var acciones: seq<Accion> := [];
    if atencion < 50.0 {
      acciones := acciones + [Accion(Tecnica, TecnicaTexto, recurso)];
    }
    if nota < umbral {
      acciones := acciones + [Accion(Contenido, ContenidoTexto, recurso)];
    }
    if acciones == [] {
      acciones := acciones + [Accion(Contenido, ContinuarTexto, recurso)];
    }
    var mensaje := if atencion >= 50.0 && nota >= umbral then MensajeBien else MensajeMejorar;
    s := Sugerencia(Head(acciones, 2), mensaje);
  }

  function RecursoValue(r: RecursoRef): Value {
    PDict(map["id" := r.id, "nombre" := r.nombre, "tipo" := r.tipo])
  }

  function AccionValue(a: Accion): Value {
    PDict(map[
      "tipo" := PStr(if a.tipo == Tecnica then "tecnica" else "contenido"),
      "descripcion" := PStr(a.descripcion),
      "recurso" := RecursoValue(a.recurso)])
  }

  /** The dictionary returned to the caller. */
  function SugerenciaValue(s: Sugerencia): (r: Value)
    ensures r.PDict? && r.entries.Keys == {"acciones", "mensaje"}
    ensures r.entries["acciones"].PList? && |r.entries["acciones"].items| == |s.acciones|
    ensures r.entries["mensaje"] == PStr(s.mensaje)
    ensures forall i :: 0 <= i < |s.acciones| ==> r.entries["acciones"].items[i] == AccionValue(s.acciones[i])
  {
    PDict(map[
      "acciones" := PList(seq(|s.acciones|, i requires 0 <= i < |s.acciones| => AccionValue(s.acciones[i]))),
      "mensaje" := PStr(s.mensaje)])
  }

  /** The minimal structure a reply must have: a dictionary with a list under `acciones` and a `mensaje` key. */
  predicate WellShaped(v: Value) {
    v.PDict? && "acciones" in v.entries && v.entries["acciones"].PList? && "mensaje" in v.entries
  }

  /**
   * Whether the model's reply is kept: the call reported no error, the text is
   * non-empty, it parsed, and the parsed value is well shaped (`data.get` on a
   * non-dictionary raises, which also leads to the fallback).
   */
  predicate ReplyAccepted(err: Option<string>, text: Option<string>, parsed: Option<Value>) {
    && (err.None? || err.value == "")
    && text.Some? && text.value != ""
    && parsed.Some? && WellShaped(parsed.value)
  }

  /**
   * `generar_sugerencia_personalizada` after the call: `err` and `text` are what
   * the call returned, `parsed` is `json.loads(text)` (None when it raises).
   */
  method GenerarSugerencia(ctx: Contexto, err: Option<string>, text: Option<string>, parsed: Option<Value>) returns (r: Value)
    ensures WellShaped(r)
    ensures ReplyAccepted(err, text, parsed) ==> r == parsed.value
    ensures !ReplyAccepted(err, text, parsed) ==> r == SugerenciaValue(FallbackSpec(ctx))
  {
    if (err.Some? && err.value != "") || text.None? || text.value == "" {
      var s := Fallback(ctx);
      return SugerenciaValue(s);
    }
    if parsed.None? || !parsed.value.PDict? {
      var s := Fallback(ctx);
      return SugerenciaValue(s);
    }
    var data := parsed.value.entries;
    if !Get(data, "acciones").PList? || "mensaje" !in data {
      var s := Fallback(ctx);
      return SugerenciaValue(s);
    }
    r := parsed.value;
  }
}
