/**
 * The monitoring-session endpoints of the attention service: resolving the
 * resource a request names, get-or-create of one monitoring session per
 * (student, resource, phase), the two modes of the monitoring endpoint, and the
 * combined grade that blends the academic grade with the average attention score.
 *
 * The ORM tables the views touch are the fields of `SessionRegistry`; identifiers
 * are the UUID strings of the rows, except that new sessions draw a fresh
 * natural number from `nextId` where the database draws a fresh UUID.
 */
module AtencionViews {
  import opened Wrappers
  import opened PyValue
  import Text

  // ---------------------------------------------------------------------------
  // Resolving the resource id from a loosely shaped body
  // ---------------------------------------------------------------------------

  /** Keys consulted by `crear_multiples`, in order. */
  const MultiplesKeys: seq<string> := ["recurso", "recurso_id", "recursoId", "id"]
  /** Keys consulted by `crear_sesion_para_mi`, in order (no `recursoId`). */
  const ParaMiKeys: seq<string> := ["recurso", "recurso_id", "id"]
  /** Keys consulted inside a resource given as an object, in order. */
  const NestedIdKeys: seq<string> := ["id", "uuid", "pk"]

  /** The resolution chain as the views write it: an `or` chain over the keys, then one over the nested keys if that gave a dict. */
  function ResolveRecursoId(body: map<string, Value>, keys: seq<string>): Value
    requires keys != []
  {
    var raw := OrChain(GetAll(body, keys));
    if raw.PDict? then OrChain(GetAll(raw.entries, NestedIdKeys)) else raw
  }

  /** Reference definition: the first truthy value under the keys; when it is an object, the first truthy of its `id`, `uuid`, `pk`. */
  function RecursoIdSpec(body: map<string, Value>, keys: seq<string>): Option<Value> {
    match FirstTruthy(GetAll(body, keys))
    case None => None
    case Some(v) => if v.PDict? then FirstTruthy(GetAll(v.entries, NestedIdKeys)) else Some(v)
  }

  /** The chain finds an id exactly when the reference definition does, and the same one. */
  lemma ResolveRecursoIdIsSpec(body: map<string, Value>, keys: seq<string>)
    requires keys != []
    ensures RecursoIdSpec(body, keys).None? <==> !Truthy(ResolveRecursoId(body, keys))
    ensures RecursoIdSpec(body, keys).Some? ==> ResolveRecursoId(body, keys) == RecursoIdSpec(body, keys).value
  {
    OrChainIsFirstTruthy(GetAll(body, keys));
    var raw := OrChain(GetAll(body, keys));
    if raw.PDict? {
      OrChainIsFirstTruthy(GetAll(raw.entries, NestedIdKeys));
    }
  }

  /** `crear_sesion_para_mi` never looks at `recursoId`. */
  lemma ParaMiIgnoresRecursoId(body: map<string, Value>, v: Value)
    ensures ResolveRecursoId(body["recursoId" := v], ParaMiKeys) == ResolveRecursoId(body, ParaMiKeys)
  {
    assert GetAll(body["recursoId" := v], ParaMiKeys) == GetAll(body, ParaMiKeys);
  }

  // ---------------------------------------------------------------------------
  // Rows
  // ---------------------------------------------------------------------------

  /** A resource with its phase and, through phase and level, its course. */
  datatype Recurso = Recurso(id: string, fase: string, curso: string)
  datatype Inscripcion = Inscripcion(estudiante: string, curso: string)
  datatype NotaAcademica = NotaAcademica(estudiante: string, recurso: string, nota: real)
  datatype Sesion = Sesion(
    id: nat, estudiante: string, recurso: string, fase: string,
    inicio: int, fin: Option<int>, scoreAtencion: Option<real>)
  /** One stored attention sample (an `AtencionVisual` row), reduced to what ties it to its session. */
  datatype Muestra = Muestra(sesion: nat, estudiante: string, recurso: string, fase: string, nivelAtencion: string, instante: int)
  /** What frame processing and the attention model yield for one decodable frame. */
  datatype FrameAnalysis = FrameAnalysis(nivelAtencion: string)

  /** The get-or-create key of a session. */
  datatype SessionKey = SessionKey(estudiante: string, recurso: string, fase: string)

  function KeyOf(s: Sesion): SessionKey {
    SessionKey(s.estudiante, s.recurso, s.fase)
  }

  function KeyFor(i: Inscripcion, r: Recurso): SessionKey {
    SessionKey(i.estudiante, r.id, r.fase)
  }

  predicate HasKey(ss: seq<Sesion>, k: SessionKey) {
    exists i :: 0 <= i < |ss| && KeyOf(ss[i]) == k
  }

  predicate KeysUnique(ss: seq<Sesion>) {
    forall i, j :: 0 <= i < j < |ss| ==> KeyOf(ss[i]) != KeyOf(ss[j])
  }

  /** Position of the session with key `k`, if any. */
  function IndexOfKey(ss: seq<Sesion>, k: SessionKey): (r: Option<nat>)
    ensures r.None? <==> !HasKey(ss, k)
    ensures r.Some? ==> r.value < |ss| && KeyOf(ss[r.value]) == k
  {
    if ss == [] then None
    else if KeyOf(ss[|ss| - 1]) == k then Some(|ss| - 1)
    else
      var r := IndexOfKey(ss[..|ss| - 1], k);
      assert forall i :: 0 <= i < |ss| - 1 ==> ss[..|ss| - 1][i] == ss[i];
      r
  }

  /** Position of the session with primary key `id`, if any. */
  function IndexOfId(ss: seq<Sesion>, id: nat): (r: Option<nat>)
    ensures r.None? <==> forall i :: 0 <= i < |ss| ==> ss[i].id != id
    ensures r.Some? ==> r.value < |ss| && ss[r.value].id == id
  {
    if ss == [] then None
    else if ss[|ss| - 1].id == id then Some(|ss| - 1)
    else
      var r := IndexOfId(ss[..|ss| - 1], id);
      assert forall i :: 0 <= i < |ss| - 1 ==> ss[..|ss| - 1][i] == ss[i];
      r
  }

  /** `Recurso.objects.get(pk=id)`; an id that is not a string names no resource. */
  function LookupRecurso(recursos: map<string, Recurso>, id: Value): Option<Recurso> {
    if id.PStr? && id.s in recursos then Some(recursos[id.s]) else None
  }

  /** `Inscripcion.objects.filter(curso=curso)`, in table order. */
  function EnrolledIn(ins: seq<Inscripcion>, curso: string): (r: seq<Inscripcion>)
    ensures forall x :: x in r <==> x in ins && x.curso == curso
  {
    if ins == [] then []
    else (if ins[0].curso == curso then [ins[0]] else []) + EnrolledIn(ins[1..], curso)
  }

  /** Each enrolment of the course is listed as many times as the table holds it, and no other is. */
  lemma {:induction false} EnrolledInCounts(ins: seq<Inscripcion>, curso: string, x: Inscripcion)
    ensures multiset(EnrolledIn(ins, curso))[x] == if x.curso == curso then multiset(ins)[x] else 0
  {
    if ins != [] {
      assert ins == [ins[0]] + ins[1..];
      EnrolledInCounts(ins[1..], curso, x);
    }
  }

  /** The enrolments of a course keep the table's order: filtering two stretches of the table and joining them is filtering the whole. */
  lemma {:induction false} EnrolledInAppend(a: seq<Inscripcion>, b: seq<Inscripcion>, curso: string)
    ensures EnrolledIn(a + b, curso) == EnrolledIn(a, curso) + EnrolledIn(b, curso)
  {
    if a == [] {
      assert a + b == b;
    } else {
      assert (a + b)[1..] == a[1..] + b;
      EnrolledInAppend(a[1..], b, curso);
    }
  }

  predicate AllKeysPresent(ss: seq<Sesion>, ins: seq<Inscripcion>, r: Recurso) {
    forall j :: 0 <= j < |ins| ==> HasKey(ss, KeyFor(ins[j], r))
  }

  /** `int(v)` for the values a JSON body can carry; None where Python raises. */
  function IntOf(v: Value): Option<int> {
    match v
    case PInt(i) => Some(i)
    case PBool(b) => Some(if b then 1 else 0)
    case PFloat(f) => Some(if f >= 0.0 then f.Floor else -((-f).Floor))
    case PStr(s) =>
      if s != [] && forall k :: 0 <= k < |s| ==> Text.IsDigit(s[k]) then Some(Text.DigitsValue(s)) else None
    case _ => None
  }

  /** If get-or-create over `ins` added a row, some enrollment had no session before. */
  lemma GrowthMeansMissingKey(before: seq<Sesion>, after: seq<Sesion>, ins: seq<Inscripcion>, r: Recurso)
    requires before <= after
    requires forall k :: |before| <= k < |after| ==>
      !HasKey(before, KeyOf(after[k])) && exists j :: 0 <= j < |ins| && KeyOf(after[k]) == KeyFor(ins[j], r)
    ensures AllKeysPresent(before, ins, r) ==> after == before
  {
    if |after| > |before| {
      var j :| 0 <= j < |ins| && KeyOf(after[|before|]) == KeyFor(ins[j], r);
      assert !HasKey(before, KeyFor(ins[j], r));
    }
  }

  // ---------------------------------------------------------------------------
  // The combined grade
  // ---------------------------------------------------------------------------

  function Sum(xs: seq<real>): real {
    if xs == [] then 0.0 else xs[0] + Sum(xs[1..])
  }

  /** `Avg(...)` over the non-null values: None when there are none. */
  function Average(xs: seq<real>): Option<real> {
    if xs == [] then None else Some(Sum(xs) / (|xs| as real))
  }

  lemma {:induction false} SumBounds(xs: seq<real>, lo: real, hi: real)
    requires forall i :: 0 <= i < |xs| ==> lo <= xs[i] <= hi
    ensures (|xs| as real) * lo <= Sum(xs) <= (|xs| as real) * hi
  {
    if xs != [] {
      SumBounds(xs[1..], lo, hi);
      assert (|xs| as real) * lo == lo + (|xs[1..]| as real) * lo;
      assert (|xs| as real) * hi == hi + (|xs[1..]| as real) * hi;
    }
  }

  /** An average lies between any bounds of the values it averages. */
  lemma AverageBounds(xs: seq<real>, lo: real, hi: real)
    requires forall i :: 0 <= i < |xs| ==> lo <= xs[i] <= hi
    ensures Average(xs).Some? <==> xs != []
    ensures Average(xs).Some? ==> lo <= Average(xs).value <= hi
  {
    if xs != [] {
      SumBounds(xs, lo, hi);
      var n := |xs| as real;
      assert Sum(xs) / n * n == Sum(xs);
    }
  }

  /** The non-null attention scores of the sessions of (`estudiante`, `recurso`), in table order. */
  function ScoresOf(ss: seq<Sesion>, estudiante: string, recurso: string): (r: seq<real>)
    ensures forall x :: x in r <==>
      (exists i :: 0 <= i < |ss| && ss[i].estudiante == estudiante && ss[i].recurso == recurso && ss[i].scoreAtencion == Some(x))
    ensures |ss| == 1 ==> |r| == if ss[0].estudiante == estudiante && ss[0].recurso == recurso && ss[0].scoreAtencion.Some? then 1 else 0
  {
    if ss == [] then []
    else
      var s := ss[0];
      var rest := ScoresOf(ss[1..], estudiante, recurso);
      assert forall i :: 1 <= i < |ss| ==> ss[i] == ss[1..][i - 1];
      if s.estudiante == estudiante && s.recurso == recurso && s.scoreAtencion.Some?
      then [s.scoreAtencion.value] + rest
      else rest
  }
  /** One score per matching session, in table order: the scores of two stretches of the table, joined, are the scores of the whole. */
  lemma {:induction false} ScoresOfAppend(a: seq<Sesion>, b: seq<Sesion>, estudiante: string, recurso: string)
    ensures ScoresOf(a + b, estudiante, recurso) == ScoresOf(a, estudiante, recurso) + ScoresOf(b, estudiante, recurso)
  {
    if a == [] {
      assert a + b == b;
    } else {
      assert (a + b)[0] == a[0];
      assert (a + b)[1..] == a[1..] + b;
      ScoresOfAppend(a[1..], b, estudiante, recurso);
    }
  }


  /** `.filter(estudiante=..., recurso=...).first()`: the first academic grade of the pair, if any. */
  function FirstNota(notas: seq<NotaAcademica>, estudiante: string, recurso: string): (r: Option<real>)
    ensures r.None? <==> forall i :: 0 <= i < |notas| ==> !(notas[i].estudiante == estudiante && notas[i].recurso == recurso)
    ensures r.Some? ==> exists i :: 0 <= i < |notas| && notas[i] == NotaAcademica(estudiante, recurso, r.value)
  {
    if notas == [] then None
    else if notas[0].estudiante == estudiante && notas[0].recurso == recurso then Some(notas[0].nota)
    else
      var r := FirstNota(notas[1..], estudiante, recurso);
      assert forall i :: 1 <= i < |notas| ==> notas[i] == notas[1..][i - 1];
      r
  }

  /** 0.6 of the academic grade plus 0.4 of the attention score, unrounded; None when either is missing. */
  function NotaCombinada(notaAcademica: Option<real>, scoreAtencion: Option<real>): (r: Option<real>)
    ensures r.Some? <==> notaAcademica.Some? && scoreAtencion.Some?
    ensures r.Some? ==> r.value - scoreAtencion.value == 0.6 * (notaAcademica.value - scoreAtencion.value)
  {
    if notaAcademica.Some? && scoreAtencion.Some?
    then Some(0.6 * notaAcademica.value + 0.4 * scoreAtencion.value)
    else None
  }

  /** A blend of two grades lies between them; in particular it stays in [0, 100] when both do. */
  lemma NotaCombinadaBetween(nota: real, score: real)
    ensures var c := NotaCombinada(Some(nota), Some(score)).value;
      (nota <= score ==> nota <= c <= score) && (score <= nota ==> score <= c <= nota)
  {
  }

  datatype NotaResponse = NotaResponse(
    status: int,
    notaAcademica: Option<real>,
    scoreAtencion: Option<real>,
    notaCombinada: Option<real>)

  // ---------------------------------------------------------------------------
  // The session registry
  // ---------------------------------------------------------------------------

  class SessionRegistry {
    const recursos: map<string, Recurso>
    const inscripciones: seq<Inscripcion>
    const usuarios: set<string>
    const notas: seq<NotaAcademica>
    var sesiones: seq<Sesion>
    var muestras: seq<Muestra>
    var nextId: nat

    ghost predicate Valid()
      reads this
    {
      && (forall i :: 0 <= i < |sesiones| ==> sesiones[i].id < nextId)
      && (forall i, j :: 0 <= i < j < |sesiones| ==> sesiones[i].id != sesiones[j].id)
      && KeysUnique(sesiones)
    }

    constructor (recursos: map<string, Recurso>, inscripciones: seq<Inscripcion>, usuarios: set<string>, notas: seq<NotaAcademica>)
      ensures Valid()
      ensures this.recursos == recursos && this.inscripciones == inscripciones
      ensures this.usuarios == usuarios && this.notas == notas
      ensures sesiones == [] && muestras == []
    {
      this.recursos := recursos;
      this.inscripciones := inscripciones;
      this.usuarios := usuarios;
      this.notas := notas;
      sesiones, muestras, nextId := [], [], 0;
    }

    /** `SesionMonitoreo.objects.get_or_create(...)` on key `k`; a new row starts at `now`. */
    method GetOrCreate(k: SessionKey, now: int) returns (s: Sesion, created: bool)
      requires Valid()
      modifies this
      ensures Valid() && muestras == old(muestras)
      ensures created <==> !HasKey(old(sesiones), k)
      ensures KeyOf(s) == k && s in sesiones
      ensures created ==> sesiones == old(sesiones) + [s] && s.inicio == now && s.fin.None? && s.scoreAtencion.None?
      ensures !created ==> sesiones == old(sesiones)
    {
      var found := IndexOfKey(sesiones, k);
      if found.Some? {
        s, created := sesiones[found.value], false;
      } else {
        s := Sesion(nextId, k.estudiante, k.recurso, k.fase, now, None, None);
        sesiones := sesiones + [s];
        nextId := nextId + 1;
        created := true;
      }
    }

    /** The loop of `crear_multiples`: get-or-create one session per enrollment, in order. */
    method GetOrCreateAll(ins: seq<Inscripcion>, r: Recurso, now: int) returns (out: seq<Sesion>)
      requires Valid()
      modifies this
      ensures Valid() && muestras == old(muestras)
      ensures old(sesiones) <= sesiones
      ensures |out| == |ins|
      ensures forall i :: 0 <= i < |out| ==> out[i] in sesiones && KeyOf(out[i]) == KeyFor(ins[i], r)
      ensures forall k :: |old(sesiones)| <= k < |sesiones| ==>
        !HasKey(old(sesiones), KeyOf(sesiones[k])) && exists j :: 0 <= j < |ins| && KeyOf(sesiones[k]) == KeyFor(ins[j], r)
      ensures AllKeysPresent(old(sesiones), ins, r) ==> sesiones == old(sesiones)
    {
      out := [];
      var i := 0;
      while i < |ins|
        invariant 0 <= i <= |ins|
        invariant Valid() && muestras == old(muestras)
        invariant old(sesiones) <= sesiones
        invariant |out| == i
        invariant forall k :: 0 <= k < i ==> out[k] in sesiones && KeyOf(out[k]) == KeyFor(ins[k], r)
        invariant forall k :: |old(sesiones)| <= k < |sesiones| ==>
          !HasKey(old(sesiones), KeyOf(sesiones[k])) && exists j :: 0 <= j < |ins| && KeyOf(sesiones[k]) == KeyFor(ins[j], r)
        invariant AllKeysPresent(old(sesiones), ins, r) ==> sesiones == old(sesiones)
      {
        ghost var before := sesiones;
        var s, created := GetOrCreate(KeyFor(ins[i], r), now);
        if created {
          assert sesiones[|before|] == s;
          assert !HasKey(old(sesiones), KeyFor(ins[i], r)) by {
            forall w | 0 <= w < |old(sesiones)| ensures KeyOf(old(sesiones)[w]) != KeyFor(ins[i], r) {
              assert before[w] == old(sesiones)[w];
            }
          }
          assert !AllKeysPresent(old(sesiones), ins, r);
        }
        out := out + [s];
        i := i + 1;
      }
    }

    /**
     * `crear_multiples`: one session per enrollment of the course of the named
     * resource, reusing existing ones; 400 without a resource id, 404 for an
     * unknown resource, 200 with no sessions for a course without enrollments.
     */
    method CrearMultiples(body: map<string, Value>, now: int) returns (status: int, out: seq<Sesion>, creadas: nat)
      requires Valid()
      modifies this
      ensures Valid() && muestras == old(muestras)
      ensures old(sesiones) <= sesiones
      ensures !Truthy(ResolveRecursoId(body, MultiplesKeys)) ==>
        status == 400 && out == [] && creadas == 0 && sesiones == old(sesiones)
      ensures Truthy(ResolveRecursoId(body, MultiplesKeys)) && LookupRecurso(recursos, ResolveRecursoId(body, MultiplesKeys)).None? ==>
        status == 404 && out == [] && creadas == 0 && sesiones == old(sesiones)
      ensures Truthy(ResolveRecursoId(body, MultiplesKeys)) && LookupRecurso(recursos, ResolveRecursoId(body, MultiplesKeys)).Some? ==>
        var r := LookupRecurso(recursos, ResolveRecursoId(body, MultiplesKeys)).value;
        var ins := EnrolledIn(inscripciones, r.curso);
        && (ins == [] ==> status == 200 && out == [] && creadas == 0 && sesiones == old(sesiones))
        && (ins != [] ==> status == 201 && creadas == |out| == |ins|)
        && (forall i :: 0 <= i < |out| ==> out[i] in sesiones && KeyOf(out[i]) == KeyFor(ins[i], r))
        && (forall k :: |old(sesiones)| <= k < |sesiones| ==>
              !HasKey(old(sesiones), KeyOf(sesiones[k])) && exists j :: 0 <= j < |ins| && KeyOf(sesiones[k]) == KeyFor(ins[j], r))
        && (AllKeysPresent(old(sesiones), ins, r) ==> sesiones == old(sesiones))
    {
      out, creadas := [], 0;
      var rid := ResolveRecursoId(body, MultiplesKeys);
      if !Truthy(rid) {
        return 400, out, creadas;
      }
      var found := LookupRecurso(recursos, rid);
      if found.None? {
        return 404, out, creadas;
      }
      var r := found.value;
      var ins := EnrolledIn(inscripciones, r.curso);
      if ins == [] {
        return 200, out, creadas;
      }
      out := GetOrCreateAll(ins, r, now);
      status, creadas := 201, |out|;
    }

    /** `crear_sesion_para_mi`: get-or-create the caller's session; 201 when it was created, 200 when it existed. */
    method CrearSesionParaMi(body: map<string, Value>, estudiante: string, now: int) returns (status: int, s: Option<Sesion>)
      requires Valid()
      modifies this
      ensures Valid() && muestras == old(muestras)
      ensures !Truthy(ResolveRecursoId(body, ParaMiKeys)) ==> status == 400 && s.None? && sesiones == old(sesiones)
      ensures Truthy(ResolveRecursoId(body, ParaMiKeys)) && LookupRecurso(recursos, ResolveRecursoId(body, ParaMiKeys)).None? ==>
        status == 404 && s.None? && sesiones == old(sesiones)
      ensures Truthy(ResolveRecursoId(body, ParaMiKeys)) && LookupRecurso(recursos, ResolveRecursoId(body, ParaMiKeys)).Some? ==>
        var r := LookupRecurso(recursos, ResolveRecursoId(body, ParaMiKeys)).value;
        var k := SessionKey(estudiante, r.id, r.fase);
        && s.Some? && KeyOf(s.value) == k && s.value in sesiones
        && (status == 201 <==> !HasKey(old(sesiones), k))
        && (status == 201 ==> sesiones == old(sesiones) + [s.value])
        && (status != 201 ==> status == 200 && sesiones == old(sesiones))
    {
      var rid := ResolveRecursoId(body, ParaMiKeys);
      if !Truthy(rid) {
        return 400, None;
      }
      var found := LookupRecurso(recursos, rid);
      if found.None? {
        return 404, None;
      }
      var r := found.value;
      var sesion, created := GetOrCreate(SessionKey(estudiante, r.id, r.fase), now);
      status := if created then 201 else 200;
      s := Some(sesion);
    }

    /**
     * `monitoreo_atencion` on session `pk`. With a `duracion` the session is
     * (re)started at `now` and ends `duracion` seconds later; otherwise the
     * body's frame is analysed and, when a face was found, one sample is stored.
     * `analisis` is what frame processing yields for this frame (None: no face).
     */
    method MonitoreoAtencion(pk: nat, body: map<string, Value>, analisis: Option<FrameAnalysis>, now: int) returns (status: int)
      requires Valid()
      modifies this
      ensures Valid() && nextId == old(nextId)
      ensures IndexOfId(old(sesiones), pk).None? ==>
        status == 404 && sesiones == old(sesiones) && muestras == old(muestras)
      ensures IndexOfId(old(sesiones), pk).Some? && Get(body, "duracion") != PNone ==>
        var i := IndexOfId(old(sesiones), pk).value;
        && muestras == old(muestras)
        && (IntOf(Get(body, "duracion")).None? ==> status == 500 && sesiones == old(sesiones))
        && (IntOf(Get(body, "duracion")).Some? ==>
              status == 200 &&
              sesiones == old(sesiones)[i := old(sesiones)[i].(inicio := now, fin := Some(now + IntOf(Get(body, "duracion")).value))])
      ensures IndexOfId(old(sesiones), pk).Some? && Get(body, "duracion") == PNone ==>
        var s := old(sesiones)[IndexOfId(old(sesiones), pk).value];
        && sesiones == old(sesiones)
        && (!Truthy(Get(body, "frame")) ==> status == 400 && muestras == old(muestras))
        && (Truthy(Get(body, "frame")) && analisis.None? ==> status == 422 && muestras == old(muestras))
        && (Truthy(Get(body, "frame")) && analisis.Some? ==>
              status == 200 &&
              muestras == old(muestras) + [Muestra(s.id, s.estudiante, s.recurso, s.fase, analisis.value.nivelAtencion, now)])
    {
      var found := IndexOfId(sesiones, pk);
      if found.None? {
        return 404;
      }
      var i := found.value;
      var duracion := Get(body, "duracion");
      if duracion != PNone {
        var d := IntOf(duracion);
        if d.None? {
          return 500;
        }
        sesiones := sesiones[i := sesiones[i].(inicio := now, fin := Some(now + d.value))];
        assert forall j :: 0 <= j < |sesiones| ==> KeyOf(sesiones[j]) == KeyOf(old(sesiones)[j]) && sesiones[j].id == old(sesiones)[j].id;
        return 200;
      }
      var frame := Get(body, "frame");
      if !Truthy(frame) {
        return 400;
      }
      if analisis.None? {
        return 422;
      }
      var s := sesiones[i];
      muestras := muestras + [Muestra(s.id, s.estudiante, s.recurso, s.fase, analisis.value.nivelAtencion, now)];
      status := 200;
    }

    /**
     * `obtener_nota_combinada`: 400 without both query parameters, 404 for an
     * unknown student or resource, else the first academic grade, the average
     * attention score of the pair's sessions and their blend.
     */
    function ObtenerNotaCombinada(estudiante: Option<string>, recurso: Option<string>): (r: NotaResponse)
      reads this
      ensures r.status == 400 <==> estudiante.GetOr("") == "" || recurso.GetOr("") == ""
      ensures r.status == 200 <==> r.status != 400 && estudiante.value in usuarios && recurso.value in recursos
      ensures r.status in {200, 400, 404}
      ensures r.status == 200 ==>
        && r.notaAcademica == FirstNota(notas, estudiante.value, recurso.value)
        && r.scoreAtencion == Average(ScoresOf(sesiones, estudiante.value, recurso.value))
        && (r.notaCombinada.Some? <==> r.notaAcademica.Some? && r.scoreAtencion.Some?)
        && (r.notaCombinada.Some? ==> r.notaCombinada.value == 0.6 * r.notaAcademica.value + 0.4 * r.scoreAtencion.value)
      ensures r.status != 200 ==> r.notaCombinada.None?
    {
      if estudiante.GetOr("") == "" || recurso.GetOr("") == "" then NotaResponse(400, None, None, None)
      else if estudiante.value !in usuarios then NotaResponse(404, None, None, None)
      else if recurso.value !in recursos then NotaResponse(404, None, None, None)
      else
        var nota := FirstNota(notas, estudiante.value, recurso.value);
        var score := Average(ScoresOf(sesiones, estudiante.value, recurso.value));
        NotaResponse(200, nota, score, NotaCombinada(nota, score))
    }
  }

  /** With grades and attention scores in [0, 100] the combined grade is in [0, 100] too. */
  lemma CombinedGradeInRange(reg: SessionRegistry, estudiante: string, recurso: string)
    requires forall n :: n in reg.notas ==> 0.0 <= n.nota <= 100.0
    requires forall s :: s in reg.sesiones && s.scoreAtencion.Some? ==> 0.0 <= s.scoreAtencion.value <= 100.0
    ensures var r := reg.ObtenerNotaCombinada(Some(estudiante), Some(recurso));
      r.notaCombinada.Some? ==> 0.0 <= r.notaCombinada.value <= 100.0
  {
    var xs := ScoresOf(reg.sesiones, estudiante, recurso);
    forall i | 0 <= i < |xs| ensures 0.0 <= xs[i] <= 100.0 {
      assert xs[i] in xs;
    }
    AverageBounds(xs, 0.0, 100.0);
  }

  /** Calling `crear_multiples` a second time with the same body creates nothing and returns the same sessions. */
  method CrearMultiplesTwice(reg: SessionRegistry, body: map<string, Value>, now1: int, now2: int)
    returns (status1: int, out1: seq<Sesion>, status2: int, out2: seq<Sesion>)
    requires reg.Valid()
    modifies reg
    ensures reg.Valid()
    ensures status1 == status2 && out1 == out2
  {
    var c1, c2;
    status1, out1, c1 := reg.CrearMultiples(body, now1);
    ghost var after1 := reg.sesiones;
    status2, out2, c2 := reg.CrearMultiples(body, now2);
    var rid := ResolveRecursoId(body, MultiplesKeys);
    if Truthy(rid) && LookupRecurso(reg.recursos, rid).Some? {
      var r := LookupRecurso(reg.recursos, rid).value;
      var ins := EnrolledIn(reg.inscripciones, r.curso);
      assert AllKeysPresent(after1, ins, r) by {
        forall j | 0 <= j < |ins| ensures HasKey(after1, KeyFor(ins[j], r)) {
          var w :| 0 <= w < |after1| && after1[w] == out1[j];
        }
      }
      assert reg.sesiones == after1;
      forall k | 0 <= k < |out1| ensures out1[k] == out2[k] {
        var a :| 0 <= a < |after1| && after1[a] == out1[k];
        var b :| 0 <= b < |after1| && after1[b] == out2[k];
      }
    }
  }
}
