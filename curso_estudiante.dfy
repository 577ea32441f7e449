/**
 * The student's course page (estudiante/cursoId/page.tsx): the course tree
 * flattened into one ordered list of selections, the position of the current
 * selection, the gate that blocks navigation while a graded resource is in
 * progress, the previous/next moves, and the effect that resolves a selection
 * into the shown resource and breadcrumb.
 */
module CursoEstudiante {
  import opened Wrappers
  import FrontCommon

  /** An id as the page receives it: a number or a string; `===` tells `1` and `"1"` apart. */
  datatype Id = NumId(n: int) | StrId(s: string)

  datatype Recurso = Recurso(
    id: Id,
    nombre: string,
    tipo: string,
    esCalificado: Option<bool>,
    completado: Option<bool>,
    haEmpezado: Option<bool>)

  datatype Leccion = Leccion(id: Id, nombre: string, recursos: seq<Recurso>)
  datatype Nivel = Nivel(id: Id, nombre: string, lecciones: seq<Leccion>)
  datatype Curso = Curso(id: Id, nombre: string, niveles: seq<Nivel>)

  datatype Seleccion = Seleccion(nivelId: Id, leccionId: Id, recursoId: Id)
  datatype Breadcrumb = Breadcrumb(nivel: string, leccion: string, recurso: string)

  // ---------------------------------------------------------------------------
  // The flattened course: levels, then lessons, then resources, in tree order
  // ---------------------------------------------------------------------------

  function FlatRecursos(nid: Id, lid: Id, rs: seq<Recurso>): (r: seq<Seleccion>)
    ensures |r| == |rs|
    ensures forall k :: 0 <= k < |rs| ==> r[k] == Seleccion(nid, lid, rs[k].id)
  {
    if rs == [] then [] else FlatRecursos(nid, lid, rs[..|rs| - 1]) + [Seleccion(nid, lid, rs[|rs| - 1].id)]
  }

  function CountLecciones(ls: seq<Leccion>): nat {
    if ls == [] then 0 else CountLecciones(ls[..|ls| - 1]) + |ls[|ls| - 1].recursos|
  }

  function CountNiveles(ns: seq<Nivel>): nat {
    if ns == [] then 0 else CountNiveles(ns[..|ns| - 1]) + CountLecciones(ns[|ns| - 1].lecciones)
  }

  function FlatLecciones(nid: Id, ls: seq<Leccion>): (r: seq<Seleccion>)
    ensures |r| == CountLecciones(ls)
  {
    if ls == [] then []
    else FlatLecciones(nid, ls[..|ls| - 1]) + FlatRecursos(nid, ls[|ls| - 1].id, ls[|ls| - 1].recursos)
  }

  /** Every resource of the course, as a selection, in level, lesson, resource order. */
  function Flat(ns: seq<Nivel>): (r: seq<Seleccion>)
    ensures |r| == CountNiveles(ns)
  {
    if ns == [] then [] else Flat(ns[..|ns| - 1]) + FlatLecciones(ns[|ns| - 1].id, ns[|ns| - 1].lecciones)
  }

  /** `s` selects resource `k` of lesson `j` of level `i`. */
  predicate Selects(ns: seq<Nivel>, s: Seleccion, i: int, j: int, k: int) {
    && 0 <= i < |ns| && 0 <= j < |ns[i].lecciones| && 0 <= k < |ns[i].lecciones[j].recursos|
    && s == Seleccion(ns[i].id, ns[i].lecciones[j].id, ns[i].lecciones[j].recursos[k].id)
  }

  predicate SelectsIn(nid: Id, ls: seq<Leccion>, s: Seleccion, j: int, k: int) {
    && 0 <= j < |ls| && 0 <= k < |ls[j].recursos|
    && s == Seleccion(nid, ls[j].id, ls[j].recursos[k].id)
  }

  lemma {:induction false} FlatLeccionesEntries(nid: Id, ls: seq<Leccion>)
    ensures forall x :: x in FlatLecciones(nid, ls) ==> exists j, k :: SelectsIn(nid, ls, x, j, k)
    ensures forall j, k :: 0 <= j < |ls| && 0 <= k < |ls[j].recursos| ==>
      Seleccion(nid, ls[j].id, ls[j].recursos[k].id) in FlatLecciones(nid, ls)
  {
    if ls != [] {
      var init := ls[..|ls| - 1];
      var last := ls[|ls| - 1];
      FlatLeccionesEntries(nid, init);
      var tail := FlatRecursos(nid, last.id, last.recursos);
      forall x | x in FlatLecciones(nid, ls)
        ensures exists j, k :: SelectsIn(nid, ls, x, j, k)
      {
        if x in FlatLecciones(nid, init) {
          var j, k :| SelectsIn(nid, init, x, j, k);
          assert SelectsIn(nid, ls, x, j, k);
        } else {
          var k :| 0 <= k < |tail| && tail[k] == x;
          assert SelectsIn(nid, ls, x, |ls| - 1, k);
        }
      }
      forall j, k | 0 <= j < |ls| && 0 <= k < |ls[j].recursos|
        ensures Seleccion(nid, ls[j].id, ls[j].recursos[k].id) in FlatLecciones(nid, ls)
      {
        if j < |ls| - 1 {
          assert ls[j] == init[j];
        } else {
          assert tail[k] == Seleccion(nid, ls[j].id, ls[j].recursos[k].id);
        }
      }
    }
  }

  /** The flat list holds exactly the course's resources: each entry selects one, and each one has an entry. */
  lemma {:induction false} FlatEntries(ns: seq<Nivel>)
    ensures forall x :: x in Flat(ns) ==> exists i, j, k :: Selects(ns, x, i, j, k)
    ensures forall i, j, k :: 0 <= i < |ns| && 0 <= j < |ns[i].lecciones| && 0 <= k < |ns[i].lecciones[j].recursos| ==>
      Seleccion(ns[i].id, ns[i].lecciones[j].id, ns[i].lecciones[j].recursos[k].id) in Flat(ns)
  {
    if ns != [] {
      var init := ns[..|ns| - 1];
      var last := ns[|ns| - 1];
      FlatEntries(init);
      FlatLeccionesEntries(last.id, last.lecciones);
      forall x | x in Flat(ns)
        ensures exists i, j, k :: Selects(ns, x, i, j, k)
      {
        if x in Flat(init) {
          var i, j, k :| Selects(init, x, i, j, k);
          assert Selects(ns, x, i, j, k);
        } else {
          var j, k :| SelectsIn(last.id, last.lecciones, x, j, k);
          assert Selects(ns, x, |ns| - 1, j, k);
        }
      }
      forall i, j, k | 0 <= i < |ns| && 0 <= j < |ns[i].lecciones| && 0 <= k < |ns[i].lecciones[j].recursos|
        ensures Seleccion(ns[i].id, ns[i].lecciones[j].id, ns[i].lecciones[j].recursos[k].id) in Flat(ns)
      {
        if i < |ns| - 1 {
          assert ns[i] == init[i];
        }
      }
    }
  }

  // ---------------------------------------------------------------------------
  // Resolving a selection, position and the navigation gate
  // ---------------------------------------------------------------------------

  /** The resource and breadcrumb a selection resolves to: `find` by id at each level. */
  function Resolve(curso: Option<Curso>, sel: Option<Seleccion>): (r: Option<(Recurso, Breadcrumb)>)
    ensures curso.None? || sel.None? ==> r.None?
    ensures r.Some? ==>
      exists i, j :: && 0 <= i < |curso.value.niveles| && curso.value.niveles[i].id == sel.value.nivelId
        && 0 <= j < |curso.value.niveles[i].lecciones| && curso.value.niveles[i].lecciones[j].id == sel.value.leccionId
        && r.value.0 in curso.value.niveles[i].lecciones[j].recursos && r.value.0.id == sel.value.recursoId
        && r.value.1 == Breadcrumb(curso.value.niveles[i].nombre, curso.value.niveles[i].lecciones[j].nombre, r.value.0.nombre)
  {
    if curso.None? || sel.None? then None
    else
      var s := sel.value;
      var ns := curso.value.niveles;
      var i := FrontCommon.IndexWhere(ns, (n: Nivel) => n.id == s.nivelId);
      if i == -1 then None
      else
        var ls := ns[i].lecciones;
        var j := FrontCommon.IndexWhere(ls, (l: Leccion) => l.id == s.leccionId);
        if j == -1 then None
        else
          var rec := FrontCommon.Find(ls[j].recursos, (x: Recurso) => x.id == s.recursoId);
          if rec.None? then None
          else Some((rec.value, Breadcrumb(ns[i].nombre, ls[j].nombre, rec.value.nombre)))
  }

  /** Level ids are distinct, and so are lesson ids within each level. */
  predicate TreeIdsUnique(ns: seq<Nivel>) {
    && (forall a, b :: 0 <= a < b < |ns| ==> ns[a].id != ns[b].id)
    && (forall i, a, b :: 0 <= i < |ns| && 0 <= a < b < |ns[i].lecciones| ==> ns[i].lecciones[a].id != ns[i].lecciones[b].id)
  }

  /** With distinct level and lesson ids, every entry of the flat list resolves to a resource. */
  lemma FlatEntriesResolve(c: Curso, x: Seleccion)
    requires TreeIdsUnique(c.niveles) && x in Flat(c.niveles)
    ensures Resolve(Some(c), Some(x)).Some?
  {
    FlatEntries(c.niveles);
    var i, j, k :| Selects(c.niveles, x, i, j, k);
    var ns := c.niveles;
    var ii := FrontCommon.IndexWhere(ns, (n: Nivel) => n.id == x.nivelId);
    assert ii == i;
    var ls := ns[i].lecciones;
    var jj := FrontCommon.IndexWhere(ls, (l: Leccion) => l.id == x.leccionId);
    assert jj == j;
    assert (x.recursoId == ls[j].recursos[k].id);
  }

  /** `currentIndex`: the first position of the selection in the flat list; -1 without a selection or a match. */
  function CurrentIndex(flat: seq<Seleccion>, sel: Option<Seleccion>): (r: int)
    ensures -1 <= r < |flat|
    ensures r == -1 <==> sel.None? || sel.value !in flat
    ensures r >= 0 ==> flat[r] == sel.value && forall j :: 0 <= j < r ==> flat[j] != sel.value
  {
    if sel.None? then -1 else FrontCommon.IndexWhere(flat, (s: Seleccion) => s == sel.value)
  }

  /** `!!x` for an optional flag: undefined and false are falsy. */
  predicate Flag(b: Option<bool>) { b == Some(true) }

  /** `puedeNavegar`: there is a current resource, and it is ungraded, completed or not started. */
  predicate PuedeNavegar(actual: Option<Recurso>) {
    actual.Some? && (!Flag(actual.value.esCalificado) || Flag(actual.value.completado) || !Flag(actual.value.haEmpezado))
  }

  // ---------------------------------------------------------------------------
  // The page state
  // ---------------------------------------------------------------------------

  class CursoPage {
    var curso: Option<Curso>
    var seleccion: Option<Seleccion>
    var recursoActual: Option<Recurso>
    var breadcrumb: Option<Breadcrumb>

    constructor (curso: Option<Curso>)
      ensures this.curso == curso && seleccion.None? && recursoActual.None? && breadcrumb.None?
    {
      this.curso := curso;
      seleccion, recursoActual, breadcrumb := None, None, None;
    }

    /** `getFlatRecursos`: the nested `forEach` loops pushing one selection per resource. */
    method GetFlatRecursos() returns (out: seq<Seleccion>)
      ensures out == if curso.None? then [] else Flat(curso.value.niveles)
    {
      if curso.None? {
        return [];
      }
      var ns := curso.value.niveles;
      out := [];
      var i := 0;
      while i < |ns|
        invariant 0 <= i <= |ns|
        invariant out == Flat(ns[..i])
      {
        out := PushLecciones(out, ns[i].id, ns[i].lecciones);
        assert ns[..i + 1][..i] == ns[..i];
        i := i + 1;
      }
      assert ns[..i] == ns;
    }

    /** The effect on selection or course change: shows the resolved resource and its breadcrumb, or clears both. */
    method SincronizarSeleccion()
      modifies this
      ensures curso == old(curso) && seleccion == old(seleccion)
      ensures var r := Resolve(curso, seleccion);
        && recursoActual == (if r.Some? then Some(r.value.0) else None)
        && breadcrumb == (if r.Some? then Some(r.value.1) else None)
    {
      var r := Resolve(curso, seleccion);
      if r.None? {
        recursoActual, breadcrumb := None, None;
      } else {
        recursoActual, breadcrumb := Some(r.value.0), Some(r.value.1);
      }
    }

    /** `handleAnterior`: moves to the previous entry when there is one and navigation is allowed. */
    method Anterior()
      modifies this
      ensures curso == old(curso) && recursoActual == old(recursoActual) && breadcrumb == old(breadcrumb)
      ensures var flat := if curso.None? then [] else Flat(curso.value.niveles);
        var idx := CurrentIndex(flat, old(seleccion));
        if idx > 0 && PuedeNavegar(recursoActual)
        then 0 <= idx - 1 < |flat| && seleccion == Some(flat[idx - 1])
        else seleccion == old(seleccion)
    {
      var flat := GetFlatRecursos();
      var idx := CurrentIndex(flat, seleccion);
      if idx > 0 && PuedeNavegar(recursoActual) {
        seleccion := Some(flat[idx - 1]);
      }
    }

    /** `handleSiguiente`: moves to the next entry when there is one and navigation is allowed. */
    method Siguiente()
      modifies this
      ensures curso == old(curso) && recursoActual == old(recursoActual) && breadcrumb == old(breadcrumb)
      ensures var flat := if curso.None? then [] else Flat(curso.value.niveles);
        var idx := CurrentIndex(flat, old(seleccion));
        if idx < |flat| - 1 && PuedeNavegar(recursoActual)
        then 0 <= idx + 1 < |flat| && seleccion == Some(flat[idx + 1])
        else seleccion == old(seleccion)
    {
      var flat := GetFlatRecursos();
      var idx := CurrentIndex(flat, seleccion);
      if idx < |flat| - 1 && PuedeNavegar(recursoActual) {
        seleccion := Some(flat[idx + 1]);
      }
    }

    /** `handleSeleccionarRecurso`. */
    method SeleccionarRecurso(nivelId: Id, leccionId: Id, recursoId: Id)
      modifies this
      ensures seleccion == Some(Seleccion(nivelId, leccionId, recursoId))
      ensures curso == old(curso) && recursoActual == old(recursoActual) && breadcrumb == old(breadcrumb)
    {
      seleccion := Some(Seleccion(nivelId, leccionId, recursoId));
    }

    /** `handleEmpezarRecurso`: shows the given resource marked as started, its other fields as they were. */
    method EmpezarRecurso(r: Recurso)
      modifies this
      ensures recursoActual == Some(r.(haEmpezado := Some(true)))
      ensures curso == old(curso) && seleccion == old(seleccion) && breadcrumb == old(breadcrumb)
    {
      recursoActual := Some(r.(haEmpezado := Some(true)));
    }
  }

  /** The middle `forEach`: pushes the entries of every lesson of one level. */
  method PushLecciones(acc: seq<Seleccion>, nid: Id, ls: seq<Leccion>) returns (out: seq<Seleccion>)
    ensures out == acc + FlatLecciones(nid, ls)
  {
    out := acc;
    var j := 0;
    while j < |ls|
      invariant 0 <= j <= |ls|
      invariant out == acc + FlatLecciones(nid, ls[..j])
    {
      out := PushRecursos(out, nid, ls[j].id, ls[j].recursos);
      FlatLeccionesStep(acc, nid, ls, j);
      j := j + 1;
    }
    assert ls[..j] == ls;
  }

  /** Flattening one lesson more appends that lesson's resources. */
  lemma FlatLeccionesStep(acc: seq<Seleccion>, nid: Id, ls: seq<Leccion>, j: nat)
    requires j < |ls|
    ensures acc + FlatLecciones(nid, ls[..j]) + FlatRecursos(nid, ls[j].id, ls[j].recursos) == acc + FlatLecciones(nid, ls[..j + 1])
  {
    assert ls[..j + 1][..j] == ls[..j];
  }

  /** The innermost `forEach`: pushes one entry per resource of a lesson. */
  method PushRecursos(acc: seq<Seleccion>, nid: Id, lid: Id, rs: seq<Recurso>) returns (out: seq<Seleccion>)
    ensures out == acc + FlatRecursos(nid, lid, rs)
  {
    out := acc;
    var k := 0;
    while k < |rs|
      invariant 0 <= k <= |rs|
      invariant out == acc + FlatRecursos(nid, lid, rs[..k])
    {
      out := out + [Seleccion(nid, lid, rs[k].id)];
      FlatRecursosStep(acc, nid, lid, rs, k);
      k := k + 1;
    }
    assert rs[..k] == rs;
  }

  /** Flattening one resource more appends its selection. */
  lemma FlatRecursosStep(acc: seq<Seleccion>, nid: Id, lid: Id, rs: seq<Recurso>, k: nat)
    requires k < |rs|
    ensures acc + FlatRecursos(nid, lid, rs[..k]) + [Seleccion(nid, lid, rs[k].id)] == acc + FlatRecursos(nid, lid, rs[..k + 1])
  {
    assert rs[..k + 1][..k] == rs[..k];
  }

  /** Starting a resource blocks navigation exactly when the resource is graded and not completed. */
  lemma EmpezarBloqueaCalificado(r: Recurso)
    ensures !PuedeNavegar(Some(r.(haEmpezado := Some(true)))) <==> Flag(r.esCalificado) && !Flag(r.completado)
  {
  }

  /** A move made by "next" lands on an entry that, with distinct ids, the effect resolves to a resource. */
  lemma MovesLandOnResources(c: Curso, idx: int)
    requires TreeIdsUnique(c.niveles) && 0 <= idx < |Flat(c.niveles)|
    ensures Resolve(Some(c), Some(Flat(c.niveles)[idx])).Some?
  {
    FlatEntriesResolve(c, Flat(c.niveles)[idx]);
  }
}
