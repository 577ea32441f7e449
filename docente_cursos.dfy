/**
 * The teacher's course list (dashboard/docente/page.tsx): the courses whose
 * name contains the search text, ignoring case, sorted by name in the chosen
 * direction; and the button that flips the direction.
 */
module DocenteCursos {
  import opened FrontCommon
  import Text

  datatype Curso = Curso(id: string, nombre: string, descripcion: string)

  datatype Orden = Asc | Desc

  const OrdenInicial := Asc

  /** The sort button: `asc` becomes `desc` and back. */
  function Alternar(o: Orden): (r: Orden)
    ensures r != o
  {
    if o == Asc then Desc else Asc
  }

  lemma AlternarDosVeces(o: Orden)
    ensures Alternar(Alternar(o)) == o
  {
  }

  /** `curso.nombre.toLowerCase().includes(search.toLowerCase())`. */
  predicate Coincide(search: string, c: Curso) {
    Text.Contains(Text.Lower(c.nombre), Text.Lower(search))
  }

  /** `a` may come before `b` in direction `o` (the comparator does not put `a` after `b`). */
  predicate Antes(o: Orden, a: Curso, b: Curso) {
    if o == Asc then Text.LexLe(a.nombre, b.nombre) else Text.LexLe(b.nombre, a.nombre)
  }

  lemma AntesTotal(o: Orden, a: Curso, b: Curso)
    ensures Antes(o, a, b) || Antes(o, b, a)
  {
    Text.LexLeTotal(a.nombre, b.nombre);
  }

  /** Each course may come before the next one. */
  predicate Ordenado(o: Orden, s: seq<Curso>) {
    forall i :: 0 < i < |s| ==> Antes(o, s[i - 1], s[i])
  }

  /** `x` placed before the first entry it may precede; an equal name already present stays first. */
  function Insertar(o: Orden, x: Curso, s: seq<Curso>): (r: seq<Curso>)
    ensures |r| == |s| + 1
    ensures r[0] == x || (s != [] && r[0] == s[0])
  {
    if s == [] then [x]
    else if Antes(o, x, s[0]) then [x] + s
    else [s[0]] + Insertar(o, x, s[1..])
  }

  lemma {:induction false} InsertarOrdenado(o: Orden, x: Curso, s: seq<Curso>)
    requires Ordenado(o, s)
    ensures Ordenado(o, Insertar(o, x, s))
    ensures multiset(Insertar(o, x, s)) == multiset(s) + multiset{x}
  {
    if s != [] && !Antes(o, x, s[0]) {
      var t := s[1..];
      assert Ordenado(o, t);
      InsertarOrdenado(o, x, t);
      AntesTotal(o, x, s[0]);
      var r := Insertar(o, x, s);
      assert r == [s[0]] + Insertar(o, x, t);
      assert s == [s[0]] + t;
    }
  }

  /** The `sort` with the page's comparator, as an insertion sort. */
  function Ordenar(o: Orden, s: seq<Curso>): (r: seq<Curso>)
  {
    if s == [] then [] else Insertar(o, s[0], Ordenar(o, s[1..]))
  }

  /** Sorting orders the courses and keeps each one as often as it was listed. */
  lemma {:induction false} OrdenarCorrecto(o: Orden, s: seq<Curso>)
    ensures Ordenado(o, Ordenar(o, s))
    ensures multiset(Ordenar(o, s)) == multiset(s)
  {
    if s != [] {
      OrdenarCorrecto(o, s[1..]);
      InsertarOrdenado(o, s[0], Ordenar(o, s[1..]));
      assert s == [s[0]] + s[1..];
    }
  }

  /** `cursosFiltrados`. */
  function CursosFiltrados(cursos: seq<Curso>, search: string, o: Orden): seq<Curso> {
    Ordenar(o, Filter(cursos, (c: Curso) => Coincide(search, c)))
  }

  /**
   * The list shown holds exactly the courses whose name contains the search
   * text (each as often as listed), and is in the chosen direction.
   */
  lemma CursosFiltradosCorrecto(cursos: seq<Curso>, search: string, o: Orden)
    ensures Ordenado(o, CursosFiltrados(cursos, search, o))
    ensures forall c :: multiset(CursosFiltrados(cursos, search, o))[c] == if Coincide(search, c) then multiset(cursos)[c] else 0
    ensures forall i :: 0 <= i < |CursosFiltrados(cursos, search, o)| ==> Coincide(search, CursosFiltrados(cursos, search, o)[i])
  {
    var p := (c: Curso) => Coincide(search, c);
    var f := Filter(cursos, p);
    OrdenarCorrecto(o, f);
    forall c {
      FilterCounts(cursos, p, c);
    }
    var r := CursosFiltrados(cursos, search, o);
    forall i | 0 <= i < |r|
      ensures Coincide(search, r[i])
    {
      assert r[i] in multiset(f);
      FilterCounts(cursos, p, r[i]);
    }
  }

  /** An empty search shows every course. */
  lemma BusquedaVaciaMuestraTodo(cursos: seq<Curso>, o: Orden)
    ensures multiset(CursosFiltrados(cursos, "", o)) == multiset(cursos)
  {
    forall c: Curso
      ensures Coincide("", c)
    {
      Text.ContainsEmpty(Text.Lower(c.nombre));
    }
    CursosFiltradosCorrecto(cursos, "", o);
  }
}
