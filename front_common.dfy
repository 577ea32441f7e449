/**
 * Pieces shared by the Next.js pages: the outcome of an awaited API call, the
 * user rows the admin API lists, and the array operations the pages apply to
 * their lists (`filter`, `map` replacing matches, `find`, `findIndex`).
 */
module FrontCommon {
  import opened Wrappers

  /**
   * An awaited API call: the value it resolved to, or the error message it was
   * rejected with (None when the error has none). On most pages the message is
   * the server's `error.response.data.message`; for the enrolment page's
   * `handleInscribirEstudiante` it is the client-side `error.message`.
   */
  datatype ApiResult<T> = Answered(value: T) | Failed(message: Option<string>)

  /** `a || b` on an optional text: `a` when present and non-empty, else `b` (an error's message or its default text, a field or its default). */
  function OrText(a: Option<string>, b: string): (r: string)
    ensures a.Some? && a.value != "" ==> r == a.value
    ensures a.None? || a.value == "" ==> r == b
  {
    if a.Some? && a.value != "" then a.value else b
  }

  /** `localStorage.getItem("token")` is truthy: present and non-empty. */
  predicate HasToken(token: Option<string>) {
    token.Some? && token.value != ""
  }

  /** A user as the API lists it; a field the object lacks is None. */
  datatype UsuarioRow = UsuarioRow(
    id: string,
    username: Option<string>,
    email: Option<string>,
    firstName: Option<string>,
    lastName: Option<string>,
    nombre: Option<string>,
    rol: Option<string>,
    estado: Option<string>,
    isActive: Option<bool>)

  /** `xs.filter(p)`. */
  function Filter<T>(xs: seq<T>, p: T -> bool): (r: seq<T>)
    ensures |r| <= |xs|
    ensures forall i :: 0 <= i < |r| ==> r[i] in xs && p(r[i])
    ensures forall i :: 0 <= i < |xs| && p(xs[i]) ==> xs[i] in r
  {
    if xs == [] then [] else Filter(xs[..|xs| - 1], p) + (if p(xs[|xs| - 1]) then [xs[|xs| - 1]] else [])
  }

  /** Filtering a concatenation filters each part in place: the kept entries stay in their order. */
  lemma {:induction false} FilterAppend<T>(xs: seq<T>, ys: seq<T>, p: T -> bool)
    ensures Filter(xs + ys, p) == Filter(xs, p) + Filter(ys, p)
  {
    if ys != [] {
      var zs := xs + ys;
      assert zs[..|zs| - 1] == xs + ys[..|ys| - 1];
      FilterAppend(xs, ys[..|ys| - 1], p);
    } else {
      assert xs + ys == xs;
    }
  }

  /** A filter keeps every entry that passes, as many times as it occurs, and drops the others. */
  lemma {:induction false} FilterCounts<T>(xs: seq<T>, p: T -> bool, x: T)
    ensures multiset(Filter(xs, p))[x] == if p(x) then multiset(xs)[x] else 0
  {
    if xs != [] {
      FilterCounts(xs[..|xs| - 1], p, x);
      assert xs == xs[..|xs| - 1] + [xs[|xs| - 1]];
    }
  }

  /** `xs.map(x => p(x) ? y : x)`. */
  function ReplaceWhere<T>(xs: seq<T>, p: T -> bool, y: T): (r: seq<T>)
    ensures |r| == |xs|
    ensures forall i :: 0 <= i < |xs| ==> r[i] == (if p(xs[i]) then y else xs[i])
  {
    seq(|xs|, i requires 0 <= i < |xs| => if p(xs[i]) then y else xs[i])
  }

  /** `xs.findIndex(p)`: the first position satisfying `p`, or -1. */
  function IndexWhere<T>(xs: seq<T>, p: T -> bool): (r: int)
    ensures -1 <= r < |xs|
    ensures r >= 0 ==> p(xs[r]) && forall j :: 0 <= j < r ==> !p(xs[j])
    ensures r == -1 <==> forall j :: 0 <= j < |xs| ==> !p(xs[j])
  {
    if xs == [] then -1
    else if p(xs[0]) then 0
    else
      var r := IndexWhere(xs[1..], p);
      if r == -1 then -1 else r + 1
  }

  /** `xs.find(p)`: the first entry satisfying `p`, if any. */
  function Find<T>(xs: seq<T>, p: T -> bool): (r: Option<T>)
    ensures r.Some? ==> r.value in xs && p(r.value)
    ensures r.None? <==> forall j :: 0 <= j < |xs| ==> !p(xs[j])
    ensures r.Some? ==> r.value == xs[IndexWhere(xs, p)]
  {
    var i := IndexWhere(xs, p);
    if i == -1 then None else Some(xs[i])
  }
}
