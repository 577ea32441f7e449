/**
 * Account creation and login (usuarios/serializers.py): the role forced on
 * anonymous sign-ups, the synthesised unique username, the password kept out of
 * the stored attributes, the email accepted in place of a username at login,
 * and the role claim of issued tokens.
 */
module UsuariosSerializers {
  import opened Wrappers
  import opened UsuariosModels
  import Text

  /** `d.get(k, '')`. */
  function Field(d: map<string, string>, k: string): string {
    if k in d then d[k] else ""
  }

  /** A name part of a username: stripped, lower-cased, inner spaces turned into `_`. */
  function NameSlug(s: string): string {
    Text.ReplaceChar(Text.Lower(Text.Strip(s)), ' ', '_')
  }

  /** A name part is no longer than the name and holds neither spaces nor upper-case letters. */
  lemma NameSlugShape(s: string)
    ensures |NameSlug(s)| <= |s|
    ensures forall i :: 0 <= i < |NameSlug(s)| ==> NameSlug(s)[i] != ' ' && !('A' <= NameSlug(s)[i] <= 'Z')
  {
    var t := Text.Strip(s);
    var l := Text.Lower(t);
    forall i | 0 <= i < |l|
      ensures l[i] == ' ' || !('A' <= l[i] <= 'Z')
    {
      Text.LowerCharNotUpper(t[i]);
    }
  }

  /** `f"{first}_{last}_{rol}"`, each part normalised as `create` does. */
  function BaseUsername(first: string, last: string, rol: string): string {
    NameSlug(first) + "_" + NameSlug(last) + "_" + Text.Lower(Text.Strip(rol))
  }

  /** The `c`-th name tried: the base itself, then the base followed by 1, 2, ... */
  function Candidate(base: string, c: nat): string {
    if c == 0 then base else base + Text.Decimal(c)
  }

  lemma CandidateInjective(base: string, a: nat, b: nat)
    requires Candidate(base, a) == Candidate(base, b)
    ensures a == b
  {
    if a != 0 && b != 0 {
      assert Candidate(base, a)[|base|..] == Text.Decimal(a);
      assert Candidate(base, b)[|base|..] == Text.Decimal(b);
      Text.DecimalInjective(a, b);
    }
  }

  /** The first `n` candidates. */
  function CandidatesBelow(base: string, n: nat): (r: set<string>)
    ensures forall c :: 0 <= c < n ==> Candidate(base, c) in r
    ensures forall x :: x in r ==> exists c :: 0 <= c < n && x == Candidate(base, c)
  {
    if n == 0 then {} else CandidatesBelow(base, n - 1) + {Candidate(base, n - 1)}
  }

  lemma {:induction false} CandidatesBelowCount(base: string, n: nat)
    ensures |CandidatesBelow(base, n)| == n
  {
    if n > 0 {
      CandidatesBelowCount(base, n - 1);
      if Candidate(base, n - 1) in CandidatesBelow(base, n - 1) {
        var c :| 0 <= c < n - 1 && Candidate(base, n - 1) == Candidate(base, c);
        CandidateInjective(base, c, n - 1);
      }
    }
  }

  lemma SubsetCount(a: set<string>, b: set<string>)
    requires a <= b
    ensures |a| <= |b|
  {
    assert b == a + (b - a);
  }

  /** `c` is the first candidate not in `taken`. */
  predicate FirstFree(base: string, c: nat, taken: set<string>) {
    Candidate(base, c) !in taken && forall d :: 0 <= d < c ==> Candidate(base, d) in taken
  }

  /** The `rol` entry of the validated data once `create` has forced it: `estudiante` for an anonymous request. */
  function ForcedRol(data: map<string, string>, anonymous: bool): (r: Option<string>)
    ensures anonymous ==> r == Some("estudiante")
    ensures !anonymous ==> (r.Some? <==> "rol" in data)
    ensures !anonymous && "rol" in data ==> r == Some(data["rol"])
  {
    if anonymous then Some("estudiante") else if "rol" in data then Some(data["rol"]) else None
  }

  /** Token claims: the base claims plus the user's role under `rol`. */
  function TokenClaims(base: map<string, string>, u: Usuario): (r: map<string, string>)
    ensures r.Keys == base.Keys + {"rol"}
    ensures r["rol"] == u.rol
    ensures forall k :: k in base && k != "rol" ==> r[k] == base[k]
  {
    base["rol" := u.rol]
  }

  /** Position of the user with email `email`, if any. */
  function IndexOfEmail(us: seq<Usuario>, email: string): (r: Option<nat>)
    ensures r.None? <==> !EmailTaken(us, email)
    ensures r.Some? ==> r.value < |us| && us[r.value].email == email
  {
    if us == [] then None
    else if us[|us| - 1].email == email then Some(|us| - 1)
    else
      var r := IndexOfEmail(us[..|us| - 1], email);
      assert forall i :: 0 <= i < |us| - 1 ==> us[..|us| - 1][i] == us[i];
      r
  }

  class UsuarioTable {
    var usuarios: seq<Usuario>
    var nextId: nat

    ghost predicate Valid()
      reads this
    {
      && EmailsUnique(usuarios)
      && UsernamesUnique(usuarios)
      && forall i :: 0 <= i < |usuarios| ==> usuarios[i].id < nextId
    }

    constructor ()
      ensures Valid() && usuarios == []
    {
      usuarios, nextId := [], 0;
    }

    /** The username loop of `create`: the first of base, base1, base2, ... that no user holds. */
    method UniqueUsername(base: string) returns (username: string)
      ensures username !in Usernames(usuarios)
      ensures exists c :: FirstFree(base, c, Usernames(usuarios)) && username == Candidate(base, c)
    {
      ghost var taken := Usernames(usuarios);
      username := base;
      var counter := 1;
      while username in Usernames(usuarios)
        invariant counter >= 1
        invariant username == Candidate(base, counter - 1)
        invariant CandidatesBelow(base, counter - 1) <= taken
        decreases |taken| - (counter - 1)
      {
        CandidatesBelowCount(base, counter);
        SubsetCount(CandidatesBelow(base, counter), taken);
        username := base + Text.Decimal(counter);
        counter := counter + 1;
      }
      assert FirstFree(base, counter - 1, taken);
    }

    /** `save()` of a new row with the next id: refused on a duplicate email or username. */
    method Insert(u: Usuario) returns (ok: bool)
      requires Valid() && u.id == nextId
      modifies this
      ensures Valid()
      ensures ok <==> Save(old(usuarios), u).Ok?
      ensures ok ==> usuarios == old(usuarios) + [u]
      ensures !ok ==> usuarios == old(usuarios)
    {
      var saved := Save(usuarios, u);
      if saved.Err? {
        return false;
      }
      SaveKeepsUnique(usuarios, u);
      usuarios := saved.value;
      nextId := nextId + 1;
      ok := true;
    }

    /**
     * `UsuarioSerializer.create`: forces the role of anonymous sign-ups, stores
     * the synthesised username, keeps the password only as its hash, and saves.
     * Fails without a password (the `pop` raises) or on a duplicate email.
     * `isActive` is the request's `is_active` when it carries one; the model
     * field defaults to active.
     */
    method Create(data: map<string, string>, isActive: Option<bool>, anonymous: bool) returns (r: Result<Usuario>)
      requires Valid()
      modifies this
      ensures Valid()
      ensures r.Ok? <==> "password" in data && !EmailTaken(old(usuarios), Field(data, "email"))
      ensures r.Err? ==> usuarios == old(usuarios)
      ensures r.Ok? ==> usuarios == old(usuarios) + [r.value]
      ensures r.Ok? ==>
        var rol := ForcedRol(data, anonymous);
        var base := BaseUsername(Field(data, "first_name"), Field(data, "last_name"), rol.GetOr(""));
        var u := r.value;
        && u.rol == rol.GetOr(DefaultRol)
        && u.username !in Usernames(old(usuarios))
        && (exists c :: FirstFree(base, c, Usernames(old(usuarios))) && u.username == Candidate(base, c))
        && u.password == HashOf(data["password"])
        && u.firstName == Field(data, "first_name") && u.lastName == Field(data, "last_name")
        && u.email == Field(data, "email")
        && u.isActive == isActive.GetOr(true)
    {
      var rol := ForcedRol(data, anonymous);
      var base := BaseUsername(Field(data, "first_name"), Field(data, "last_name"), rol.GetOr(""));
      var username := UniqueUsername(base);
      ghost var c :| FirstFree(base, c, Usernames(usuarios)) && username == Candidate(base, c);
      if "password" !in data {
        return Err("KeyError: 'password'");
      }
      var u := Usuario(
        nextId, username, Field(data, "email"), Field(data, "first_name"), Field(data, "last_name"),
        rol.GetOr(DefaultRol), isActive.GetOr(true), HashOf(data["password"]));
      var saved := Insert(u);
      if !saved {
        return Err("IntegrityError");
      }
      r := Ok(u);
      assert FirstFree(base, c, Usernames(old(usuarios)));
    }

    /** `CustomTokenObtainPairSerializer.validate`: the attributes handed on to authentication, with an email replaced by its user's username. */
    method LoginAttributes(attrs: map<string, string>) returns (out: map<string, string>)
      requires Valid()
      ensures "username" in attrs && EmailTaken(usuarios, attrs["username"]) ==>
        exists i :: 0 <= i < |usuarios| && usuarios[i].email == attrs["username"]
          && out == attrs["username" := usuarios[i].username]
      ensures !("username" in attrs && EmailTaken(usuarios, attrs["username"])) ==> out == attrs
    {
      out := attrs;
      if "username" in attrs {
        var found := IndexOfEmail(usuarios, attrs["username"]);
        if found.Some? {
          out := attrs["username" := usuarios[found.value].username];
        }
      }
    }
  }

  /** The username that login substitutes is that of the one user owning the email. */
  lemma LoginUsesOwnerOfEmail(t: UsuarioTable, email: string, i: int)
    requires t.Valid() && 0 <= i < |t.usuarios| && t.usuarios[i].email == email
    ensures forall j :: 0 <= j < |t.usuarios| && t.usuarios[j].email == email ==> t.usuarios[j].username == t.usuarios[i].username
  {
  }
}
