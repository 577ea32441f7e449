/** The user record: roles, display string, email validation and the table's uniqueness constraints (usuarios/models.py). */
module UsuariosModels {
  import opened Wrappers
  import Text

  /** The role choices, and the role a user gets when none is given. */
  const Roles: set<string> := {"admin", "docente", "estudiante"}
  const DefaultRol: string := "estudiante"

  /** A stored password: the hash of a secret, hashing itself being opaque. */
  datatype Password = Unusable | HashOf(secret: string)

  datatype Usuario = Usuario(
    id: nat,
    username: string,
    email: string,
    firstName: string,
    lastName: string,
    rol: string,
    isActive: bool,
    password: Password)

  /** `__str__`: "first last (username)" when a name is set, else the username. */
  function Display(u: Usuario): (r: string)
    ensures u.firstName == "" && u.lastName == "" ==> r == u.username
    ensures u.firstName != "" || u.lastName != "" ==>
      && Text.HasPrefix(r, u.firstName + " " + u.lastName)
      && Text.HasSuffix(r, " (" + u.username + ")")
      && |r| == |u.firstName| + |u.lastName| + |u.username| + 4
  {
    if u.firstName != "" || u.lastName != "" then u.firstName + " " + u.lastName + " (" + u.username + ")"
    else u.username
  }

  /** `clean`: the validation error, if any; there is one exactly when the email is empty. */
  function Clean(u: Usuario): (r: Option<string>)
    ensures r.Some? <==> u.email == ""
  {
    if u.email == "" then Some("El correo electrónico es obligatorio.") else None
  }

  function Usernames(us: seq<Usuario>): set<string> {
    set i | 0 <= i < |us| :: us[i].username
  }

  predicate EmailTaken(us: seq<Usuario>, email: string) {
    exists i :: 0 <= i < |us| && us[i].email == email
  }

  /** The `unique=True` constraint on `email`. */
  predicate EmailsUnique(us: seq<Usuario>) {
    forall i, j :: 0 <= i < j < |us| ==> us[i].email != us[j].email
  }

  /** The `unique=True` constraint that the base user model puts on `username`. */
  predicate UsernamesUnique(us: seq<Usuario>) {
    forall i, j :: 0 <= i < j < |us| ==> us[i].username != us[j].username
  }

  /** Inserting a row: the database refuses a duplicate email or username. */
  function Save(us: seq<Usuario>, u: Usuario): (r: Result<seq<Usuario>>)
    ensures r.Ok? <==> !EmailTaken(us, u.email) && u.username !in Usernames(us)
    ensures r.Ok? ==> r.value == us + [u]
  {
    if EmailTaken(us, u.email) || u.username in Usernames(us) then Err("IntegrityError") else Ok(us + [u])
  }

  /** Every successful save keeps emails and usernames unique. */
  lemma SaveKeepsUnique(us: seq<Usuario>, u: Usuario)
    requires EmailsUnique(us) && UsernamesUnique(us)
    ensures Save(us, u).Ok? ==> EmailsUnique(Save(us, u).value) && UsernamesUnique(Save(us, u).value)
  {
  }

  /** At most one user has a given email, so looking a user up by email is unambiguous. */
  lemma EmailIdentifiesUser(us: seq<Usuario>, i: int, j: int)
    requires EmailsUnique(us)
    requires 0 <= i < |us| && 0 <= j < |us| && us[i].email == us[j].email
    ensures i == j
  {
  }
}
