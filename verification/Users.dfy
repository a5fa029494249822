/**
 The users table (internal/repository/user/user_repository.go:40-99). A user's id is
 its place in the table; deleting sets a mark, and the queries skip marked rows.
 */
module Users {
  import opened Prelude

  datatype User = User(name: string, email: string, password: string, org: string, role: string,
                       version: int, deleted: bool)

  type Table = seq<User>

  const ROLE_USER := "user"

  predicate Active(t: Table, id: nat) {
    id < |t| && !t[id].deleted
  }

  predicate HasEmail(t: Table, id: nat, email: string) {
    Active(t, id) && t[id].email == email
  }

  // ---- queries ----

  function FindByID(t: Table, id: nat): Option<User> {
    if Active(t, id) then Some(t[id]) else None
  }

  predicate ExistsByEmail(t: Table, email: string) {
    exists id :: 0 <= id < |t| && HasEmail(t, id, email)
  }

  /** The first active row with the email. */
  function FindByEmail(t: Table, email: string): Option<nat> {
    FindFrom(t, 0, email)
  }

  function FindFrom(t: Table, from: nat, email: string): (r: Option<nat>)
    requires from <= |t|
    ensures r.Some? ==> from <= r.value && HasEmail(t, r.value, email)
    ensures r.None? ==> forall id :: from <= id < |t| ==> !HasEmail(t, id, email)
    decreases |t| - from
  {
    if from == |t| then None else if HasEmail(t, from, email) then Some(from) else FindFrom(t, from + 1, email)
  }

  // ---- writes ----

  /** INSERT under the partial unique index on the emails of active users (internal/database/database.go:80-86). */
  function Create(t: Table, u: User): Outcome<Table> {
    if ExistsByEmail(t, u.email) then Err else Ok(t + [u])
  }

  /** A newly registered user; the version takes its column default. */
  function NewUser(name: string, email: string, password: string, org: string): User {
    User(name, email, password, org, ROLE_USER, 1, false)
  }

  function SoftDelete(t: Table, id: nat): Table {
    if Active(t, id) then t[id := t[id].(deleted := true)] else t
  }

  function BumpVersion(t: Table, id: nat): Table {
    if Active(t, id) then t[id := t[id].(version := t[id].version + 1)] else t
  }

  function SetPasswordAndBump(t: Table, id: nat, password: string): Table {
    if Active(t, id) then t[id := t[id].(password := password, version := t[id].version + 1)] else t
  }

  /** The profile edit: name and password are replaced when given, the version is kept (user_service.go:82-94). */
  function Edit(t: Table, id: nat, name: string, password: string): Table {
    if Active(t, id) then
      t[id := t[id].(name := if name == "" then t[id].name else name,
                     password := if password == "" then t[id].password else password)]
    else t
  }

  // ---- emails of active users are unique ----

  ghost predicate EmailsUnique(t: Table) {
    forall i, j, email :: 0 <= i < j < |t| && HasEmail(t, i, email) ==> !HasEmail(t, j, email)
  }

  lemma CreateKeepsEmailsUnique(t: Table, u: User)
    requires EmailsUnique(t) && Create(t, u).Ok?
    ensures EmailsUnique(Create(t, u).value)
  {
    var t' := Create(t, u).value;
    forall i, j, email | 0 <= i < j < |t'| && HasEmail(t', i, email) ensures !HasEmail(t', j, email) {
      assert HasEmail(t, i, email);
      if j < |t| && HasEmail(t', j, email) { assert HasEmail(t, j, email); }
    }
  }

  /** A lookup finds the one active user holding the email. */
  lemma FindByEmailIff(t: Table, email: string, id: nat)
    requires EmailsUnique(t)
    ensures FindByEmail(t, email) == Some(id) <==> HasEmail(t, id, email)
  {
  }
}
