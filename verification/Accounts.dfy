/** The `users` table: rows in insertion order, looked up and saved as UserRepository does. */
module Accounts {
  import opened Wrappers

  datatype Status = Active | Inactive | Locked

  datatype User = User(
    id: string, email: string, password: string, role: string, status: Status, verified: bool)

  function FindByEmail(rows: seq<User>, email: string): (found: Option<User>)
    ensures found.Some? ==> found.value in rows && found.value.email == email
    ensures found.None? ==> forall u :: u in rows ==> u.email != email
  {
    if rows == [] then None
    else if rows[0].email == email then Some(rows[0])
    else FindByEmail(rows[1..], email)
  }

  function FindById(rows: seq<User>, id: string): (found: Option<User>)
    ensures found.Some? ==> found.value in rows && found.value.id == id
    ensures found.None? ==> forall u :: u in rows ==> u.id != id
  {
    if rows == [] then None
    else if rows[0].id == id then Some(rows[0])
    else FindById(rows[1..], id)
  }

  /** `save` of a loaded entity: every column of the row with its id takes the entity's value. */
  function SaveRow(rows: seq<User>, user: User): (rows': seq<User>)
    ensures |rows'| == |rows|
  {
    seq(|rows|, i requires 0 <= i < |rows| => if rows[i].id == user.id then user else rows[i])
  }

  ghost predicate UniqueRows(rows: seq<User>) {
    forall i, j :: 0 <= i < j < |rows| ==>
      rows[i].id != rows[j].id && rows[i].email != rows[j].email
  }

  /** Rows keep their number and places; the row of that id is the given user, every other one the same value. */
  lemma SaveWritesOne(rows: seq<User>, user: User)
    ensures var rows' := SaveRow(rows, user);
      |rows'| == |rows| && forall i :: 0 <= i < |rows| ==>
        (rows[i].id != user.id ==> rows'[i] == rows[i]) && (rows[i].id == user.id ==> rows'[i] == user)
  {
  }

  /** Accounts are never removed and never change id or email. */
  ghost predicate Kept(rows: seq<User>, rows': seq<User>) {
    && |rows| <= |rows'|
    && forall i :: 0 <= i < |rows| ==> rows'[i].id == rows[i].id && rows'[i].email == rows[i].email
  }

  ghost predicate Owns(rows: seq<User>, id: string, email: string) {
    exists i :: 0 <= i < |rows| && rows[i].id == id && rows[i].email == email
  }

  lemma OwnsKept(rows: seq<User>, rows': seq<User>, id: string, email: string)
    requires Kept(rows, rows') && Owns(rows, id, email)
    ensures Owns(rows', id, email)
  {
  }

  /** With unique rows an email leads back to one id only. */
  lemma OwnerFound(rows: seq<User>, id: string, email: string)
    requires UniqueRows(rows) && Owns(rows, id, email)
    ensures FindByEmail(rows, email).Some? && FindByEmail(rows, email).value.id == id
    ensures FindById(rows, id).Some? && FindById(rows, id).value.email == email
  {
  }

  /** Saving a loaded user keeps every id and email, so the unique columns stay unique. */
  lemma SaveKeeps(rows: seq<User>, user: User)
    requires UniqueRows(rows) && Owns(rows, user.id, user.email)
    ensures UniqueRows(SaveRow(rows, user)) && Kept(rows, SaveRow(rows, user))
  {
  }
}
