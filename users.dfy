// The `users` table (backend/models.py) shared by the security helpers, the
// auth router and the two user-management scripts.  A query
// `filter(User.email == email).first()` is `FindByEmail`; the table keeps the
// e-mail column unique.
module Users {
  import opened Results

  /** A row of `users`.  Timestamps are seconds; `groups` is the list the scripts write. */
  datatype User = User(
    email: string,
    fullName: Option<string>,
    hashedPassword: string,
    isActive: bool,
    isAdmin: bool,
    groups: seq<string>,
    createdAt: int,
    updatedAt: int)

  /** The unique constraint on `users.email`. */
  predicate EmailsUnique(users: seq<User>)
  {
    forall i, j | 0 <= i < j < |users| :: users[i].email != users[j].email
  }

  /** `filter(User.email == email).first()`: a user with that e-mail, or `None` when there is none. */
  function FindByEmail(users: seq<User>, email: string): (r: Option<User>)
    ensures r.Some? ==> r.value in users && r.value.email == email
    ensures r.None? <==> forall u | u in users :: u.email != email
  {
    if users == [] then None
    else if users[0].email == email then Some(users[0])
    else FindByEmail(users[1..], email)
  }

  /** With unique e-mails the query finds exactly the row holding the e-mail. */
  lemma {:induction false} FindByEmailUnique(users: seq<User>, u: User)
    requires EmailsUnique(users) && u in users
    ensures FindByEmail(users, u.email) == Some(u)
  {
    if users[0] != u {
      assert users[0].email != u.email by {
        var k :| 0 <= k < |users| && users[k] == u;
      }
      assert u in users[1..];
      FindByEmailUnique(users[1..], u);
    }
  }

  /** A new row with an e-mail not yet present keeps the column unique and is what the query then finds. */
  lemma AppendFresh(users: seq<User>, u: User)
    requires EmailsUnique(users) && FindByEmail(users, u.email).None?
    ensures EmailsUnique(users + [u])
    ensures FindByEmail(users + [u], u.email) == Some(u)
  {
    assert u in users + [u];
    FindByEmailUnique(users + [u], u);
  }

  /** The rows whose e-mail differs, in their order (`DELETE ... WHERE email = ...`). */
  function RemoveEmail(users: seq<User>, email: string): (r: seq<User>)
    ensures forall u :: u in r <==> u in users && u.email != email
    ensures |r| <= |users|
  {
    if users == [] then []
    else if users[0].email == email then RemoveEmail(users[1..], email)
    else [users[0]] + RemoveEmail(users[1..], email)
  }

  lemma {:induction false} RemoveEmailKeepsUnique(users: seq<User>, email: string)
    requires EmailsUnique(users)
    ensures EmailsUnique(RemoveEmail(users, email))
  {
    if users != [] {
      RemoveEmailKeepsUnique(users[1..], email);
      var rest := RemoveEmail(users[1..], email);
      if users[0].email != email {
        assert forall u | u in rest :: u.email != users[0].email by {
          forall u | u in rest ensures u.email != users[0].email {
            var k :| 0 <= k < |users[1..]| && users[1..][k] == u;
            assert users[k + 1] == u;
          }
        }
        var r := [users[0]] + rest;
        forall i, j | 0 <= i < j < |r| ensures r[i].email != r[j].email {
          if i == 0 {
            assert r[j] in rest;
          } else {
            assert r[i] == rest[i - 1] && r[j] == rest[j - 1];
          }
        }
      }
    }
  }

  /** The table as a database session holds it. */
  class UserTable {
    var users: seq<User>

    predicate Valid()
      reads this
    {
      EmailsUnique(users)
    }

    constructor (rows: seq<User>)
      requires EmailsUnique(rows)
      ensures Valid() && users == rows
    {
      users := rows;
    }
  }
}
