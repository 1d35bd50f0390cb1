/** The user record as the authentication middleware and the account
    controller read and write it. The User model file itself (its column
    definitions, password hashing hooks, `findByEmail` and `matchPassword`)
    is not part of this model: its lookups are modelled as the first row
    with the key, and password matching is a parameter.
 */
module Users {

  import opened Wrappers
  import opened Seqs

  datatype Role = Client | Staff | Admin

  /** A user row. `password` is what is stored; `resetToken` holds the
      digest of the last reset token and `resetExpires` its expiry time. */
  datatype User = User(
    id: nat,
    email: string,
    password: string,
    firstName: Option<string>,
    lastName: Option<string>,
    phoneNumber: Option<string>,
    role: Role,
    isActive: bool,
    resetToken: Option<string>,
    resetExpires: Option<int>)

  /** `User.findByPk(id)`: the position of the user with that id. */
  function IndexById(users: seq<User>, id: nat): (r: Option<nat>)
    ensures r.Some? ==> r.value < |users| && users[r.value].id == id
    ensures r.None? <==> forall u :: u in users ==> u.id != id
  {
    FirstIndex(users, (u: User) => u.id == id)
  }

  /** `User.findByEmail(email)`: the position of the user with that email. */
  function IndexByEmail(users: seq<User>, email: string): (r: Option<nat>)
    ensures r.Some? ==> r.value < |users| && users[r.value].email == email
    ensures r.None? <==> forall u :: u in users ==> u.email != email
  {
    FirstIndex(users, (u: User) => u.email == email)
  }
}
