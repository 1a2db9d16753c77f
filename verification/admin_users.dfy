/** The admin users route (/api/admin/users): a guard that admits only a
    signed-in user whose stored role is 'ADMIN', a listing of all users, and
    the creation of a user through the authentication provider followed by
    an optional role change. */
module AdminUsers {
  import opened Common
  import opened Store
  import BotActions

  const Admin := "ADMIN"
  /** The role the user table gives a new row. */
  const DefaultRole := "USER"
  const DefaultName := "User"
  const Forbidden := "Forbidden"
  const MissingCredentials := "Email and password are required"
  const SignUpFallback := "Failed to create user"

  /** The JSON body of a creation request; an absent field is "". */
  datatype NewUser = NewUser(email: string, password: string, name: string, role: string)

  /** What the provider's sign-up call does: it creates a user row with the
      given id (and the e-mail as it stores it), or throws with a message
      ("" when the error carries none). */
  datatype SignUp = SignedUp(id: string, email: string) | SignUpFailed(message: string)

  /** One row of the listing. */
  datatype UserRow = UserRow(id: string, name: string, email: string, role: string, createdAt: int, botCount: nat)

  /** The route's answers. */
  datatype Reply =
    | Refused(status: int, error: string)
    | Listing(rows: seq<UserRow>)
    | Created(status: int, id: string, email: string, name: string, role: string)

  /** Whether the user with that id has the stored role 'ADMIN'. */
  predicate IsAdmin(users: seq<User>, id: string) {
    exists u :: u in users && u.id == id && u.role == Admin
  }

  /** `findUnique` on the user table. */
  function FindUser(users: seq<User>, id: string): (r: Option<User>)
    ensures r.Some? ==> r.value in users && r.value.id == id
    ensures r.None? ==> !HasUser(users, id)
  {
    if |users| == 0 then None
    else if users[0].id == id then Some(users[0])
    else FindUser(users[1..], id)
  }

  /** `verifyAdmin`: the session when its user is an admin, otherwise none. */
  method VerifyAdmin(db: Database, session: Option<string>) returns (admin: Option<string>)
    requires db.Valid()
    ensures admin.Some? <==> session.Some? && IsAdmin(db.users, session.value)
    ensures admin.Some? ==> admin == session
  {
    if session.None? {
      return None;
    }
    var user := FindUser(db.users, session.value);
    if user.Some? && user.value.role == Admin {
      return session;
    }
    if IsAdmin(db.users, session.value) {
      var u :| u in db.users && u.id == session.value && u.role == Admin;
      UniqueKey(db.users, UserId, u, user.value);
    }
    admin := None;
  }

  function RowCreated(r: UserRow): int { r.createdAt }

  /** A user as the listing shows it, with the number of bots it owns. */
  function RowOf(u: User, bots: seq<Bot>): (r: UserRow)
    ensures r.id == u.id && r.name == u.name && r.email == u.email && r.role == u.role && r.createdAt == u.createdAt
    ensures r.botCount == |Filter(bots, BotActions.OwnerIs(u.id))| <= |bots|
  {
    UserRow(u.id, u.name, u.email, u.role, u.createdAt, |Filter(bots, BotActions.OwnerIs(u.id))|)
  }

  /** `findMany` ordered by creation time, newest first. */
  function Rows(users: seq<User>, bots: seq<Bot>): seq<UserRow> {
    seq(|users|, i requires 0 <= i < |users| => RowOf(users[|users| - 1 - i], bots))
  }

  /** Every user is listed, newest first, each with the number of bots it
      owns. */
  lemma RowsNewestFirst(users: seq<User>, bots: seq<Bot>)
    requires Ascending(users, UserCreated)
    ensures |Rows(users, bots)| == |users|
    ensures Descending(Rows(users, bots), RowCreated)
    ensures forall u :: u in users ==> exists i :: 0 <= i < |users| && Rows(users, bots)[i] == RowOf(u, bots)
    ensures forall i :: 0 <= i < |users| ==>
      Rows(users, bots)[i].botCount == |Filter(bots, BotActions.OwnerIs(Rows(users, bots)[i].id))| <= |bots|
  {
    var r := Rows(users, bots);
    forall i, j | 0 <= i < j < |r| ensures RowCreated(r[i]) >= RowCreated(r[j]) {
      var a, b := |users| - 1 - j, |users| - 1 - i;
      assert UserCreated(users[a]) <= UserCreated(users[b]);
      assert r[i] == RowOf(users[b], bots) && r[j] == RowOf(users[a], bots);
    }
    forall u | u in users ensures exists i :: 0 <= i < |users| && r[i] == RowOf(u, bots) {
      var k :| 0 <= k < |users| && users[k] == u;
      assert r[|users| - 1 - k] == RowOf(u, bots);
    }
  }

  /** `GET`: 403 for anyone but an admin, otherwise every user. */
  method Get(db: Database, session: Option<string>) returns (reply: Reply)
    requires db.Valid()
    ensures !(session.Some? && IsAdmin(db.users, session.value)) <==> reply == Refused(403, Forbidden)
    ensures reply.Listing? ==> reply.rows == Rows(db.users, db.bots)
    ensures reply.Refused? || reply.Listing?
  {
    var admin := VerifyAdmin(db, session);
    if admin.None? {
      return Refused(403, Forbidden);
    }
    reply := Listing(Rows(db.users, db.bots));
  }

  /** The name given to the provider. */
  function DisplayName(name: string): (r: string)
    ensures Truthy(r)
    ensures Truthy(name) ==> r == name
    ensures !Truthy(name) ==> r == DefaultName
  {
    if Truthy(name) then name else DefaultName
  }

  /** The role the user ends up with: the table's default, overwritten by
      the requested role when one is given and differs from it. */
  function StoredRole(role: string): string {
    if Truthy(role) && role != DefaultRole then role else DefaultRole
  }

  /** The role the response reports. */
  function ReportedRole(role: string): string {
    if Truthy(role) then role else DefaultRole
  }

  /** The reported role is always the role stored, whether the request
      names 'USER', another role or none. */
  lemma ReportedRoleIsStored(role: string)
    ensures ReportedRole(role) == StoredRole(role)
    ensures Truthy(StoredRole(role))
  {
  }

  /** The error text of a failed sign-up. */
  function SignUpError(message: string): (r: string)
    ensures Truthy(r)
    ensures Truthy(message) ==> r == message
    ensures !Truthy(message) ==> r == SignUpFallback
  {
    if Truthy(message) then message else SignUpFallback
  }

  /** `POST`. `signUp` is what the provider does if it is called, `now` the
      clock it stamps the row with. `roleWritten` says whether the role
      update was issued. */
  method Post(db: Database, session: Option<string>, body: NewUser, signUp: SignUp, now: int)
    returns (reply: Reply, roleWritten: bool)
    requires db.Valid() && db.NotAfter(now)
    requires signUp.SignedUp? ==> !HasUser(db.users, signUp.id)
    modifies db`users
    ensures db.Valid()
    ensures !(session.Some? && IsAdmin(old(db.users), session.value)) ==>
      reply == Refused(403, Forbidden) && db.users == old(db.users)
    ensures session.Some? && IsAdmin(old(db.users), session.value) && !(Truthy(body.email) && Truthy(body.password)) ==>
      reply == Refused(400, MissingCredentials) && db.users == old(db.users)
    ensures session.Some? && IsAdmin(old(db.users), session.value) && Truthy(body.email) && Truthy(body.password) ==>
      match signUp
      case SignUpFailed(message) =>
        reply == Refused(400, SignUpError(message)) && db.users == old(db.users)
      case SignedUp(id, email) =>
        && reply == Created(201, id, email, DisplayName(body.name), ReportedRole(body.role))
        && db.users == old(db.users) + [User(id, email, DisplayName(body.name), StoredRole(body.role), now)]
    ensures roleWritten <==> reply.Created? && Truthy(body.role) && body.role != DefaultRole
  {
    roleWritten := false;
    var admin := VerifyAdmin(db, session);
    if admin.None? {
      return Refused(403, Forbidden), false;
    }
    if !Truthy(body.email) || !Truthy(body.password) {
      return Refused(400, MissingCredentials), false;
    }
    var name := DisplayName(body.name);
    match signUp {
      case SignUpFailed(message) =>
        return Refused(400, SignUpError(message)), false;
      case SignedUp(id, email) =>
        var row := User(id, email, name, DefaultRole, now);
        db.InsertUser(row);
        if Truthy(body.role) && body.role != DefaultRole {
          WithRoleNewest(old(db.users), row, body.role);
          db.SetRole(id, body.role);
          roleWritten := true;
        }
        assert db.users == old(db.users) + [row.(role := StoredRole(body.role))];
        reply := Created(201, id, email, name, ReportedRole(body.role));
    }
  }

  /** After a creation, the listing shows the new user first, with the role
      the response reported. */
  lemma CreatedUserListedFirst(users: seq<User>, bots: seq<Bot>, u: User)
    ensures Rows(users + [u], bots)[0] == RowOf(u, bots)
    ensures Rows(users + [u], bots)[1..] == Rows(users, bots)
  {
  }
}
