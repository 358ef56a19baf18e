/** The authentication callbacks: sign-in registers a provider user by email, the
    JWT callback copies the database user into the token, and the session
    callback copies the token into the session's user. */
module Auth {
  import opened Common

  /** A row of the user table. `image` is nullable. */
  datatype DbUser = DbUser(id: string, name: string, email: string, image: Option<string>)

  /** The user the identity provider returns; any field may be missing. */
  datatype ProviderUser = ProviderUser(name: Option<string>, email: Option<string>, image: Option<string>)

  /** `findUnique({ where: { email } })`. */
  function FindUnique(users: seq<DbUser>, email: string): (r: Option<DbUser>)
    ensures r.None? <==> forall u :: u in users ==> u.email != email
    ensures r.Some? ==> r.value in users && r.value.email == email
  {
    if users == [] then None
    else if users[0].email == email then Some(users[0])
    else FindUnique(users[1..], email)
  }

  /** The table's unique constraint on `email`; ids are unique too. */
  ghost predicate Unique(users: seq<DbUser>) {
    forall i, j :: 0 <= i < j < |users| ==> users[i].email != users[j].email && users[i].id != users[j].id
  }

  /** Ids are rendered from a counter that is above every id used so far. */
  ghost predicate IdsBelow(users: seq<DbUser>, nextId: nat) {
    forall u :: u in users ==> exists k: nat :: k < nextId && u.id == Decimal(k)
  }

  ghost predicate TableValid(users: seq<DbUser>, nextId: nat) {
    Unique(users) && IdsBelow(users, nextId)
  }

  /** `user.name || "user"`. */
  function NameOrDefault(name: Option<string>): (n: string)
    ensures n != ""
    ensures Truthy(name) ==> n == name.value
    ensures !Truthy(name) ==> n == "user"
  {
    if Truthy(name) then name.value else "user"
  }

  /** The `signIn` callback as a function of the table: the new rows, the new counter
      and whether the login may proceed. */
  function SignIn(users: seq<DbUser>, nextId: nat, user: ProviderUser, fault: DbFault): (r: (seq<DbUser>, nat, bool))
    ensures !Truthy(user.email) ==> r == (users, nextId, false)
    ensures Truthy(user.email) && fault == LookupFails ==> r == (users, nextId, false)
    ensures Truthy(user.email) && fault != LookupFails && FindUnique(users, user.email.value).Some? ==>
              r == (users, nextId, true)
    ensures r.0 != users ==>
              && r.2 && fault == NoFault && FindUnique(users, user.email.value).None?
              && r.0 == users + [DbUser(Decimal(nextId), NameOrDefault(user.name), user.email.value, user.image)]
              && r.1 == nextId + 1
    ensures r.0 == users ==> r.1 == nextId
    ensures Truthy(user.email) && fault == NoFault && FindUnique(users, user.email.value).None? ==>
              r == (users + [DbUser(Decimal(nextId), NameOrDefault(user.name), user.email.value, user.image)],
                    nextId + 1, true)
    ensures Truthy(user.email) && fault == CreateFails && FindUnique(users, user.email.value).None? ==>
              r == (users, nextId, false)
  {
    if !Truthy(user.email) then (users, nextId, false)
    else if fault == LookupFails then (users, nextId, false)
    else match FindUnique(users, user.email.value)
      case Some(_) => (users, nextId, true)
      case None =>
        if fault != NoFault then (users, nextId, false)
        else (users + [DbUser(Decimal(nextId), NameOrDefault(user.name), user.email.value, user.image)],
              nextId + 1, true)
  }

  /** Sign-in keeps emails and ids unique: a user is only created when no row has the
      email, under an id never used before. */
  lemma SignInPreservesValid(users: seq<DbUser>, nextId: nat, user: ProviderUser, fault: DbFault)
    requires TableValid(users, nextId)
    ensures var r := SignIn(users, nextId, user, fault); TableValid(r.0, r.1)
  {
    var r := SignIn(users, nextId, user, fault);
    if r.0 != users {
      var created := r.0[|users|];
      assert r.0 == users + [created];
      forall i, j | 0 <= i < j < |r.0|
        ensures r.0[i].email != r.0[j].email && r.0[i].id != r.0[j].id
      {
        if j == |users| {
          assert r.0[i] in users;
          var k: nat :| k < nextId && r.0[i].id == Decimal(k);
          DecimalInjective(k, nextId);
        }
      }
      forall u | u in r.0
        ensures exists k: nat :: k < r.1 && u.id == Decimal(k)
      {
        if u == created {
          assert nextId < r.1 && u.id == Decimal(nextId);
        } else {
          assert u in users;
        }
      }
    }
  }

  /** A successful sign-in leaves a row with the email, and signing in again creates
      nothing: repeated logins never duplicate a user. */
  lemma SignInIdempotent(users: seq<DbUser>, nextId: nat, user: ProviderUser, fault: DbFault, again: DbFault)
    requires again != LookupFails
    ensures var r := SignIn(users, nextId, user, fault);
            r.2 ==> && FindUnique(r.0, user.email.value).Some?
                    && SignIn(r.0, r.1, user, again) == (r.0, r.1, true)
  {
    var r := SignIn(users, nextId, user, fault);
    if r.2 && r.0 != users {
      assert r.0[|users|] in r.0;
    }
  }

  /** The user table as stored state. */
  class UserTable {
    var users: seq<DbUser>
    var nextId: nat

    ghost predicate Valid()
      reads this
    {
      TableValid(users, nextId)
    }

    constructor ()
      ensures Valid() && users == [] && nextId == 0
    {
      users := [];
      nextId := 0;
    }

    method HandleSignIn(user: ProviderUser, fault: DbFault) returns (ok: bool)
      requires Valid()
      modifies this
      ensures Valid()
      ensures (users, nextId, ok) == SignIn(old(users), old(nextId), user, fault)
    {
      SignInPreservesValid(users, nextId, user, fault);
      if !Truthy(user.email) {
        return false;
      }
      if fault == LookupFails {
        return false;
      }
      var existing := FindUnique(users, user.email.value);
      if existing.Some? {
        return true;
      }
      if fault != NoFault {
        return false;
      }
      users := users + [DbUser(Decimal(nextId), NameOrDefault(user.name), user.email.value, user.image)];
      nextId := nextId + 1;
      ok := true;
    }
  }

  // ---------------------------------------------------------------------
  // Token and session

  /** The claims of the token the callbacks touch. */
  datatype Claims = Claims(id: Option<string>, name: Option<string>, email: Option<string>, picture: Option<string>)

  /** `findUnique({ where: { email: user.email } })` in the JWT callback; with no email
      nothing is found. */
  function LookupByEmail(users: seq<DbUser>, email: Option<string>): Option<DbUser> {
    if email.None? then None else FindUnique(users, email.value)
  }

  /** What the JWT callback makes of the claims. */
  function JwtClaims(claims: Claims, user: Option<ProviderUser>, users: seq<DbUser>): (r: Claims)
    ensures user.None? || LookupByEmail(users, user.value.email).None? ==> r == claims
    ensures user.Some? && LookupByEmail(users, user.value.email).Some? ==>
              var db := LookupByEmail(users, user.value.email).value;
              r == Claims(Some(db.id), Some(db.name), Some(db.email), db.image)
  {
    if user.None? then claims
    else match LookupByEmail(users, user.value.email)
      case None => claims
      case Some(db) => Claims(Some(db.id), Some(db.name), Some(db.email), db.image)
  }

  /** After a successful sign-in, the token carries the id of the one row with the
      provider's email, and that email. */
  lemma TokenAfterSignIn(users: seq<DbUser>, nextId: nat, user: ProviderUser, fault: DbFault, claims: Claims)
    requires TableValid(users, nextId)
    ensures var r := SignIn(users, nextId, user, fault);
            var c := JwtClaims(claims, Some(user), r.0);
            r.2 ==> && c.email == user.email && c.id.Some?
                    && (forall u :: u in r.0 && u.email == user.email.value ==> c.id == Some(u.id))
  {
    var r := SignIn(users, nextId, user, fault);
    if r.2 {
      SignInIdempotent(users, nextId, user, fault, NoFault);
      SignInPreservesValid(users, nextId, user, fault);
      forall u | u in r.0 && u.email == user.email.value
        ensures JwtClaims(claims, Some(user), r.0).id == Some(u.id)
      {
        FoundIsTheOne(r.0, u);
      }
    }
  }

  /** Under the unique constraint, the lookup by a row's email finds that row. */
  lemma FoundIsTheOne(users: seq<DbUser>, u: DbUser)
    requires Unique(users) && u in users
    ensures FindUnique(users, u.email) == Some(u)
  {
    var found := FindUnique(users, u.email).value;
    var i :| 0 <= i < |users| && users[i] == u;
    var j :| 0 <= j < |users| && users[j] == found;
    assert i == j;
  }

  class Token {
    var id: Option<string>
    var name: Option<string>
    var email: Option<string>
    var picture: Option<string>

    function Snapshot(): Claims
      reads this
    {
      Claims(id, name, email, picture)
    }

    constructor (claims: Claims)
      ensures Snapshot() == claims
    {
      id, name, email, picture := claims.id, claims.name, claims.email, claims.picture;
    }

    /** The `jwt` callback; `user` is given only on sign-in. `lookupFails` says whether
        its `findUnique` throws; nothing catches that, so the callback fails (`ok` is
        false) and the token is left as it was. */
    method Jwt(user: Option<ProviderUser>, users: seq<DbUser>, lookupFails: bool) returns (ok: bool)
      modifies this
      ensures ok <==> user.None? || !lookupFails
      ensures ok ==> Snapshot() == JwtClaims(old(Snapshot()), user, users)
      ensures !ok ==> Snapshot() == old(Snapshot())
    {
      ok := true;
      if user.Some? {
        if lookupFails {
          return false;
        }
        var dbUser := LookupByEmail(users, user.value.email);
        if dbUser.Some? {
          id := Some(dbUser.value.id);
          name := Some(dbUser.value.name);
          email := Some(dbUser.value.email);
          picture := dbUser.value.image;
        }
      }
    }
  }

  /** `session.user`. */
  class SessionUser {
    var id: Option<string>
    var name: Option<string>
    var email: Option<string>
    var image: Option<string>

    constructor ()
      ensures id == None && name == None && email == None && image == None
    {
      id, name, email, image := None, None, None, None;
    }
  }

  class Session {
    var user: SessionUser?

    constructor (user: SessionUser?)
      ensures this.user == user
    {
      this.user := user;
    }

    /** The `session` callback: copies the token's claims into `session.user` when it exists. */
    method Callback(token: Token)
      modifies user
      ensures user != null ==>
                && user.id == token.id && user.name == token.name
                && user.email == token.email && user.image == token.picture
    {
      if user != null {
        user.id := token.id;
        user.name := token.name;
        user.email := token.email;
        user.image := token.picture;
      }
    }
  }
}
