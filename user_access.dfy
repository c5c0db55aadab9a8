/**
 * The in-memory credential directory: an ordered list of user records,
 * `Register` to add a record and `Login` to check a password.
 */
module UserAccess {
  import opened Wrappers
  import opened Argon2

  /** A stored user: the email key and the encoded password hash. */
  datatype User = User(email: string, passwordHash: string)

  /** Result codes of `Login`. */
  const UNKNOWN_EMAIL: int := -1
  const BAD_PASSWORD: int := -2
  const OK: int := 1

  /** Some stored record has exactly this email. */
  predicate HasEmail(users: seq<User>, email: string) {
    exists i :: 0 <= i < |users| && users[i].email == email
  }

  /** No two records share an email. */
  predicate UniqueEmails(users: seq<User>) {
    forall i, j :: 0 <= i < j < |users| ==> users[i].email != users[j].email
  }

  /** The invariant `Register` keeps: unique, non-empty emails. */
  predicate WellFormed(users: seq<User>) {
    UniqueEmails(users) && forall i :: 0 <= i < |users| ==> users[i].email != ""
  }

  /**
   * What the scan over `users` leaves in `storedUser`: the last record whose
   * email matches (the loop has no `break`), or none.
   */
  function LastMatch(users: seq<User>, email: string): (found: Option<User>) {
    if |users| == 0 then None
    else if users[|users| - 1].email == email then Some(users[|users| - 1])
    else LastMatch(users[..|users| - 1], email)
  }

  /** The conditions under which `Register` adds a record. */
  predicate Accepts(users: seq<User>, email: string, password: string) {
    email != "" && password != "" && !HasEmail(users, email)
  }

  /** The code `Login` returns for a directory holding `users`. */
  function LoginCode(users: seq<User>, hasher: Hasher, email: string, password: string): (code: int)
    ensures code == UNKNOWN_EMAIL || code == BAD_PASSWORD || code == OK
  {
    match LastMatch(users, email)
    case None => UNKNOWN_EMAIL
    case Some(stored) => if hasher.verify(stored.passwordHash, password) then OK else BAD_PASSWORD
  }

  /** The scan finds nothing exactly when no record has the email; what it finds is a matching record. */
  lemma {:induction false} LastMatchFinds(users: seq<User>, email: string)
    ensures LastMatch(users, email).None? <==> !HasEmail(users, email)
    ensures LastMatch(users, email).Some? ==>
      LastMatch(users, email).value in users && LastMatch(users, email).value.email == email
  {
    if |users| > 0 && users[|users| - 1].email != email {
      var init := users[..|users| - 1];
      LastMatchFinds(init, email);
      if HasEmail(users, email) {
        var i :| 0 <= i < |users| && users[i].email == email;
        assert init[i].email == email;
      }
      if HasEmail(init, email) {
        var i :| 0 <= i < |init| && init[i].email == email;
        assert users[i].email == email;
      }
    }
  }

  /** With unique emails, last-match and first-match agree: the scan finds the one matching record. */
  lemma {:induction false} LastMatchUnique(users: seq<User>, email: string, i: int)
    requires UniqueEmails(users)
    requires 0 <= i < |users| && users[i].email == email
    ensures LastMatch(users, email) == Some(users[i])
  {
    var n := |users| - 1;
    if i < n {
      assert users[n].email != email;
      var init := users[..n];
      assert init[i] == users[i];
      LastMatchUnique(init, email, i);
    }
  }

  /** Appending a record with a new, non-empty email keeps the invariant. */
  lemma AppendKeepsWellFormed(users: seq<User>, email: string, password: string, hash: string)
    requires WellFormed(users) && Accepts(users, email, password)
    ensures WellFormed(users + [User(email, hash)])
  {
  }

  /** Once registered, the same email is refused whatever the password. */
  lemma RegisterTwiceRefused(users: seq<User>, email: string, hash: string, password: string)
    ensures !Accepts(users + [User(email, hash)], email, password)
  {
    var grown := users + [User(email, hash)];
    assert grown[|users|].email == email;
  }

  /** Logging in with the credentials just registered succeeds. */
  lemma LoginAfterRegister(users: seq<User>, hasher: Hasher, email: string, password: string, salt: Salt)
    requires hasher.Sound()
    ensures LoginCode(users + [User(email, hasher.hash(password, salt))], hasher, email, password) == OK
  {
  }

  /** Login outcome for a well-formed directory, stated without the scan. */
  lemma LoginCodeMeaning(users: seq<User>, hasher: Hasher, email: string, password: string)
    requires UniqueEmails(users)
    ensures LoginCode(users, hasher, email, password) == UNKNOWN_EMAIL <==> !HasEmail(users, email)
    ensures forall i :: 0 <= i < |users| && users[i].email == email ==>
      (LoginCode(users, hasher, email, password) == OK <==> hasher.verify(users[i].passwordHash, password)) &&
      (LoginCode(users, hasher, email, password) == BAD_PASSWORD <==> !hasher.verify(users[i].passwordHash, password))
  {
    LastMatchFinds(users, email);
    forall i | 0 <= i < |users| && users[i].email == email
      ensures LastMatch(users, email) == Some(users[i])
    {
      LastMatchUnique(users, email, i);
    }
  }

  /** The credential directory. */
  class UserAccessSystemArgon2 {
    var users: seq<User>
    const argon2: Hasher

    ghost predicate Valid()
      reads this
    {
      argon2.Sound() && WellFormed(users)
    }

    /** An empty directory bound to a hashing service. */
    constructor (argon2: Hasher)
      requires argon2.Sound()
      ensures Valid() && users == [] && this.argon2 == argon2
    {
      this.argon2 := argon2;
      users := [];
    }

    /** The linear scan shared by `Register` and `Login`. */
    method FindStored(email: string) returns (storedUser: Option<User>)
      ensures storedUser == LastMatch(users, email)
    {
      storedUser := None;
      var i := 0;
      while i < |users|
        invariant 0 <= i <= |users|
        invariant storedUser == LastMatch(users[..i], email)
      {
        assert users[..i + 1][..i] == users[..i];
        if users[i].email == email {
          storedUser := Some(users[i]);
        }
        i := i + 1;
      }
      assert users[..i] == users;
    }

    /**
     * Adds a record for `email` with the hash of `password` (salted with
     * `salt`) unless either is empty or the email is already stored.
     */
    method Register(email: string, password: string, salt: Salt) returns (ok: bool)
      requires Valid()
      modifies this
      ensures Valid()
      ensures ok <==> Accepts(old(users), email, password)
      ensures ok ==> users == old(users) + [User(email, argon2.hash(password, salt))]
      ensures ok ==> argon2.verify(users[|users| - 1].passwordHash, password)
      ensures !ok ==> users == old(users)
    {
      ok := false;
      if email != "" && password != "" {
        var storedUser := FindStored(email);
        LastMatchFinds(users, email);
        if storedUser == None {
          var passwordHash := argon2.hash(password, salt);
          AppendKeepsWellFormed(users, email, password, passwordHash);
          users := users + [User(email, passwordHash)];
          ok := true;
        }
      }
    }

    /**
     * Returns UNKNOWN_EMAIL (-1) when no record has `email`, BAD_PASSWORD (-2)
     * when the stored hash does not verify against `password`, OK (1) otherwise.
     */
    method Login(email: string, password: string) returns (code: int)
      requires Valid()
      ensures code == LoginCode(users, argon2, email, password)
      ensures code == UNKNOWN_EMAIL <==> !HasEmail(users, email)
      ensures email == "" ==> code == UNKNOWN_EMAIL
      ensures forall i :: 0 <= i < |users| && users[i].email == email ==>
        (code == OK <==> argon2.verify(users[i].passwordHash, password)) &&
        (code == BAD_PASSWORD <==> !argon2.verify(users[i].passwordHash, password))
    {
      LoginCodeMeaning(users, argon2, email, password);
      var storedUser := FindStored(email);
      if storedUser == None {
        return UNKNOWN_EMAIL;
      }
      if !argon2.verify(storedUser.value.passwordHash, password) {
        return BAD_PASSWORD;
      }
      return OK;
    }
  }
}
