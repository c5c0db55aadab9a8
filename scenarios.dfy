/** The two scenarios of the directory's unit tests, stated as verified methods over the model. */
module Scenarios {
  import opened Argon2
  import opened UserAccess

  /** Registration: a new user, the same email again, and empty inputs. */
  method RegisterScenario(hasher: Hasher, salt: Salt) returns (r1: bool, r2: bool, r3: bool, r4: bool, r5: bool)
    requires hasher.Sound()
    ensures r1 && !r2 && !r3 && !r4 && !r5
  {
    var access := new UserAccessSystemArgon2(hasher);
    r1 := access.Register("user1@user.com", "12345", salt);
    r2 := access.Register("user1@user.com", "dogandcat", salt);
    r3 := access.Register("", "mytaylorisrich", salt);
    r4 := access.Register("user4@user.com", "", salt);
    r5 := access.Register("", "", salt);
  }

  /** The first three users the login test registers; each registration succeeds. */
  method FirstThreeUsers(hasher: Hasher, salt: Salt) returns (access: UserAccessSystemArgon2)
    requires hasher.Sound()
    ensures fresh(access) && access.Valid() && access.argon2 == hasher
    ensures access.users == [
      User("user6@user.com", hasher.hash("12345", salt)),
      User("user7@user.com", hasher.hash("dogandcat", salt)),
      User("user8@user.com", hasher.hash("mytaylorisrich", salt))]
  {
    access := new UserAccessSystemArgon2(hasher);
    var ok := access.Register("user6@user.com", "12345", salt);
    assert ok;
    assert "user6@user.com"[4] != "user7@user.com"[4];
    ok := access.Register("user7@user.com", "dogandcat", salt);
    assert ok;
    assert "user6@user.com"[4] != "user8@user.com"[4] && "user7@user.com"[4] != "user8@user.com"[4];
    ok := access.Register("user8@user.com", "mytaylorisrich", salt);
    assert ok;
  }

  /** The five users the login test registers first; every registration succeeds. */
  method LoginFixture(hasher: Hasher, salt: Salt) returns (access: UserAccessSystemArgon2)
    requires hasher.Sound()
    ensures fresh(access) && access.Valid() && access.argon2 == hasher
    ensures access.users == [
      User("user6@user.com", hasher.hash("12345", salt)),
      User("user7@user.com", hasher.hash("dogandcat", salt)),
      User("user8@user.com", hasher.hash("mytaylorisrich", salt)),
      User("user9@user.com", hasher.hash("01012000", salt)),
      User("user10@user.com", hasher.hash("imbored", salt))]
  {
    access := FirstThreeUsers(hasher, salt);
    assert "user6@user.com"[4] != "user9@user.com"[4] && "user7@user.com"[4] != "user9@user.com"[4];
    assert "user8@user.com"[4] != "user9@user.com"[4];
    var ok := access.Register("user9@user.com", "01012000", salt);
    assert ok;
    ok := access.Register("user10@user.com", "imbored", salt);
    assert ok;
  }

  /**
   * Login after registering five users: the right password, a wrong one,
   * an unknown email, the empty email and the empty password. The wrong
   * password cases rely on the hasher being exact.
   */
  method LoginScenario(hasher: Hasher, salt: Salt) returns (c1: int, c2: int, c3: int, c4: int, c5: int)
    requires hasher.Sound() && hasher.Exact()
    ensures c1 == OK && c2 == BAD_PASSWORD && c3 == UNKNOWN_EMAIL && c4 == UNKNOWN_EMAIL && c5 == BAD_PASSWORD
  {
    var access := LoginFixture(hasher, salt);
    assert access.users[0].email == "user6@user.com";
    c1 := access.Login("user6@user.com", "12345");
    assert access.users[1].email == "user7@user.com";
    assert "dogandcat"[0] != "catandmouse"[0];
    c2 := access.Login("user7@user.com", "catandmouse");
    assert "user18@user.com"[5] != "user10@user.com"[5];
    c3 := access.Login("user18@user.com", "mytaylorisrich");
    c4 := access.Login("", "01012000");
    assert access.users[4].email == "user10@user.com";
    c5 := access.Login("user10@user.com", "");
  }
}
