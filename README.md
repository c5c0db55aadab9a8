# UserAccessSystemArgon2 — a verified model of the credential directory

The Java class `UserAccessSystemArgon2` keeps an in-memory list of user
records, each an email and an Argon2id password hash. It offers two
operations:

- `register(email, password)` refuses an empty email or an empty password.
  It also refuses an email that is already stored, found by a linear scan.
  Otherwise it hashes the password, appends the new record and returns `true`.
- `login(email, password)` scans for the email. It returns `-1` when the email
  is unknown, `-2` when the stored hash does not verify against the password,
  and `1` on success.

The model has four modules:

- `Wrappers` holds `Option`, which stands in for Java's `null`.
- `Argon2` models the hashing library as a value
  `Hasher(hash, verify)`. `hash(password, salt)` derives the encoded hash and
  `verify(encoded, password)` checks a password against it. Only two
  properties are assumed of it. `Sound()`: a fresh hash verifies against its
  own password. This is required when a directory is constructed.
  `Exact()`: a hash verifies against no other password. Only the login test
  scenario needs it. `Plain()` shows that one hasher has both properties,
  so the two assumptions do not contradict each other.
- `UserAccess` holds the `User` record, the class `UserAccessSystemArgon2`
  and its specification. The class has a `users: seq<User>` field that
  `Register` reassigns and a `const argon2: Hasher`. `Valid()` says the hasher
  is sound and the list is well formed: unique emails, none of them empty.
  The scan (Java's `for` loop that leaves the last match in `storedUser`) is
  the method `FindStored`. It is proved equal to the function `LastMatch`, and
  lemmas relate `LastMatch` to plain membership. `LoginCode` is the
  specification of `login`'s result.
- `Scenarios` replays the two unit tests in
  `src/test/java/UserAccessSystemArgon2Test.java` against the model and proves
  the results the tests assert.

## Model

| member | source | states |
|---|---|---|
| `UserAccess.UserAccessSystemArgon2.constructor` | src/main/java/UserAccessSystemArgon2.java:11-12 | A new directory is empty and valid, and it is bound to the given (sound) hashing service |
| `UserAccess.UserAccessSystemArgon2.FindStored` | src/main/java/UserAccessSystemArgon2.java:25-29 | The scan returns exactly the last record whose email matches, or none; it changes nothing |
| `UserAccess.UserAccessSystemArgon2.Register` | src/main/java/UserAccessSystemArgon2.java:21-39 | Returns true exactly when email and password are non-empty and the email was absent. On success the list is the old list plus one record at the end, holding the email and the password's hash, and that hash verifies against the password. On failure the list is unchanged. Uniqueness and non-empty emails are preserved |
| `UserAccess.UserAccessSystemArgon2.Login` | src/main/java/UserAccessSystemArgon2.java:47-65 | Returns -1 exactly when no record has the email, and always for the empty email. When a record has the email, returns 1 if its hash verifies against the password and -2 if not. Changes nothing |
| `UserAccess.LoginCode` | src/main/java/UserAccessSystemArgon2.java:55-64 | The login result is always one of -1, -2 and 1 |
| `UserAccess.LastMatchFinds` | src/main/java/UserAccessSystemArgon2.java:50-57 | The scan finds nothing exactly when no stored record has the email; what it finds is a stored record with that email |
| `UserAccess.LastMatchUnique` | src/main/java/UserAccessSystemArgon2.java:50-54 | With unique emails, the scan finds the one record that has the email, so last-match and first-match agree |
| `UserAccess.LoginCodeMeaning` | src/main/java/UserAccessSystemArgon2.java:47-64 | With unique emails, login gives -1 exactly when the email is absent; for the record holding the email it gives 1 exactly when that hash verifies and -2 exactly when it does not |
| `UserAccess.AppendKeepsWellFormed` | src/main/java/UserAccessSystemArgon2.java:22-34 | Appending a record whose email is non-empty and absent keeps emails unique and non-empty |
| `UserAccess.RegisterTwiceRefused` | src/main/java/UserAccessSystemArgon2.java:25-31 | Once a record for an email is appended, registering that email again is refused, whatever the password |
| `UserAccess.LoginAfterRegister` | src/main/java/UserAccessSystemArgon2.java:33-34 | After a record is appended with a sound hash of a password, logging in with that email and password returns 1 |
| `Scenarios.RegisterScenario` | src/test/java/UserAccessSystemArgon2Test.java:8-18 | The first registration succeeds; a second one with the same email, and those with an empty email, an empty password or both, all return false |
| `Scenarios.FirstThreeUsers` | src/test/java/UserAccessSystemArgon2Test.java:25-34 | Registering the first three test users (user6, user7, user8) succeeds each time and leaves exactly those three records, in order |
| `Scenarios.LoginFixture` | src/test/java/UserAccessSystemArgon2Test.java:22-34 | Registering the five test users succeeds each time and leaves exactly those five records, in order |
| `Scenarios.LoginScenario` | src/test/java/UserAccessSystemArgon2Test.java:36-42 | The five logins return 1, -2, -1, -1 and -2, given a sound and exact hasher |

## Left out

- The internals of Argon2id are not modelled: the cost parameters `20, 65536, 1` and `40, 65536, 1`, the salt generation and the constant-time comparison. The hasher is a pair of functions with the `Sound()` and `Exact()` properties. The random salt of `hash` is a parameter of `Register`.
- `Argon2Factory.create` becomes the `Hasher` passed to the constructor.
- The `char[]` conversion of the password is not modelled. Passwords are strings.
- The hash that `login` computes at line 60 and then discards has no observable effect. It is not modelled.
- `Exact()` is not a theorem about any real hasher. It is an explicit precondition of `Scenarios.LoginScenario` only, because the test's `-2` results depend on it.
- Java `null` arguments are not modelled, since Dafny strings cannot be null. In the source, `register("", null)` returns false because the `&&` at src/main/java/UserAccessSystemArgon2.java:22 stops early. `login(null, p)` returns -1, because `equals(null)` is false at :51. `login(e, null)` returns -1 for an unknown `e`, before :59 touches the password. Three cases throw a NullPointerException: `register(null, p)`, `register(e, null)` with a non-empty `e`, and `login(e, null)` for a stored `e`.
- The list is not synchronised, and the model covers single-threaded use only.
- The directory reads only `getEmail` and `getPasswordHash` of a `User` (src/main/java/UserAccessSystemArgon2.java:26, :51, :61). `User` is therefore modelled as an immutable record of those two fields.
