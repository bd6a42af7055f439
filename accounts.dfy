/** Dashboard accounts: salted password hashes, the users table keyed by lower-cased e-mail,
    registration, the ordered login gate, the one-shot e-mail verification token, admin
    approval, the bootstrap admin and the session guards. */
module Accounts {
  import opened Wrappers

  /** Lower-hex text, as `secrets.token_hex` and `hexdigest()` produce it. */
  predicate IsHex(s: string) {
    forall i | 0 <= i < |s| :: s[i] in "0123456789abcdef"
  }

  type Hex = s: string | IsHex(s)

  /** SHA-256 of a UTF-8 string, as its hex digest; a foreign call the model takes as given. */
  type Digest = string -> Hex

  // ---------- strings ----------

  /** `str.lower()` on the ASCII letters. */
  function Lower(s: string): (r: string)
    ensures |r| == |s|
    ensures forall i | 0 <= i < |s| :: r[i] == LowerChar(s[i])
  {
    if s == [] then [] else [LowerChar(s[0])] + Lower(s[1..])
  }

  function LowerChar(c: char): char {
    if 'A' <= c <= 'Z' then (c - 'A' + 'a') as char else c
  }

  lemma LowerIdempotent(s: string)
    ensures Lower(Lower(s)) == Lower(s)
  {
  }

  /** The characters `str.strip()` removes among the ASCII ones: tab to carriage return, the four
      separators 0x1C to 0x1F, and space. */
  predicate IsSpace(c: char) {
    9 <= c as int <= 13 || 28 <= c as int <= 32
  }

  function TrimStart(s: string): (r: string)
    ensures |r| <= |s| && r == s[|s| - |r|..]
    ensures r == [] || !IsSpace(r[0])
    ensures forall i | 0 <= i < |s| - |r| :: IsSpace(s[i])
  {
    if s != [] && IsSpace(s[0]) then TrimStart(s[1..]) else s
  }

  function TrimEnd(s: string): (r: string)
    ensures |r| <= |s| && r == s[..|r|]
    ensures r == [] || !IsSpace(r[|r| - 1])
    ensures forall i | |r| <= i < |s| :: IsSpace(s[i])
  {
    if s != [] && IsSpace(s[|s| - 1]) then TrimEnd(s[..|s| - 1]) else s
  }

  /** `str.strip()`: the text without leading and trailing whitespace. */
  function Strip(s: string): (r: string)
    ensures r == [] || (!IsSpace(r[0]) && !IsSpace(r[|r| - 1]))
    ensures exists i, j | 0 <= i <= j <= |s| ::
              && r == s[i..j]
              && (forall k | 0 <= k < i :: IsSpace(s[k]))
              && (forall k | j <= k < |s| :: IsSpace(s[k]))
  {
    var t := TrimStart(s);
    var r := TrimEnd(t);
    var i := |s| - |t|;
    assert r == s[i..i + |r|];
    assert forall k | i + |r| <= k < |s| :: IsSpace(s[k]) by {
      forall k | i + |r| <= k < |s| ensures IsSpace(s[k]) {
        assert s[k] == t[k - i];
      }
    }
    r
  }

  lemma StripIdempotent(s: string)
    ensures Strip(Strip(s)) == Strip(s)
  {
  }

  /** `s.split(sep)`: the pieces between separators; always at least one. */
  function Split(s: string, sep: char): (parts: seq<string>)
    ensures |parts| >= 1
    ensures forall i | 0 <= i < |parts| :: sep !in parts[i]
    decreases |s|
  {
    if s == [] then [""]
    else if s[0] == sep then [""] + Split(s[1..], sep)
    else
      var rest := Split(s[1..], sep);
      [[s[0]] + rest[0]] + rest[1..]
  }

  /** `sep.join(parts)`. */
  function Join(parts: seq<string>, sep: char): string
    requires |parts| >= 1
    decreases |parts|
  {
    if |parts| == 1 then parts[0] else parts[0] + [sep] + Join(parts[1..], sep)
  }

  /** Joining the pieces gives back the text. */
  lemma {:induction false} SplitJoin(s: string, sep: char)
    ensures Join(Split(s, sep), sep) == s
    decreases |s|
  {
    if s != [] {
      SplitJoin(s[1..], sep);
      var rest := Split(s[1..], sep);
      if s[0] != sep {
        if |rest| == 1 {
          assert Join([[s[0]] + rest[0]] + rest[1..], sep) == [s[0]] + rest[0];
        } else {
          assert ([[s[0]] + rest[0]] + rest[1..])[1..] == rest[1..];
        }
      }
      assert s == [s[0]] + s[1..];
    }
  }

  /** Text without the separator is one piece. */
  lemma {:induction false} SplitWithoutSeparator(s: string, sep: char)
    requires sep !in s
    ensures Split(s, sep) == [s]
    decreases |s|
  {
    if s != [] {
      SplitWithoutSeparator(s[1..], sep);
      assert s == [s[0]] + s[1..];
    }
  }

  /** `a + sep + b` splits back into `a` and `b` when neither holds the separator. */
  lemma {:induction false} SplitPair(a: string, b: string, sep: char)
    requires sep !in a && sep !in b
    ensures Split(a + [sep] + b, sep) == [a, b]
    decreases |a|
  {
    if a == [] {
      assert a + [sep] + b == [sep] + b;
      SplitWithoutSeparator(b, sep);
    } else {
      assert (a + [sep] + b)[1..] == a[1..] + [sep] + b;
      SplitPair(a[1..], b, sep);
      assert [a[0]] + a[1..] == a;
    }
  }

  // ---------- password hashes ----------

  /** `hash_password`: "salt:digest(password + salt)" for a fresh 32-digit hex salt. */
  function HashPassword(password: string, salt: Hex, digest: Digest): (h: string)
    ensures Split(h, ':') == [salt, digest(password + salt)]
  {
    HexHasNoColon(salt);
    HexHasNoColon(digest(password + salt));
    SplitPair(salt, digest(password + salt), ':');
    salt + ":" + digest(password + salt)
  }

  /** `verify_password`: a stored hash that does not split into exactly a salt and a digest
      is a mismatch, not an error. */
  function VerifyPassword(password: string, stored: string, digest: Digest): (ok: bool)
    ensures ok ==> var salt := Split(stored, ':')[0];
                   ':' !in salt && stored == salt + ":" + digest(password + salt)
  {
    var parts := Split(stored, ':');
    if |parts| == 2 && digest(password + parts[0]) == parts[1] then
      SplitJoin(stored, ':');
      assert Join(parts, ':') == parts[0] + [':'] + Join(parts[1..], ':');
      true
    else false
  }

  lemma HexHasNoColon(s: Hex)
    ensures ':' !in s
  {
    forall i | 0 <= i < |s| ensures s[i] != ':' {
      assert s[i] in "0123456789abcdef";
    }
  }

  /** A password verifies against its own hash, whatever the salt and the digest function. */
  lemma VerifyOwnHash(password: string, salt: Hex, digest: Digest)
    ensures VerifyPassword(password, HashPassword(password, salt, digest), digest)
  {
    HexHasNoColon(salt);
    HexHasNoColon(digest(password + salt));
    SplitPair(salt, digest(password + salt), ':');
  }

  /** Another password verifies only when the digest collides. */
  lemma VerifyOtherPassword(password: string, other: string, salt: Hex, digest: Digest)
    ensures VerifyPassword(other, HashPassword(password, salt, digest), digest) <==>
            digest(other + salt) == digest(password + salt)
  {
    HexHasNoColon(salt);
    HexHasNoColon(digest(password + salt));
    SplitPair(salt, digest(password + salt), ':');
  }

  /** A stored value that is not exactly two ':'-separated parts verifies nothing. */
  lemma MalformedHashRejects(password: string, stored: string, digest: Digest)
    requires |Split(stored, ':')| != 2
    ensures !VerifyPassword(password, stored, digest)
  {
  }

  // ---------- the users table ----------

  datatype User = User(id: int, email: string, passwordHash: string, name: string,
                       emailVerified: bool, adminApproved: bool, isAdmin: bool,
                       verificationToken: Option<string>)

  type Users = map<string, User>

  /** The table invariant: keyed by each user's own e-mail, ids positive, distinct and below
      the next id, and pending verification tokens distinct. */
  ghost predicate WellFormed(users: Users, nextId: int) {
    && nextId >= 1
    && (forall e | e in users :: users[e].email == e && 1 <= users[e].id < nextId)
    && (forall e1, e2 | e1 in users && e2 in users && e1 != e2 :: users[e1].id != users[e2].id)
    && (forall e1, e2 | e1 in users && e2 in users && e1 != e2 && users[e1].verificationToken.Some? ::
          users[e1].verificationToken != users[e2].verificationToken)
  }

  /** `get_user_by_email`: the lookup lower-cases the e-mail. */
  function UserByEmail(users: Users, email: string): (u: Option<User>)
    ensures u.Some? <==> Lower(email) in users
    ensures u.Some? ==> u.value == users[Lower(email)]
  {
    if Lower(email) in users then Some(users[Lower(email)]) else None
  }

  /** A token nobody holds: the fresh value `secrets.token_urlsafe` stands for. */
  predicate FreshToken(users: Users, token: string) {
    forall e | e in users :: users[e].verificationToken != Some(token)
  }

  /** The row `create_user` inserts: unverified, unapproved, not admin, holding the token. */
  function NewUser(id: int, email: string, password: string, name: string, salt: Hex, token: string, digest: Digest): User {
    User(id, Lower(email), HashPassword(password, salt, digest), name, false, false, false, Some(token))
  }

  /** `verify_email`: the user holding the token becomes verified and loses the token; None
      when nobody holds it. */
  function VerifyToken(users: Users, token: string): (r: Option<Users>)
    ensures r.Some? <==> exists e | e in users :: users[e].verificationToken == Some(token)
    ensures r.Some? ==> r.value.Keys == users.Keys
  {
    if exists e | e in users :: users[e].verificationToken == Some(token) then
      Some(map e | e in users :: if users[e].verificationToken == Some(token)
                                 then users[e].(emailVerified := true, verificationToken := None)
                                 else users[e])
    else None
  }

  /** `admin_approve`: the user with the id becomes approved (verified or not); None when no
      user has it. */
  function ApproveId(users: Users, id: int): (r: Option<Users>)
    ensures r.Some? <==> exists e | e in users :: users[e].id == id
    ensures r.Some? ==> r.value.Keys == users.Keys
  {
    if exists e | e in users :: users[e].id == id then
      Some(map e | e in users :: if users[e].id == id then users[e].(adminApproved := true) else users[e])
    else None
  }

  /** A token works once: after it verified its user, it verifies nobody. */
  lemma TokenIsOneShot(users: Users, token: string)
    requires VerifyToken(users, token).Some?
    ensures VerifyToken(VerifyToken(users, token).value, token).None?
  {
  }

  /** Verification changes only the token holder, and only those two fields. */
  lemma VerifyTouchesOnlyHolder(users: Users, token: string, e: string)
    requires VerifyToken(users, token).Some? && e in users
    ensures var after := VerifyToken(users, token).value;
            && (users[e].verificationToken == Some(token) ==>
                  after[e] == users[e].(emailVerified := true, verificationToken := None))
            && (users[e].verificationToken != Some(token) ==> after[e] == users[e])
  {
  }

  /** Approval does not verify: the approved user's verification state is kept. */
  lemma ApprovalKeepsVerification(users: Users, id: int, e: string)
    requires ApproveId(users, id).Some? && e in users
    ensures ApproveId(users, id).value[e].emailVerified == users[e].emailVerified
    ensures users[e].id == id ==> ApproveId(users, id).value[e].adminApproved
  {
  }

  // ---------- sessions and the login gate ----------

  /** The signed-in part of the Flask session; Anonymous when it holds no user id. */
  datatype Session = Anonymous | SignedIn(userId: int, email: string, name: string, isAdmin: bool)

  datatype LoginError = BadCredentials | Unverified | AwaitingApproval

  datatype LoginResult = Refused(error: LoginError) | Granted(session: Session)

  /** The login route's gate, checked in order: known user, matching password, verified
      e-mail, admin approval. The e-mail is stripped; the password is not. */
  function SignIn(users: Users, email: string, password: string, digest: Digest): (r: LoginResult)
    ensures r.Granted? <==> Lower(Strip(email)) in users
                            && VerifyPassword(password, users[Lower(Strip(email))].passwordHash, digest)
                            && users[Lower(Strip(email))].emailVerified
                            && users[Lower(Strip(email))].adminApproved
    ensures r == Refused(BadCredentials) <==>
              (Lower(Strip(email)) !in users || !VerifyPassword(password, users[Lower(Strip(email))].passwordHash, digest))
    ensures r == Refused(Unverified) <==>
              (Lower(Strip(email)) in users && VerifyPassword(password, users[Lower(Strip(email))].passwordHash, digest)
               && !users[Lower(Strip(email))].emailVerified)
    ensures r == Refused(AwaitingApproval) <==>
              (Lower(Strip(email)) in users && VerifyPassword(password, users[Lower(Strip(email))].passwordHash, digest)
               && users[Lower(Strip(email))].emailVerified && !users[Lower(Strip(email))].adminApproved)
    ensures r.Granted? ==> var u := users[Lower(Strip(email))];
                           r.session == SignedIn(u.id, u.email, u.name, u.isAdmin)
  {
    match UserByEmail(users, Strip(email))
    case None => Refused(BadCredentials)
    case Some(u) =>
      if !VerifyPassword(password, u.passwordHash, digest) then Refused(BadCredentials)
      else if !u.emailVerified then Refused(Unverified)
      else if !u.adminApproved then Refused(AwaitingApproval)
      else Granted(SignedIn(u.id, u.email, u.name, u.isAdmin))
  }

  /** Verification is checked before approval: a user with neither who gives the right
      password is told to verify, not to wait for approval. */
  lemma VerificationCheckedFirst(users: Users, email: string, password: string, digest: Digest)
    requires Lower(Strip(email)) in users
    requires VerifyPassword(password, users[Lower(Strip(email))].passwordHash, digest)
    requires !users[Lower(Strip(email))].emailVerified
    ensures SignIn(users, email, password, digest) == Refused(Unverified)
  {
  }

  /** `login_required`: a signed-in session. */
  function LoginRequired(s: Session): (ok: bool)
    ensures ok <==> s != Anonymous
  {
    s.SignedIn?
  }

  /** `admin_required`: a signed-in admin session. */
  function AdminRequired(s: Session): (ok: bool)
    ensures ok ==> LoginRequired(s)
    ensures ok <==> s != Anonymous && s.isAdmin
  {
    s.SignedIn? && s.isAdmin
  }

  /** Every session the admin guard admits, the login guard admits; logging out (clearing the
      session) makes both refuse. */
  lemma GuardsNest(s: Session)
    ensures AdminRequired(s) ==> LoginRequired(s)
    ensures !LoginRequired(Anonymous) && !AdminRequired(Anonymous)
  {
  }

  /** A user signs in through the login route only once approved and verified; the admin
      guard admits the session only for an admin. */
  lemma GrantedSessionPassesGuards(users: Users, email: string, password: string, digest: Digest)
    requires SignIn(users, email, password, digest).Granted?
    ensures LoginRequired(SignIn(users, email, password, digest).session)
    ensures AdminRequired(SignIn(users, email, password, digest).session) <==> users[Lower(Strip(email))].isAdmin
  {
  }

  // ---------- registration ----------

  datatype RegisterError = MissingField | PasswordTooShort | AlreadyRegistered | CreateFailed

  datatype RegisterResult = RegisterRefused(error: RegisterError) | Registered(id: int)

  /** The checks of the register route, in order, before the table is touched; None when they
      all pass. */
  function RegisterCheck(users: Users, name: string, email: string, password: string): (e: Option<RegisterError>)
    ensures e == Some(MissingField) <==> Strip(name) == "" || Strip(email) == "" || password == ""
    ensures e == Some(PasswordTooShort) <==> Strip(name) != "" && Strip(email) != "" && password != "" && |password| < 6
    ensures e == Some(AlreadyRegistered) <==> Strip(name) != "" && Strip(email) != "" && |password| >= 6
                                              && Lower(Strip(email)) in users
    ensures e.None? <==> Strip(name) != "" && Strip(email) != "" && |password| >= 6 && Lower(Strip(email)) !in users
  {
    if Strip(name) == "" || Strip(email) == "" || password == "" then Some(MissingField)
    else if |password| < 6 then Some(PasswordTooShort)
    else if UserByEmail(users, Strip(email)).Some? then Some(AlreadyRegistered)
    else None
  }

  /** A user just registered (and so unverified) cannot sign in, whatever the password. */
  lemma NewUserCannotSignIn(users: Users, id: int, email: string, password: string, name: string,
                            salt: Hex, token: string, digest: Digest, attempt: string)
    requires Strip(email) == email
    ensures var after := users[Lower(email) := NewUser(id, email, password, name, salt, token, digest)];
            !SignIn(after, email, attempt, digest).Granted?
  {
  }

  /** The full path: registration, then the token, then approval lets the user in with the
      password they registered. */
  lemma RegisterVerifyApproveSignIn(users: Users, nextId: int, email: string, password: string, name: string,
                                    salt: Hex, token: string, digest: Digest)
    requires WellFormed(users, nextId) && FreshToken(users, token)
    requires Strip(email) == email && Lower(email) !in users
    ensures var created := users[Lower(email) := NewUser(nextId, email, password, name, salt, token, digest)];
            && VerifyToken(created, token).Some?
            && ApproveId(VerifyToken(created, token).value, nextId).Some?
            && SignIn(ApproveId(VerifyToken(created, token).value, nextId).value, email, password, digest).Granted?
  {
    var key := Lower(email);
    var created := users[key := NewUser(nextId, email, password, name, salt, token, digest)];
    assert key in created && created[key].verificationToken == Some(token);
    var verified := VerifyToken(created, token).value;
    assert verified[key] == created[key].(emailVerified := true, verificationToken := None);
    assert key in verified && verified[key].id == nextId;
    var approved := ApproveId(verified, nextId).value;
    var u := approved[key];
    assert u == verified[key].(adminApproved := true);
    assert u.passwordHash == HashPassword(password, salt, digest) && u.emailVerified && u.adminApproved;
    VerifyOwnHash(password, salt, digest);
    assert Lower(Strip(email)) == key;
  }

  /** The bootstrap admin: verified, approved, admin, no token. */
  function AdminUser(id: int, email: string, password: string, salt: Hex, digest: Digest): User {
    User(id, Lower(email), HashPassword(password, salt, digest), "Admin", true, true, true, None)
  }

  /** A table holding only the bootstrap admin is well formed. */
  lemma AdminTableWellFormed(id: int, email: string, password: string, salt: Hex, digest: Digest)
    requires 1 <= id
    ensures WellFormed(map[Lower(email) := AdminUser(id, email, password, salt, digest)], id + 1)
  {
    LowerIdempotent(email);
  }

  /** The bootstrap admin signs in with the configured password. */
  lemma BootstrapAdminSignsIn(id: int, email: string, password: string, salt: Hex, digest: Digest)
    requires Strip(email) == email
    ensures var users := map[Lower(email) := AdminUser(id, email, password, salt, digest)];
            SignIn(users, email, password, digest) == Granted(SignedIn(id, Lower(email), "Admin", true))
  {
    VerifyOwnHash(password, salt, digest);
  }

  const DefaultAdminEmail := "martin@strandholm.com"
  const DefaultAdminPassword := "admin123"

  /** The admin's e-mail and password: a value set in the environment wins over the default. */
  function AdminCredentials(envEmail: Option<string>, envPassword: Option<string>): (c: (string, string))
    ensures envEmail.Some? ==> c.0 == envEmail.value
    ensures envEmail.None? ==> c.0 == DefaultAdminEmail
    ensures envPassword.Some? ==> c.1 == envPassword.value
    ensures envPassword.None? ==> c.1 == DefaultAdminPassword
  {
    (envEmail.GetOr(DefaultAdminEmail), envPassword.GetOr(DefaultAdminPassword))
  }

  class UserTable {
    var users: Users
    var nextId: int

    constructor ()
      ensures users == map[] && nextId == 1
    {
      users := map[];
      nextId := 1;
    }

    ghost predicate Valid()
      reads this
    {
      WellFormed(users, nextId)
    }

    /** `create_user`: inserts the new row under the lower-cased e-mail and returns its id;
        None (and no change) when the e-mail is taken. */
    method CreateUser(email: string, password: string, name: string, salt: Hex, token: string, digest: Digest)
      returns (id: Option<int>)
      requires Valid() && FreshToken(users, token)
      modifies this
      ensures Valid()
      ensures Lower(email) in old(users) ==> id.None? && users == old(users) && nextId == old(nextId)
      ensures Lower(email) !in old(users) ==>
                && id == Some(old(nextId))
                && users == old(users)[Lower(email) := NewUser(old(nextId), email, password, name, salt, token, digest)]
                && nextId == old(nextId) + 1
    {
      var key := Lower(email);
      if key in users {
        return None;
      }
      users := users[key := NewUser(nextId, email, password, name, salt, token, digest)];
      id := Some(nextId);
      nextId := nextId + 1;
    }

    /** `ensure_admin_exists`: only an empty table gets the admin. The e-mail and password
        are the environment's values, or `DefaultAdminEmail` and `DefaultAdminPassword` where
        the environment has none (`AdminCredentials`). */
    method EnsureAdminExists(email: string, password: string, salt: Hex, digest: Digest)
      requires Valid()
      modifies this
      ensures Valid()
      ensures old(users) != map[] ==> users == old(users) && nextId == old(nextId)
      ensures old(users) == map[] ==>
                && users == map[Lower(email) := AdminUser(old(nextId), email, password, salt, digest)]
                && nextId == old(nextId) + 1
    {
      if users.Keys == {} {
        assert users == map[];
        AdminTableWellFormed(nextId, email, password, salt, digest);
        users := map[Lower(email) := AdminUser(nextId, email, password, salt, digest)];
        nextId := nextId + 1;
      }
    }

    /** The register route: the checks in order, then `create_user`. */
    method Register(name: string, email: string, password: string, salt: Hex, token: string, digest: Digest)
      returns (r: RegisterResult)
      requires Valid() && FreshToken(users, token)
      modifies this
      ensures Valid()
      ensures RegisterCheck(old(users), name, email, password).Some? ==>
                r == RegisterRefused(RegisterCheck(old(users), name, email, password).value)
                && users == old(users) && nextId == old(nextId)
      ensures RegisterCheck(old(users), name, email, password).None? ==>
                && r == Registered(old(nextId))
                && users == old(users)[Lower(Strip(email)) := NewUser(old(nextId), Strip(email), password, Strip(name), salt, token, digest)]
                && nextId == old(nextId) + 1
    {
      var check := RegisterCheck(users, name, email, password);
      if check.Some? {
        return RegisterRefused(check.value);
      }
      var id := CreateUser(Strip(email), password, Strip(name), salt, token, digest);
      r := if id.Some? then Registered(id.value) else RegisterRefused(CreateFailed);
    }

    /** `verify_email`: True iff some user held the token. */
    method VerifyEmail(token: string) returns (ok: bool)
      requires Valid()
      modifies this
      ensures Valid()
      ensures ok <==> VerifyToken(old(users), token).Some?
      ensures users == (if ok then VerifyToken(old(users), token).value else old(users))
      ensures nextId == old(nextId)
    {
      var after := VerifyToken(users, token);
      if after.Some? {
        users := after.value;
        ok := true;
      } else {
        ok := false;
      }
    }

    /** `admin_approve`: True iff a user has the id. */
    method AdminApprove(id: int) returns (ok: bool)
      requires Valid()
      modifies this
      ensures Valid()
      ensures ok <==> ApproveId(old(users), id).Some?
      ensures users == (if ok then ApproveId(old(users), id).value else old(users))
      ensures nextId == old(nextId)
    {
      var after := ApproveId(users, id);
      if after.Some? {
        users := after.value;
        ok := true;
      } else {
        ok := false;
      }
    }
  }
}
