/** The offline side of the sign-in module (modules/auth.js): the cached user
    list, registration with its uniqueness rule, login against the stored
    password hash, the two password resets (by recovery answer and by e-mailed
    code) and the 32-bit rolling hash used when WebCrypto is unavailable.
    The network paths are not modelled; `Register` is the path taken when the
    server cannot be reached. */
module Auth {
  import opened Wrappers
  import Text
  import Records

  // ---------------------------------------------------------------- the fallback hash

  const TwoTo31: int := 0x8000_0000
  const TwoTo32: int := 0x1_0000_0000

  /** JavaScript's `x | 0`: the signed 32-bit integer congruent to `x`. */
  function Wrap32(x: int): (r: int)
    ensures -TwoTo31 <= r < TwoTo31
    ensures -TwoTo31 <= x < TwoTo31 ==> r == x
  {
    (x + TwoTo31) % TwoTo32 - TwoTo31
  }

  lemma ModShift(a: int, t: int)
    ensures (a + t * TwoTo32) % TwoTo32 == a % TwoTo32
  {
    var q, r := a / TwoTo32, a % TwoTo32;
    assert a + t * TwoTo32 == (q + t) * TwoTo32 + r;
  }

  /** Adding a multiple of 2^32 does not change the wrapped value. */
  lemma Wrap32Shift(a: int, t: int)
    ensures Wrap32(a + t * TwoTo32) == Wrap32(a)
  {
    ModShift(a + TwoTo31, t);
  }

  /** Wrapping an intermediate result early does not change the final wrap:
      `Wrap32(k * Wrap32(x) + y) == Wrap32(k * x + y)`. */
  lemma Wrap32Absorbs(k: int, x: int, y: int)
    ensures Wrap32(k * Wrap32(x) + y) == Wrap32(k * x + y)
  {
    var q := (x + TwoTo31) / TwoTo32;
    assert Wrap32(x) == x - q * TwoTo32;
    assert k * Wrap32(x) + y == (k * x + y) + (-(k * q)) * TwoTo32 by {
      assert k * (x - q * TwoTo32) == k * x - (k * q) * TwoTo32;
    }
    Wrap32Shift(k * x + y, -(k * q));
  }

  /** `s.charCodeAt(i)`. */
  function CharCode(c: char): int { c as int }

  /** The fallback hash, character by character: h(0) = 0 and
      h(n+1) = wrap32(31·h(n) + code of the next character). */
  function RollingHash(s: string): (h: int)
    ensures -TwoTo31 <= h < TwoTo31
  {
    if s == [] then 0 else Wrap32(31 * RollingHash(s[..|s| - 1]) + CharCode(s[|s| - 1]))
  }

  /** The unwrapped polynomial Σ code(s[i])·31^(n-1-i), an independent definition. */
  function Poly(s: string): int
  {
    if s == [] then 0 else 31 * Poly(s[..|s| - 1]) + CharCode(s[|s| - 1])
  }

  /** The rolling hash is the polynomial hash taken modulo 2^32. */
  lemma {:induction false} RollingHashIsPoly(s: string)
    ensures RollingHash(s) == Wrap32(Poly(s))
  {
    if s != [] {
      var init := s[..|s| - 1];
      RollingHashIsPoly(init);
      Wrap32Absorbs(31, Poly(init), CharCode(s[|s| - 1]));
    }
  }

  /** `String(h)`. */
  function IntText(h: int): string
  {
    if h < 0 then "-" + Text.NatToDigits(-h) else Text.NatToDigits(h)
  }

  function FallbackHashText(s: string): string
  {
    IntText(RollingHash(s))
  }

  /** The fallback branch of `_hash`: the loop `h = ((h << 5) - h) + code; h |= 0`,
      where `h << 5` is itself a 32-bit operation. */
  method FallbackHash(text: string) returns (r: string)
    ensures r == FallbackHashText(text)
  {
    var h := 0;
    var i := 0;
    while i < |text|
      invariant 0 <= i <= |text|
      invariant h == RollingHash(text[..i])
    {
      var shifted := Wrap32(h * 32);
      Wrap32Absorbs(1, h * 32, -h + CharCode(text[i]));
      assert text[..i + 1][..i] == text[..i];
      h := Wrap32(shifted - h + CharCode(text[i]));
      i := i + 1;
    }
    assert text[..i] == text;
    r := IntText(h);
  }

  /** `_hash`: the SHA-256 hex digest when WebCrypto is available, the fallback otherwise. */
  function HashWith(webCrypto: Option<string -> string>): string -> string
  {
    if webCrypto.Some? then webCrypto.value else FallbackHashText
  }

  // ---------------------------------------------------------------- the user list

  /** A cached user; the recovery-code fields are absent (`None`) until a code is requested. */
  datatype AuthUser = AuthUser(
    id: string, username: string, email: string, passwordHash: string,
    recoveryQuestion: string, recoveryAnswerHash: string, createdAt: string,
    recoveryCodeHash: Option<string>, recoveryCodeExpiresAt: Option<int>, offline: bool)

  function UserId(u: AuthUser): string { u.id }

  datatype PublicUser = PublicUser(id: string, username: string, email: string)

  function Public(u: AuthUser): PublicUser { PublicUser(u.id, u.username, u.email) }

  /** What the session keeps after an offline login. */
  datatype SessionUser = SessionUser(id: string, username: string)

  datatype RegisterForm = RegisterForm(username: string, email: string, password: string,
                                       recoveryQuestion: string, recoveryAnswer: string)

  /** The error texts of the module, one constructor each. */
  datatype AuthError =
    | MissingFields     // 'Username, email e senha são obrigatórios'
    | UserExists        // 'Usuário já existe (offline)'
    | UserNotFound      // 'Usuário não encontrado (offline)' / 'user-not-found'
    | WrongPassword     // 'Senha incorreta (offline)'
    | WrongAnswer       // 'Resposta incorreta (offline)'
    | UpdateFailed      // 'Erro ao atualizar (offline)'
    | NoRecoveryEmail   // 'user-or-email-not-found'
    | IncompleteData    // 'Dados incompletos'
    | CodeExpired       // 'Código expirado ou inexistente'
    | WrongCode         // 'Código incorreto'

  datatype Reply =
    | Fail(error: AuthError)
    | Registered(user: PublicUser)
    | LoggedIn(user: PublicUser)
    | PasswordChanged
    | CodeIssued(code: string, sent: bool)

  /** The reply of an operation together with the user list it leaves. */
  datatype Step = Step(reply: Reply, users: seq<AuthUser>)

  /** The lookup key of `_findUser`: trimmed, then lower-cased. */
  function Key(query: string): string { Text.Lower(Text.Trim(query)) }

  predicate Matches(u: AuthUser, q: string) {
    Text.Lower(u.username) == q || Text.Lower(u.email) == q
  }

  /** `_findUser`: the index of the first user whose username or e-mail equals
      the key ignoring case, or -1 for `null`. */
  function FindUser(users: seq<AuthUser>, query: string): (i: int)
    ensures -1 <= i < |users|
    ensures 0 <= i ==> Matches(users[i], Key(query)) && forall j | 0 <= j < i :: !Matches(users[j], Key(query))
    ensures i == -1 ==> forall j | 0 <= j < |users| :: !Matches(users[j], Key(query))
  {
    Records.FirstIndex(users, (u: AuthUser) => Matches(u, Key(query)))
  }

  /** Two lists with the same usernames and e-mails, position by position, answer every lookup alike. */
  lemma FindUserSameLogins(a: seq<AuthUser>, b: seq<AuthUser>, query: string)
    requires |a| == |b|
    requires forall k | 0 <= k < |a| :: a[k].username == b[k].username && a[k].email == b[k].email
    ensures FindUser(b, query) == FindUser(a, query)
  {
    var i, j := FindUser(a, query), FindUser(b, query);
    if i >= 0 {
      assert Matches(b[i], Key(query));
    }
    if j >= 0 {
      assert Matches(a[j], Key(query));
    }
  }

  /** Rewriting one user's secrets, keeping username and e-mail, leaves every lookup unchanged. */
  lemma FindUserAfterUpdate(users: seq<AuthUser>, i: int, u: AuthUser, query: string)
    requires 0 <= i < |users| && u.username == users[i].username && u.email == users[i].email
    ensures FindUser(users[i := u], query) == FindUser(users, query)
  {
    var b := users[i := u];
    forall k | 0 <= k < |users| ensures users[k].username == b[k].username && users[k].email == b[k].email {
    }
    FindUserSameLogins(users, b, query);
  }

  // ---------------------------------------------------------------- registration

  /** The clash test of `_registerOffline`: the same username ignoring case, or
      the same e-mail ignoring case when both are non-empty. */
  predicate Clashes(u: AuthUser, username: string, email: string) {
    Text.Lower(u.username) == Text.Lower(username)
    || (email != "" && u.email != "" && Text.Lower(u.email) == Text.Lower(email))
  }

  /** No two cached users clash with each other. */
  predicate Distinct(users: seq<AuthUser>) {
    forall i, j | 0 <= i < j < |users| :: !Clashes(users[i], users[j].username, users[j].email)
  }

  /** The record `_registerOffline` pushes; `id` is `Date.now()` as text. */
  function NewUser(form: RegisterForm, id: string, now: string, hash: string -> string): AuthUser
  {
    AuthUser(id, form.username, form.email, hash(form.password), form.recoveryQuestion,
             hash(form.recoveryAnswer), now, None, None, true)
  }

  /** `_registerOffline`: refuse a clash, otherwise append exactly one user. */
  function RegisterOffline(users: seq<AuthUser>, form: RegisterForm, id: string, now: string,
                           hash: string -> string): (s: Step)
    ensures s.reply.Registered? <==> forall i | 0 <= i < |users| :: !Clashes(users[i], form.username, form.email)
    ensures s.reply.Registered? ==>
      s.users == users + [NewUser(form, id, now, hash)] && s.reply.user == PublicUser(id, form.username, form.email)
    ensures !s.reply.Registered? ==> s == Step(Fail(UserExists), users)
  {
    if Records.FirstIndex(users, (u: AuthUser) => Clashes(u, form.username, form.email)) >= 0 then
      Step(Fail(UserExists), users)
    else
      Step(Registered(PublicUser(id, form.username, form.email)), users + [NewUser(form, id, now, hash)])
  }

  /** `register` with the server unreachable: the input guard, then `_registerOffline`. */
  function Registration(users: seq<AuthUser>, form: RegisterForm, id: string, now: string,
                    hash: string -> string): (s: Step)
    ensures form.username == "" || form.password == "" || form.email == "" ==>
      s == Step(Fail(MissingFields), users)
    ensures s.reply.Registered? <==>
      && form.username != "" && form.password != "" && form.email != ""
      && forall i | 0 <= i < |users| :: !Clashes(users[i], form.username, form.email)
    ensures s.reply.Registered? ==> s.users == users + [NewUser(form, id, now, hash)]
    ensures !s.reply.Registered? ==> s.users == users
  {
    if form.username == "" || form.password == "" || form.email == "" then Step(Fail(MissingFields), users)
    else RegisterOffline(users, form, id, now, hash)
  }

  /** Registration keeps the cached users free of clashes. */
  lemma RegisterKeepsDistinct(users: seq<AuthUser>, form: RegisterForm, id: string, now: string,
                              hash: string -> string)
    requires Distinct(users)
    ensures Distinct(Registration(users, form, id, now, hash).users)
  {
    var s := Registration(users, form, id, now, hash);
    if s.reply.Registered? {
      var r := s.users;
      forall i, j | 0 <= i < j < |r| ensures !Clashes(r[i], r[j].username, r[j].email) {
        if j == |users| {
          assert r[i] == users[i];
        } else {
          assert r[i] == users[i] && r[j] == users[j];
        }
      }
    }
  }

  // ---------------------------------------------------------------- login

  /** `_loginOffline`: the first matching user, then the hash comparison. */
  function Login(users: seq<AuthUser>, query: string, password: string, hash: string -> string): (r: Reply)
    ensures r.LoggedIn? <==> FindUser(users, query) >= 0 && users[FindUser(users, query)].passwordHash == hash(password)
    ensures r.LoggedIn? ==> r.user == Public(users[FindUser(users, query)])
    ensures FindUser(users, query) < 0 ==> r == Fail(UserNotFound)
    ensures FindUser(users, query) >= 0 && !r.LoggedIn? ==> r == Fail(WrongPassword)
  {
    var i := FindUser(users, query);
    if i < 0 then Fail(UserNotFound)
    else if hash(password) != users[i].passwordHash then Fail(WrongPassword)
    else LoggedIn(Public(users[i]))
  }

  /** A user registered with a username free of surrounding blanks logs in with
      it and the same password, provided no earlier user has that text as e-mail
      (the clash test does not compare usernames with e-mails). */
  lemma RegisteredUserLogsIn(users: seq<AuthUser>, form: RegisterForm, id: string, now: string,
                             hash: string -> string)
    requires Registration(users, form, id, now, hash).reply.Registered?
    requires Text.Trim(form.username) == form.username
    requires forall i | 0 <= i < |users| :: Text.Lower(users[i].email) != Text.Lower(form.username)
    ensures var s := Registration(users, form, id, now, hash);
      Login(s.users, form.username, form.password, hash) == LoggedIn(PublicUser(id, form.username, form.email))
  {
    var r := Registration(users, form, id, now, hash).users;
    var q := Key(form.username);
    assert q == Text.Lower(form.username);
    assert Matches(r[|users|], q);
    forall j | 0 <= j < |users| ensures !Matches(r[j], q) {
      assert r[j] == users[j];
      assert !Clashes(users[j], form.username, form.email);
    }
    assert FindUser(r, form.username) == |users|;
  }

  // ---------------------------------------------------------------- reset by recovery answer

  /** `_resetPasswordOffline`. The record rewritten is the first one carrying
      the found user's id (`findIndex(u => u.id === user.id)`). */
  function AnswerReset(users: seq<AuthUser>, query: string, answer: string, newPassword: string,
                                hash: string -> string): (s: Step)
    ensures var i := FindUser(users, query);
      s.reply == PasswordChanged <==> i >= 0 && hash(answer) == users[i].recoveryAnswerHash
    ensures FindUser(users, query) < 0 ==> s.reply == Fail(UserNotFound)
    ensures s.reply != PasswordChanged ==> s.users == users
    ensures s.reply == PasswordChanged ==>
      var i := FindUser(users, query);
      var k := Records.IndexOf(users, UserId, users[i].id);
      0 <= k <= i && s.users == users[k := users[k].(passwordHash := hash(newPassword))]
  {
    var i := FindUser(users, query);
    if i < 0 then Step(Fail(UserNotFound), users)
    else if hash(answer) != users[i].recoveryAnswerHash then Step(Fail(WrongAnswer), users)
    else
      var k := Records.IndexOf(users, UserId, users[i].id);
      Records.IndexOfPresent(users, UserId, i);
      if k < 0 then Step(Fail(UpdateFailed), users)
      else Step(PasswordChanged, users[k := users[k].(passwordHash := hash(newPassword))])
  }

  /** After a reset by recovery answer, with unique ids, the new password logs in. */
  lemma LoginAfterResetByAnswer(users: seq<AuthUser>, query: string, answer: string, newPassword: string,
                                hash: string -> string)
    requires Records.UniqueKeys(users, UserId)
    requires AnswerReset(users, query, answer, newPassword, hash).reply == PasswordChanged
    ensures Login(AnswerReset(users, query, answer, newPassword, hash).users, query, newPassword, hash).LoggedIn?
  {
    var i := FindUser(users, query);
    Records.IndexOfUnique(users, UserId, i);
    var u := users[i].(passwordHash := hash(newPassword));
    assert AnswerReset(users, query, answer, newPassword, hash).users == users[i := u];
    FindUserAfterUpdate(users, i, u, query);
  }

  // ---------------------------------------------------------------- reset by e-mailed code

  const DefaultTtlMs: int := 15 * 60 * 1000

  /** `opts.ttlMs || 15 * 60 * 1000`. */
  function Ttl(ttlMs: Option<int>): (t: int)
    ensures ttlMs.None? || ttlMs == Some(0) ==> t == DefaultTtlMs
  {
    IntOr(ttlMs, DefaultTtlMs)
  }

  /** `Math.floor(100000 + Math.random() * 900000)` for a draw `random` in [0, 1). */
  function RecoveryCode(random: real): (c: int)
    requires 0.0 <= random < 1.0
    ensures 100000 <= c <= 999999
  {
    (100000.0 + random * 900000.0).Floor
  }

  /** `resetPasswordWithCode`'s test that a code is stored: both fields present and truthy. */
  predicate HasCode(u: AuthUser) {
    && u.recoveryCodeHash.Some? && u.recoveryCodeHash.value != ""
    && u.recoveryCodeExpiresAt.Some? && u.recoveryCodeExpiresAt.value != 0
  }

  /** `requestRecoveryCode`: for a found user with an e-mail, store the hash of a
      fresh six-digit code and its expiry; the code itself is only returned.
      `sent` is whether the e-mail or the `mailto:` window could be started. */
  function CodeRequest(users: seq<AuthUser>, query: string, random: real, now: int,
                               ttlMs: Option<int>, sent: bool, hash: string -> string): (s: Step)
    requires 0.0 <= random < 1.0
    ensures var i := FindUser(users, query);
      s.reply.CodeIssued? <==> i >= 0 && users[i].email != ""
    ensures !s.reply.CodeIssued? ==> s == Step(Fail(NoRecoveryEmail), users)
    ensures s.reply.CodeIssued? ==>
      && s.reply.sent == sent
      && Text.AllDigits(s.reply.code) && 100000 <= Text.DigitsToNat(s.reply.code) <= 999999
      && var i := FindUser(users, query);
         var k := Records.IndexOf(users, UserId, users[i].id);
         && 0 <= k <= i
         && s.users == users[k := users[k].(recoveryCodeHash := Some(hash(s.reply.code)),
                                            recoveryCodeExpiresAt := Some(now + Ttl(ttlMs)))]
  {
    var i := FindUser(users, query);
    if i < 0 || users[i].email == "" then Step(Fail(NoRecoveryEmail), users)
    else
      var code := Text.NatToDigits(RecoveryCode(random));
      Text.NatToDigitsRoundTrip(RecoveryCode(random));
      var k := Records.IndexOf(users, UserId, users[i].id);
      Records.IndexOfPresent(users, UserId, i);
      if k < 0 then Step(Fail(UserNotFound), users)
      else
        Step(CodeIssued(code, sent),
             users[k := users[k].(recoveryCodeHash := Some(hash(code)), recoveryCodeExpiresAt := Some(now + Ttl(ttlMs)))])
  }

  /** The record after a successful code reset: new hash, code fields deleted. */
  function Redeemed(u: AuthUser, passwordHash: string): AuthUser
  {
    u.(passwordHash := passwordHash, recoveryCodeHash := None, recoveryCodeExpiresAt := None)
  }

  /** `resetPasswordWithCode` at time `now`. What it answers and leaves is
      stated by `CodeResetOutcome`. */
  function CodeReset(users: seq<AuthUser>, query: string, code: string, newPassword: string,
                                 now: int, hash: string -> string): (s: Step)
    ensures s.reply != PasswordChanged ==> s.reply.Fail? && s.users == users
  {
    var i := FindUser(users, query);
    if i < 0 || code == "" || newPassword == "" then Step(Fail(IncompleteData), users)
    else if !HasCode(users[i]) || now > users[i].recoveryCodeExpiresAt.value then Step(Fail(CodeExpired), users)
    else if hash(code) != users[i].recoveryCodeHash.value then Step(Fail(WrongCode), users)
    else
      var k := Records.IndexOf(users, UserId, users[i].id);
      Records.IndexOfPresent(users, UserId, i);
      if k < 0 then Step(Fail(UserNotFound), users)
      else Step(PasswordChanged, users[k := Redeemed(users[k], hash(newPassword))])
  }

  /** The reset succeeds exactly when the inputs are present and a stored,
      unexpired code hashes like the given one; each failure has its own error;
      success rewrites the first record with the user's id and only that one. */
  lemma CodeResetOutcome(users: seq<AuthUser>, query: string, code: string, newPassword: string,
                         now: int, hash: string -> string)
    ensures var s := CodeReset(users, query, code, newPassword, now, hash);
      var i := FindUser(users, query);
      s.reply == PasswordChanged <==>
        && i >= 0 && code != "" && newPassword != ""
        && HasCode(users[i]) && now <= users[i].recoveryCodeExpiresAt.value
        && hash(code) == users[i].recoveryCodeHash.value
    ensures FindUser(users, query) < 0 || code == "" || newPassword == "" ==>
      CodeReset(users, query, code, newPassword, now, hash).reply == Fail(IncompleteData)
    ensures var i := FindUser(users, query);
      i >= 0 && code != "" && newPassword != "" && (!HasCode(users[i]) || now > users[i].recoveryCodeExpiresAt.value) ==>
      CodeReset(users, query, code, newPassword, now, hash).reply == Fail(CodeExpired)
    ensures var i := FindUser(users, query);
      i >= 0 && code != "" && newPassword != "" && HasCode(users[i]) && now <= users[i].recoveryCodeExpiresAt.value
      && hash(code) != users[i].recoveryCodeHash.value ==>
      CodeReset(users, query, code, newPassword, now, hash).reply == Fail(WrongCode)
    ensures var s := CodeReset(users, query, code, newPassword, now, hash);
      s.reply == PasswordChanged ==>
      var i := FindUser(users, query);
      var k := Records.IndexOf(users, UserId, users[i].id);
      0 <= k <= i && s.users == users[k := Redeemed(users[k], hash(newPassword))]
  {
    var i := FindUser(users, query);
    var s := CodeReset(users, query, code, newPassword, now, hash);
    if i < 0 || code == "" || newPassword == "" {
      assert s.reply == Fail(IncompleteData);
    } else if !HasCode(users[i]) || now > users[i].recoveryCodeExpiresAt.value {
      assert s.reply == Fail(CodeExpired);
    } else if hash(code) != users[i].recoveryCodeHash.value {
      assert s.reply == Fail(WrongCode);
    } else {
      Records.IndexOfPresent(users, UserId, i);
      var k := Records.IndexOf(users, UserId, users[i].id);
      assert s == Step(PasswordChanged, users[k := Redeemed(users[k], hash(newPassword))]);
    }
  }

  /** A code works once: with unique ids, after a successful reset every further
      code reset for the same query fails and changes nothing. */
  lemma CodeWorksOnce(users: seq<AuthUser>, query: string, code: string, newPassword: string, now: int,
                      code2: string, newPassword2: string, now2: int, hash: string -> string)
    requires Records.UniqueKeys(users, UserId)
    requires CodeReset(users, query, code, newPassword, now, hash).reply == PasswordChanged
    ensures var r := CodeReset(users, query, code, newPassword, now, hash).users;
      var s := CodeReset(r, query, code2, newPassword2, now2, hash);
      s.reply != PasswordChanged && s.users == r
  {
    CodeResetOutcome(users, query, code, newPassword, now, hash);
    var i := FindUser(users, query);
    Records.IndexOfUnique(users, UserId, i);
    var u := Redeemed(users[i], hash(newPassword));
    var r := users[i := u];
    assert CodeReset(users, query, code, newPassword, now, hash).users == r;
    FindUserAfterUpdate(users, i, u, query);
    assert FindUser(r, query) == i && !HasCode(r[i]);
    CodeResetOutcome(r, query, code2, newPassword2, now2, hash);
  }

  /** A matching, unexpired stored code resets the password, after which the
      new password logs in (unique ids). */
  lemma ResetWithStoredCode(users: seq<AuthUser>, query: string, code: string, newPassword: string, now: int,
                            hash: string -> string)
    requires Records.UniqueKeys(users, UserId)
    requires FindUser(users, query) >= 0
    requires var u := users[FindUser(users, query)];
      HasCode(u) && now <= u.recoveryCodeExpiresAt.value && hash(code) == u.recoveryCodeHash.value
    requires code != "" && newPassword != ""
    ensures var t := CodeReset(users, query, code, newPassword, now, hash);
      t.reply == PasswordChanged && Login(t.users, query, newPassword, hash).LoggedIn?
  {
    CodeResetOutcome(users, query, code, newPassword, now, hash);
    var i := FindUser(users, query);
    Records.IndexOfUnique(users, UserId, i);
    var u := Redeemed(users[i], hash(newPassword));
    assert CodeReset(users, query, code, newPassword, now, hash).users == users[i := u];
    FindUserAfterUpdate(users, i, u, query);
  }

  /** The code returned by a request, used before it expires with a non-empty
      new password, resets the password, after which that password logs in
      (unique ids; a non-empty stored hash and a non-zero expiry, which the
      truthiness test demands). */
  lemma RequestThenReset(users: seq<AuthUser>, query: string, random: real, now: int, ttlMs: Option<int>,
                         sent: bool, newPassword: string, later: int, hash: string -> string)
    requires 0.0 <= random < 1.0
    requires Records.UniqueKeys(users, UserId)
    requires CodeRequest(users, query, random, now, ttlMs, sent, hash).reply.CodeIssued?
    requires hash(CodeRequest(users, query, random, now, ttlMs, sent, hash).reply.code) != ""
    requires now + Ttl(ttlMs) != 0 && later <= now + Ttl(ttlMs)
    requires newPassword != ""
    ensures var s := CodeRequest(users, query, random, now, ttlMs, sent, hash);
      var t := CodeReset(s.users, query, s.reply.code, newPassword, later, hash);
      t.reply == PasswordChanged && Login(t.users, query, newPassword, hash).LoggedIn?
  {
    var i := FindUser(users, query);
    Records.IndexOfUnique(users, UserId, i);
    var s := CodeRequest(users, query, random, now, ttlMs, sent, hash);
    var u := users[i].(recoveryCodeHash := Some(hash(s.reply.code)), recoveryCodeExpiresAt := Some(now + Ttl(ttlMs)));
    assert s.users == users[i := u];
    FindUserAfterUpdate(users, i, u, query);
    Records.UniqueKeysUpdate(users, UserId, i, u);
    assert s.reply.code != "";
    ResetWithStoredCode(s.users, query, s.reply.code, newPassword, later, hash);
  }

  // ---------------------------------------------------------------- the module state

  /** The cached user list (`izakUsers`) and the session's current user. */
  class AuthStore {
    var users: seq<AuthUser>
    var currentUser: Option<SessionUser>
    const hash: string -> string

    constructor(stored: seq<AuthUser>, webCrypto: Option<string -> string>)
      ensures users == stored && currentUser == None && hash == HashWith(webCrypto)
    {
      users := stored;
      currentUser := None;
      hash := HashWith(webCrypto);
    }

    /** `register` when the server cannot be reached. */
    method Register(form: RegisterForm, nowId: string, now: string) returns (r: Reply)
      modifies this
      ensures var s := Registration(old(users), form, nowId, now, hash); r == s.reply && users == s.users
      ensures currentUser == old(currentUser)
      ensures Distinct(old(users)) ==> Distinct(users)
    {
      var s := Registration(users, form, nowId, now, hash);
      if Distinct(users) {
        RegisterKeepsDistinct(users, form, nowId, now, hash);
      }
      r, users := s.reply, s.users;
    }

    /** `_loginOffline`: the session is set only on success. */
    method LoginOffline(query: string, password: string) returns (r: Reply)
      modifies this
      ensures r == Login(users, query, password, hash) && users == old(users)
      ensures currentUser == if r.LoggedIn? then Some(SessionUser(r.user.id, r.user.username)) else old(currentUser)
    {
      r := Login(users, query, password, hash);
      if r.LoggedIn? {
        currentUser := Some(SessionUser(r.user.id, r.user.username));
      }
    }

    method ResetPasswordOffline(query: string, answer: string, newPassword: string) returns (r: Reply)
      modifies this
      ensures var s := AnswerReset(old(users), query, answer, newPassword, hash);
        r == s.reply && users == s.users
      ensures currentUser == old(currentUser)
    {
      var s := AnswerReset(users, query, answer, newPassword, hash);
      r, users := s.reply, s.users;
    }

    /** `requestRecoveryCode`; `random` is the `Math.random()` draw and `now` is `Date.now()`. */
    method RequestRecoveryCode(query: string, random: real, now: int, ttlMs: Option<int>, sent: bool)
      returns (r: Reply)
      requires 0.0 <= random < 1.0
      modifies this
      ensures var s := CodeRequest(old(users), query, random, now, ttlMs, sent, hash);
        r == s.reply && users == s.users
      ensures currentUser == old(currentUser)
    {
      var s := CodeRequest(users, query, random, now, ttlMs, sent, hash);
      r, users := s.reply, s.users;
    }

    method ResetPasswordWithCode(query: string, code: string, newPassword: string, now: int) returns (r: Reply)
      modifies this
      ensures var s := CodeReset(old(users), query, code, newPassword, now, hash);
        r == s.reply && users == s.users
      ensures currentUser == old(currentUser)
    {
      var s := CodeReset(users, query, code, newPassword, now, hash);
      users := s.users;
      r := s.reply;
    }
  }
}
