/** The guarantees of whole service calls: credentials, recovery, the two-step reset, independence of accounts and
    the invisibility of expiry cleanup. */
module Accounts {
  import opened Datastore
  import opened Argon2id
  import opened Effects
  import opened Operations
  import opened Changes
  import opened History

  /** A whole call alone on the store: its answer and the store it leaves. Anything but success leaves the store as
      it was. */
  function Serve(argon: Argon2idHash, op: Op, s: Store, inputs: seq<Input>): (Outcome, Store) {
    var p := Exec(argon, op, s, inputs);
    if p.rest.Done? && p.rest.outcome.Ok? then (Settle(argon, op, p.rest.outcome), p.local.view)
    else if p.rest.Done? then (p.rest.outcome, s)
    else (Err(Fault), s)
  }

  predicate Timely(inputs: seq<Input>) { forall i :: 0 <= i < |inputs| ==> inputs[i].now > 0 }

  /** Parameters under which a stored hash can be compared again. */
  ghost predicate Usable(argon: Argon2idHash) {
    argon.Runs() && argon.FillsKey() && argon.saltLen > 0 && argon.keyLen > 0
  }

  /** Exactly when a transaction succeeds, and the store it leaves. */
  lemma ServeSucceeds(argon: Argon2idHash, op: Op, s: Store, inputs: seq<Input>)
    ensures var p := Exec(argon, op, s, inputs);
            && (p.rest.Done? && p.rest.outcome.Ok? <==> Undisturbed(op, inputs) && Refusal(argon, op, s, inputs).None?)
            && (p.rest.Done? && p.rest.outcome.Ok? ==>
                  && p.local.view == After(argon, op, s, inputs)
                  && p.rest.outcome.user == (if Answers(op) then RowAfter(op, s, p.local.view) else None))
  {
    Meaning(argon, op, s, inputs);
  }

  /** Every committed change was permitted: the bridge from service calls to legal histories. */
  lemma CommitsArePermitted(argon: Argon2idHash, op: Op, s: Store, inputs: seq<Input>)
    requires Undisturbed(op, inputs) && Refusal(argon, op, s, inputs).None? && Timely(inputs)
    requires ChangeOf(argon, op, s, inputs).Some?
    ensures Makes(argon, s, ChangeOf(argon, op, s, inputs).value, After(argon, op, s, inputs))
  {
  }

  /** The two passwords collide under this salt and the configured parameters. */
  predicate SameKey(argon: Argon2idHash, salt: Bytes, p: Bytes, q: Bytes) {
    argon.kdf(p, salt, argon.time, argon.memory, argon.threads, argon.keyLen)
    == argon.kdf(q, salt, argon.time, argon.memory, argon.threads, argon.keyLen)
  }

  /** Credential refinement. After any legal history an undisturbed sign-in succeeds exactly when the user exists, a
      commit verified it, and the password derives, under the stored salt, the key of the password last committed for
      it; so, if those two passwords do not collide, exactly when it is that password. */
  lemma SigninChecksLastPassword(argon: Argon2idHash, v: seq<Store>, h: seq<Change>, n: nat,
                                 email: string, password: Bytes, inputs: seq<Input>)
    requires Legal(argon, v, h) && n <= |h| && Usable(argon)
    requires Undisturbed(Signin(email, password), inputs)
    ensures v[n].users.Keys == PasswordsOf(h, n).Keys
    ensures var p := PasswordsOf(h, n);
            var ok := Serve(argon, Signin(email, password), v[n], inputs).0.Ok?;
            var sameKey := email in p && SameKey(argon, v[n].users[email].salt, password, p[email]);
            && (ok <==> VerifiedBefore(h, n, email) && password != [] && sameKey)
            && ((sameKey ==> password == p[email]) ==>
                  (ok <==> email in p && VerifiedBefore(h, n, email) && password == p[email]))
  {
    ServeSucceeds(argon, Signin(email, password), v[n], inputs);
    StoredPairsHashLastPassword(argon, v, h, n);
    EveryStoreIsInvariant(argon, v, h, n);
    VerifiedMeansConsumedToken(argon, v, h, n, email);
    if email in v[n].users {
      assert |argon.kdf(PasswordsOf(h, n)[email], v[n].users[email].salt,
                       argon.time, argon.memory, argon.threads, argon.keyLen)| == argon.keyLen;
    }
  }

  /** No two passwords derive the same key under any salt. */
  ghost predicate KeepsApart(argon: Argon2idHash) {
    forall p, q, salt ::
      (argon.kdf(p, salt, argon.time, argon.memory, argon.threads, argon.keyLen)
       == argon.kdf(q, salt, argon.time, argon.memory, argon.threads, argon.keyLen)) ==> p == q
  }

  /** With a derivation that keeps passwords apart, an undisturbed sign-in with any other password than the last
      committed one is refused for its credentials, or because the user is not verified. */
  lemma WrongPasswordIsRefused(argon: Argon2idHash, v: seq<Store>, h: seq<Change>, n: nat,
                               email: string, password: Bytes, inputs: seq<Input>)
    requires Legal(argon, v, h) && n <= |h| && Usable(argon)
    requires Undisturbed(Signin(email, password), inputs)
    requires KeepsApart(argon)
    requires email in PasswordsOf(h, n) ==> password != PasswordsOf(h, n)[email]
    ensures Serve(argon, Signin(email, password), v[n], inputs).0 ==
              Err(if email in PasswordsOf(h, n) && !VerifiedBefore(h, n, email) then UserNotVerified
                  else InvalidCredentials)
  {
    SigninChecksLastPassword(argon, v, h, n, email, password, inputs);
    Meaning(argon, Signin(email, password), v[n], inputs);
    EveryStoreIsInvariant(argon, v, h, n);
    VerifiedMeansConsumedToken(argon, v, h, n, email);
    hide Exec, Legal;
  }

  /** Liveness of the two-step reset. After a successful check of a reset token, whatever commits that neither issue
      nor consume a reset token of that email, the change with the token still succeeds until the expiry. */
  lemma CheckedTokenStillChangesPassword(argon: Argon2idHash, v: seq<Store>, h: seq<Change>, m: nat, n: nat,
                                         token: string, password: Bytes, check: seq<Input>, change: seq<Input>)
    requires Legal(argon, v, h) && m <= n <= |h|
    requires Serve(argon, ResetPasswordToken(token), v[m], check).0.Ok?
    requires token in v[m].tokens
    requires var e := v[m].tokens[token].email;
             forall j :: m <= j < n ==> !Grants(h[j], PASSWORD, e) && !Spends(h[j], PASSWORD, e)
    requires argon.Runs() && password != []
    requires Undisturbed(ChangePasswordWithToken(token, password), change)
    requires change[0].now <= v[m].tokens[token].expiresAt
    ensures Serve(argon, ChangePasswordWithToken(token, password), v[n], change).0.Ok?
  {
    ServeSucceeds(argon, ResetPasswordToken(token), v[m], check);
    TokenSurvives(argon, v, h, m, n, PASSWORD, token, check[0].now, change[0].now);
    EveryStoreIsInvariant(argon, v, h, n);
    assert Live(v[n], token);
    ServeSucceeds(argon, ChangePasswordWithToken(token, password), v[n], change);
  }

  /** How long a token lives: a sign-up token for 12 hours and a reset token for one, in milliseconds after the clock
      reading of the call that issued it. */
  lemma IssuedTokenLives(argon: Argon2idHash, op: Op, s: Store, inputs: seq<Input>, now: int)
    requires op.Signup? || op.ResendSignupToken? || op.ResetPassword?
    requires Serve(argon, op, s, inputs).0.Ok?
    ensures |inputs| >= Cost(op)
    ensures var t := Serve(argon, op, s, inputs).1;
            match op
            case Signup(_, _, _, _) =>
              Redeemable(t, SIGNUP, inputs[3].uuid, now) <==> now <= inputs[5].now + 43_200_000
            case ResendSignupToken(_, _) =>
              Redeemable(t, SIGNUP, inputs[1].uuid, now) <==> now <= inputs[3].now + 43_200_000
            case _ =>
              Redeemable(t, PASSWORD, inputs[1].uuid, now) <==> now <= inputs[3].now + 3_600_000
  {
    ServeSucceeds(argon, op, s, inputs);
    hide Exec;
  }

  // ---- Recovery

  /** What a re-issue leaves: the same users, and a live token of its type for them. */
  lemma ReissueLeaves(argon: Argon2idHash, op: Op, s: Store, inputs: seq<Input>)
    requires (op.ResendSignupToken? || op.ResetPassword?) && Undisturbed(op, inputs)
    requires Refusal(argon, op, s, inputs).None?
    ensures var t := Serve(argon, op, s, inputs).1;
            && t.users == s.users
            && t.tokens.Keys == s.tokens.Keys + {inputs[1].uuid}
            && t.tokens[inputs[1].uuid] == IssueOf(if op.ResetPassword? then PASSWORD else SIGNUP, op.email, inputs, 1)
  {
    ServeSucceeds(argon, op, s, inputs);
    hide Exec;
  }

  /** A redeemed token leaves a fresh pair for the new password in a row otherwise unchanged. */
  lemma RedemptionLeaves(argon: Argon2idHash, op: Op, s: Store, inputs: seq<Input>)
    requires op.ChangePasswordWithToken? && Undisturbed(op, inputs) && Refusal(argon, op, s, inputs).None?
    ensures var (out, t) := Serve(argon, op, s, inputs); var e := s.tokens[op.token].email;
            && out.Ok? && e in t.users
            && t.users[e].verifiedAt == s.users[e].verifiedAt && t.users[e].deletedAt == s.users[e].deletedAt
            && Hashes(argon, op.password, t.users[e].password, t.users[e].salt)
  {
    ServeSucceeds(argon, op, s, inputs);
    hide Exec;
  }

  lemma HashedPasswordSignsIn(argon: Argon2idHash, s: Store, email: string, password: Bytes, signin: seq<Input>)
    requires Usable(argon) && HasUser(s, email) && s.users[email].verifiedAt != 0
    requires Hashes(argon, password, s.users[email].password, s.users[email].salt)
    requires Undisturbed(Signin(email, password), signin)
    ensures Serve(argon, Signin(email, password), s, signin).0.Ok?
  {
    ServeSucceeds(argon, Signin(email, password), s, signin);
    hide Exec;
    assert |argon.kdf(password, s.users[email].salt,
                     argon.time, argon.memory, argon.threads, argon.keyLen)| == argon.keyLen;
  }

  lemma ResetRecovers(argon: Argon2idHash, s: Store, baseURL: string, email: string, password: Bytes,
                      reset: seq<Input>, change: seq<Input>, signin: seq<Input>)
    requires Usable(argon) && Invariant(s) && IsVerified(s, email) && password != []
    requires Undisturbed(ResetPassword(baseURL, email), reset)
    requires reset[1].uuid !in s.tokens
    requires Undisturbed(ChangePasswordWithToken(reset[1].uuid, password), change)
    requires change[0].now <= reset[3].now + Duration(PASSWORD)
    requires Undisturbed(Signin(email, password), signin)
    ensures var (_, s1) := Serve(argon, ResetPassword(baseURL, email), s, reset);
            var (_, s2) := Serve(argon, ChangePasswordWithToken(reset[1].uuid, password), s1, change);
            Serve(argon, Signin(email, password), s2, signin).0.Ok?
  {
    hide Serve, Hashes;
    var resets, changes := ResetPassword(baseURL, email), ChangePasswordWithToken(reset[1].uuid, password);
    ReissueLeaves(argon, resets, s, reset);
    var s1 := Serve(argon, resets, s, reset).1;
    RedemptionLeaves(argon, changes, s1, change);
    HashedPasswordSignsIn(argon, Serve(argon, changes, s1, change).1, email, password, signin);
  }

  /** A served change keeps the joint invariant. */
  lemma ServeKeepsInvariant(argon: Argon2idHash, op: Op, s: Store, inputs: seq<Input>)
    requires Invariant(s) && Timely(inputs)
    ensures Invariant(Serve(argon, op, s, inputs).1)
  {
    ServeSucceeds(argon, op, s, inputs);
    hide Exec, Invariant;
    if Undisturbed(op, inputs) && Refusal(argon, op, s, inputs).None? && ChangeOf(argon, op, s, inputs).Some? {
      CommitsArePermitted(argon, op, s, inputs);
      ApplyKeepsInvariant(argon, s, ChangeOf(argon, op, s, inputs).value, Serve(argon, op, s, inputs).1);
    }
  }

  /** A validated token leaves its user verified and the tokens where they were. */
  lemma ValidationLeaves(argon: Argon2idHash, op: Op, s: Store, inputs: seq<Input>)
    requires op.ValidateSignupToken? && Undisturbed(op, inputs) && Refusal(argon, op, s, inputs).None? && Timely(inputs)
    ensures var (out, t) := Serve(argon, op, s, inputs); var e := s.tokens[op.token].email;
            && out.Ok? && IsVerified(t, e) && t.tokens.Keys == s.tokens.Keys && t.users.Keys == s.users.Keys
            && t.users[e] == s.users[e].(verifiedAt := t.users[e].verifiedAt, updatedAt := t.users[e].updatedAt)
  {
    ServeSucceeds(argon, op, s, inputs);
    hide Exec;
  }

  lemma ResendVerifies(argon: Argon2idHash, s: Store, baseURL: string, email: string, resend: seq<Input>,
                       validate: seq<Input>)
    requires Invariant(s) && email in s.users && !IsVerified(s, email)
    requires Undisturbed(ResendSignupToken(baseURL, email), resend) && Timely(resend)
    requires resend[1].uuid !in s.tokens
    requires Undisturbed(ValidateSignupToken(resend[1].uuid), validate) && Timely(validate)
    requires validate[0].now <= resend[3].now + Duration(SIGNUP)
    ensures var (_, s1) := Serve(argon, ResendSignupToken(baseURL, email), s, resend);
            var (out, s2) := Serve(argon, ValidateSignupToken(resend[1].uuid), s1, validate);
            out.Ok? && Invariant(s2) && IsVerified(s2, email) && s2.tokens.Keys == s.tokens.Keys + {resend[1].uuid}
  {
    hide Serve;
    var resends, validates := ResendSignupToken(baseURL, email), ValidateSignupToken(resend[1].uuid);
    ReissueLeaves(argon, resends, s, resend);
    ServeKeepsInvariant(argon, resends, s, resend);
    var s1 := Serve(argon, resends, s, resend).1;
    ValidationLeaves(argon, validates, s1, validate);
    ServeKeepsInvariant(argon, validates, s1, validate);
  }

  /** No account is ever stuck. From any store satisfying the invariant, for any existing user and non-empty
      password, every undisturbed run of resend and validate (when unverified), reset, change
      with the mailed token and sign-in, with fresh UUIDs and the tokens used in time, ends signed in. */
  lemma EveryAccountRecovers(argon: Argon2idHash, s: Store, baseURL: string, email: string, password: Bytes,
                             resend: seq<Input>, validate: seq<Input>,
                             reset: seq<Input>, change: seq<Input>, signin: seq<Input>)
    requires Usable(argon) && Invariant(s) && email in s.users && password != []
    requires !IsVerified(s, email) ==>
               && Undisturbed(ResendSignupToken(baseURL, email), resend) && Timely(resend)
               && Undisturbed(ValidateSignupToken(resend[1].uuid), validate) && Timely(validate)
               && validate[0].now <= resend[3].now + Duration(SIGNUP)
               && resend[1].uuid !in s.tokens
    requires Undisturbed(ResetPassword(baseURL, email), reset)
    requires Undisturbed(ChangePasswordWithToken(reset[1].uuid, password), change)
    requires change[0].now <= reset[3].now + Duration(PASSWORD)
    requires Undisturbed(Signin(email, password), signin)
    requires reset[1].uuid !in s.tokens && (!IsVerified(s, email) ==> resend[1].uuid != reset[1].uuid)
    ensures var s0 := if IsVerified(s, email) then s
                      else Serve(argon, ValidateSignupToken(resend[1].uuid),
                                 Serve(argon, ResendSignupToken(baseURL, email), s, resend).1, validate).1;
            var (_, s1) := Serve(argon, ResetPassword(baseURL, email), s0, reset);
            var (_, s2) := Serve(argon, ChangePasswordWithToken(reset[1].uuid, password), s1, change);
            Serve(argon, Signin(email, password), s2, signin).0.Ok?
  {
    hide Serve;
    if IsVerified(s, email) {
      ResetRecovers(argon, s, baseURL, email, password, reset, change, signin);
    } else {
      ResendVerifies(argon, s, baseURL, email, resend, validate);
      var s0 := Serve(argon, ValidateSignupToken(resend[1].uuid),
                      Serve(argon, ResendSignupToken(baseURL, email), s, resend).1, validate).1;
      ResetRecovers(argon, s0, baseURL, email, password, reset, change, signin);
    }
  }

  // ---- Independence

  /** The cache as sync.Map's LoadOrStore leaves it: an entry is never overwritten. */
  function LoadOrStore(cache: map<string, Account>, user: User): map<string, Account> {
    if user.email in cache then cache else cache[user.email := Account(user.name, user.email)]
  }

  /** The row a successful call offers to the cache. */
  function Offer(op: Op, s: Store, s': Store): Option<User> {
    if Caches(op) || op.GetUser? || op.Signin? then RowAfter(op, s, s') else None
  }

  function Fill(cache: map<string, Account>, offer: Option<User>): map<string, Account> {
    if offer.None? then cache else LoadOrStore(cache, offer.value)
  }

  /** Two stores with the same user row and token rows for one email. */
  ghost predicate Agree(s: Store, t: Store, email: string) {
    && (email in s.users <==> email in t.users)
    && (email in s.users ==> s.users[email] == t.users[email])
    && (forall k :: k in s.tokens && s.tokens[k].email == email ==> k in t.tokens && t.tokens[k] == s.tokens[k])
    && (forall k :: k in t.tokens && t.tokens[k].email == email ==> k in s.tokens && s.tokens[k] == t.tokens[k])
  }

  function IssuedToken(c: Change): Option<string> {
    if c.Registered? || c.Issued? then Some(c.issue.token) else None
  }

  predicate FreshIn(s: Store, c: Change) { IssuedToken(c).Some? ==> IssuedToken(c).value !in s.tokens }

  predicate Coherent(c: Change) { c.Registered? ==> c.issue.email == c.account.email }

  lemma ChangeLeavesOthers(s: Store, c: Change, email: string)
    requires FreshIn(s, c) && Coherent(c) && c.Email() != email
    ensures Agree(s, Apply(s, c), email)
  {
  }

  lemma ChangeKeepsKeys(s: Store, c: Change)
    ensures Apply(s, c).tokens.Keys == s.tokens.Keys + (if IssuedToken(c).Some? then {IssuedToken(c).value} else {})
  {
  }

  /** The token a call names, and the UUID an issuing call draws. */
  function Named(op: Op, inputs: seq<Input>): set<string> {
    match op
    case Signup(_, _, _, _) => {At(inputs, 3).uuid}
    case ResendSignupToken(_, _) => {At(inputs, 1).uuid}
    case ResetPassword(_, _) => {At(inputs, 1).uuid}
    case ValidateSignupToken(token) => {token}
    case ResetPasswordToken(token) => {token}
    case ChangePasswordWithToken(token, _) => {token}
    case _ => {}
  }

  lemma SameDecision(argon: Argon2idHash, op: Op, s: Store, t: Store, inputs: seq<Input>)
    requires Agree(s, t, Target(op, s))
    requires forall k :: k in Named(op, inputs) ==> (k in s.tokens <==> k in t.tokens)
    ensures Refusal(argon, op, t, inputs) == Refusal(argon, op, s, inputs) && Target(op, t) == Target(op, s)
    ensures ChangeOf(argon, op, t, inputs) == ChangeOf(argon, op, s, inputs)
  {
    hide HashOf, IssueOf, HashRefusal;
    assert forall k :: k in Named(op, inputs) ==> (Find(s.tokens, k).Some? <==> Find(t.tokens, k).Some?);
  }

  lemma SameRowAfter(s: Store, t: Store, c: Change, email: string)
    requires Agree(s, t, email)
    ensures Find(Apply(t, c).users, email) == Find(Apply(s, c).users, email)
  {
    hide TokensAfter;
  }

  /** An operation, refused or not, only looks at its own account and at whether the token it names or draws exists. */
  lemma OperationsAreLocal(argon: Argon2idHash, op: Op, s: Store, t: Store, inputs: seq<Input>)
    requires Agree(s, t, Target(op, s))
    requires forall k :: k in Named(op, inputs) ==> (k in s.tokens <==> k in t.tokens)
    ensures Refusal(argon, op, t, inputs) == Refusal(argon, op, s, inputs) && Target(op, t) == Target(op, s)
    ensures ChangeOf(argon, op, t, inputs) == ChangeOf(argon, op, s, inputs)
    ensures RowAfter(op, t, After(argon, op, t, inputs)) == RowAfter(op, s, After(argon, op, s, inputs))
  {
    hide Refusal, ChangeOf, Target, Apply, Named;
    SameDecision(argon, op, s, t, inputs);
    var c := ChangeOf(argon, op, s, inputs);
    if c.Some? {
      SameRowAfter(s, t, c.value, Target(op, s));
    }
  }

  /** So a call that is served on one store is served alike on every other that agrees on its account and where its
      UUID is new. */
  lemma ServedIsLocal(argon: Argon2idHash, op: Op, s: Store, t: Store, inputs: seq<Input>)
    requires Agree(s, t, Target(op, s)) && Refusal(argon, op, s, inputs).None?
    requires var c := ChangeOf(argon, op, s, inputs); c.Some? ==> FreshIn(t, c.value)
    ensures Refusal(argon, op, t, inputs).None? && Target(op, t) == Target(op, s)
    ensures ChangeOf(argon, op, t, inputs) == ChangeOf(argon, op, s, inputs)
    ensures RowAfter(op, t, After(argon, op, t, inputs)) == RowAfter(op, s, After(argon, op, s, inputs))
  {
    hide After, RowAfter, HashOf, HashRefusal;
    assert forall k :: k in Named(op, inputs) ==> (k in s.tokens <==> k in t.tokens);
    OperationsAreLocal(argon, op, s, t, inputs);
  }

  function StruckRow(row: Option<TokenRow>, x: Strike, k: string): Option<TokenRow> {
    if x.issue.Some? && x.issue.value.token == k then x.issue
    else if row.Some? && row.value.email == x.email && row.value.kind == x.kind then
      Some(row.value.(deletedAt := x.stamp))
    else row
  }

  lemma StruckIsRowWise(tokens: map<string, TokenRow>, x: Strike, k: string)
    ensures Find(Struck(tokens, x), k) == StruckRow(Find(tokens, k), x, k)
  {
  }

  lemma SameRowsSameMap<T>(m: map<string, T>, m': map<string, T>)
    requires forall k :: Find(m, k) == Find(m', k)
    ensures m == m'
  {
    assert forall k :: k in m <==> Find(m, k).Some?;
    assert forall k :: k in m' <==> Find(m', k).Some?;
    assert forall k :: k in m ==> Find(m, k).value == m[k];
    assert forall k :: k in m' ==> Find(m', k).value == m'[k];
  }

  lemma StrikesCommute(tokens: map<string, TokenRow>, x: Strike, y: Strike)
    requires x.email != y.email
    requires x.issue.Some? ==> x.issue.value.email == x.email && x.issue.value.token !in tokens
    requires y.issue.Some? ==> y.issue.value.email == y.email && y.issue.value.token !in tokens
    requires x.issue.Some? && y.issue.Some? ==> x.issue.value.token != y.issue.value.token
    ensures Struck(Struck(tokens, x), y) == Struck(Struck(tokens, y), x)
  {
    var xy, yx := Struck(Struck(tokens, x), y), Struck(Struck(tokens, y), x);
    forall k ensures Find(xy, k) == Find(yx, k) {
      StruckIsRowWise(tokens, x, k);
      StruckIsRowWise(tokens, y, k);
      StruckIsRowWise(Struck(tokens, x), y, k);
      StruckIsRowWise(Struck(tokens, y), x, k);
    }
    SameRowsSameMap(xy, yx);
  }

  lemma UserChangesCommute(users: map<string, User>, c: Change, d: Change)
    requires c.Email() != d.Email()
    ensures UsersAfter(UsersAfter(users, c), d) == UsersAfter(UsersAfter(users, d), c)
  {
  }

  lemma TokenChangesCommute(s: Store, c: Change, d: Change)
    requires c.Email() != d.Email() && Coherent(c) && Coherent(d)
    requires FreshIn(s, c) && FreshIn(Apply(s, c), d) && FreshIn(s, d)
    ensures TokensAfter(TokensAfter(s.tokens, c), d) == TokensAfter(TokensAfter(s.tokens, d), c)
  {
    if StrikeOf(c).Some? && StrikeOf(d).Some? {
      StrikesCommute(s.tokens, StrikeOf(c).value, StrikeOf(d).value);
    }
  }

  lemma ChangesCommute(s: Store, c: Change, d: Change)
    requires c.Email() != d.Email() && Coherent(c) && Coherent(d)
    requires FreshIn(s, c) && FreshIn(Apply(s, c), d) && FreshIn(s, d)
    ensures Apply(Apply(s, c), d) == Apply(Apply(s, d), c)
  {
    UserChangesCommute(s.users, c, d);
    TokenChangesCommute(s, c, d);
  }

  lemma ChangesAreCoherent(argon: Argon2idHash, op: Op, s: Store, inputs: seq<Input>)
    requires Refusal(argon, op, s, inputs).None? && ChangeOf(argon, op, s, inputs).Some?
    ensures var c := ChangeOf(argon, op, s, inputs).value;
            Coherent(c) && c.Email() == Target(op, s) && FreshIn(s, c)
  {
  }

  lemma SecondRunsFirst(argon: Argon2idHash, s: Store, a: Op, ins: seq<Input>, b: Op, ins': seq<Input>)
    requires Refusal(argon, a, s, ins).None?
    requires var s1 := After(argon, a, s, ins);
             Refusal(argon, b, s1, ins').None? && Target(a, s) != Target(b, s1)
    ensures var s1, s2 := After(argon, a, s, ins), After(argon, b, s, ins');
            var ca, cb := ChangeOf(argon, a, s, ins), ChangeOf(argon, b, s, ins');
            && Refusal(argon, b, s, ins').None?
            && cb == ChangeOf(argon, b, s1, ins')
            && RowAfter(b, s, s2) == RowAfter(b, s1, After(argon, b, s1, ins'))
            && Refusal(argon, a, s2, ins).None?
            && ca == ChangeOf(argon, a, s2, ins)
            && RowAfter(a, s2, After(argon, a, s2, ins)) == RowAfter(a, s, s1)
            && Target(a, s2) == Target(a, s) && Target(b, s) == Target(b, s1)
            && (ca.Some? ==> Coherent(ca.value) && ca.value.Email() == Target(a, s) && FreshIn(s, ca.value))
            && (cb.Some? ==>
                  && Coherent(cb.value) && cb.value.Email() == Target(b, s1)
                  && FreshIn(s, cb.value) && FreshIn(s1, cb.value))
  {
    hide Apply;
    var s1, ca, cb := After(argon, a, s, ins), ChangeOf(argon, a, s, ins), ChangeOf(argon, b, s, ins');
    if ca.Some? {
      ChangesAreCoherent(argon, a, s, ins);
      ChangeLeavesOthers(s, ca.value, Target(b, s1));
      ChangeKeepsKeys(s, ca.value);
    }
    if ChangeOf(argon, b, s1, ins').Some? {
      ChangesAreCoherent(argon, b, s1, ins');
    }
    ServedIsLocal(argon, b, s1, s, ins');
    if cb.Some? {
      ChangeLeavesOthers(s, cb.value, Target(a, s));
      ChangeKeepsKeys(s, cb.value);
    }
    ServedIsLocal(argon, a, s, After(argon, b, s, ins'), ins);
  }

  /** Operations on different accounts commute: exactly the same answers and the same store, row for row. */
  lemma DifferentAccountsCommute(argon: Argon2idHash, s: Store, a: Op, ins: seq<Input>, b: Op, ins': seq<Input>)
    requires Serve(argon, a, s, ins).0.Ok?
    requires var s1 := Serve(argon, a, s, ins).1;
             Serve(argon, b, s1, ins').0.Ok? && Target(a, s) != Target(b, s1)
    ensures var (ra, s1) := Serve(argon, a, s, ins);
            var (rb, s12) := Serve(argon, b, s1, ins');
            var (rb', s2) := Serve(argon, b, s, ins');
            var (ra', s21) := Serve(argon, a, s2, ins);
            ra' == ra && rb' == rb && s21 == s12
  {
    var s1, ca, cb := After(argon, a, s, ins), ChangeOf(argon, a, s, ins), ChangeOf(argon, b, s, ins');
    ServeSucceeds(argon, a, s, ins);
    ServeSucceeds(argon, b, s1, ins');
    SecondRunsFirst(argon, s, a, ins, b, ins');
    ServeSucceeds(argon, b, s, ins');
    ServeSucceeds(argon, a, After(argon, b, s, ins'), ins);
    if ca.Some? && cb.Some? {
      ChangesCommute(s, ca.value, cb.value);
    }
  }

  lemma OffersAreKeyed(argon: Argon2idHash, op: Op, s: Store, inputs: seq<Input>)
    requires forall e :: e in s.users ==> s.users[e].email == e
    ensures var s' := After(argon, op, s, inputs);
            Offer(op, s, s').Some? ==> Offer(op, s, s').value.email == Target(op, s)
  {
  }

  /** In either order the cache ends the same too: the two offered entries have different keys. */
  lemma DifferentAccountsCommuteInCache(argon: Argon2idHash, s: Store, a: Op, ins: seq<Input>, b: Op, ins': seq<Input>,
                                        cache: map<string, Account>)
    requires forall e :: e in s.users ==> s.users[e].email == e
    requires Refusal(argon, a, s, ins).None?
    requires var s1 := After(argon, a, s, ins);
             Refusal(argon, b, s1, ins').None? && Target(a, s) != Target(b, s1)
    ensures var s1, s2 := After(argon, a, s, ins), After(argon, b, s, ins');
            Fill(Fill(cache, Offer(a, s, s1)), Offer(b, s1, After(argon, b, s1, ins')))
            == Fill(Fill(cache, Offer(b, s, s2)), Offer(a, s2, After(argon, a, s2, ins)))
  {
    hide Apply, ChangeOf, Refusal, After;
    var s1, s2 := After(argon, a, s, ins), After(argon, b, s, ins');
    SecondRunsFirst(argon, s, a, ins, b, ins');
    OffersAreKeyed(argon, a, s, ins);
    OffersAreKeyed(argon, b, s, ins');
  }

  // ---- Expiry cleanup

  /** Equal up to the deletion stamps of rows that expire at or before cut. */
  ghost predicate SameButExpired(s: Store, t: Store, cut: int) {
    && t.users == s.users
    && t.tokens.Keys == s.tokens.Keys
    && forall k :: k in s.tokens ==>
         && t.tokens[k] == s.tokens[k].(deletedAt := t.tokens[k].deletedAt)
         && (s.tokens[k].expiresAt > cut ==> t.tokens[k] == s.tokens[k])
  }

  /** Exactly what a cleanup hides from a lookup: the rows that expire by then. */
  lemma CleanupHidesExpired(s: Store, cut: int, at: int, kind: TokenType, token: string, now: int)
    requires at > 0
    ensures Redeemable(Expire(s, cut, at), kind, token, now) <==>
              Redeemable(s, kind, token, now) && s.tokens[token].expiresAt > cut
    ensures SameButExpired(s, Expire(s, cut, at), cut)
  {
  }

  /** So the strict bound on the query time is exact: at any earlier or equal time some lookup changes. */
  lemma CleanupBoundIsExact(cut: int, at: int, now: int)
    requires at > 0
    ensures (forall s, kind, token ::
               Redeemable(Expire(s, cut, at), kind, token, now) == Redeemable(s, kind, token, now))
            <==> now > cut
  {
    if now <= cut {
      var s := Store(map[], map["t" := TokenRow("t", SIGNUP, "", cut, 0)]);
      CleanupHidesExpired(s, cut, at, SIGNUP, "t", now);
    } else {
      forall s, kind, token
        ensures Redeemable(Expire(s, cut, at), kind, token, now) == Redeemable(s, kind, token, now)
      {
        CleanupHidesExpired(s, cut, at, kind, token, now);
      }
    }
  }

  predicate Later(inputs: seq<Input>, cut: int) { forall i :: 0 <= i < |inputs| ==> inputs[i].now > cut }

  lemma SameRefusal(argon: Argon2idHash, op: Op, s: Store, t: Store, cut: int, inputs: seq<Input>)
    requires SameButExpired(s, t, cut) && Later(inputs, cut) && |inputs| >= Cost(op)
    ensures Refusal(argon, op, s, inputs) == Refusal(argon, op, t, inputs)
    ensures Target(op, s) == Target(op, t)
    ensures ChangeOf(argon, op, s, inputs) == ChangeOf(argon, op, t, inputs)
  {
  }

  lemma SameStrike(s: Store, t: Store, cut: int, x: Strike)
    requires SameButExpired(s, t, cut)
    ensures SameButExpired(s.(tokens := Struck(s.tokens, x)), t.(tokens := Struck(t.tokens, x)), cut)
  {
  }

  lemma SameChange(s: Store, t: Store, cut: int, c: Change)
    requires SameButExpired(s, t, cut)
    ensures SameButExpired(Apply(s, c), Apply(t, c), cut)
  {
    hide Struck, UserAfter;
    if StrikeOf(c).Some? {
      SameStrike(s, t, cut, StrikeOf(c).value);
    }
  }

  lemma ServeIgnoresExpired(argon: Argon2idHash, op: Op, s: Store, t: Store, cut: int, inputs: seq<Input>)
    requires SameButExpired(s, t, cut) && Later(inputs, cut)
    ensures var (a, s') := Serve(argon, op, s, inputs);
            var (b, t') := Serve(argon, op, t, inputs);
            && SameButExpired(s', t', cut)
            && a.Ok? == b.Ok?
            && (a.Ok? || Undisturbed(op, inputs) ==> a == b)
  {
    Meaning(argon, op, s, inputs);
    Meaning(argon, op, t, inputs);
    if |inputs| < Cost(op) { return; }
    SameRefusal(argon, op, s, t, cut, inputs);
    if ChangeOf(argon, op, s, inputs).Some? {
      SameChange(s, t, cut, ChangeOf(argon, op, s, inputs).value);
    }
  }

  datatype Turn = Turn(op: Op, inputs: seq<Input>)

  function ServeAll(argon: Argon2idHash, requests: seq<Turn>, s: Store): (seq<Outcome>, Store)
    decreases |requests|
  {
    if requests == [] then ([], s)
    else
      var (out, s') := Serve(argon, requests[0].op, s, requests[0].inputs);
      var (outs, t) := ServeAll(argon, requests[1..], s');
      ([out] + outs, t)
  }

  /** Cleanup is invisible. Inserting DeleteExpiredTokens(cut) anywhere before requests whose clock readings are
      later than cut changes no success or answer, no error of an undisturbed request, and no later lookup. */
  lemma {:induction false} CleanupIsInvisible(argon: Argon2idHash, requests: seq<Turn>, s: Store, t: Store, cut: int)
    requires SameButExpired(s, t, cut)
    requires forall r :: r in requests ==> Later(r.inputs, cut)
    ensures var (a, s') := ServeAll(argon, requests, s);
            var (b, t') := ServeAll(argon, requests, t);
            && |a| == |b| == |requests|
            && (forall i :: 0 <= i < |requests| ==>
                  && a[i].Ok? == b[i].Ok?
                  && (a[i].Ok? || Undisturbed(requests[i].op, requests[i].inputs) ==> a[i] == b[i]))
            && SameButExpired(s', t', cut)
            && (forall kind, token, now ::
                  now > cut ==> Redeemable(s', kind, token, now) == Redeemable(t', kind, token, now))
    decreases |requests|
  {
    if requests == [] {
    } else {
      var r := requests[0];
      ServeIgnoresExpired(argon, r.op, s, t, cut, r.inputs);
      CleanupIsInvisible(argon, requests[1..], Serve(argon, r.op, s, r.inputs).1, Serve(argon, r.op, t, r.inputs).1,
                         cut);
    }
  }

  /** An undisturbed call that is refused says why, and leaves the store. */
  lemma RefusedLeaves(argon: Argon2idHash, op: Op, s: Store, inputs: seq<Input>)
    requires Undisturbed(op, inputs) && Refusal(argon, op, s, inputs).Some?
    ensures Serve(argon, op, s, inputs) == (Err(Refusal(argon, op, s, inputs).value), s)
  {
    Meaning(argon, op, s, inputs);
    hide Exec, Refusal;
  }

  /** Without that condition it is not invisible. When the bound lies in the future of a validation, the cleanup
      hides the token, the user stays unverified, and a re-issue that is otherwise refused leaves a token that
      look-ups later than the bound accept. */
  lemma FutureCleanupIsVisible(argon: Argon2idHash, s: Store, cut: int, at: int, token: string, baseURL: string,
                               validate: seq<Input>, resend: seq<Input>, later: int)
    requires Invariant(s) && at > 0
    requires Undisturbed(ValidateSignupToken(token), validate) && Timely(validate)
    requires Redeemable(s, SIGNUP, token, validate[0].now) && s.tokens[token].expiresAt <= cut
    requires Undisturbed(ResendSignupToken(baseURL, s.tokens[token].email), resend) && resend[1].uuid !in s.tokens
    requires cut < later <= resend[3].now + Duration(SIGNUP)
    ensures var (op, again) := (ValidateSignupToken(token), ResendSignupToken(baseURL, s.tokens[token].email));
            var (a, s1) := Serve(argon, op, s, validate);
            var (b, t1) := Serve(argon, op, Expire(s, cut, at), validate);
            var (s2, t2) := (Serve(argon, again, s1, resend).1, Serve(argon, again, t1, resend).1);
            && a.Ok? && b == Err(InvalidToken)
            && !Redeemable(s2, SIGNUP, resend[1].uuid, later) && Redeemable(t2, SIGNUP, resend[1].uuid, later)
  {
    hide Serve, Exec;
    var op, again := ValidateSignupToken(token), ResendSignupToken(baseURL, s.tokens[token].email);
    var t := Expire(s, cut, at);
    assert Live(s, token);
    ValidationLeaves(argon, op, s, validate);
    RefusedLeaves(argon, op, t, validate);
    var s1 := Serve(argon, op, s, validate).1;
    ServeKeepsInvariant(argon, op, s, validate);
    RefusedLeaves(argon, again, s1, resend);
    ReissueLeaves(argon, again, t, resend);
  }

  /** Every clock reading of the requests is m or later. */
  ghost predicate From(requests: seq<Turn>, m: int) { forall r :: r in requests ==> Later(r.inputs, m - 1) }

  /** A cleanup with this bound, made anywhere before requests that read the clock at m or later, is not seen by any
      look-up later than the bound. */
  ghost predicate Unseen(argon: Argon2idHash, cut: int, at: int, m: int) {
    forall s, requests, kind, token, now ::
      Invariant(s) && From(requests, m) && now > cut ==>
        (Redeemable(ServeAll(argon, requests, Expire(s, cut, at)).1, kind, token, now) <==>
           Redeemable(ServeAll(argon, requests, s).1, kind, token, now))
  }

  lemma TwoTurns(argon: Argon2idHash, a: Turn, b: Turn, s: Store)
    ensures ServeAll(argon, [a, b], s).1 == Serve(argon, b.op, Serve(argon, a.op, s, a.inputs).1, b.inputs).1
  {
    hide Serve;
    assert [a, b][1..] == [b] && [b][1..] == [];
    var t := Serve(argon, a.op, s, a.inputs).1;
    assert ServeAll(argon, [b], t).1 == Serve(argon, b.op, t, b.inputs).1;
  }

  /** A user who validates at m, and asks for another link at the bound. */
  lemma SeenWhenLate(argon: Argon2idHash, cut: int, at: int, m: int)
    requires at > 0 && 0 < m <= cut
    ensures !Unseen(argon, cut, at, m)
  {
    hide Serve, ServeAll, Expire;
    var s := Store(map["e" := User("e", "", [], [], 0, 0, 0, 0)], map["t" := TokenRow("t", SIGNUP, "e", cut, 0)]);
    var validate := seq(5, i => Input(false, m, "", (j: nat) => 0));
    var resend := seq(6, i => Input(false, cut, "u", (j: nat) => 0));
    var requests := [Turn(ValidateSignupToken("t"), validate), Turn(ResendSignupToken("", "e"), resend)];
    FutureCleanupIsVisible(argon, s, cut, at, "t", "", validate, resend, cut + 1);
    TwoTurns(argon, requests[0], requests[1], s);
    TwoTurns(argon, requests[0], requests[1], Expire(s, cut, at));
    assert Invariant(s) && From(requests, m);
  }

  /** Exactly when a cleanup is invisible over runs: its bound is earlier than every later clock reading. */
  lemma CleanupIsInvisibleExactly(argon: Argon2idHash, cut: int, at: int, m: int)
    requires at > 0 && m > 0
    ensures Unseen(argon, cut, at, m) <==> m > cut
  {
    hide ServeAll, Redeemable, Invariant;
    if m > cut {
      forall s, requests, kind, token, now | Invariant(s) && From(requests, m) && now > cut
        ensures Redeemable(ServeAll(argon, requests, Expire(s, cut, at)).1, kind, token, now) <==>
                  Redeemable(ServeAll(argon, requests, s).1, kind, token, now)
      {
        CleanupHidesExpired(s, cut, at, kind, token, now);
        CleanupIsInvisible(argon, requests, s, Expire(s, cut, at), cut);
      }
    } else {
      SeenWhenLate(argon, cut, at, m);
    }
  }
}
