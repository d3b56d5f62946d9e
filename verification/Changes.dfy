/** What committed operations do to the store, as five kinds of change; and the exact meaning of
    every operation's body in these terms: when it is refused, with which error, and the change it
    makes otherwise. */
module Changes {
  import opened Datastore
  import opened Argon2id
  import opened Effects
  import opened Operations

  datatype Change =
    | Registered(account: User, password: Bytes, issue: TokenRow, stamp: int)
    | Issued(issue: TokenRow, stamp: int)
    | Verified(email: string, token: string, now: int, at: int, stamp: int)
    | PasswordSet(email: string, password: Bytes, hash: Bytes, salt: Bytes, at: int)
    | Redeemed(email: string, token: string, now: int, password: Bytes, hash: Bytes, salt: Bytes, at: int, stamp: int)
  {
    function Email(): string {
      match this
      case Registered(account, _, _, _) => account.email
      case Issued(issue, _) => issue.email
      case _ => email
    }
  }

  function Issue(s: Store, issue: TokenRow, stamp: int): Store {
    s.(tokens := Tombstone(s.tokens, issue.kind, issue.email, stamp)[issue.token := issue])
  }

  function Consume(s: Store, kind: TokenType, email: string, stamp: int): Store {
    s.(tokens := Tombstone(s.tokens, kind, email, stamp))
  }

  /** The token half of a change: tombstone one (email, type), then perhaps insert a row. */
  datatype Strike = Strike(kind: TokenType, email: string, stamp: int, issue: Option<TokenRow>)

  function Struck(tokens: map<string, TokenRow>, x: Strike): map<string, TokenRow> {
    var rest := Tombstone(tokens, x.kind, x.email, x.stamp);
    if x.issue.None? then rest else rest[x.issue.value.token := x.issue.value]
  }

  function StrikeOf(c: Change): Option<Strike> {
    match c
    case Registered(_, _, issue, stamp) => Some(Strike(issue.kind, issue.email, stamp, Some(issue)))
    case Issued(issue, stamp) => Some(Strike(issue.kind, issue.email, stamp, Some(issue)))
    case Verified(email, _, _, _, stamp) => Some(Strike(SIGNUP, email, stamp, None))
    case Redeemed(email, _, _, _, _, _, _, stamp) => Some(Strike(PASSWORD, email, stamp, None))
    case PasswordSet(_, _, _, _, _) => None
  }

  function TokensAfter(tokens: map<string, TokenRow>, c: Change): map<string, TokenRow> {
    if StrikeOf(c).None? then tokens else Struck(tokens, StrikeOf(c).value)
  }

  /** The user half of a change: at most the row of its email. */
  function UserAfter(u: Option<User>, c: Change): Option<User> {
    match c
    case Registered(account, _, _, _) => Some(account)
    case Issued(_, _) => u
    case Verified(_, _, _, at, _) => if u.None? then u else Some(u.value.(verifiedAt := at, updatedAt := at))
    case PasswordSet(_, _, hash, salt, at) =>
      if u.None? then u else Some(u.value.(password := hash, salt := salt, updatedAt := at))
    case Redeemed(_, _, _, _, hash, salt, at, _) =>
      if u.None? then u else Some(u.value.(password := hash, salt := salt, updatedAt := at))
  }

  function Find<T>(m: map<string, T>, k: string): Option<T> { if k in m then Some(m[k]) else None }

  function UsersAfter(users: map<string, User>, c: Change): map<string, User> {
    var u := UserAfter(Find(users, c.Email()), c);
    if u.None? then users else users[c.Email() := u.value]
  }

  function Apply(s: Store, c: Change): Store {
    Store(UsersAfter(s.users, c), TokensAfter(s.tokens, c))
  }

  /** The inputs a finished run did not need are irrelevant; reading past the end gives this one. */
  const IDLE := Input(false, 1, "", (i: nat) => 0)

  function At(inputs: seq<Input>, i: nat): Input { if i < |inputs| then inputs[i] else IDLE }

  function HashOf(argon: Argon2idHash, password: Bytes, x: Input): HashSalt {
    var salt := Secret(argon.saltLen, x.entropy);
    HashSalt(argon.IDKey(password, salt), salt)
  }

  /** The user an operation works on: named in the call, or by the row of its token. */
  function Target(op: Op, s: Store): string {
    match op
    case ValidateSignupToken(token) => if token in s.tokens then s.tokens[token].email else ""
    case ResetPasswordToken(token) => if token in s.tokens then s.tokens[token].email else ""
    case ChangePasswordWithToken(token, _) => if token in s.tokens then s.tokens[token].email else ""
    case _ => op.email
  }

  /** The UUID, deletion stamp and row that issuing a token draws from input i on. */
  function IssueOf(kind: TokenType, email: string, inputs: seq<Input>, i: nat): TokenRow {
    TokenRow(At(inputs, i).uuid, kind, email, At(inputs, i + 2).now + Duration(kind), 0)
  }

  /** The change an operation makes when it succeeds; None for the three that only read. */
  function ChangeOf(argon: Argon2idHash, op: Op, s: Store, inputs: seq<Input>): Option<Change> {
    match op
    case Signup(_, email, name, password) =>
      var h, t := HashOf(argon, password, At(inputs, 1)), At(inputs, 2).now;
      Some(Registered(User(email, name, h.hash, h.salt, t, t, 0, 0), password,
                      IssueOf(SIGNUP, email, inputs, 3), At(inputs, 4).now))
    case ResendSignupToken(_, email) => Some(Issued(IssueOf(SIGNUP, email, inputs, 1), At(inputs, 2).now))
    case ResetPassword(_, email) => Some(Issued(IssueOf(PASSWORD, email, inputs, 1), At(inputs, 2).now))
    case ValidateSignupToken(token) =>
      Some(Verified(Target(op, s), token, At(inputs, 0).now, At(inputs, 2).now, At(inputs, 3).now))
    case ChangePassword(email, password) =>
      var h := HashOf(argon, password, At(inputs, 0));
      Some(PasswordSet(email, password, h.hash, h.salt, At(inputs, 1).now))
    case ChangePasswordWithToken(token, password) =>
      var h := HashOf(argon, password, At(inputs, 2));
      Some(Redeemed(Target(op, s), token, At(inputs, 0).now, password, h.hash, h.salt,
                    At(inputs, 3).now, At(inputs, 4).now))
    case _ => None
  }

  function After(argon: Argon2idHash, op: Op, s: Store, inputs: seq<Input>): Store {
    var c := ChangeOf(argon, op, s, inputs);
    if c.None? then s else Apply(s, c.value)
  }

  /** How many effects the successful path asks for. */
  function Cost(op: Op): nat {
    match op
    case GetUser(_) => 1
    case Signin(_, _) => 1
    case Signup(_, _, _, _) => 8
    case ResendSignupToken(_, _) => 6
    case ValidateSignupToken(_) => 5
    case ResetPassword(_, _) => 6
    case ResetPasswordToken(_) => 3
    case ChangePassword(_, _) => 3
    case ChangePasswordWithToken(_, _) => 6
  }

  function HashRefusal(argon: Argon2idHash, password: Bytes): Option<Effects.Error> {
    if password == [] || !argon.Runs() then Some(Fault) else None
  }

  /** Why an undisturbed operation is refused in store s, first reason first. */
  function Refusal(argon: Argon2idHash, op: Op, s: Store, inputs: seq<Input>): Option<Effects.Error> {
    var e, now := Target(op, s), At(inputs, 0).now;
    match op
    case GetUser(_) => if !HasUser(s, e) then Some(RowNotFound) else None
    case Signin(_, _) =>
      if !HasUser(s, e) then Some(InvalidCredentials)
      else if s.users[e].verifiedAt == 0 then Some(UserNotVerified) else None
    case Signup(_, _, _, password) =>
      if HasUser(s, e) then Some(EmailInUse)
      else if HashRefusal(argon, password).Some? then Some(Fault)
      else if e in s.users || At(inputs, 3).uuid in s.tokens then Some(Fault) else None
    case ResendSignupToken(_, _) =>
      if !HasUser(s, e) then Some(UserNotVerified)
      else if s.users[e].verifiedAt > 0 then Some(UserAlreadyVerified)
      else if At(inputs, 1).uuid in s.tokens then Some(Fault) else None
    case ValidateSignupToken(token) =>
      if !Redeemable(s, SIGNUP, token, now) then Some(InvalidToken)
      else if e !in s.users then Some(RowNotFound) else None
    case ResetPassword(_, _) =>
      if !HasUser(s, e) then Some(EmailNotFound)
      else if s.users[e].verifiedAt == 0 then Some(UserNotVerified)
      else if At(inputs, 1).uuid in s.tokens then Some(Fault) else None
    case ResetPasswordToken(token) =>
      if !Redeemable(s, PASSWORD, token, now) then Some(InvalidToken)
      else if !HasUser(s, e) then Some(EmailNotFound) else None
    case ChangePassword(_, password) =>
      if HashRefusal(argon, password).Some? then Some(Fault)
      else if e !in s.users then Some(EmailNotFound) else None
    case ChangePasswordWithToken(token, password) =>
      if !Redeemable(s, PASSWORD, token, now) then Some(InvalidToken)
      else if HashRefusal(argon, password).Some? then Some(Fault)
      else if e !in s.users then Some(EmailNotFound) else None
  }

  /** The mail a successful issuing operation hands over. */
  function MailOf(op: Op, s: Store, inputs: seq<Input>): seq<Mail> {
    match op
    case Signup(baseURL, email, name, _) => [NewMail(SIGNUP, baseURL, email, name, At(inputs, 3).uuid)]
    case ResendSignupToken(baseURL, email) =>
      [NewMail(SIGNUP, baseURL, email, if email in s.users then s.users[email].name else "", At(inputs, 1).uuid)]
    case ResetPassword(baseURL, email) =>
      [NewMail(PASSWORD, baseURL, email, if email in s.users then s.users[email].name else "", At(inputs, 1).uuid)]
    case _ => []
  }

  predicate Answers(op: Op) {
    op.GetUser? || op.Signin? || op.ValidateSignupToken? || op.ChangePasswordWithToken?
  }

  predicate Caches(op: Op) { op.ValidateSignupToken? || op.ChangePassword? || op.ChangePasswordWithToken? }

  function RowAfter(op: Op, s: Store, s': Store): Option<User> {
    var e := Target(op, s);
    if e in s'.users then Some(s'.users[e]) else None
  }

  /** Reading the clock, minting a UUID and filling the cache cannot fail; every other effect can. */
  predicate Fallible(op: Op, i: nat) {
    match op
    case Signup(_, _, _, _) => i != 3 && i != 5
    case ResendSignupToken(_, _) => i != 1 && i != 3
    case ResetPassword(_, _) => i != 1 && i != 3
    case ValidateSignupToken(_) => i != 0 && i != 4
    case ResetPasswordToken(_) => i != 0
    case ChangePassword(_, _) => i != 2
    case ChangePasswordWithToken(_, _) => i != 0 && i != 5
    case _ => true
  }

  /** No effect of the successful path fails. */
  predicate Undisturbed(op: Op, inputs: seq<Input>) {
    |inputs| >= Cost(op) && forall i :: 0 <= i < Cost(op) && Fallible(op, i) ==> !inputs[i].fail
  }

  function Exec(argon: Argon2idHash, op: Op, s: Store, inputs: seq<Input>): Progress {
    RunOn(Program(argon, op), s, inputs)
  }

  /** p is where op stands after a run from s. It succeeds exactly when nothing fails and nothing refuses it,
      and then made exactly the change, mail, cache entry and answer specified; an error is the true
      reason or a failure, and without a failure the true reason. */
  ghost predicate Explained(argon: Argon2idHash, op: Op, s: Store, inputs: seq<Input>, p: Progress) {
    var refusal := Refusal(argon, op, s, inputs);
    && (Undisturbed(op, inputs) ==> p.rest.Done?)
    && (p.rest.Done? ==>
      match p.rest.outcome
      case Ok(user) =>
        && refusal.None?
        && Undisturbed(op, inputs)
        && p.local.view == After(argon, op, s, inputs)
        && p.local.sent == MailOf(op, s, inputs)
        && p.local.cached == (if Caches(op) then [p.local.view.users[Target(op, s)]] else [])
        && user == (if Answers(op) then RowAfter(op, s, p.local.view) else None)
      case Err(e) =>
        && (e == Fault || refusal == Some(e))
        && (Undisturbed(op, inputs) ==> refusal == Some(e)))
  }

  /** One effect of a run. */
  lemma Unroll(b: Body, l: Local, inputs: seq<Input>, i: nat) returns (b': Body, l': Local)
    requires b.Do? && i < |inputs|
    ensures (l', b') == (Perform(b.effect, l, inputs[i]).0, b.andThen(Perform(b.effect, l, inputs[i]).1))
    ensures Run(b, l, inputs, i) == Run(b', l', inputs, i + 1)
  {
    var (m, reply) := Perform(b.effect, l, inputs[i]);
    b', l' := b.andThen(reply), m;
  }

  ghost predicate Issues(kind: TokenType, baseURL: string, email: string, name: string,
                         l: Local, inputs: seq<Input>, i: nat, p: Progress)
  {
    var clear := |inputs| >= i + 5 && !inputs[i + 1].fail && !inputs[i + 3].fail && !inputs[i + 4].fail;
    && (clear ==> p.rest.Done?)
    && (p.rest.Done? && p.rest.outcome.Ok? ==>
          && clear
          && inputs[i].uuid !in l.view.tokens
          && p.rest.outcome == Ok(None)
          && p.local == Local(Issue(l.view, IssueOf(kind, email, inputs, i), inputs[i + 1].now),
                              l.sent + [NewMail(kind, baseURL, email, name, inputs[i].uuid)], l.cached))
    && (p.rest.Done? && p.rest.outcome.Err? ==>
          && p.rest.outcome.error == Fault
          && (clear ==> inputs[i].uuid in l.view.tokens))
  }

  ghost predicate Records(kind: TokenType, baseURL: string, email: string, name: string, token: string,
                          l: Local, inputs: seq<Input>, i: nat, p: Progress)
  {
    var clear := |inputs| >= i + 3 && !inputs[i + 1].fail && !inputs[i + 2].fail;
    && (clear ==> p.rest.Done?)
    && (p.rest.Done? && p.rest.outcome.Ok? ==>
          && clear
          && token !in l.view.tokens
          && p.rest.outcome == Ok(None)
          && p.local.view.users == l.view.users
          && p.local.view.tokens
             == l.view.tokens[token := TokenRow(token, kind, email, inputs[i].now + Duration(kind), 0)]
          && p.local.sent == l.sent + [NewMail(kind, baseURL, email, name, token)]
          && p.local.cached == l.cached)
    && (p.rest.Done? && p.rest.outcome.Err? ==>
          && p.rest.outcome.error == Fault
          && (clear ==> token in l.view.tokens))
  }

  lemma RecordTokenRuns(kind: TokenType, baseURL: string, email: string, name: string, token: string,
                        l: Local, inputs: seq<Input>, i: nat)
    requires i <= |inputs|
    ensures Records(kind, baseURL, email, name, token, l, inputs, i,
                    Run(RecordToken(kind, baseURL, email, name, token), l, inputs, i))
  {
    hide NewMail, Duration;
    if i >= |inputs| { return; }
    var b1, l1 := Unroll(RecordToken(kind, baseURL, email, name, token), l, inputs, i);
    if i + 1 >= |inputs| { return; }
    var b2, l2 := Unroll(b1, l1, inputs, i + 1);
    if i + 2 >= |inputs| || b2.Done? { return; }
    var b3, l3 := Unroll(b2, l2, inputs, i + 2);
  }

  lemma IssueEnds(kind: TokenType, baseURL: string, email: string, name: string, l: Local, inputs: seq<Input>, i: nat,
                  p: Progress)
    requires |inputs| >= i + 2 && !inputs[i + 1].fail
    requires Records(kind, baseURL, email, name, inputs[i].uuid,
                     l.(view := Consume(l.view, kind, email, inputs[i + 1].now)), inputs, i + 2, p)
    ensures Issues(kind, baseURL, email, name, l, inputs, i, p)
  {
  }

  lemma IssueTokenRuns(kind: TokenType, baseURL: string, email: string, name: string, l: Local, inputs: seq<Input>,
                       i: nat)
    requires i <= |inputs|
    ensures Issues(kind, baseURL, email, name, l, inputs, i, Run(IssueToken(kind, baseURL, email, name), l, inputs, i))
  {
    if i >= |inputs| { return; }
    var b1, l1 := Unroll(IssueToken(kind, baseURL, email, name), l, inputs, i);
    if i + 1 >= |inputs| { return; }
    var b2, l2 := Unroll(b1, l1, inputs, i + 1);
    if b2.Done? { return; }
    RecordTokenRuns(kind, baseURL, email, name, inputs[i].uuid, l2, inputs, i + 2);
    IssueEnds(kind, baseURL, email, name, l, inputs, i, Run(b2, l2, inputs, i + 2));
  }

  ghost predicate Drops(kind: TokenType, email: string, user: User, l: Local, inputs: seq<Input>, i: nat, p: Progress) {
    var clear := |inputs| >= i + 2 && !inputs[i].fail;
    && (clear ==> p.rest.Done?)
    && (p.rest.Done? && p.rest.outcome.Ok? ==>
          && clear
          && p.rest.outcome == Ok(Some(user))
          && p.local == Local(Consume(l.view, kind, email, inputs[i].now), l.sent, l.cached + [user]))
    && (p.rest.Done? && p.rest.outcome.Err? ==> p.rest.outcome.error == Fault && !clear)
  }

  lemma DropTokensRuns(kind: TokenType, email: string, user: User, l: Local, inputs: seq<Input>, i: nat)
    requires i <= |inputs|
    ensures Drops(kind, email, user, l, inputs, i, Run(DropTokens(kind, email, user), l, inputs, i))
  {
    if i >= |inputs| { return; }
    var b1, l1 := Unroll(DropTokens(kind, email, user), l, inputs, i);
    if i + 1 >= |inputs| || b1.Done? { return; }
    var b2, l2 := Unroll(b1, l1, inputs, i + 1);
  }

  lemma ReadsMean(argon: Argon2idHash, op: Op, s: Store, inputs: seq<Input>)
    requires op.GetUser? || op.Signin? || op.ResetPasswordToken?
    ensures Explained(argon, op, s, inputs, Exec(argon, op, s, inputs))
  {
    if |inputs| == 0 { return; }
    var b1, l1 := Unroll(Program(argon, op), Local(s, [], []), inputs, 0);
    if |inputs| == 1 || b1.Done? { return; }
    var b2, l2 := Unroll(b1, l1, inputs, 1);
    if |inputs| == 2 || b2.Done? { return; }
    var b3, l3 := Unroll(b2, l2, inputs, 2);
  }

  lemma SignupEnds(argon: Argon2idHash, op: Op, s: Store, inputs: seq<Input>, l: Local, p: Progress)
    requires op.Signup? && |inputs| >= 3
    requires !inputs[0].fail && !inputs[1].fail && !inputs[2].fail
    requires !HasUser(s, op.email) && op.email !in s.users && HashRefusal(argon, op.password).None?
    requires var h, t := HashOf(argon, op.password, inputs[1]), inputs[2].now;
             l == Local(s.(users := s.users[op.email := User(op.email, op.name, h.hash, h.salt, t, t, 0, 0)]), [], [])
    requires Issues(SIGNUP, op.baseURL, op.email, op.name, l, inputs, 3, p)
    ensures Explained(argon, op, s, inputs, p)
  {
    hide Tombstone, HasUser, NewMail, Run, Program;
  }

  lemma ReissueEnds(argon: Argon2idHash, op: Op, s: Store, inputs: seq<Input>, p: Progress)
    requires op.ResendSignupToken? || op.ResetPassword?
    requires |inputs| >= 1 && !inputs[0].fail && HasUser(s, op.email)
    requires if op.ResetPassword? then s.users[op.email].verifiedAt != 0 else s.users[op.email].verifiedAt <= 0
    requires Issues(if op.ResetPassword? then PASSWORD else SIGNUP, op.baseURL, op.email, s.users[op.email].name,
                    Local(s, [], []), inputs, 1, p)
    ensures Explained(argon, op, s, inputs, p)
  {
  }

  ghost predicate Redeems(argon: Argon2idHash, op: Op, s: Store, inputs: seq<Input>, p: Progress)
    requires op.ChangePasswordWithToken? && Target(op, s) in s.users
  {
    var e, h := Target(op, s), HashOf(argon, op.password, At(inputs, 2));
    var user := s.users[e].(password := h.hash, salt := h.salt, updatedAt := At(inputs, 3).now);
    var clear := |inputs| >= 6 && forall i :: 2 <= i < 5 ==> !inputs[i].fail;
    && (clear ==> p.rest.Done?)
    && (p.rest.Done? && p.rest.outcome.Ok? ==>
          && clear
          && HashRefusal(argon, op.password).None?
          && p.rest.outcome == Ok(Some(user))
          && p.local == Local(Consume(s.(users := s.users[e := user]), PASSWORD, e, inputs[4].now), [], [user]))
    && (p.rest.Done? && p.rest.outcome.Err? ==>
          && p.rest.outcome.error == Fault
          && (clear ==> HashRefusal(argon, op.password).Some?))
  }

  lemma RedeemEffects(argon: Argon2idHash, op: Op, s: Store, inputs: seq<Input>, user: User, l: Local, p: Progress)
    requires op.ChangePasswordWithToken? && Target(op, s) in s.users && |inputs| >= 4
    requires var h := HashOf(argon, op.password, inputs[2]);
             user == s.users[Target(op, s)].(password := h.hash, salt := h.salt, updatedAt := inputs[3].now)
    requires !inputs[2].fail && !inputs[3].fail && HashRefusal(argon, op.password).None?
    requires l == Local(s.(users := s.users[Target(op, s) := user]), [], [])
    requires Drops(PASSWORD, Target(op, s), user, l, inputs, 4, p)
    ensures Redeems(argon, op, s, inputs, p)
  {
  }

  lemma RedeemRuns(argon: Argon2idHash, op: Op, s: Store, inputs: seq<Input>)
    requires op.ChangePasswordWithToken? && Target(op, s) in s.users && |inputs| >= 2
    ensures Redeems(argon, op, s, inputs, Run(Redeem(argon, Target(op, s), op.password), Local(s, [], []), inputs, 2))
  {
    var e := Target(op, s);
    if |inputs| == 2 { return; }
    var b3, l3 := Unroll(Redeem(argon, e, op.password), Local(s, [], []), inputs, 2);
    if |inputs| == 3 || b3.Done? { return; }
    var b4, l4 := Unroll(b3, l3, inputs, 3);
    if b4.Done? { return; }
    DropTokensRuns(PASSWORD, e, l4.view.users[e], l4, inputs, 4);
    RedeemEffects(argon, op, s, inputs, l4.view.users[e], l4, Run(b4, l4, inputs, 4));
  }

  lemma RedeemMissing(argon: Argon2idHash, email: string, password: Bytes, s: Store, inputs: seq<Input>)
    requires email !in s.users && |inputs| >= 2
    ensures var p := Run(Redeem(argon, email, password), Local(s, [], []), inputs, 2);
            var clear := |inputs| >= 4 && !inputs[2].fail && !inputs[3].fail;
            && (clear ==> p.rest.Done?)
            && (p.rest.Done? ==>
                  && p.rest.outcome.Err?
                  && (|| p.rest.outcome.error == Fault
                      || (p.rest.outcome.error == EmailNotFound && HashRefusal(argon, password).None?))
                  && (clear ==>
                        p.rest.outcome.error == if HashRefusal(argon, password).Some? then Fault else EmailNotFound))
  {
    if |inputs| == 2 { return; }
    var b3, l3 := Unroll(Redeem(argon, email, password), Local(s, [], []), inputs, 2);
    if |inputs| == 3 || b3.Done? { return; }
    var b4, l4 := Unroll(b3, l3, inputs, 3);
  }

  lemma RedeemEnds(argon: Argon2idHash, op: Op, s: Store, inputs: seq<Input>, p: Progress)
    requires op.ChangePasswordWithToken? && Target(op, s) in s.users && |inputs| >= 2
    requires !inputs[1].fail && Redeemable(s, PASSWORD, op.token, inputs[0].now)
    requires Redeems(argon, op, s, inputs, p)
    ensures Explained(argon, op, s, inputs, p)
  {
  }

  lemma SignupMeans(argon: Argon2idHash, op: Op, s: Store, inputs: seq<Input>)
    requires op.Signup?
    ensures Explained(argon, op, s, inputs, Exec(argon, op, s, inputs))
  {
    if |inputs| == 0 { return; }
    var b1, l1 := Unroll(Program(argon, op), Local(s, [], []), inputs, 0);
    if |inputs| == 1 || b1.Done? { return; }
    var b2, l2 := Unroll(b1, l1, inputs, 1);
    if |inputs| == 2 || b2.Done? { return; }
    var b3, l3 := Unroll(b2, l2, inputs, 2);
    if b3.Done? { return; }
    IssueTokenRuns(SIGNUP, op.baseURL, op.email, op.name, l3, inputs, 3);
    SignupEnds(argon, op, s, inputs, l3, Run(b3, l3, inputs, 3));
  }

  lemma ReissueMeans(argon: Argon2idHash, op: Op, s: Store, inputs: seq<Input>)
    requires op.ResendSignupToken? || op.ResetPassword?
    ensures Explained(argon, op, s, inputs, Exec(argon, op, s, inputs))
  {
    if |inputs| == 0 { return; }
    var b1, l1 := Unroll(Program(argon, op), Local(s, [], []), inputs, 0);
    if b1.Done? { return; }
    IssueTokenRuns(if op.ResetPassword? then PASSWORD else SIGNUP, op.baseURL, op.email, s.users[op.email].name, l1,
                   inputs, 1);
    ReissueEnds(argon, op, s, inputs, Run(b1, l1, inputs, 1));
  }

  lemma ValidateEnds(argon: Argon2idHash, op: Op, s: Store, inputs: seq<Input>, user: User, l: Local, p: Progress)
    requires op.ValidateSignupToken? && |inputs| >= 3 && !inputs[1].fail && !inputs[2].fail
    requires Redeemable(s, SIGNUP, op.token, inputs[0].now) && Target(op, s) in s.users
    requires user == s.users[Target(op, s)].(verifiedAt := inputs[2].now, updatedAt := inputs[2].now)
    requires l == Local(s.(users := s.users[Target(op, s) := user]), [], [])
    requires Drops(SIGNUP, Target(op, s), user, l, inputs, 3, p)
    ensures Explained(argon, op, s, inputs, p)
  {
  }

  lemma ValidateMeans(argon: Argon2idHash, op: Op, s: Store, inputs: seq<Input>)
    requires op.ValidateSignupToken?
    ensures Explained(argon, op, s, inputs, Exec(argon, op, s, inputs))
  {
    if |inputs| == 0 { return; }
    var b1, l1 := Unroll(Program(argon, op), Local(s, [], []), inputs, 0);
    if |inputs| == 1 { return; }
    var b2, l2 := Unroll(b1, l1, inputs, 1);
    if |inputs| == 2 || b2.Done? { return; }
    var b3, l3 := Unroll(b2, l2, inputs, 2);
    if b3.Done? { return; }
    DropTokensRuns(SIGNUP, Target(op, s), l3.view.users[Target(op, s)], l3, inputs, 3);
    ValidateEnds(argon, op, s, inputs, l3.view.users[Target(op, s)], l3, Run(b3, l3, inputs, 3));
  }

  lemma ChangePasswordMeans(argon: Argon2idHash, op: Op, s: Store, inputs: seq<Input>)
    requires op.ChangePassword?
    ensures Explained(argon, op, s, inputs, Exec(argon, op, s, inputs))
  {
    if |inputs| == 0 { return; }
    var b1, l1 := Unroll(Program(argon, op), Local(s, [], []), inputs, 0);
    if |inputs| == 1 || b1.Done? { return; }
    var b2, l2 := Unroll(b1, l1, inputs, 1);
    if |inputs| == 2 || b2.Done? { return; }
    var b3, l3 := Unroll(b2, l2, inputs, 2);
  }

  lemma RedeemMeans(argon: Argon2idHash, op: Op, s: Store, inputs: seq<Input>)
    requires op.ChangePasswordWithToken?
    ensures Explained(argon, op, s, inputs, Exec(argon, op, s, inputs))
  {
    if |inputs| == 0 { return; }
    var b1, l1 := Unroll(Program(argon, op), Local(s, [], []), inputs, 0);
    if |inputs| == 1 { return; }
    var b2, l2 := Unroll(b1, l1, inputs, 1);
    if b2.Done? { return; }
    if Target(op, s) in s.users {
      RedeemRuns(argon, op, s, inputs);
      RedeemEnds(argon, op, s, inputs, Run(b2, l2, inputs, 2));
    } else {
      RedeemMissing(argon, Target(op, s), op.password, s, inputs);
    }
  }

  /** The meaning of every body: for all operations, stores and inputs. */
  lemma Meaning(argon: Argon2idHash, op: Op, s: Store, inputs: seq<Input>)
    ensures Explained(argon, op, s, inputs, Exec(argon, op, s, inputs))
  {
    match op
    case Signup(_, _, _, _) => SignupMeans(argon, op, s, inputs);
    case ResendSignupToken(_, _) => ReissueMeans(argon, op, s, inputs);
    case ResetPassword(_, _) => ReissueMeans(argon, op, s, inputs);
    case ValidateSignupToken(_) => ValidateMeans(argon, op, s, inputs);
    case ChangePassword(_, _) => ChangePasswordMeans(argon, op, s, inputs);
    case ChangePasswordWithToken(_, _) => RedeemMeans(argon, op, s, inputs);
    case _ => ReadsMean(argon, op, s, inputs);
  }
}
