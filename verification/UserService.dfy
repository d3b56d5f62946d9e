/** The service as it is written: objects updated in place, one closure per transaction. Each method is proved to
    do, effect by effect, what its body in Operations asks for, so every theorem about those bodies holds
    of the methods. */
module UserService {
  import opened Datastore
  import opened Argon2id
  import opened Effects
  import opened Operations
  import opened Changes
  import opened Accounts

  /** The environment of one call: it answers each effect with the next input. The ghost fields
      follow the body the closure is meant to run. */
  class Environment {
    const inputs: seq<Input>
    var next: nat
    ghost var rest: Body
    ghost var local: Local
    ghost const outbox: seq<Mail>  // the mailer and the cache when the call began
    ghost const cache: map<string, Account>

    constructor (inputs: seq<Input>, ghost body: Body, ghost s: Store, ghost outbox: seq<Mail>,
                 ghost cache: map<string, Account>)
      ensures this.inputs == inputs && next == 0 && rest == body && local == Local(s, [], [])
      ensures this.outbox == outbox && this.cache == cache
    {
      this.inputs, next, rest, local := inputs, 0, body, Local(s, [], []);
      this.outbox, this.cache := outbox, cache;
    }

    ghost function Goal(): Progress reads this { Run(rest, local, inputs, next) }

    /** The next effect of the body is e, and there is an input to answer it. */
    ghost predicate Asks(e: Effect) reads this { next < |inputs| && rest.Do? && rest.effect == e }

    method Draw(ghost e: Effect) returns (x: Input)
      requires Asks(e)
      modifies this
      ensures x == inputs[old(next)] && next == old(next) + 1
      ensures (local, rest) == (Perform(e, old(local), x).0, old(rest).andThen(Perform(e, old(local), x).1))
      ensures Goal() == old(Goal())
    {
      x := inputs[next];
      ghost var (l, reply) := Perform(e, local, x);
      local, rest, next := l, rest.andThen(reply), next + 1;
    }
  }

  class Mailer {
    var outbox: seq<Mail>

    constructor ()
      ensures outbox == []
    {
      outbox := [];
    }

    method SendMailSignup(mail: Mail, fail: bool) returns (ok: bool)
      modifies this
      ensures ok == !fail && outbox == if ok then old(outbox) + [mail] else old(outbox)
    {
      ok := !fail;
      if ok {
        outbox := outbox + [mail];
      }
    }
  }

  /** The committed store behind both pools, and the mutex of the write pool; pools are those that transactions were
      begun on so far. */
  class Database {
    var store: Store
    var mu: bool
    ghost var pools: seq<Pool>

    constructor ()
      ensures store == EMPTY && !mu && pools == []
    {
      store, mu, pools := EMPTY, false, [];
    }

    method Lock()
      requires !mu
      modifies this`mu
      ensures mu
    {
      mu := true;
    }

    method Unlock()
      requires mu
      modifies this`mu
      ensures !mu
    {
      mu := false;
    }

    method Begin(ghost pool: Pool, ok: bool) returns (q: Queries?)
      requires pool.Write? ==> mu
      modifies this`pools
      ensures pools == old(pools) + [pool]
      ensures (q != null) == ok
      ensures q != null ==> fresh(q) && q.Contents() == store
    {
      pools := pools + [pool];
      q := null;
      if ok {
        q := new Queries(store);
      }
    }

    /** Rollback on an error of the closure, commit otherwise; a failing commit commits nothing. */
    method End(q: Queries, out: Outcome, commits: bool) returns (res: Outcome)
      requires pools != [] && (pools[|pools| - 1].Write? ==> mu)
      modifies this`store
      ensures store == if out.Ok? && commits then q.Contents() else old(store)
      ensures res == if out.Ok? && !commits then Err(Fault) else out
    {
      if out.Err? {
        return out;
      }
      if !commits {
        return Err(Fault);
      }
      store := Store(q.users, q.tokens);
      return out;
    }
  }

  /** The cache after a list of LoadOrStore calls. */
  function FillAll(cache: map<string, Account>, offers: seq<User>): map<string, Account> {
    if offers == [] then cache else LoadOrStore(FillAll(cache, offers[..|offers| - 1]), offers[|offers| - 1])
  }

  lemma FillOne(cache: map<string, Account>, offers: seq<User>, user: User)
    ensures FillAll(cache, offers + [user]) == LoadOrStore(FillAll(cache, offers), user)
  {
    assert (offers + [user])[..|offers|] == offers;
  }

  /** What a call can change: the committed store, the mails handed over and the cache. */
  datatype World = World(store: Store, outbox: seq<Mail>, cache: map<string, Account>)

  /** One whole call alone in the world, given whether its transaction can begin and commit. The store changes only by
      a commit; mails and cache entries stay out even when the commit fails. */
  function Called(argon: Argon2idHash, op: Op, w: World, inputs: seq<Input>, begins: bool, commits: bool)
    : (Outcome, World)
  {
    var p := Exec(argon, op, w.store, inputs);
    if !begins || !p.rest.Done? then (Err(Fault), w)
    else
      var out := p.rest.outcome;
      (if out.Ok? && !commits then Err(Fault) else out,
       World(if out.Ok? && commits then p.local.view else w.store,
             w.outbox + p.local.sent, FillAll(w.cache, p.local.cached)))
  }

  /** GetUser and Signin also offer the row they found to the cache, and Signin compares the password first. */
  function Looked(argon: Argon2idHash, op: Op, w: World, inputs: seq<Input>, begins: bool, commits: bool)
    : (Response, World)
  {
    if op.GetUser? && op.email in w.cache then (Found(w.cache[op.email]), w)
    else
      var (out, w') := Called(argon, op, w, inputs, begins, commits);
      var settled := Settle(argon, op, out);
      (ToResponse(settled),
       if settled.Ok? && settled.user.Some? then w'.(cache := LoadOrStore(w'.cache, settled.user.value)) else w')
  }

  class Service {
    const argon: Argon2idHash
    const mailer: Mailer
    const db: Database
    var userCache: map<string, Account>

    constructor (argon: Argon2idHash, mailer: Mailer, db: Database)
      ensures this.argon == argon && this.mailer == mailer && this.db == db && userCache == map[]
    {
      this.argon, this.mailer, this.db, userCache := argon, mailer, db, map[];
    }

    /** The closure is in step with its body: the tables are the body's view, and the mails and cache entries
        let out so far are the body's. */
    ghost predicate InStep(q: Queries, env: Environment)
      reads this, q, env, mailer
    {
      && q.Contents() == env.local.view
      && mailer.outbox == env.outbox + env.local.sent
      && userCache == FillAll(env.cache, env.local.cached)
    }

    method UpdateCache(user: User) returns (account: Account)
      modifies this`userCache
      ensures account == Account(user.name, user.email)
      ensures userCache == LoadOrStore(old(userCache), user)
    {
      account := Account(user.name, user.email);
      if user.email !in userCache {
        userCache := userCache[user.email := account];
      }
    }

    // ---- One method for each effect

    method Query(q: Queries, env: Environment, statement: Statement) returns (r: Reply)
      requires InStep(q, env) && env.Asks(Sql(statement))
      modifies q, env
      ensures InStep(q, env) && env.next == old(env.next) + 1 && env.Goal() == old(env.Goal())
      ensures env.rest == old(env.rest).andThen(r)
    {
      var x := env.Draw(Sql(statement));
      if x.fail {
        return Failed;
      }
      var answer := q.Run(statement, x.now);
      return Answered(answer);
    }

    method ReadClock(q: Queries, env: Environment) returns (now: int)
      requires InStep(q, env) && env.Asks(Now)
      modifies env
      ensures InStep(q, env) && env.next == old(env.next) + 1 && env.Goal() == old(env.Goal())
      ensures env.rest == old(env.rest).andThen(Clock(now))
    {
      var x := env.Draw(Now);
      now := x.now;
    }

    method MintToken(q: Queries, env: Environment) returns (token: string)
      requires InStep(q, env) && env.Asks(NewToken)
      modifies env
      ensures InStep(q, env) && env.next == old(env.next) + 1 && env.Goal() == old(env.Goal())
      ensures env.rest == old(env.rest).andThen(Minted(token))
    {
      var x := env.Draw(NewToken);
      token := x.uuid;
    }

    method HashPassword(q: Queries, env: Environment, password: Bytes) returns (r: Reply)
      requires InStep(q, env) && env.Asks(Hash(argon, password))
      modifies env
      ensures InStep(q, env) && env.next == old(env.next) + 1 && env.Goal() == old(env.Goal())
      ensures env.rest == old(env.rest).andThen(r)
    {
      var x := env.Draw(Hash(argon, password));
      var pair := argon.GenerateHash(password, [], if x.fail then None else Some(x.entropy));
      r := if pair.Failure? then Failed else Hashed(pair.value.hash, pair.value.salt);
    }

    method SendMail(q: Queries, env: Environment, mail: Mail) returns (r: Reply)
      requires InStep(q, env) && env.Asks(Send(mail))
      modifies env, mailer
      ensures InStep(q, env) && env.next == old(env.next) + 1 && env.Goal() == old(env.Goal())
      ensures env.rest == old(env.rest).andThen(r)
    {
      var x := env.Draw(Send(mail));
      var ok := mailer.SendMailSignup(mail, x.fail);
      r := if ok then Reply.Sent else Failed;
    }

    method OfferToCache(q: Queries, env: Environment, user: User)
      requires InStep(q, env) && env.Asks(CacheUser(user))
      modifies this`userCache, env
      ensures InStep(q, env) && env.next == old(env.next) + 1 && env.Goal() == old(env.Goal())
      ensures env.rest == old(env.rest).andThen(Cached)
    {
      FillOne(env.cache, env.local.cached, user);
      var _ := env.Draw(CacheUser(user));
      var _ := UpdateCache(user);
    }

    // ---- The closures

    method RecordTokenEffects(q: Queries, env: Environment, kind: TokenType, baseURL: string, email: string,
                              name: string, token: string)
      returns (out: Outcome)
      requires InStep(q, env) && env.rest == RecordToken(kind, baseURL, email, name, token)
      requires |env.inputs| >= env.next + 3
      modifies q, env, mailer
      ensures InStep(q, env) && env.rest == Done(out) && env.Goal() == old(env.Goal())
    {
      var now := ReadClock(q, env);
      var created := Query(q, env, InsertToken(token, kind, email, now + Duration(kind)));
      if created != Answered(Executed) {
        return Err(Fault);
      }
      var sent := SendMail(q, env, NewMail(kind, baseURL, email, name, token));
      if !sent.Sent? {
        return Err(Fault);
      }
      return Ok(None);
    }

    method IssueTokenEffects(q: Queries, env: Environment, kind: TokenType, baseURL: string, email: string,
                             name: string)
      returns (out: Outcome)
      requires InStep(q, env) && env.rest == IssueToken(kind, baseURL, email, name) && |env.inputs| >= env.next + 5
      modifies q, env, mailer
      ensures InStep(q, env) && env.rest == Done(out) && env.Goal() == old(env.Goal())
    {
      var token := MintToken(q, env);
      var dropped := Query(q, env, DeleteTokensByEmail(kind, email));
      if dropped != Answered(Executed) {
        return Err(Fault);
      }
      out := RecordTokenEffects(q, env, kind, baseURL, email, name, token);
    }

    method SignupEffects(q: Queries, env: Environment, baseURL: string, email: string, name: string, password: Bytes)
      returns (out: Outcome)
      requires InStep(q, env) && env.rest == Program(argon, Op.Signup(baseURL, email, name, password))
      requires |env.inputs| >= env.next + 8
      modifies q, env, mailer
      ensures InStep(q, env) && env.rest == Done(out) && env.Goal() == old(env.Goal())
    {
      var found := Query(q, env, SelectUser(email));
      if found.Answered? && found.answer.OneUser? {
        return Err(EmailInUse);
      }
      if found != Answered(NoRows) {
        return Err(Fault);
      }
      var hash := HashPassword(q, env, password);
      if !hash.Hashed? {
        return Err(Fault);
      }
      var created := Query(q, env, InsertUser(email, name, hash.hash, hash.salt));
      if created != Answered(Executed) {
        return Err(Fault);
      }
      out := IssueTokenEffects(q, env, SIGNUP, baseURL, email, name);
    }

    method ResendSignupTokenEffects(q: Queries, env: Environment, baseURL: string, email: string) returns (out: Outcome)
      requires InStep(q, env) && env.rest == Program(argon, Op.ResendSignupToken(baseURL, email))
      requires |env.inputs| >= env.next + 6
      modifies q, env, mailer
      ensures InStep(q, env) && env.rest == Done(out) && env.Goal() == old(env.Goal())
    {
      var found := Query(q, env, SelectUser(email));
      if found == Answered(NoRows) {
        return Err(UserNotVerified);
      }
      if !found.Answered? || !found.answer.OneUser? {
        return Err(Fault);
      }
      if found.answer.user.verifiedAt > 0 {
        return Err(UserAlreadyVerified);
      }
      out := IssueTokenEffects(q, env, SIGNUP, baseURL, email, found.answer.user.name);
    }

    method ResetPasswordEffects(q: Queries, env: Environment, baseURL: string, email: string) returns (out: Outcome)
      requires InStep(q, env) && env.rest == Program(argon, Op.ResetPassword(baseURL, email))
      requires |env.inputs| >= env.next + 6
      modifies q, env, mailer
      ensures InStep(q, env) && env.rest == Done(out) && env.Goal() == old(env.Goal())
    {
      var found := Query(q, env, SelectUser(email));
      if found == Answered(NoRows) {
        return Err(EmailNotFound);
      }
      if !found.Answered? || !found.answer.OneUser? {
        return Err(Fault);
      }
      if found.answer.user.verifiedAt == 0 {
        return Err(UserNotVerified);
      }
      out := IssueTokenEffects(q, env, PASSWORD, baseURL, email, found.answer.user.name);
    }

    method ValidateSignupTokenEffects(q: Queries, env: Environment, token: string) returns (out: Outcome)
      requires InStep(q, env) && env.rest == Program(argon, Op.ValidateSignupToken(token))
      requires |env.inputs| >= env.next + 5
      modifies this`userCache, q, env
      ensures InStep(q, env) && env.rest == Done(out) && env.Goal() == old(env.Goal())
    {
      var now := ReadClock(q, env);
      var registered := Query(q, env, SelectToken(SIGNUP, token, now));
      if registered == Answered(NoRows) {
        return Err(InvalidToken);
      }
      if !registered.Answered? || !registered.answer.OneToken? {
        return Err(Fault);
      }
      var email := registered.answer.row.email;
      var updated := Query(q, env, MarkVerified(email));
      if updated == Answered(NoRows) {
        return Err(RowNotFound);
      }
      if !updated.Answered? || !updated.answer.OneUser? {
        return Err(Fault);
      }
      var dropped := Query(q, env, DeleteTokensByEmail(SIGNUP, email));
      if dropped != Answered(Executed) {
        return Err(Fault);
      }
      OfferToCache(q, env, updated.answer.user);
      return Ok(Some(updated.answer.user));
    }

    method ResetPasswordTokenEffects(q: Queries, env: Environment, token: string) returns (out: Outcome)
      requires InStep(q, env) && env.rest == Program(argon, Op.ResetPasswordToken(token))
      requires |env.inputs| >= env.next + 3
      modifies q, env
      ensures InStep(q, env) && env.rest == Done(out) && env.Goal() == old(env.Goal())
    {
      var now := ReadClock(q, env);
      var registered := Query(q, env, SelectToken(PASSWORD, token, now));
      if registered == Answered(NoRows) {
        return Err(InvalidToken);
      }
      if !registered.Answered? || !registered.answer.OneToken? {
        return Err(Fault);
      }
      var found := Query(q, env, SelectUser(registered.answer.row.email));
      if found == Answered(NoRows) {
        return Err(EmailNotFound);
      }
      if !found.Answered? || !found.answer.OneUser? {
        return Err(Fault);
      }
      return Ok(None);
    }

    method ChangePasswordEffects(q: Queries, env: Environment, email: string, password: Bytes) returns (out: Outcome)
      requires InStep(q, env) && env.rest == Program(argon, Op.ChangePassword(email, password))
      requires |env.inputs| >= env.next + 3
      modifies this`userCache, q, env
      ensures InStep(q, env) && env.rest == Done(out) && env.Goal() == old(env.Goal())
    {
      var hash := HashPassword(q, env, password);
      if !hash.Hashed? {
        return Err(Fault);
      }
      var updated := Query(q, env, UpdatePassword(email, hash.hash, hash.salt));
      if updated == Answered(NoRows) {
        return Err(EmailNotFound);
      }
      if !updated.Answered? || !updated.answer.OneUser? {
        return Err(Fault);
      }
      OfferToCache(q, env, updated.answer.user);
      return Ok(None);
    }

    method ChangePasswordWithTokenEffects(q: Queries, env: Environment, token: string, password: Bytes)
      returns (out: Outcome)
      requires InStep(q, env) && env.rest == Program(argon, Op.ChangePasswordWithToken(token, password))
      requires |env.inputs| >= env.next + 6
      modifies this`userCache, q, env
      ensures InStep(q, env) && env.rest == Done(out) && env.Goal() == old(env.Goal())
    {
      var now := ReadClock(q, env);
      var registered := Query(q, env, SelectToken(PASSWORD, token, now));
      if registered == Answered(NoRows) {
        return Err(InvalidToken);
      }
      if !registered.Answered? || !registered.answer.OneToken? {
        return Err(Fault);
      }
      var email := registered.answer.row.email;
      var hash := HashPassword(q, env, password);
      if !hash.Hashed? {
        return Err(Fault);
      }
      var updated := Query(q, env, UpdatePassword(email, hash.hash, hash.salt));
      if updated == Answered(NoRows) {
        return Err(EmailNotFound);
      }
      if !updated.Answered? || !updated.answer.OneUser? {
        return Err(Fault);
      }
      var dropped := Query(q, env, DeleteTokensByEmail(PASSWORD, email));
      if dropped != Answered(Executed) {
        return Err(Fault);
      }
      OfferToCache(q, env, updated.answer.user);
      return Ok(Some(updated.answer.user));
    }

    // ---- The operations

    ghost function State(): World reads this, mailer, db { World(db.store, mailer.outbox, userCache) }

    method Signup(baseURL: string, email: string, name: string, password: Bytes,
                  inputs: seq<Input>, begins: bool, commits: bool) returns (res: Outcome)
      requires !db.mu && |inputs| >= 8
      modifies this`userCache, mailer, db
      ensures !db.mu && db.pools == old(db.pools) + [Write]
      ensures (res, State()) ==
              Called(argon, Op.Signup(baseURL, email, name, password), old(State()), inputs, begins, commits)
    {
      db.Lock();
      var q := db.Begin(Write, begins);
      if q == null {
        db.Unlock();
        return Err(Fault);
      }
      var env := new Environment(inputs, Program(argon, Op.Signup(baseURL, email, name, password)), db.store,
                                 mailer.outbox, userCache);
      var out := SignupEffects(q, env, baseURL, email, name, password);
      res := db.End(q, out, commits);
      db.Unlock();
    }

    method ResendSignupToken(baseURL: string, email: string, inputs: seq<Input>, begins: bool, commits: bool)
      returns (res: Outcome)
      requires !db.mu && |inputs| >= 6
      modifies this`userCache, mailer, db
      ensures !db.mu && db.pools == old(db.pools) + [Write]
      ensures (res, State()) ==
              Called(argon, Op.ResendSignupToken(baseURL, email), old(State()), inputs, begins, commits)
    {
      db.Lock();
      var q := db.Begin(Write, begins);
      if q == null {
        db.Unlock();
        return Err(Fault);
      }
      var env := new Environment(inputs, Program(argon, Op.ResendSignupToken(baseURL, email)), db.store, mailer.outbox,
                                 userCache);
      var out := ResendSignupTokenEffects(q, env, baseURL, email);
      res := db.End(q, out, commits);
      db.Unlock();
    }

    method ValidateSignupToken(token: string, inputs: seq<Input>, begins: bool, commits: bool) returns (res: Outcome)
      requires !db.mu && |inputs| >= 5
      modifies this`userCache, mailer, db
      ensures !db.mu && db.pools == old(db.pools) + [Read]
      ensures (res, State()) == Called(argon, Op.ValidateSignupToken(token), old(State()), inputs, begins, commits)
    {
      var q := db.Begin(Read, begins);
      if q == null {
        return Err(Fault);
      }
      var env := new Environment(inputs, Program(argon, Op.ValidateSignupToken(token)), db.store, mailer.outbox,
                                 userCache);
      var out := ValidateSignupTokenEffects(q, env, token);
      res := db.End(q, out, commits);
    }

    method ResetPassword(baseURL: string, email: string, inputs: seq<Input>, begins: bool, commits: bool)
      returns (res: Outcome)
      requires !db.mu && |inputs| >= 6
      modifies this`userCache, mailer, db
      ensures !db.mu && db.pools == old(db.pools) + [Write]
      ensures (res, State()) == Called(argon, Op.ResetPassword(baseURL, email), old(State()), inputs, begins, commits)
    {
      db.Lock();
      var q := db.Begin(Write, begins);
      if q == null {
        db.Unlock();
        return Err(Fault);
      }
      var env := new Environment(inputs, Program(argon, Op.ResetPassword(baseURL, email)), db.store, mailer.outbox,
                                 userCache);
      var out := ResetPasswordEffects(q, env, baseURL, email);
      res := db.End(q, out, commits);
      db.Unlock();
    }

    method ResetPasswordToken(token: string, inputs: seq<Input>, begins: bool, commits: bool) returns (res: Outcome)
      requires !db.mu && |inputs| >= 3
      modifies this`userCache, mailer, db
      ensures !db.mu && db.pools == old(db.pools) + [Read]
      ensures (res, State()) == Called(argon, Op.ResetPasswordToken(token), old(State()), inputs, begins, commits)
    {
      var q := db.Begin(Read, begins);
      if q == null {
        return Err(Fault);
      }
      var env := new Environment(inputs, Program(argon, Op.ResetPasswordToken(token)), db.store, mailer.outbox,
                                 userCache);
      var out := ResetPasswordTokenEffects(q, env, token);
      res := db.End(q, out, commits);
    }

    method ChangePassword(email: string, password: Bytes, inputs: seq<Input>, begins: bool, commits: bool)
      returns (res: Outcome)
      requires !db.mu && |inputs| >= 3
      modifies this`userCache, mailer, db
      ensures !db.mu && db.pools == old(db.pools) + [Read]
      ensures (res, State()) == Called(argon, Op.ChangePassword(email, password), old(State()), inputs, begins, commits)
    {
      var q := db.Begin(Read, begins);
      if q == null {
        return Err(Fault);
      }
      var env := new Environment(inputs, Program(argon, Op.ChangePassword(email, password)), db.store, mailer.outbox,
                                 userCache);
      var out := ChangePasswordEffects(q, env, email, password);
      res := db.End(q, out, commits);
    }

    method ChangePasswordWithToken(token: string, password: Bytes, inputs: seq<Input>, begins: bool, commits: bool)
      returns (res: Outcome)
      requires !db.mu && |inputs| >= 6
      modifies this`userCache, mailer, db
      ensures !db.mu && db.pools == old(db.pools) + [Read]
      ensures (res, State()) ==
              Called(argon, Op.ChangePasswordWithToken(token, password), old(State()), inputs, begins, commits)
    {
      var q := db.Begin(Read, begins);
      if q == null {
        return Err(Fault);
      }
      var env := new Environment(inputs, Program(argon, Op.ChangePasswordWithToken(token, password)), db.store,
                                 mailer.outbox, userCache);
      var out := ChangePasswordWithTokenEffects(q, env, token, password);
      res := db.End(q, out, commits);
    }

    method GetUser(email: string, inputs: seq<Input>, begins: bool, commits: bool) returns (res: Response)
      requires |inputs| >= 1
      modifies this`userCache, db`store, db`pools
      ensures db.pools == if email in old(userCache) then old(db.pools) else old(db.pools) + [Read]
      ensures (res, State()) == Looked(argon, Op.GetUser(email), old(State()), inputs, begins, commits)
    {
      if email in userCache {
        return Found(userCache[email]);
      }
      var q := db.Begin(Read, begins);
      if q == null {
        return Refused(Fault);
      }
      var env := new Environment(inputs, Program(argon, Op.GetUser(email)), db.store, mailer.outbox, userCache);
      var found := Query(q, env, SelectUser(email));
      var out := if found.Answered? && found.answer.OneUser? then Ok(Some(found.answer.user))
                 else if found == Answered(NoRows) then Err(RowNotFound) else Err(Fault);
      var end := db.End(q, out, commits);
      if end.Err? {
        return Refused(end.error);
      }
      var account := UpdateCache(end.user.value);
      return Found(account);
    }

    method Signin(email: string, password: Bytes, inputs: seq<Input>, begins: bool, commits: bool)
      returns (res: Response)
      requires |inputs| >= 1
      modifies this`userCache, db`store, db`pools
      ensures db.pools == old(db.pools) + [Read]
      ensures (res, State()) == Looked(argon, Op.Signin(email, password), old(State()), inputs, begins, commits)
    {
      var q := db.Begin(Read, begins);
      if q == null {
        return Refused(Fault);
      }
      var env := new Environment(inputs, Program(argon, Op.Signin(email, password)), db.store, mailer.outbox,
                                 userCache);
      var found := Query(q, env, SelectUser(email));
      var out := if found == Answered(NoRows) then Err(InvalidCredentials)
                 else if !found.Answered? || !found.answer.OneUser? then Err(Fault)
                 else if found.answer.user.verifiedAt == 0 then Err(UserNotVerified)
                 else Ok(Some(found.answer.user));
      var end := db.End(q, out, commits);
      if end.Err? {
        return Refused(end.error);
      }
      var user := end.user.value;
      var mismatch := argon.Compare(user.password, user.salt, password);
      if mismatch.Some? {
        return Refused(InvalidCredentials);
      }
      var account := UpdateCache(user);
      return Found(account);
    }
  }
}
