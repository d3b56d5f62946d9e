/** A service call's transaction body as the sequence of effects it asks for, and what running it means.
    The environment answers every effect with one Input, so a body and its inputs determine a run. */
module Effects {
  import opened Datastore
  import opened Argon2id

  /** user.User: the name and email the cache keeps and the web layer sees. */
  datatype Account = Account(name: string, email: string)

  datatype Mail = Mail(subject: string, to: string, name: string, url: string)

  datatype Error =
    | InvalidCredentials | EmailInUse | UserNotVerified | EmailNotFound | UserAlreadyVerified | InvalidToken
    | RowNotFound  // sql.ErrNoRows passed through
    | Fault        // a wrapped failure of the database, the hash, the mailer or the commit

  datatype Outcome = Ok(user: Option<User>) | Err(error: Error)

  /** What a service call returns to the web layer. */
  datatype Response = Found(account: Account) | Finished | Refused(error: Error)

  function ToResponse(out: Outcome): Response {
    match out
    case Ok(user) => if user.Some? then Found(Account(user.value.name, user.value.email)) else Finished
    case Err(error) => Refused(error)
  }

  /** DB.Read and DB.Write: the deferred pool, and the mutex with its single immediate connection. */
  datatype Pool = Read | Write

  datatype Effect =
    | Sql(query: Statement)
    | Now
    | NewToken
    | Hash(argon: Argon2idHash, password: Bytes)
    | Send(mail: Mail)
    | CacheUser(user: User)

  datatype Reply =
    | Answered(answer: Answer) | Clock(now: int) | Minted(token: string) | Hashed(hash: Bytes, salt: Bytes)
    | Sent | Cached
    | Failed

  /** What the environment contributes to one effect: whether it fails, the clock it reads,
      the UUID and the random bytes it may draw. */
  datatype Input = Input(fail: bool, now: int, uuid: string, entropy: Entropy)

  datatype Body = Do(effect: Effect, andThen: Reply -> Body) | Done(outcome: Outcome)

  /** The private side of a running body: its view of the store, and the mail and cache entries
      it has already let out (those do not wait for the commit). */
  datatype Local = Local(view: Store, sent: seq<Mail>, cached: seq<User>)

  datatype Progress = Progress(rest: Body, local: Local)

  function Perform(e: Effect, l: Local, x: Input): (Local, Reply) {
    match e
    case Sql(q) =>
      if x.fail then (l, Failed)
      else var (view, answer) := Execute(q, x.now, l.view); (l.(view := view), Answered(answer))
    case Now => (l, Clock(x.now))
    case NewToken => (l, Minted(x.uuid))
    case Hash(argon, password) =>
      var pair := argon.Generated(password, [], if x.fail then None else Some(x.entropy));
      (l, if pair.Failure? then Failed else Hashed(pair.value.hash, pair.value.salt))
    case Send(mail) => if x.fail then (l, Failed) else (l.(sent := l.sent + [mail]), Reply.Sent)
    case CacheUser(user) => (l.(cached := l.cached + [user]), Cached)
  }

  /** Runs a body from inputs[i] until it is done or the inputs are used up. */
  function Run(body: Body, l: Local, inputs: seq<Input>, i: nat): Progress
    decreases |inputs| - i
  {
    if i >= |inputs| || body.Done? then Progress(body, l)
    else
      var (l', reply) := Perform(body.effect, l, inputs[i]);
      Run(body.andThen(reply), l', inputs, i + 1)
  }

  function RunOn(body: Body, s: Store, inputs: seq<Input>): Progress {
    Run(body, Local(s, [], []), inputs, 0)
  }

  function Advance(p: Progress, x: Input): Progress {
    if p.rest.Done? then p
    else var (l', reply) := Perform(p.rest.effect, p.local, x); Progress(p.rest.andThen(reply), l')
  }

  /** One more input advances a run by one effect. */
  lemma {:induction false} RunAppend(body: Body, l: Local, inputs: seq<Input>, x: Input, i: nat)
    requires i <= |inputs|
    ensures Run(body, l, inputs + [x], i) == Advance(Run(body, l, inputs, i), x)
    decreases |inputs| - i
  {
    if body.Do? {
      var (l', reply) := Perform(body.effect, l, (inputs + [x])[i]);
      if i == |inputs| {
        assert Run(body.andThen(reply), l', inputs + [x], i + 1) == Progress(body.andThen(reply), l');
      } else {
        RunAppend(body.andThen(reply), l', inputs, x, i + 1);
      }
    }
  }
}
