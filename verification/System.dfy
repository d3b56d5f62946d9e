/** The whole system, interleaved: service calls over the transaction layer, the user cache, the mailer, the clock
    and the sessions; and the lift of the history theorems to every reachable state. */
module System {
  import opened Datastore
  import opened Argon2id
  import opened Effects
  import opened Operations
  import opened Changes
  import opened History
  import opened Accounts
  import opened Midway
  import S = Storage

  /** What never changes while the server runs. */
  datatype Setup = Setup(argon: Argon2idHash, baseURL: string)

  datatype Posted = Posted(id: nat, mail: Mail)

  /** The service calls: begun is the latest committed version when a call started and started the clock then;
      trusted are the calls the web layer makes with a session's email. */
  datatype Calls = Calls(ops: map<nat, Op>, begun: map<nat, nat>, started: map<nat, int>, trusted: set<nat>,
                         results: map<nat, Response>)

  /** held are all the emails any session ever held: a request works on the copy of its session that it loaded. */
  datatype State = State(
    db: S.DB, calls: Calls, clock: int,
    cache: map<string, Account>, mails: seq<Posted>, minted: map<nat, string>,
    sessions: map<string, string>, held: set<string>)

  datatype Event =
    | Tick(now: int)
    | Call(id: nat, op: Op, onBehalf: Option<string>)
    | Database(event: S.Event)
    | Return(id: nat)
    | Put(session: string, id: nat)
    | Save(session: string, email: string)
    | Destroy(session: string)

  function Init(clock: int): State {
    State(S.Init(EMPTY), Calls(map[], map[], map[], {}, map[]), clock, map[], [], map[], map[], {})
  }

  function OpenOf(u: Setup, id: nat, op: Op): S.Event { S.Open(id, PoolOf(op), Program(u.argon, op)) }

  predicate Hit(s: State, op: Op) { op.GetUser? && op.email in s.cache }

  /** The calls a request makes with the email of its session, which may be signed out by now: the middleware's
      look-up and the password change. */
  predicate ForSession(s: State, email: string, op: Op) {
    email in s.held && email != "" && (op.GetUser? || op.ChangePassword?) && op.email == email
  }

  /** The handlers that put the email they were answered into the session. */
  predicate SignsIn(op: Op) { op.Signin? || op.ValidateSignupToken? || op.ChangePasswordWithToken? }

  /** A database step sees the current clock and a UUID no call drew before. */
  predicate InputFits(s: State, e: S.Event) {
    e.Work? && e.id in s.db.active ==>
      && e.input.now == s.clock
      && (s.db.active[e.id].rest.Do? && s.db.active[e.id].rest.effect.NewToken? ==> e.input.uuid !in s.minted.Values)
  }

  predicate Enabled(u: Setup, s: State, e: Event) {
    match e
    case Tick(now) => now >= s.clock
    case Call(id, op, onBehalf) =>
      && id !in s.calls.ops
      && (onBehalf.Some? ==> ForSession(s, onBehalf.value, op))
      && (Issuing(op) ==> op.baseURL == u.baseURL)
      && (!Hit(s, op) ==> S.Enabled(s.db, OpenOf(u, id, op)))
    case Database(event) => !event.Open? && S.Enabled(s.db, event) && InputFits(s, event)
    case Return(id) => id in s.db.ended && id in s.calls.ops && id !in s.calls.results
    case Put(_, id) =>
      id in s.calls.results && s.calls.results[id].Found? && id in s.calls.ops && SignsIn(s.calls.ops[id])
    case Save(_, email) => email in s.held  // a slower request of the same session writes its copy back
    case Destroy(_) => true
  }

  /** The effects of one step that reach beyond the transaction: the cache, the mailer and the UUID source. */
  function Outside(s: State, e: S.Event): State {
    if e.Crash? then s.(cache := map[])
    else if e.Work? && e.id in s.db.active && s.db.active[e.id].rest.Do? then
      match s.db.active[e.id].rest.effect
      case CacheUser(user) => s.(cache := LoadOrStore(s.cache, user))
      case Send(mail) => if e.input.fail then s else s.(mails := s.mails + [Posted(e.id, mail)])
      case NewToken => s.(minted := s.minted[e.id := e.input.uuid])
      case _ => s
    else s
  }

  function OnCall(u: Setup, s: State, id: nat, op: Op, onBehalf: Option<string>): State
    requires Enabled(u, s, Call(id, op, onBehalf))
  {
    var c := s.calls.(ops := s.calls.ops[id := op], begun := s.calls.begun[id := |s.db.log|],
                      started := s.calls.started[id := s.clock],
                      trusted := if onBehalf.Some? then s.calls.trusted + {id} else s.calls.trusted);
    if Hit(s, op) then s.(calls := c.(results := c.results[id := Found(s.cache[op.email])]))
    else s.(calls := c, db := S.Next(s.db, OpenOf(u, id, op)))
  }

  function OnReturn(u: Setup, s: State, id: nat): State
    requires Enabled(u, s, Return(id))
  {
    var op := s.calls.ops[id];
    var out := Settle(u.argon, op, s.db.ended[id].result);
    s.(calls := s.calls.(results := s.calls.results[id := ToResponse(out)]),
       cache := if (op.GetUser? || op.Signin?) && out.Ok? && out.user.Some? then LoadOrStore(s.cache, out.user.value)
                else s.cache)
  }

  function Next(u: Setup, s: State, e: Event): State
    requires Enabled(u, s, e)
  {
    match e
    case Tick(now) => s.(clock := now)
    case Call(id, op, onBehalf) => OnCall(u, s, id, op, onBehalf)
    case Database(event) => Outside(s, event).(db := S.Next(s.db, event))
    case Return(id) => OnReturn(u, s, id)
    case Put(session, id) =>
      var email := s.calls.results[id].account.email;
      s.(sessions := s.sessions[session := email], held := s.held + {email})
    case Save(session, email) => s.(sessions := s.sessions[session := email])
    case Destroy(session) => s.(sessions := s.sessions - {session})
  }

  ghost predicate Execution(u: Setup, ss: seq<State>, es: seq<Event>) {
    && |ss| == |es| + 1
    && ss[0] == Init(ss[0].clock) && ss[0].clock > 0
    && forall i {:trigger es[i]} :: 0 <= i < |es| ==> Enabled(u, ss[i], es[i]) && ss[i + 1] == Next(u, ss[i], es[i])
  }

  // ---- Every committed store is the end of a legal history

  predicate MakesChange(op: Op) { !op.GetUser? && !op.Signin? && !op.ResetPasswordToken? }

  ghost predicate Ours(u: Setup, c: Calls, id: nat, body: Body, inputs: seq<Input>) {
    id in c.ops && body == Program(u.argon, c.ops[id]) && Timely(inputs)
  }

  ghost predicate TxIsOurs(u: Setup, c: Calls, id: nat, tx: S.Tx) {
    && Ours(u, c, id, tx.body, tx.inputs)
    && tx.pool == PoolOf(c.ops[id])
    && (tx.writing ==> MakesChange(c.ops[id]))
    && id in c.begun && tx.since == c.begun[id]
    && id !in c.results
  }

  ghost predicate EndIsOurs(u: Setup, c: Calls, id: nat, e: S.End) {
    Ours(u, c, id, e.body, e.inputs) && id in c.begun && e.since == c.begun[id]
  }

  ghost predicate EntryIsOurs(u: Setup, c: Calls, e: S.Entry) {
    Ours(u, c, e.id, e.body, e.inputs) && MakesChange(c.ops[e.id])
  }

  /** Every transaction, finished or not, is a call of ours. */
  ghost predicate Known(u: Setup, db: S.DB, c: Calls) {
    && (forall id :: id in db.active ==> TxIsOurs(u, c, id, db.active[id]))
    && (forall id :: id in db.ended ==> EndIsOurs(u, c, id, db.ended[id]))
    && (forall i :: 0 <= i < |db.log| ==> EntryIsOurs(u, c, db.log[i]))
    && c.begun.Keys == c.ops.Keys
    && c.results.Keys <= c.ops.Keys && c.trusted <= c.ops.Keys
    && (forall id :: id in c.begun ==> c.begun[id] <= |db.log|)
  }

  ghost predicate Grounded(u: Setup, s: State) {
    S.Valid(s.db) && s.db.versions[0] == EMPTY && Known(u, s.db, s.calls) && s.clock > 0
  }

  lemma WritersMakeChanges(u: Setup, db: S.DB, c: Calls, id: nat)
    requires S.Valid(db) && Known(u, db, c) && id in db.active && S.Updates(db.active[id])
    ensures MakesChange(c.ops[id])
  {
    var tx := db.active[id];
    assert TxIsOurs(u, c, id, tx) && S.TxRuns(db.versions, tx);
    if !MakesChange(c.ops[id]) {
      ReadsOffer(u.argon, c.ops[id], if tx.base.Some? then db.versions[tx.base.value] else EMPTY, tx.inputs);
    }
  }

  lemma WorkedIsOurs(u: Setup, db: S.DB, c: Calls, id: nat, input: Input)
    requires S.Valid(db) && Known(u, db, c) && id in db.active && input.now > 0
    ensures TxIsOurs(u, c, id, S.Worked(db, db.active[id], input))
  {
    var tx := db.active[id];
    assert TxIsOurs(u, c, id, tx);
    S.WorkedKeeps(db, tx, input);
    if S.Updates(tx) {
      WritersMakeChanges(u, db, c, id);
    }
  }

  lemma WorkIsKnown(u: Setup, db: S.DB, c: Calls, id: nat, input: Input)
    requires S.Valid(db) && Known(u, db, c) && S.Enabled(db, S.Work(id, input)) && input.now > 0
    ensures Known(u, S.Next(db, S.Work(id, input)), c)
  {
    WorkedIsOurs(u, db, c, id, input);
    hide S.Worked, S.Valid, Program, TxIsOurs;
  }

  lemma DatabaseIsKnown(u: Setup, db: S.DB, c: Calls, e: S.Event)
    requires S.Valid(db) && Known(u, db, c) && S.Enabled(db, e) && !e.Open? && !e.Work?
    ensures Known(u, S.Next(db, e), c)
  {
    hide S.Worked, S.Valid, Program;
    if !e.Crash? {
      assert TxIsOurs(u, c, e.id, db.active[e.id]);
    }
  }

  lemma MoreCallsAreKnown(u: Setup, db: S.DB, c: Calls, id: nat, op: Op, c': Calls)
    requires Known(u, db, c) && id !in c.ops
    requires c'.ops == c.ops[id := op] && c'.begun == c.begun[id := |db.log|]
    requires c'.trusted <= c.trusted + {id} && c.results.Keys <= c'.results.Keys <= c.results.Keys + {id}
    ensures Known(u, db, c')
  {
    hide Program;
    forall i | i in db.active ensures TxIsOurs(u, c', i, db.active[i]) {
      assert TxIsOurs(u, c, i, db.active[i]);
    }
  }

  lemma OpenIsKnown(u: Setup, db: S.DB, c: Calls, id: nat, op: Op, c': Calls)
    requires S.Valid(db) && Known(u, db, c) && id !in c.ops
    requires c'.ops == c.ops[id := op] && c'.begun == c.begun[id := |db.log|] && c'.results == c.results
    requires c'.trusted <= c.trusted + {id}
    requires S.Enabled(db, OpenOf(u, id, op))
    ensures Known(u, S.Next(db, OpenOf(u, id, op)), c')
  {
    assert |db.versions| == |db.log| + 1;
    hide S.Valid, Program;
    MoreCallsAreKnown(u, db, c, id, op, c');
    assert TxIsOurs(u, c', id, S.Next(db, OpenOf(u, id, op)).active[id]);
  }

  lemma ReturnIsKnown(u: Setup, db: S.DB, c: Calls, id: nat, r: Response)
    requires S.Valid(db) && Known(u, db, c) && id in db.ended && id in c.ops
    ensures Known(u, db, c.(results := c.results[id := r]))
  {
    assert id !in db.active;
    hide S.Valid, Program;
    var c' := c.(results := c.results[id := r]);
    forall i | i in db.active ensures TxIsOurs(u, c', i, db.active[i]) {
      assert TxIsOurs(u, c, i, db.active[i]);
    }
  }

  lemma CallIdIsNew(u: Setup, s: State, id: nat)
    requires Grounded(u, s) && id !in s.calls.ops
    ensures id !in s.db.active && id !in s.db.ended
  {
    assert id in s.db.active ==> TxIsOurs(u, s.calls, id, s.db.active[id]);
  }

  lemma NextIsGrounded(u: Setup, s: State, e: Event)
    requires Grounded(u, s) && Enabled(u, s, e)
    ensures Grounded(u, Next(u, s, e))
  {
    hide Known, S.Valid;
    match e
    case Call(id, op, _) =>
      if Hit(s, op) {
        CallIdIsNew(u, s, id);
        MoreCallsAreKnown(u, s.db, s.calls, id, op, Next(u, s, e).calls);
      } else {
        S.NextIsValid(s.db, OpenOf(u, id, op));
        OpenIsKnown(u, s.db, s.calls, id, op, Next(u, s, e).calls);
      }
    case Database(event) =>
      S.NextIsValid(s.db, event);
      if event.Work? {
        WorkIsKnown(u, s.db, s.calls, event.id, event.input);
      } else {
        DatabaseIsKnown(u, s.db, s.calls, event);
      }
    case Return(id) => ReturnIsKnown(u, s.db, s.calls, id, Next(u, s, e).calls.results[id]);
    case _ =>
  }

  /** A call opens at most a transaction of its own, without inputs. */
  lemma CallShape(u: Setup, s: State, id: nat, op: Op, onBehalf: Option<string>)
    requires Enabled(u, s, Call(id, op, onBehalf))
    ensures id !in s.calls.ops
    ensures var t := OnCall(u, s, id, op, onBehalf);
            && t.clock == s.clock && t.calls.started == s.calls.started[id := s.clock]
            && t.calls.ops == s.calls.ops[id := op]
            && t.db.versions == s.db.versions && t.db.log == s.db.log && t.db.ended == s.db.ended
            && (|| t.db.active == s.db.active
                || (&& id in t.db.active && t.db.active == s.db.active[id := t.db.active[id]]
                    && t.db.active[id].inputs == [] && t.db.active[id].local.sent == []))
  {
    hide Program;
  }

  lemma {:induction false} EveryStateIsGrounded(u: Setup, ss: seq<State>, es: seq<Event>, n: nat)
    requires Execution(u, ss, es) && n < |ss|
    ensures Grounded(u, ss[n])
  {
    if n == 0 {
    } else {
      var m := n - 1;
      EveryStateIsGrounded(u, ss, es, m);
      assert Enabled(u, ss[m], es[m]) && ss[m + 1] == Next(u, ss[m], es[m]);
      NextIsGrounded(u, ss[m], es[m]);
    }
  }

  /** The change each committed writer made. */
  function ChangeAt(u: Setup, db: S.DB, c: Calls, i: nat): Change
    requires i < |db.log| && i < |db.versions| && db.log[i].id in c.ops && MakesChange(c.ops[db.log[i].id])
  {
    ChangeOf(u.argon, c.ops[db.log[i].id], db.versions[i], db.log[i].inputs).value
  }

  function HistoryOf(u: Setup, db: S.DB, c: Calls): seq<Change>
    requires |db.log| <= |db.versions|
    requires forall i :: 0 <= i < |db.log| ==> db.log[i].id in c.ops && MakesChange(c.ops[db.log[i].id])
  {
    seq(|db.log|, i requires 0 <= i < |db.log| => ChangeAt(u, db, c, i))
  }

  ghost function OpAt(s: State, i: nat): Op
    requires i < |s.db.log| && s.db.log[i].id in s.calls.ops
  {
    s.calls.ops[s.db.log[i].id]
  }

  lemma EntryCommits(u: Setup, s: State, i: nat)
    requires Grounded(u, s) && i < |s.db.log|
    ensures s.db.log[i].id in s.calls.ops && MakesChange(OpAt(s, i)) && |s.db.versions| == |s.db.log| + 1
    ensures Undisturbed(OpAt(s, i), s.db.log[i].inputs)
    ensures Refusal(u.argon, OpAt(s, i), s.db.versions[i], s.db.log[i].inputs).None?
    ensures Timely(s.db.log[i].inputs)
    ensures Makes(u.argon, s.db.versions[i], ChangeAt(u, s.db, s.calls, i), s.db.versions[i + 1])
  {
    var entry := s.db.log[i];
    assert EntryIsOurs(u, s.calls, entry);
    assert S.Replays(entry, s.db.versions[i], s.db.versions[i + 1]);
    ServeSucceeds(u.argon, OpAt(s, i), s.db.versions[i], entry.inputs);
    CommitsArePermitted(u.argon, OpAt(s, i), s.db.versions[i], entry.inputs);
  }

  /** The lift. In every reachable state of the interleaved system the committed versions, from the empty store on,
      are a legal history: each is the previous one changed by the operation that committed it,
      which passed its checks on exactly that previous version. */
  lemma CommitsAreLegal(u: Setup, s: State)
    requires Grounded(u, s)
    ensures |s.db.log| <= |s.db.versions|
    ensures forall i :: 0 <= i < |s.db.log| ==>
              s.db.log[i].id in s.calls.ops && MakesChange(s.calls.ops[s.db.log[i].id])
    ensures Legal(u.argon, s.db.versions, HistoryOf(u, s.db, s.calls))
  {
    forall i {:trigger s.db.log[i]} | 0 <= i < |s.db.log|
      ensures s.db.log[i].id in s.calls.ops && MakesChange(s.calls.ops[s.db.log[i].id])
      ensures i < |s.db.versions| - 1
      ensures Makes(u.argon, s.db.versions[i], ChangeAt(u, s.db, s.calls, i), s.db.versions[i + 1])
    {
      EntryCommits(u, s, i);
    }
  }
}
