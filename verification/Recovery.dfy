/** Recovery in the interleaved system: every run, wherever it stopped, goes on without a crash or a failure to a
    state in which a given account signed in with a password of its choice. So no reachable state is stuck, in its
    locks or in its accounts. */
module Recovery {
  import opened Datastore
  import opened Argon2id
  import opened Effects
  import opened Operations
  import opened Changes
  import opened History
  import opened Accounts
  import opened Midway
  import opened System
  import opened Sessions
  import S = Storage

  // ---- Steps without a failure

  predicate Smooth(e: Event) {
    match e
    case Call(_, _, onBehalf) => onBehalf.None?
    case Return(_) => true
    case Database(step) =>
      && !step.Crash? && !step.BeginFails?
      && (step.Work? ==> !step.input.fail)
      && (step.Commit? ==> step.ok)
    case _ => false
  }

  ghost predicate Path(u: Setup, s: State, fs: seq<Event>, t: State)
    decreases |fs|
  {
    if fs == [] then s == t else Smooth(fs[0]) && Enabled(u, s, fs[0]) && Path(u, Next(u, s, fs[0]), fs[1..], t)
  }

  ghost predicate Reaches(u: Setup, s: State, t: State) { exists fs :: Path(u, s, fs, t) }

  lemma {:induction false} PathsJoin(u: Setup, s: State, fs: seq<Event>, t: State, gs: seq<Event>, r: State)
    requires Path(u, s, fs, t) && Path(u, t, gs, r)
    ensures Path(u, s, fs + gs, r)
    decreases |fs|
  {
    hide Enabled, Next, Smooth;
    if fs == [] {
      assert fs + gs == gs;
    } else {
      PathsJoin(u, Next(u, s, fs[0]), fs[1..], t, gs, r);
      assert (fs + gs)[1..] == fs[1..] + gs;
    }
  }

  lemma ReachesOn(u: Setup, s: State, t: State, r: State)
    requires Reaches(u, s, t) && Reaches(u, t, r)
    ensures Reaches(u, s, r)
  {
    hide Path;
    var fs :| Path(u, s, fs, t);
    var gs :| Path(u, t, gs, r);
    PathsJoin(u, s, fs, t, gs, r);
  }

  lemma ReachesHere(u: Setup, s: State)
    ensures Reaches(u, s, s)
  {
    assert Path(u, s, [], s);
  }

  lemma ReachesNext(u: Setup, s: State, e: Event)
    requires Smooth(e) && Enabled(u, s, e)
    ensures Reaches(u, s, Next(u, s, e))
  {
    hide Smooth, Enabled, Next;
    var t := Next(u, s, e);
    assert Path(u, t, [], t);
    assert [e][1..] == [];
    assert Path(u, s, [e], t);
  }

  // ---- Fresh names

  lemma {:induction false} IdsBelow(used: set<nat>) returns (bound: nat)
    ensures forall id :: id in used ==> id < bound
    decreases used
  {
    if used == {} {
      bound := 0;
    } else {
      var id :| id in used;
      var rest := IdsBelow(used - {id});
      bound := if rest > id then rest else id + 1;
      assert forall k :: k in used ==> k == id || k in used - {id};
    }
  }

  lemma {:induction false} LongerThan(used: set<string>) returns (bound: nat)
    ensures forall t :: t in used ==> |t| < bound
    decreases used
  {
    if used == {} {
      bound := 0;
    } else {
      var t :| t in used;
      var rest := LongerThan(used - {t});
      bound := if rest > |t| then rest else |t| + 1;
    }
  }

  lemma FreshToken(used: set<string>) returns (t: string)
    ensures t !in used
  {
    var bound := LongerThan(used);
    t := seq(bound, i => '0');
  }

  // ---- One transaction to its end

  /** The transaction can go on: no one else holds the write lock, and its snapshot, if any, is the latest version. */
  predicate Clear(d: S.DB, id: nat) {
    && id in d.active
    && (d.writer.None? || d.writer == Some(id))
    && (d.active[id].base.None? || d.active[id].base.value == S.Latest(d))
    && (d.active[id].pool.Write? ==> d.active[id].base.Some?)
  }

  /** Inputs of a moment without failures, with UUIDs outside a given set. */
  ghost predicate Good(inputs: seq<Input>, clock: int, avoid: set<string>) {
    forall i :: 0 <= i < |inputs| ==> !inputs[i].fail && inputs[i].now == clock && inputs[i].uuid !in avoid
  }

  lemma ActiveIsShort(u: Setup, s: State, id: nat)
    requires Grounded(u, s) && id in s.db.active && s.db.active[id].rest.Do?
    ensures |s.db.active[id].inputs| < 8
  {
    var tx := s.db.active[id];
    assert TxIsOurs(u, s.calls, id, tx) && S.TxRuns(s.db.versions, tx);
    var op, t := s.calls.ops[id], if tx.base.Some? then s.db.versions[tx.base.value] else EMPTY;
    assert Exec(u.argon, op, t, tx.inputs).rest == tx.rest;
    hide S.Valid, S.TxRuns, Known, TxIsOurs, Program;
    if Issuing(op) { IssuingProgress(u.argon, op, t, tx.inputs); } else { OtherProgress(u.argon, op, t, tx.inputs); }
  }

  /** What stays the same while one transaction works. */
  ghost predicate OnlyWorks(s: State, t: State, id: nat) {
    && t.calls == s.calls && t.clock == s.clock
    && t.db.versions == s.db.versions && t.db.log == s.db.log && t.db.ended == s.db.ended && t.db.mutex == s.db.mutex
    && id in s.db.active && id in t.db.active && t.db.active == s.db.active[id := t.db.active[id]]
  }

  lemma WorkClears(d: S.DB, id: nat, x: Input)
    requires Clear(d, id) && d.versions != [] && d.active[id].rest.Do? && !x.fail
    requires d.writer == Some(id) ==> d.active[id].writing
    ensures S.Enabled(d, S.Work(id, x))
    ensures var t := S.Next(d, S.Work(id, x));
            && Clear(t, id)
            && t.versions == d.versions && t.log == d.log && t.ended == d.ended && t.mutex == d.mutex
            && t.active == d.active[id := t.active[id]] && t.active[id].inputs == d.active[id].inputs + [x]
  {
    var worked := S.Worked(d, d.active[id], x);
    assert !S.Denied(d, d.active[id]);
    assert worked.inputs == d.active[id].inputs + [x] && worked.pool == d.active[id].pool;
    assert worked.base.None? || worked.base.value == S.Latest(d);
    hide S.Worked;
  }

  lemma WorkStaysInside(s: State, e: S.Event)
    requires e.Work?
    ensures Outside(s, e).calls == s.calls && Outside(s, e).clock == s.clock
  {
  }

  lemma WorkOnce(u: Setup, s: State, id: nat, x: Input) returns (t: State)
    requires Grounded(u, s) && Clear(s.db, id) && s.db.active[id].rest.Do?
    requires !x.fail && x.now == s.clock && x.uuid !in s.minted.Values
    ensures Reaches(u, s, t) && Grounded(u, t) && Clear(t.db, id) && OnlyWorks(s, t, id)
    ensures t.db.active[id].inputs == s.db.active[id].inputs + [x]
    ensures Enabled(u, s, Database(S.Work(id, x))) && t == Next(u, s, Database(S.Work(id, x)))
  {
    assert s.db.versions != [] && S.Locks(s.db, id);
    hide Grounded, Reaches, S.Next, Outside;
    var e := Database(S.Work(id, x));
    WorkClears(s.db, id, x);
    WorkStaysInside(s, e.event);
    ReachesNext(u, s, e);
    NextIsGrounded(u, s, e);
    t := Next(u, s, e);
  }

  /** A transaction that can go on comes to its end, whatever its body asks for. */
  lemma WorkAll(u: Setup, s: State, id: nat, avoid: set<string>) returns (t: State)
    requires Grounded(u, s) && Clear(s.db, id)
    ensures Reaches(u, s, t) && Grounded(u, t) && Clear(t.db, id) && OnlyWorks(s, t, id) && t.db.active[id].rest.Done?
    ensures Good(s.db.active[id].inputs, s.clock, avoid) ==> Good(t.db.active[id].inputs, s.clock, avoid)
    decreases 8 - |s.db.active[id].inputs|
  {
    hide Grounded, Reaches, S.Latest;
    if s.db.active[id].rest.Done? {
      ReachesHere(u, s);
      t := s;
    } else {
      ActiveIsShort(u, s, id);
      var uuid := FreshToken(s.minted.Values + avoid);
      var next := WorkOnce(u, s, id, Input(false, s.clock, uuid, (i: nat) => 0));
      t := WorkAll(u, next, id, avoid);
      ReachesOn(u, s, next, t);
    }
  }

  /** The last step of a transaction whose body is done. */
  function Closing(tx: S.Tx, id: nat): Event
    requires tx.rest.Done?
  {
    Database(if tx.rest.outcome.Ok? then S.Commit(id, true) else S.Rollback(id))
  }

  /** What a closed transaction leaves: its own answer, its locks released, and a version if it wrote and succeeded. */
  ghost predicate Closed(s: State, t: State, id: nat)
    requires id in s.db.active && s.db.active[id].rest.Done?
  {
    var tx := s.db.active[id];
    && t.calls == s.calls && t.clock == s.clock && t.mails == s.mails && t.cache == s.cache
    && id !in t.db.active && id in t.db.ended
    && t.db.ended[id].result == tx.rest.outcome
    && t.db.writer == S.Released(s.db.writer, id) && t.db.mutex == S.Released(s.db.mutex, id)
    && t.db.versions == (if tx.rest.outcome.Ok? && tx.writing then s.db.versions + [tx.local.view] else s.db.versions)
  }

  lemma CloseTx(u: Setup, s: State, id: nat) returns (t: State)
    requires Grounded(u, s) && id in s.db.active && s.db.active[id].rest.Done?
    ensures Reaches(u, s, t) && Grounded(u, t) && Closed(s, t, id)
  {
    var e := Closing(s.db.active[id], id);
    assert s.db.versions != [];
    hide Grounded, Reaches;
    ReachesNext(u, s, e);
    NextIsGrounded(u, s, e);
    t := Next(u, s, e);
  }

  /** Locks are held by transactions that can be brought to their end; meanwhile nothing but versions is added. */
  lemma Drain(u: Setup, s: State, id: nat) returns (t: State)
    requires Grounded(u, s) && Clear(s.db, id)
    ensures Reaches(u, s, t) && Grounded(u, t) && t.clock == s.clock && t.calls == s.calls
    ensures s.db.versions <= t.db.versions
    ensures t.db.mutex == S.Released(s.db.mutex, id)
    ensures (s.db.writer.None? || s.db.writer == Some(id) ==> t.db.writer.None?)
  {
    hide Grounded, Reaches, S.Latest;
    var done := WorkAll(u, s, id, {});
    t := CloseTx(u, done, id);
    ReachesOn(u, s, done, t);
  }

  lemma WriterIsClear(u: Setup, s: State, id: nat)
    requires Grounded(u, s) && s.db.writer == Some(id)
    ensures Clear(s.db, id)
  {
    assert S.Locks(s.db, id) && S.TxRuns(s.db.versions, s.db.active[id]);
  }

  /** With the write lock free, the holder of the mutex has not begun, and can. */
  lemma MutexBegins(u: Setup, s: State, id: nat) returns (t: State)
    requires Grounded(u, s) && s.db.writer.None? && s.db.mutex == Some(id)
    ensures Reaches(u, s, t) && Grounded(u, t) && Clear(t.db, id)
    ensures t.clock == s.clock && t.calls == s.calls && t.minted == s.minted && t.db.versions == s.db.versions
    ensures t.db.ended == s.db.ended && t.mails == s.mails && t.cache == s.cache
    ensures t.db.mutex == s.db.mutex && t.db.writer == Some(id)
    ensures id in s.db.active && t.db.active[id].inputs == s.db.active[id].inputs == []
  {
    assert S.Locks(s.db, id) && s.db.versions != [];
    var e := Database(S.BeginImmediate(id));
    hide Grounded, Reaches;
    ReachesNext(u, s, e);
    NextIsGrounded(u, s, e);
    t := Next(u, s, e);
  }

  predicate Free(s: State) { s.db.mutex.None? && s.db.writer.None? }

  lemma FreeLocks(u: Setup, s: State) returns (t: State)
    requires Grounded(u, s)
    ensures Reaches(u, s, t) && Grounded(u, t) && Free(t)
    ensures t.clock == s.clock && t.calls == s.calls && s.db.versions <= t.db.versions
  {
    hide Grounded, Reaches, Clear;
    t := s;
    ReachesHere(u, s);
    if t.db.writer.Some? {
      WriterIsClear(u, t, t.db.writer.value);
      var r := Drain(u, t, t.db.writer.value);
      ReachesOn(u, s, t, r);
      t := r;
    }
    if t.db.mutex.Some? {
      var id := t.db.mutex.value;
      var begun := MutexBegins(u, t, id);
      ReachesOn(u, s, t, begun);
      var r := Drain(u, begun, id);
      ReachesOn(u, s, begun, r);
      t := r;
    }
  }

  // ---- One whole call

  lemma {:induction false} RunIsOver(body: Body, l: Local, inputs: seq<Input>, more: seq<Input>)
    requires Run(body, l, inputs, 0).rest.Done?
    ensures Run(body, l, inputs + more, 0) == Run(body, l, inputs, 0)
    decreases |more|
  {
    if more == [] {
      assert inputs + more == inputs;
    } else {
      RunAppend(body, l, inputs, more[0], 0);
      RunIsOver(body, l, inputs + [more[0]], more[1..]);
      assert inputs + more == inputs + [more[0]] + more[1..];
    }
  }

  /** Inputs a finished run did not need can be added. */
  lemma Padded(argon: Argon2idHash, op: Op, s: Store, inputs: seq<Input>, clock: int, avoid: set<string>)
    returns (ins: seq<Input>)
    requires Good(inputs, clock, avoid) && clock > 0 && Exec(argon, op, s, inputs).rest.Done?
    ensures Good(ins, clock, avoid) && Undisturbed(op, ins) && Timely(ins) && |ins| >= 8
    ensures Exec(argon, op, s, ins) == Exec(argon, op, s, inputs)
  {
    hide Program, Run;
    var uuid := FreshToken(avoid);
    var more := seq(8, i => Input(false, clock, uuid, (j: nat) => 0));
    ins := inputs + more;
    RunIsOver(Program(argon, op), Local(s, [], []), inputs, more);
  }

  /** A transaction at its end has done what its call does alone on the latest version. */
  lemma RanOnLatest(u: Setup, s: State, id: nat)
    requires Grounded(u, s) && Clear(s.db, id) && s.db.active[id].rest.Done?
    ensures id in s.calls.ops
    ensures var tx := s.db.active[id]; var p := Exec(u.argon, s.calls.ops[id], Last(s), tx.inputs);
            && p.rest == tx.rest
            && (tx.rest.outcome.Ok? ==> p.local.view == if tx.writing then tx.local.view else Last(s))
  {
    assert TxIsOurs(u, s.calls, id, s.db.active[id]) && S.TxRuns(s.db.versions, s.db.active[id]);
    hide S.Valid, Known, Program;
  }

  lemma NothingIsGood(clock: int, avoid: set<string>)
    ensures Good([], clock, avoid)
  {
  }

  /** With free locks a call can open, and then go on. */
  lemma Opens(u: Setup, s: State, op: Op) returns (id: nat, t: State)
    requires Grounded(u, s) && Free(s) && !Hit(s, op) && (Issuing(op) ==> op.baseURL == u.baseURL)
    ensures Reaches(u, s, t) && Grounded(u, t) && Clear(t.db, id)
    ensures t.mails == s.mails && t.cache == s.cache
    ensures t.clock == s.clock && t.db.versions == s.db.versions && t.calls.ops == s.calls.ops[id := op]
    ensures id !in s.calls.ops && id !in t.calls.results && t.calls.results == s.calls.results
    ensures t.db.active[id].inputs == []
    ensures t.db.mutex.None? || t.db.mutex == Some(id)
  {
    id := IdsBelow(s.calls.ops.Keys);
    CallIdIsNew(u, s, id);
    CallKeys(u, s);
    var e := Call(id, op, None);
    assert s.db.versions != [];
    hide Grounded, Reaches, Program;
    ReachesNext(u, s, e);
    NextIsGrounded(u, s, e);
    t := Next(u, s, e);
    if PoolOf(op).Write? {
      var begun := MutexBegins(u, t, id);
      ReachesOn(u, s, t, begun);
      t := begun;
    }
  }

  lemma Returns(u: Setup, s: State, id: nat) returns (t: State)
    requires Grounded(u, s) && id in s.db.ended && id in s.calls.ops && id !in s.calls.results
    ensures Reaches(u, s, t) && Grounded(u, t) && t.clock == s.clock && t.db == s.db && t.calls.ops == s.calls.ops
    ensures t == OnReturn(u, s, id)
    ensures t.calls.results
         == s.calls.results[id := ToResponse(Settle(u.argon, s.calls.ops[id], s.db.ended[id].result))]
  {
    var e := Return(id);
    hide Grounded, Reaches, Settle;
    ReachesNext(u, s, e);
    NextIsGrounded(u, s, e);
    t := Next(u, s, e);
  }

  /** A closed call answered, and left, what it does alone on the version it found; padding its inputs changes
      nothing. */
  lemma ClosedIsServed(u: Setup, s: State, t: State, id: nat, ins: seq<Input>)
    requires Grounded(u, s) && Clear(s.db, id) && s.db.active[id].rest.Done? && Closed(s, t, id)
    requires id in s.calls.ops
    requires var op := s.calls.ops[id];
             Exec(u.argon, op, Last(s), ins) == Exec(u.argon, op, Last(s), s.db.active[id].inputs)
    ensures var op := s.calls.ops[id];
            && Settle(u.argon, op, t.db.ended[id].result) == Serve(u.argon, op, Last(s), ins).0
            && Last(t) == Serve(u.argon, op, Last(s), ins).1
  {
    hide Grounded, Exec, Clear;
    RanOnLatest(u, s, id);
  }

  /** A call made with free locks is served as if alone, without a failure, and leaves the locks free. */
  lemma Serves(u: Setup, s: State, op: Op, avoid: set<string>) returns (id: nat, t: State, ins: seq<Input>)
    requires Grounded(u, s) && Free(s) && !op.GetUser? && (Issuing(op) ==> op.baseURL == u.baseURL)
    ensures Reaches(u, s, t) && Grounded(u, t) && Free(t) && t.clock == s.clock
    ensures Good(ins, s.clock, avoid) && Undisturbed(op, ins) && Timely(ins) && |ins| >= 8
    ensures id !in s.calls.ops && t.calls.ops == s.calls.ops[id := op] && id in t.calls.results
    ensures t.calls.results[id] == ToResponse(Serve(u.argon, op, Last(s), ins).0)
    ensures Last(t) == Serve(u.argon, op, Last(s), ins).1
  {
    assert s.clock > 0;
    hide Grounded, Reaches, Clear, Exec, Undisturbed, Settle, Serve, Good, Timely;
    var ready, worked, closed: State;
    id, ready := Opens(u, s, op);
    NothingIsGood(s.clock, avoid);
    worked := WorkAll(u, ready, id, avoid);
    RanOnLatest(u, worked, id);
    ins := Padded(u.argon, op, Last(s), worked.db.active[id].inputs, s.clock, avoid);
    closed := CloseTx(u, worked, id);
    ClosedIsServed(u, worked, closed, id, ins);
    t := Returns(u, closed, id);
    ReachesOn(u, s, ready, worked);
    ReachesOn(u, s, worked, closed);
    ReachesOn(u, s, closed, t);
  }

  // ---- Recovery

  lemma FoundOnSignin(argon: Argon2idHash, s: Store, email: string, password: Bytes, ins: seq<Input>)
    requires Serve(argon, Signin(email, password), s, ins).0.Ok?
    ensures ToResponse(Serve(argon, Signin(email, password), s, ins).0).Found?
  {
    ServeSucceeds(argon, Signin(email, password), s, ins);
    hide Exec;
  }

  /** The verified account that recovery starts from: as it is, or after a resend and a validation. */
  lemma GetsVerified(u: Setup, s: State, email: string) returns (t: State, resend: seq<Input>, validate: seq<Input>)
    requires Grounded(u, s) && Free(s)
    ensures Reaches(u, s, t) && Grounded(u, t) && Free(t) && t.clock == s.clock && s.calls.ops.Keys <= t.calls.ops.Keys
    ensures IsVerified(Last(s), email) ==> t == s
    ensures !IsVerified(Last(s), email) ==>
              && Undisturbed(ResendSignupToken(u.baseURL, email), resend) && Timely(resend) && |resend| >= 8
              && Good(resend, s.clock, Last(s).tokens.Keys)
              && Undisturbed(ValidateSignupToken(resend[1].uuid), validate) && Timely(validate) && |validate| >= 8
              && Good(validate, s.clock, {})
              && Last(t) == Serve(u.argon, ValidateSignupToken(resend[1].uuid),
                                  Serve(u.argon, ResendSignupToken(u.baseURL, email), Last(s), resend).1, validate).1
  {
    hide Grounded, Reaches, Serve, Last, Free, Undisturbed;
    if IsVerified(Last(s), email) {
      ReachesHere(u, s);
      t, resend, validate := s, [], [];
    } else {
      var id, sent := 0, s;
      id, sent, resend := Serves(u, s, ResendSignupToken(u.baseURL, email), Last(s).tokens.Keys);
      id, t, validate := Serves(u, sent, ValidateSignupToken(resend[1].uuid), {});
      ReachesOn(u, s, sent, t);
    }
  }

  lemma StillThere(u: Setup, s: State, t: State, email: string)
    requires Grounded(u, s) && Grounded(u, t) && s.db.versions <= t.db.versions && email in Last(s).users
    ensures Invariant(Last(t)) && email in Last(t).users
  {
    var n := |t.db.versions| - 1;
    assert s.db.versions != [];
    hide Grounded, Invariant;
    VersionsSatisfyInvariant(u, t, n);
    VersionsExtend(u, t, |s.db.versions| - 1, n);
  }

  /** The reset, the change with its token, and the sign-in, one after the other. */
  lemma Resets(u: Setup, s: State, email: string, password: Bytes, avoid: set<string>)
    returns (id: nat, t: State, reset: seq<Input>, change: seq<Input>, signin: seq<Input>)
    requires Grounded(u, s) && Free(s)
    ensures Reaches(u, s, t) && id !in s.calls.ops && id in t.calls.ops && t.calls.ops[id] == Signin(email, password)
    ensures Undisturbed(ResetPassword(u.baseURL, email), reset) && |reset| >= 8 && Good(reset, s.clock, avoid)
    ensures Undisturbed(ChangePasswordWithToken(reset[1].uuid, password), change) && |change| >= 8
    ensures Good(change, s.clock, {})
    ensures Undisturbed(Signin(email, password), signin)
    ensures id in t.calls.results
    ensures var s1 := Serve(u.argon, ResetPassword(u.baseURL, email), Last(s), reset).1;
            var s2 := Serve(u.argon, ChangePasswordWithToken(reset[1].uuid, password), s1, change).1;
            t.calls.results[id] == ToResponse(Serve(u.argon, Signin(email, password), s2, signin).0)
  {
    hide Grounded, Reaches, Serve, Last, Free, Undisturbed, Good, Timely;
    var a, asked, changed := 0, s, s;
    a, asked, reset := Serves(u, s, ResetPassword(u.baseURL, email), avoid);
    a, changed, change := Serves(u, asked, ChangePasswordWithToken(reset[1].uuid, password), {});
    id, t, signin := Serves(u, changed, Signin(email, password), {});
    ReachesOn(u, s, asked, changed);
    ReachesOn(u, s, changed, t);
  }

  /** From every grounded state, for every user of the committed store and every non-empty password. */
  lemma AccountSignsIn(u: Setup, s: State, email: string, password: Bytes) returns (id: nat, t: State)
    requires Grounded(u, s) && Usable(u.argon) && email in Last(s).users && password != []
    ensures Reaches(u, s, t) && id !in s.calls.ops
    ensures id in t.calls.ops && t.calls.ops[id] == Signin(email, password)
    ensures id in t.calls.results && t.calls.results[id].Found?
  {
    hide Grounded, Reaches, Serve, Last, Free, Undisturbed, Usable, Invariant, IsVerified, Timely;
    var free := FreeLocks(u, s);
    StillThere(u, s, free, email);
    var verified, resend, validate := GetsVerified(u, free, email);
    var avoid := Last(free).tokens.Keys + if IsVerified(Last(free), email) then {} else {resend[1].uuid};
    var reset, change, signin;
    id, t, reset, change, signin := Resets(u, verified, email, password, avoid);
    EveryAccountRecovers(u.argon, Last(free), u.baseURL, email, password, resend, validate, reset, change, signin);
    var s1 := Serve(u.argon, ResetPassword(u.baseURL, email), Last(verified), reset).1;
    var s2 := Serve(u.argon, ChangePasswordWithToken(reset[1].uuid, password), s1, change).1;
    FoundOnSignin(u.argon, s2, email, password, signin);
    ReachesOn(u, s, free, verified);
    ReachesOn(u, s, verified, t);
  }

  lemma OneMoreStep(u: Setup, ss: seq<State>, es: seq<Event>, e: Event)
    requires Execution(u, ss, es) && Enabled(u, ss[|ss| - 1], e)
    ensures Execution(u, ss + [Next(u, ss[|ss| - 1], e)], es + [e])
  {
    hide Enabled, Next;
    var more, steps := ss + [Next(u, ss[|ss| - 1], e)], es + [e];
    forall i {:trigger steps[i]} | 0 <= i < |steps|
      ensures Enabled(u, more[i], steps[i]) && more[i + 1] == Next(u, more[i], steps[i])
    {
      if i < |es| {
        assert steps[i] == es[i];
      }
    }
  }

  lemma {:induction false} PathExtends(u: Setup, ss: seq<State>, es: seq<Event>, fs: seq<Event>, t: State)
    returns (more: seq<State>)
    requires Execution(u, ss, es) && Path(u, ss[|ss| - 1], fs, t)
    ensures Execution(u, more, es + fs) && ss <= more && more[|more| - 1] == t
    decreases |fs|
  {
    if fs == [] {
      more := ss;
      assert es + fs == es;
    } else {
      var next := Next(u, ss[|ss| - 1], fs[0]);
      OneMoreStep(u, ss, es, fs[0]);
      more := PathExtends(u, ss + [next], es + [fs[0]], fs[1..], t);
      assert es + [fs[0]] + fs[1..] == es + fs;
    }
  }

  lemma {:induction false} PathIsSmooth(u: Setup, s: State, fs: seq<Event>, t: State)
    requires Path(u, s, fs, t)
    ensures forall f :: f in fs ==> Smooth(f)
    decreases |fs|
  {
    hide Smooth, Enabled, Next;
    if fs == [] {
    } else {
      PathIsSmooth(u, Next(u, s, fs[0]), fs[1..], t);
    }
  }

  /** No account is ever stuck. Every execution, whatever it did and wherever it stopped, has a continuation without
      a crash or any failure, at the same time of day, in which a new sign-in of any committed user with any chosen
      non-empty password finds it. */
  lemma EveryExecutionRecovers(u: Setup, ss: seq<State>, es: seq<Event>, email: string, password: Bytes)
    returns (more: seq<State>, steps: seq<Event>, id: nat)
    requires Execution(u, ss, es) && Usable(u.argon)
    requires email in Last(ss[|ss| - 1]).users && password != []
    ensures Execution(u, more, es + steps) && ss <= more && forall e :: e in steps ==> Smooth(e)
    ensures var t := more[|more| - 1].calls;
            && id !in ss[|ss| - 1].calls.ops
            && id in t.ops && t.ops[id] == Signin(email, password)
            && id in t.results && t.results[id].Found?
  {
    var s := ss[|ss| - 1];
    EveryStateIsGrounded(u, ss, es, |ss| - 1);
    var t;
    id, t := AccountSignsIn(u, s, email, password);
    steps :| Path(u, s, steps, t);
    PathIsSmooth(u, s, steps, t);
    more := PathExtends(u, ss, es, steps, t);
  }
}
