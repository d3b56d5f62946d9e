/** Calls that overlap in the running system: what the two connection pools guarantee each of the nine operations. */
module Overlap {
  import opened Datastore
  import opened Argon2id
  import opened Effects
  import opened Operations
  import opened Changes
  import opened History
  import opened Accounts
  import opened Midway
  import opened System
  import opened Sessions
  import opened Guarantees
  import opened Delivery
  import opened Contention
  import opened Recovery
  import S = Storage

  // ---- Reads never wait

  predicate AtLatest(d: S.DB, id: nat) {
    id in d.active && (d.active[id].base.None? || d.active[id].base.value == S.Latest(d))
  }

  /** In any state, whoever holds the locks, a call that issues no token can open. */
  lemma OpensRead(u: Setup, s: State, op: Op) returns (id: nat, t: State)
    requires Grounded(u, s)
    requires op.Signin? || op.ResetPasswordToken? || op.ValidateSignupToken? || op.ChangePassword?
             || op.ChangePasswordWithToken?
    ensures Reaches(u, s, t) && Grounded(u, t) && AtLatest(t.db, id)
    ensures t.clock == s.clock && t.calls.ops == s.calls.ops[id := op] && t.calls.results == s.calls.results
    ensures t.db.versions == s.db.versions && t.db.writer == s.db.writer && t.db.mutex == s.db.mutex
    ensures id !in s.calls.ops && id !in s.calls.results && id !in s.db.active
    ensures t.db.active[id].inputs == [] && t.db.active == s.db.active[id := t.db.active[id]]
    ensures t.db.active[id].pool.Read? && !t.db.active[id].writing
  {
    id := IdsBelow(s.calls.ops.Keys);
    CallIdIsNew(u, s, id);
    CallKeys(u, s);
    var e := Call(id, op, None);
    assert s.db.versions != [];
    hide Grounded, Reaches, Program;
    ReachesNext(u, s, e);
    NextIsGrounded(u, s, e);
    t := Next(u, s, e);
  }

  lemma ReadOnce(d: S.DB, id: nat, x: Input)
    requires AtLatest(d, id) && d.versions != [] && d.active[id].rest.Do? && !S.Updates(d.active[id])
    requires d.active[id].pool.Read?
    ensures S.Enabled(d, S.Work(id, x))
    ensures var t := S.Next(d, S.Work(id, x));
            && AtLatest(t, id)
            && t.versions == d.versions && t.log == d.log && t.ended == d.ended && t.mutex == d.mutex
            && (!d.active[id].writing ==> t.writer == d.writer && !t.active[id].writing)
            && t.active == d.active[id := t.active[id]] && t.active[id].inputs == d.active[id].inputs + [x]
            && t.active[id].pool == d.active[id].pool
  {
  }

  /** A read-pool transaction takes a step that updates nothing, whoever holds the locks. */
  lemma ReadStep(u: Setup, s: State, id: nat, x: Input) returns (t: State)
    requires Grounded(u, s) && AtLatest(s.db, id) && s.db.active[id].rest.Do? && !S.Updates(s.db.active[id])
    requires s.db.active[id].pool.Read? && !s.db.active[id].writing
    requires !x.fail && x.now == s.clock && x.uuid !in s.minted.Values
    ensures Reaches(u, s, t) && Grounded(u, t) && AtLatest(t.db, id) && OnlyWorks(s, t, id)
    ensures t.db.active[id].inputs == s.db.active[id].inputs + [x] && t.db.writer == s.db.writer
    ensures t.db.active[id].pool.Read? && !t.db.active[id].writing
  {
    assert s.db.versions != [];
    hide Grounded, Reaches, S.Next, Outside;
    var e := Database(S.Work(id, x));
    ReadOnce(s.db, id, x);
    WorkStaysInside(s, e.event);
    ReachesNext(u, s, e);
    NextIsGrounded(u, s, e);
    t := Next(u, s, e);
  }

  /** What a transaction on the latest version has done so far. */
  lemma RanSoFar(u: Setup, s: State, id: nat)
    requires Grounded(u, s) && AtLatest(s.db, id)
    ensures id in s.calls.ops
    ensures s.db.active[id].rest == Exec(u.argon, s.calls.ops[id], Last(s), s.db.active[id].inputs).rest
    ensures s.db.active[id].body == Program(u.argon, s.calls.ops[id])
    ensures s.db.active[id].writing <==> s.db.writer == Some(id)
  {
    assert TxIsOurs(u, s.calls, id, s.db.active[id]) && S.TxRuns(s.db.versions, s.db.active[id]);
    assert S.Locks(s.db, id);
    hide S.Valid, Known, Program;
  }

  lemma ReadersUpdateNothing(u: Setup, s: State, id: nat)
    requires Grounded(u, s) && AtLatest(s.db, id) && id in s.calls.ops
    requires s.calls.ops[id].Signin? || s.calls.ops[id].ResetPasswordToken?
    ensures !S.Updates(s.db.active[id])
  {
    RanSoFar(u, s, id);
    ReadsOffer(u.argon, s.calls.ops[id], Last(s), s.db.active[id].inputs);
    hide Grounded, Exec;
  }

  lemma ReadAll(u: Setup, s: State, id: nat) returns (t: State)
    requires Grounded(u, s) && AtLatest(s.db, id) && s.db.active[id].pool.Read? && !s.db.active[id].writing
    requires id in s.calls.ops && (s.calls.ops[id].Signin? || s.calls.ops[id].ResetPasswordToken?)
    ensures Reaches(u, s, t) && Grounded(u, t) && AtLatest(t.db, id) && OnlyWorks(s, t, id)
    ensures t.db.active[id].rest.Done? && t.db.writer == s.db.writer && !t.db.active[id].writing
    ensures Good(s.db.active[id].inputs, s.clock, {}) ==> Good(t.db.active[id].inputs, s.clock, {})
    decreases 8 - |s.db.active[id].inputs|
  {
    hide Grounded, Reaches, S.Latest, S.Updates;
    if s.db.active[id].rest.Done? {
      ReachesHere(u, s);
      t := s;
    } else {
      ActiveIsShort(u, s, id);
      ReadersUpdateNothing(u, s, id);
      var uuid := FreshToken(s.minted.Values);
      var next := ReadStep(u, s, id, Input(false, s.clock, uuid, (i: nat) => 0));
      t := ReadAll(u, next, id);
      ReachesOn(u, s, next, t);
    }
  }

  lemma ReadIsServed(u: Setup, s: State, id: nat, ins: seq<Input>)
    requires Grounded(u, s) && AtLatest(s.db, id) && s.db.active[id].rest.Done? && id in s.calls.ops
    requires var op := s.calls.ops[id];
             Exec(u.argon, op, Last(s), ins) == Exec(u.argon, op, Last(s), s.db.active[id].inputs)
    ensures Settle(u.argon, s.calls.ops[id], s.db.active[id].rest.outcome)
         == Serve(u.argon, s.calls.ops[id], Last(s), ins).0
  {
    hide Grounded, Exec, AtLatest;
    RanSoFar(u, s, id);
  }

  /** In any state, whoever holds the locks, a sign-in or a check of a reset token is served at once, by steps of its
      own alone, on the latest committed version. */
  lemma ReadsAreServedAtOnce(u: Setup, s: State, op: Op) returns (id: nat, t: State, ins: seq<Input>)
    requires Grounded(u, s) && (op.Signin? || op.ResetPasswordToken?)
    ensures Reaches(u, s, t) && Grounded(u, t) && t.clock == s.clock
    ensures Good(ins, s.clock, {}) && Undisturbed(op, ins) && Timely(ins)
    ensures id !in s.calls.ops && t.calls.ops == s.calls.ops[id := op]
    ensures t.calls.results == s.calls.results[id := ToResponse(Serve(u.argon, op, Last(s), ins).0)]
    ensures t.db.versions == s.db.versions && t.db.writer == s.db.writer && t.db.mutex == s.db.mutex
  {
    assert s.clock > 0;
    hide Grounded, Reaches, Exec, Undisturbed, Settle, Serve, Good, Timely, S.Latest, Last;
    var ready, worked, closed: State;
    id, ready := OpensRead(u, s, op);
    NothingIsGood(s.clock, {});
    worked := ReadAll(u, ready, id);
    RanSoFar(u, worked, id);
    ins := Padded(u.argon, op, Last(s), worked.db.active[id].inputs, s.clock, {});
    ReadIsServed(u, worked, id, ins);
    closed := CloseTx(u, worked, id);
    t := Returns(u, closed, id);
    ReachesOn(u, s, ready, worked);
    ReachesOn(u, s, worked, closed);
    ReachesOn(u, s, closed, t);
  }

  // ---- Updates through the read pool

  predicate Updating(op: Op) { op.ValidateSignupToken? || op.ChangePassword? || op.ChangePasswordWithToken? }

  /** The effects before the update of the user row. */
  function UpdateAt(op: Op): nat {
    if op.ChangePassword? then 1 else if op.ValidateSignupToken? then 2 else 3
  }

  /** Nothing refuses the call at this time. */
  predicate Accepts(argon: Argon2idHash, op: Op, s: Store, clock: int) {
    Refusal(argon, op, s, [Input(false, clock, "", (i: nat) => 0)]).None?
  }

  ghost predicate AsksAt(k: nat, inputs: seq<Input>, rest: Body) {
    && rest.Do?
    && (rest.effect.Sql? && rest.effect.query.Writes() <==> |inputs| == k)
    && (|inputs| == k ==> rest.andThen(Failed) == FAULT)
  }

  lemma AsksForUpdate(argon: Argon2idHash, op: Op, s: Store, inputs: seq<Input>, clock: int)
    requires Updating(op) && Accepts(argon, op, s, clock) && Good(inputs, clock, {}) && |inputs| <= UpdateAt(op)
    ensures AsksAt(UpdateAt(op), inputs, Exec(argon, op, s, inputs).rest)
  {
    if |inputs| == 0 { return; }
    var b1, l1 := Unroll(Program(argon, op), Local(s, [], []), inputs, 0);
    if |inputs| == 1 { return; }
    var b2, l2 := Unroll(b1, l1, inputs, 1);
    if |inputs| == 2 { return; }
    var b3, l3 := Unroll(b2, l2, inputs, 2);
  }

  lemma ReadsToUpdate(u: Setup, s: State, id: nat) returns (t: State)
    requires Grounded(u, s) && AtLatest(s.db, id) && s.db.active[id].pool.Read? && !s.db.active[id].writing
    requires id in s.calls.ops && Updating(s.calls.ops[id])
    requires Accepts(u.argon, s.calls.ops[id], Last(s), s.clock)
    requires Good(s.db.active[id].inputs, s.clock, {}) && |s.db.active[id].inputs| <= UpdateAt(s.calls.ops[id])
    ensures Reaches(u, s, t) && Grounded(u, t) && OnlyWorks(s, t, id) && t.db.writer == s.db.writer
    ensures S.Updates(t.db.active[id]) && !t.db.active[id].writing && t.db.active[id].pool.Read?
    ensures t.db.active[id].rest.andThen(Failed) == FAULT
    decreases UpdateAt(s.calls.ops[id]) - |s.db.active[id].inputs|
  {
    hide Grounded, Reaches, S.Latest, Accepts, UpdateAt;
    RanSoFar(u, s, id);
    AsksForUpdate(u.argon, s.calls.ops[id], Last(s), s.db.active[id].inputs, s.clock);
    if |s.db.active[id].inputs| == UpdateAt(s.calls.ops[id]) {
      ReachesHere(u, s);
      t := s;
    } else {
      var uuid := FreshToken(s.minted.Values);
      var next := ReadStep(u, s, id, Input(false, s.clock, uuid, (i: nat) => 0));
      t := ReadsToUpdate(u, next, id);
      ReachesOn(u, s, next, t);
    }
  }

  /** The write lock can always be in use: by whoever holds it, by the holder of the mutex, or by a new sign-up. */
  lemma TakesLock(u: Setup, s: State) returns (t: State)
    requires Grounded(u, s)
    ensures Reaches(u, s, t) && Grounded(u, t) && t.db.writer.Some?
    ensures t.clock == s.clock && t.db.versions == s.db.versions && s.calls.ops.Keys <= t.calls.ops.Keys
  {
    hide Reaches, Program;
    if s.db.writer.Some? {
      ReachesHere(u, s);
      t := s;
    } else if s.db.mutex.Some? {
      hide Grounded;
      t := MutexBegins(u, s, s.db.mutex.value);
    } else {
      var id;
      id, t := Opens(u, s, Signup(u.baseURL, "", "", []));
      assert TxIsOurs(u, t.calls, id, t.db.active[id]) && S.Locks(t.db, id);
    }
  }

  lemma DeniedOnce(d: S.DB, id: nat, x: Input)
    requires S.Enabled(d, S.Work(id, x)) && S.Denied(d, d.active[id]) && d.active[id].rest.andThen(Failed) == FAULT
    ensures var t := S.Next(d, S.Work(id, x));
            && t.versions == d.versions && t.log == d.log && t.ended == d.ended && t.mutex == d.mutex
            && id in t.active && t.active == d.active[id := t.active[id]] && t.active[id].rest == FAULT
  {
    DeniedUpdateFails(d, id, x);
  }

  lemma UpdateIsDenied(u: Setup, s: State, id: nat) returns (t: State)
    requires Grounded(u, s) && id in s.db.active && s.db.active[id].pool.Read? && !s.db.active[id].writing
    requires S.Updates(s.db.active[id]) && s.db.writer.Some? && s.db.active[id].rest.andThen(Failed) == FAULT
    ensures S.Denied(s.db, s.db.active[id])
    ensures Reaches(u, s, t) && Grounded(u, t) && OnlyWorks(s, t, id) && t.db.active[id].rest == FAULT
  {
    assert s.db.versions != [];
    hide Grounded, Reaches, Outside, S.Next;
    var e := Database(S.Work(id, Input(false, s.clock, "", (i: nat) => 0)));
    WorkStaysInside(s, e.event);
    DeniedOnce(s.db, id, e.event.input);
    ReachesNext(u, s, e);
    NextIsGrounded(u, s, e);
    t := Next(u, s, e);
  }

  /** From every state a validation or password change that nothing refuses can be overlapped so that it ends in a
      fault: it reads, someone else holds the write lock when it updates, and it is rolled back. */
  lemma UpdateIsOverlapped(u: Setup, s: State, op: Op) returns (id: nat, halfway: State, t: State)
    requires Grounded(u, s) && Updating(op) && Accepts(u.argon, op, Last(s), s.clock)
    ensures Reaches(u, s, halfway) && Reaches(u, halfway, t) && id !in s.calls.ops
    ensures id in halfway.db.active && S.Denied(halfway.db, halfway.db.active[id])
    ensures id in t.calls.ops && t.calls.ops[id] == op && id in t.calls.results && t.calls.results[id] == Refused(Fault)
    ensures t.clock == s.clock && t.db.versions == s.db.versions
  {
    hide Grounded, Reaches, Exec, Good, S.Latest, Accepts, S.Updates;
    var locked, ready, denied, closed: State;
    locked := TakesLock(u, s);
    id, ready := OpensRead(u, locked, op);
    NothingIsGood(s.clock, {});
    RanSoFar(u, ready, id);
    halfway := ReadsToUpdate(u, ready, id);
    denied := UpdateIsDenied(u, halfway, id);
    closed := CloseTx(u, denied, id);
    t := Returns(u, closed, id);
    ReachesOn(u, s, locked, ready);
    ReachesOn(u, s, ready, halfway);
    ReachesOn(u, halfway, denied, closed);
    ReachesOn(u, halfway, closed, t);
  }

  lemma {:induction false} ExecutionExtends(u: Setup, ss: seq<State>, es: seq<Event>, t: State)
    returns (more: seq<State>, steps: seq<Event>)
    requires Execution(u, ss, es) && Reaches(u, ss[|ss| - 1], t)
    ensures Execution(u, more, es + steps) && ss <= more && more[|more| - 1] == t
    ensures forall e :: e in steps ==> Smooth(e)
  {
    steps :| Path(u, ss[|ss| - 1], steps, t);
    hide Execution, Path;
    PathIsSmooth(u, ss[|ss| - 1], steps, t);
    more := PathExtends(u, ss, es, steps, t);
  }

  lemma ExecutionPasses(u: Setup, ss: seq<State>, es: seq<Event>, halfway: State, t: State)
    returns (more: seq<State>, steps: seq<Event>, k: nat)
    requires Execution(u, ss, es) && Reaches(u, ss[|ss| - 1], halfway) && Reaches(u, halfway, t)
    ensures Execution(u, more, es + steps) && ss <= more && more[|more| - 1] == t
    ensures k < |more| && more[k] == halfway && forall e :: e in steps ==> Smooth(e)
  {
    assert ss != [];
    hide Execution, Reaches, Smooth;
    var first, begin := ExecutionExtends(u, ss, es, halfway);
    k := |first| - 1;
    var rest;
    more, rest := ExecutionExtends(u, first, es + begin, t);
    steps := begin + rest;
    assert es + begin + rest == es + steps;
  }

  /** The price of updating through the read pool. Every execution in which a validation or a password change would be
      accepted goes on, without a crash or any failure, to a state in which a new call of that operation was denied its
      update by the lock rule and answered a fault, and changed nothing. */
  lemma AcceptedUpdateCanFault(u: Setup, ss: seq<State>, es: seq<Event>, op: Op)
    returns (more: seq<State>, steps: seq<Event>, k: nat, id: nat)
    requires Execution(u, ss, es)
    requires op.ValidateSignupToken? || op.ChangePassword? || op.ChangePasswordWithToken?
    requires Accepts(u.argon, op, Last(ss[|ss| - 1]), ss[|ss| - 1].clock)
    ensures Execution(u, more, es + steps) && ss <= more && forall e :: e in steps ==> Smooth(e)
    ensures k < |more| && id in more[k].db.active && S.Denied(more[k].db, more[k].db.active[id])
    ensures var s, t := ss[|ss| - 1], more[|more| - 1];
            && id !in s.calls.ops && id in t.calls.ops && t.calls.ops[id] == op
            && id in t.calls.results && t.calls.results[id] == Refused(Fault)
            && t.clock == s.clock && t.db.versions == s.db.versions
  {
    assert ss != [];
    hide Execution, Reaches, Grounded, Accepts, S.Denied, Smooth, Last, S.Latest;
    EveryStateIsGrounded(u, ss, es, |ss| - 1);
    var halfway, t;
    id, halfway, t := UpdateIsOverlapped(u, ss[|ss| - 1], op);
    more, steps, k := ExecutionPasses(u, ss, es, halfway, t);
  }

  /** A first sign-up leaves a token that is accepted, and nothing refuses its validation. */
  lemma FirstSignup(argon: Argon2idHash, op: Op, ins: seq<Input>, clock: int)
    requires op.Signup? && argon.Runs() && op.password != []
    requires Undisturbed(op, ins) && Timely(ins) && |ins| >= 8 && Good(ins, clock, {})
    ensures var t := Serve(argon, op, EMPTY, ins).1;
            && Redeemable(t, SIGNUP, ins[3].uuid, clock) && t.tokens[ins[3].uuid].email == op.email
            && Accepts(argon, ValidateSignupToken(ins[3].uuid), t, clock)
  {
    ServeSucceeds(argon, op, EMPTY, ins);
    hide Exec;
  }

  /** Validating it and asking for a reset leaves a reset token, and nothing refuses its use. */
  lemma FirstReset(argon: Argon2idHash, email: string, baseURL: string, token: string, password: Bytes, s: Store,
                   validate: seq<Input>, reset: seq<Input>, clock: int)
    requires argon.Runs() && password != [] && Invariant(s) && clock > 0
    requires Accepts(argon, ValidateSignupToken(token), s, clock) && s.tokens[token].email == email
    requires Undisturbed(ValidateSignupToken(token), validate) && Timely(validate) && Good(validate, clock, {})
    requires Undisturbed(ResetPassword(baseURL, email), reset) && Good(reset, clock, s.tokens.Keys)
    ensures |reset| >= 6
    ensures var t := Serve(argon, ValidateSignupToken(token), s, validate).1;
            var r := Serve(argon, ResetPassword(baseURL, email), t, reset).1;
            && Redeemable(r, PASSWORD, reset[1].uuid, clock)
            && Accepts(argon, ChangePasswordWithToken(reset[1].uuid, password), r, clock)
  {
    hide Exec, Serve;
    ValidationLeaves(argon, ValidateSignupToken(token), s, validate);
    ReissueLeaves(argon, ResetPassword(baseURL, email), Serve(argon, ValidateSignupToken(token), s, validate).1, reset);
  }

  lemma SignsUp(u: Setup, clock: int, email: string, name: string, password: Bytes) returns (t: State, token: string)
    requires clock > 0 && u.argon.Runs() && password != []
    ensures Reaches(u, Init(clock), t) && Grounded(u, t) && Free(t) && t.clock == clock
    ensures Accepts(u.argon, ValidateSignupToken(token), Last(t), clock) && Last(t).tokens[token].email == email
  {
    var s, op, id, ins := Init(clock), Signup(u.baseURL, email, name, password), 0, [];
    assert Last(s) == EMPTY && Grounded(u, s);
    hide Reaches, Grounded, Exec, Good, Timely, Undisturbed, Serve, Accepts, Last;
    id, t, ins := Serves(u, s, op, {});
    FirstSignup(u.argon, op, ins, clock);
    token := ins[3].uuid;
  }

  lemma LastIsInvariant(u: Setup, s: State)
    requires Grounded(u, s)
    ensures Invariant(Last(s))
  {
    assert s.db.versions != [];
    hide Grounded, Invariant;
    VersionsSatisfyInvariant(u, s, |s.db.versions| - 1);
  }

  lemma AsksForReset(u: Setup, clock: int, email: string, name: string, password: Bytes, chosen: Bytes)
    returns (t: State, token: string)
    requires clock > 0 && u.argon.Runs() && password != [] && chosen != []
    ensures Reaches(u, Init(clock), t) && Grounded(u, t) && Free(t) && t.clock == clock
    ensures Accepts(u.argon, ChangePasswordWithToken(token, chosen), Last(t), clock)
  {
    var s, first := SignsUp(u, clock, email, name, password);
    LastIsInvariant(u, s);
    hide Reaches, Grounded, Exec, Good, Timely, Undisturbed, Serve, Accepts, Invariant, Last, Free;
    var a, verified, validate := Serves(u, s, ValidateSignupToken(first), {});
    var b, reset := 0, [];
    b, t, reset := Serves(u, verified, ResetPassword(u.baseURL, email), Last(s).tokens.Keys);
    FirstReset(u.argon, email, u.baseURL, first, chosen, Last(s), validate, reset, clock);
    token := reset[1].uuid;
    ReachesOn(u, Init(clock), s, verified);
    ReachesOn(u, Init(clock), verified, t);
  }

  lemma FromTheStart(u: Setup, clock: int, t: State) returns (ss: seq<State>, es: seq<Event>)
    requires clock > 0 && Reaches(u, Init(clock), t)
    ensures Execution(u, ss, es) && ss != [] && ss[0] == Init(clock) && ss[|ss| - 1] == t
    ensures forall e :: e in es ==> Smooth(e)
  {
    hide Reaches;
    assert Execution(u, [Init(clock)], []);
    hide Execution;
    ss, es := ExecutionExtends(u, [Init(clock)], [], t);
    assert [] + es == es;
  }

  /** So it happens: a run from the start, made of calls and their steps without any failure, in which an overlapping
      validation was denied and answered a fault, and nothing refuses the same validation afterwards. */
  lemma ValidationsDoFault(u: Setup, clock: int, email: string, name: string, password: Bytes)
    returns (ss: seq<State>, es: seq<Event>, k: nat, id: nat, token: string)
    requires clock > 0 && u.argon.Runs() && password != []
    ensures Execution(u, ss, es) && ss[0] == Init(clock) && forall e :: e in es ==> Smooth(e)
    ensures k < |ss| && id in ss[k].db.active && S.Denied(ss[k].db, ss[k].db.active[id])
    ensures var t := ss[|ss| - 1];
            && id in t.calls.ops && t.calls.ops[id] == ValidateSignupToken(token)
            && id in t.calls.results && t.calls.results[id] == Refused(Fault)
            && Accepts(u.argon, ValidateSignupToken(token), Last(t), t.clock)
  {
    hide Execution, Reaches, Grounded, Accepts, S.Denied, Smooth;
    var s;
    s, token := SignsUp(u, clock, email, name, password);
    var before, first := FromTheStart(u, clock, s);
    var rest;
    ss, rest, k, id := AcceptedUpdateCanFault(u, before, first, ValidateSignupToken(token));
    es := first + rest;
  }

  /** The same for a password change with a reset token. */
  lemma ChangesDoFault(u: Setup, clock: int, email: string, name: string, password: Bytes, chosen: Bytes)
    returns (ss: seq<State>, es: seq<Event>, k: nat, id: nat, token: string)
    requires clock > 0 && u.argon.Runs() && password != [] && chosen != []
    ensures Execution(u, ss, es) && ss[0] == Init(clock) && forall e :: e in es ==> Smooth(e)
    ensures k < |ss| && id in ss[k].db.active && S.Denied(ss[k].db, ss[k].db.active[id])
    ensures var t := ss[|ss| - 1];
            && id in t.calls.ops && t.calls.ops[id] == ChangePasswordWithToken(token, chosen)
            && id in t.calls.results && t.calls.results[id] == Refused(Fault)
            && Accepts(u.argon, ChangePasswordWithToken(token, chosen), Last(t), t.clock)
  {
    hide Execution, Reaches, Grounded, Accepts, S.Denied, Smooth;
    var s;
    s, token := AsksForReset(u, clock, email, name, password, chosen);
    var before, first := FromTheStart(u, clock, s);
    var rest;
    ss, rest, k, id := AcceptedUpdateCanFault(u, before, first, ChangePasswordWithToken(token, chosen));
    es := first + rest;
  }

  // ---- Updates behind the mutex

  /** Which calls wait for another one to start: only the three that issue tokens, and they for the mutex. */
  lemma OnlyIssuersWait(u: Setup, s: State, id: nat, op: Op)
    requires Grounded(u, s) && id !in s.calls.ops
    ensures Enabled(u, s, Call(id, op, None)) <==>
              (op.Signup? || op.ResendSignupToken? || op.ResetPassword? ==>
                op.baseURL == u.baseURL && s.db.mutex.None?)
  {
    CallIdIsNew(u, s, id);
    assert s.db.versions != [];
    hide Grounded, Program;
  }

  lemma FirstReads(argon: Argon2idHash, op: Op, s: Store)
    requires Issuing(op)
    ensures var b := Exec(argon, op, s, []).rest; b.Do? && b.effect == Sql(SelectUser(op.email))
  {
  }

  /** Once it began, an issuing call holds the write lock; before, it asks for nothing but a read. */
  lemma IssuerIsNeverDenied(u: Setup, s: State, id: nat)
    requires Grounded(u, s) && id in s.db.active && id in s.calls.ops && Issuing(s.calls.ops[id])
    ensures !S.Denied(s.db, s.db.active[id])
  {
    var tx := s.db.active[id];
    assert TxIsOurs(u, s.calls, id, tx) && S.TxRuns(s.db.versions, tx) && S.Locks(s.db, id);
    FirstReads(u.argon, s.calls.ops[id], EMPTY);
    hide Program, Known, S.Valid;
  }

  /** In no reachable state does the lock rule deny an update to a call that issues a token. */
  lemma IssuersAreNeverDenied(u: Setup, ss: seq<State>, es: seq<Event>, n: nat, id: nat)
    requires Execution(u, ss, es) && n < |ss| && id in ss[n].db.active && id in ss[n].calls.ops
    requires var op := ss[n].calls.ops[id]; op.Signup? || op.ResendSignupToken? || op.ResetPassword?
    ensures !S.Denied(ss[n].db, ss[n].db.active[id])
  {
    EveryStateIsGrounded(u, ss, es, n);
    IssuerIsNeverDenied(u, ss[n], id);
  }

  /** A failure of the call's own: of its begin, of one of its effects or of its commit. */
  predicate FailsIn(e: Event, id: nat) {
    e.Database? &&
    match e.event
    case BeginFails(i) => i == id
    case Work(i, x) => i == id && x.fail
    case Commit(i, ok) => i == id && !ok
    case _ => false
  }

  ghost predicate Clean(inputs: seq<Input>) { forall i :: 0 <= i < |inputs| ==> !inputs[i].fail }

  /** The finished call answered what its body did, without a failure and with the UUID it drew. */
  ghost predicate EndsClean(u: Setup, s: State, id: nat)
    requires id in s.db.ended && id in s.calls.ops && Issuing(s.calls.ops[id])
  {
    var e, op := s.db.ended[id], s.calls.ops[id];
    && Clean(e.inputs) && S.Place(e) < |s.db.versions|
    && Exec(u.argon, op, s.db.versions[S.Place(e)], e.inputs).rest == Done(e.result)
    && (|e.inputs| > MintAt(op) ==> id in s.minted && s.minted[id] == e.inputs[MintAt(op)].uuid)
  }

  ghost predicate StaysClean(u: Setup, s: State, id: nat)
    requires id in s.calls.ops && Issuing(s.calls.ops[id])
  {
    && (id in s.db.active ==> Clean(s.db.active[id].inputs))
    && (id in s.db.ended ==> EndsClean(u, s, id))
  }

  lemma ClosesClean(u: Setup, s: State, id: nat, e: S.Event)
    requires Grounded(u, s) && Delivers(s.db, s.calls, s.mails, s.minted) && id in s.db.active
    requires id in s.calls.ops && Issuing(s.calls.ops[id]) && Clean(s.db.active[id].inputs)
    requires S.Enabled(s.db, e) && (e == S.Commit(id, true) || e == S.Rollback(id))
    ensures StaysClean(u, Next(u, s, Database(e)), id)
  {
    var tx, t := s.db.active[id], Next(u, s, Database(e));
    assert TxIsOurs(u, s.calls, id, tx) && S.TxRuns(s.db.versions, tx);
    assert TxDelivers(s.calls, s.mails, s.minted, id, tx);
    assert t.db.ended[id].inputs == tx.inputs && S.Place(t.db.ended[id]) < |s.db.versions|;
    hide Program, Known, S.Valid, Delivers;
  }

  lemma WorksClean(u: Setup, s: State, id: nat, x: Input)
    requires Grounded(u, s) && Enabled(u, s, Database(S.Work(id, x))) && !x.fail
    requires id in s.calls.ops && Issuing(s.calls.ops[id]) && Clean(s.db.active[id].inputs)
    ensures var t := Next(u, s, Database(S.Work(id, x)));
            t.calls == s.calls && id in t.db.active && Clean(t.db.active[id].inputs) && t.db.ended == s.db.ended
  {
    IssuerIsNeverDenied(u, s, id);
    assert id !in s.db.ended;
    hide Grounded;
    WorkShape(u, s, id, x);
    assert S.Worked(s.db, s.db.active[id], x).inputs == s.db.active[id].inputs + [x];
    hide S.Worked, Next;
  }

  lemma BeginsClean(u: Setup, s: State, id: nat)
    requires Grounded(u, s) && Enabled(u, s, Database(S.BeginImmediate(id)))
    requires id in s.calls.ops && Issuing(s.calls.ops[id]) && Clean(s.db.active[id].inputs)
    ensures StaysClean(u, Next(u, s, Database(S.BeginImmediate(id))), id)
  {
    assert id !in s.db.ended;
    hide Grounded, EndsClean;
  }

  /** This call stands where it stood, or is gone with a crash. */
  ghost predicate LeftAlone(s: State, t: State, id: nat) {
    && (id in t.db.active ==> id in s.db.active && t.db.active[id] == s.db.active[id])
    && (id in t.db.ended <==> id in s.db.ended) && (id in s.db.ended ==> t.db.ended[id] == s.db.ended[id])
    && (id in t.minted <==> id in s.minted) && (id in s.minted ==> t.minted[id] == s.minted[id])
  }

  lemma OthersWork(s: State, id: nat, e: S.Event)
    requires S.Enabled(s.db, e) && (!e.Crash? ==> e.id != id)
    ensures LeftAlone(s, Outside(s, e).(db := S.Next(s.db, e)), id)
  {
    hide S.Worked, S.Snapshot, LoadOrStore;
  }

  lemma OthersLeaveAlone(u: Setup, s: State, id: nat, e: Event)
    requires Grounded(u, s) && Enabled(u, s, e) && id in s.calls.ops
    requires e.Database? && !e.event.Crash? ==> e.event.id != id
    ensures LeftAlone(s, Next(u, s, e), id)
  {
    hide Grounded, Settle, Program, S.Next, S.Enabled, Outside, LoadOrStore;
    if e.Database? {
      OthersWork(s, id, e.event);
    } else if e.Call? {
      CallShape(u, s, e.id, e.op, e.onBehalf);
    }
  }

  /** A step of another call, or of none. */
  lemma OthersKeepClean(u: Setup, s: State, id: nat, e: Event)
    requires Grounded(u, s) && Enabled(u, s, e) && id in s.calls.ops && Issuing(s.calls.ops[id])
    requires StaysClean(u, s, id)
    requires e.Database? && !e.event.Crash? ==> e.event.id != id
    ensures id in Next(u, s, e).calls.ops && Next(u, s, e).calls.ops[id] == s.calls.ops[id]
    ensures StaysClean(u, Next(u, s, e), id)
  {
    OpsAreKept(u, s, e);
    OthersLeaveAlone(u, s, id, e);
    DatabaseGrows(u, s, e);
    hide Grounded, Exec, Next, Enabled;
  }

  lemma StepStaysClean(u: Setup, s: State, id: nat, e: Event)
    requires Grounded(u, s) && Delivers(s.db, s.calls, s.mails, s.minted) && Enabled(u, s, e)
    requires id in s.calls.ops && Issuing(s.calls.ops[id]) && StaysClean(u, s, id) && !FailsIn(e, id)
    ensures id in Next(u, s, e).calls.ops && Next(u, s, e).calls.ops[id] == s.calls.ops[id]
    ensures StaysClean(u, Next(u, s, e), id)
  {
    OpsAreKept(u, s, e);
    if !e.Database? || e.event.Crash? || e.event.id != id {
      hide *;
      OthersKeepClean(u, s, id, e);
    } else if e.event.Work? {
      WorksClean(u, s, id, e.event.input);
    } else if e.event.BeginImmediate? {
      BeginsClean(u, s, id);
    } else {
      ClosesClean(u, s, id, e.event);
    }
  }

  lemma CallsStart(u: Setup, s: State, id: nat, e: Event)
    requires Enabled(u, s, e) && id !in s.calls.ops && id in Next(u, s, e).calls.ops
    ensures e.Call? && e.id == id
  {
    hide S.Next, S.Enabled, Program, Settle;
  }

  lemma CallStartsClean(u: Setup, s: State, id: nat, e: Event)
    requires Grounded(u, s) && Enabled(u, s, e) && id !in s.calls.ops
    requires id in Next(u, s, e).calls.ops && Issuing(Next(u, s, e).calls.ops[id])
    ensures StaysClean(u, Next(u, s, e), id)
  {
    hide Grounded, OnCall, OnReturn, Enabled, Outside, EndsClean;
    CallIdIsNew(u, s, id);
    CallsStart(u, s, id, e);
    CallShape(u, s, e.id, e.op, e.onBehalf);
  }

  lemma {:induction false} EveryIssuerStaysClean(u: Setup, ss: seq<State>, es: seq<Event>, n: nat, id: nat)
    requires Execution(u, ss, es) && n < |ss| && id in ss[n].calls.ops && Issuing(ss[n].calls.ops[id])
    requires forall i {:trigger es[i]} :: 0 <= i < n ==> !FailsIn(es[i], id)
    ensures StaysClean(u, ss[n], id)
  {
    hide Next, Enabled, Grounded, StaysClean, Delivers, FailsIn, Issuing;
    if n == 0 {
    } else {
      var m := n - 1;
      assert Enabled(u, ss[m], es[m]) && ss[m + 1] == Next(u, ss[m], es[m]);
      EveryStateIsGrounded(u, ss, es, m);
      EveryStateDelivers(u, ss, es, m);
      if id in ss[m].calls.ops {
        OpsAreKept(u, ss[m], es[m]);
        EveryIssuerStaysClean(u, ss, es, m, id);
        StepStaysClean(u, ss[m], id, es[m]);
      } else {
        CallStartsClean(u, ss[m], id, es[m]);
      }
    }
  }

  /** Without a failure an issuing body ends in a fault only for its password or for a UUID that is already used. */
  lemma CleanFault(argon: Argon2idHash, op: Op, s: Store, inputs: seq<Input>)
    requires Issuing(op) && Invariant(s) && Clean(inputs) && Exec(argon, op, s, inputs).rest == Done(Err(Fault))
    ensures (op.Signup? && HashRefusal(argon, op.password).Some?)
            || (|inputs| > MintAt(op) && inputs[MintAt(op)].uuid in s.tokens)
  {
    var uuid := FreshToken(s.tokens.Keys);
    var more := seq(8, i => Input(false, 1, uuid, (j: nat) => 0));
    RunIsOver(Program(argon, op), Local(s, [], []), inputs, more);
    Meaning(argon, op, s, inputs + more);
    assert op.email in s.users ==> HasUser(s, op.email);
    hide Invariant, Program, Run, MailOf, After;
    assert Undisturbed(op, inputs + more);
    assert Refusal(argon, op, s, inputs + more) == Some(Fault);
    assert At(inputs + more, MintAt(op)).uuid == if |inputs| > MintAt(op) then inputs[MintAt(op)].uuid else uuid;
  }

  /** The UUID of a call that is not in the log is no committed token. */
  lemma OwnTokenIsNotCommitted(u: Setup, s: State, id: nat, b: nat)
    requires Grounded(u, s) && Delivers(s.db, s.calls, s.mails, s.minted)
    requires id in s.db.ended && s.db.ended[id].result.Err? && id in s.minted && b < |s.db.versions|
    ensures s.minted[id] !in s.db.versions[b].tokens
  {
    var token := s.minted[id];
    if token in s.db.versions[b].tokens {
      VersionsExtend(u, s, b, |s.db.versions| - 1);
      assert token in Last(s).tokens;
      hide Grounded, HasMail, MailsFit, TxDelivers, EndDelivers, ChangeAt;
      var i := IssuerOf(u, s, token);
      IssuedRow(u, s, i);
      assert EntryDelivers(s.calls, s.mails, s.minted, s.db.log[i]);
      assert s.minted[s.db.log[i].id] == token;
      assert MintsFit(s.calls, s.minted);
      assert s.db.log[i].id == id;
      CommittedCallSucceeds(u, s, i);
      assert false;
    }
  }

  lemma CleanCallFaults(u: Setup, s: State, id: nat)
    requires Grounded(u, s) && Delivers(s.db, s.calls, s.mails, s.minted)
    requires id in s.calls.ops && Issuing(s.calls.ops[id]) && StaysClean(u, s, id)
    requires id in s.db.ended && s.db.ended[id].result == Err(Fault)
    ensures s.calls.ops[id].Signup? && HashRefusal(u.argon, s.calls.ops[id].password).Some?
  {
    var e := s.db.ended[id];
    hide Grounded, Delivers, Exec;
    VersionsSatisfyInvariant(u, s, S.Place(e));
    CleanFault(u.argon, s.calls.ops[id], s.db.versions[S.Place(e)], e.inputs);
    if |e.inputs| > MintAt(s.calls.ops[id]) {
      OwnTokenIsNotCommitted(u, s, id, S.Place(e));
    }
  }

  /** Overlapping never costs an issuing call anything. If its own begin, effects and commit do not fail, then whatever
      else runs, it is refused with a fault only for a password that cannot be hashed: an empty one, or any one under
      parameters on which the library panics. */
  lemma IssuersNeverFaultForOverlap(u: Setup, ss: seq<State>, es: seq<Event>, n: nat, id: nat)
    requires Execution(u, ss, es) && n < |ss| && id in ss[n].calls.ops && id in ss[n].calls.results
    requires var op := ss[n].calls.ops[id]; op.Signup? || op.ResendSignupToken? || op.ResetPassword?
    requires forall i {:trigger es[i]} :: 0 <= i < n ==> !FailsIn(es[i], id)
    requires ss[n].calls.results[id] == Refused(Fault)
    ensures var op := ss[n].calls.ops[id];
            && op.Signup?
            && (op.password == [] || u.argon.time <= 0 || u.argon.threads <= 0 || u.argon.keyLen <= 0)
  {
    EveryStateIsSound(u, ss, es, n);
    EveryStateDelivers(u, ss, es, n);
    EveryIssuerStaysClean(u, ss, es, n, id);
    var s := ss[n];
    assert ResponseHolds(u, s.db, s.calls, id);
    hide Execution, StaysClean, Delivers, Known, S.Valid, FailsIn;
    CleanCallFaults(u, s, id);
  }
}
