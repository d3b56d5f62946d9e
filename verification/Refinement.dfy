/** The interleaved system against the service as it is written: a call that runs while nobody holds a lock does to the
    store, the mailer and the cache what the method of the class does. */
module Refinement {
  import opened Datastore
  import opened Argon2id
  import opened Effects
  import opened Operations
  import opened Changes
  import opened Accounts
  import opened Midway
  import opened System
  import opened Sessions
  import opened Delivery
  import opened Recovery
  import opened UserService
  import S = Storage

  function Handed(mails: seq<Posted>): seq<Mail> {
    seq(|mails|, i requires 0 <= i < |mails| => mails[i].mail)
  }

  /** The system as one caller sees it. */
  function WorldOf(s: State): World { World(Last(s), Handed(s.mails), s.cache) }

  /** What has left the transaction since s: its mails and its cache entries. */
  ghost predicate LetsOut(s: State, t: State, id: nat) {
    && id in t.db.active
    && Handed(t.mails) == Handed(s.mails) + t.db.active[id].local.sent
    && t.cache == FillAll(s.cache, t.db.active[id].local.cached)
  }

  lemma HandsOver(mails: seq<Posted>, p: Posted)
    ensures Handed(mails + [p]) == Handed(mails) + [p.mail]
  {
  }

  lemma OneMoreOut(u: Setup, s: State, t: State, id: nat, x: Input)
    requires LetsOut(s, t, id) && !x.fail && Enabled(u, t, Database(S.Work(id, x)))
    ensures LetsOut(s, Next(u, t, Database(S.Work(id, x))), id)
  {
    hide Next, Enabled, S.Worked, FillAll, LoadOrStore, Handed;
    WorkShape(u, t, id, x);
    WorkedSends(t.db, t.db.active[id], x);
    var local, e := t.db.active[id].local, t.db.active[id].rest.effect;
    assert local.cached + [] == local.cached && local.sent + [] == local.sent;
    if e.CacheUser? {
      FillOne(s.cache, local.cached, e.user);
    }
    if e.Send? {
      HandsOver(t.mails, Posted(id, e.mail));
    }
  }

  lemma WorksAlone(u: Setup, s: State, t: State, id: nat) returns (r: State)
    requires Grounded(u, t) && Clear(t.db, id) && LetsOut(s, t, id)
    ensures Reaches(u, t, r) && Grounded(u, r) && Clear(r.db, id) && LetsOut(s, r, id)
    ensures OnlyWorks(t, r, id) && r.db.active[id].rest.Done?
    ensures Good(t.db.active[id].inputs, t.clock, {}) ==> Good(r.db.active[id].inputs, t.clock, {})
    decreases 8 - |t.db.active[id].inputs|
  {
    hide Grounded, Reaches, S.Latest, LetsOut, Next, Enabled;
    if t.db.active[id].rest.Done? {
      ReachesHere(u, t);
      r := t;
    } else {
      ActiveIsShort(u, t, id);
      var uuid := FreshToken(t.minted.Values);
      var x := Input(false, t.clock, uuid, (i: nat) => 0);
      var next := WorkOnce(u, t, id, x);
      OneMoreOut(u, s, t, id, x);
      r := WorksAlone(u, s, next, id);
      ReachesOn(u, t, next, r);
    }
  }

  /** The transaction's body on the latest version, with all it let out. */
  lemma RanWhole(u: Setup, s: State, id: nat)
    requires Grounded(u, s) && Clear(s.db, id)
    ensures id in s.calls.ops
    ensures var tx := s.db.active[id]; var p := Exec(u.argon, s.calls.ops[id], Last(s), tx.inputs);
            p.rest == tx.rest && p.local.sent == tx.local.sent && p.local.cached == tx.local.cached
    ensures s.db.active[id].inputs == [] ==> s.db.active[id].local.sent == [] && s.db.active[id].local.cached == []
  {
    assert TxIsOurs(u, s.calls, id, s.db.active[id]) && S.TxRuns(s.db.versions, s.db.active[id]);
    hide S.Valid, Known, Program;
  }

  /** What the class answers and leaves when its transaction can begin and commit. */
  ghost predicate DoneAs(argon: Argon2idHash, op: Op, w: World, ins: seq<Input>, r: Response, there: World) {
    if op.GetUser? || op.Signin? then (r, there) == Looked(argon, op, w, ins, true, true)
    else
      var (out, w') := Called(argon, op, w, ins, true, true);
      r == ToResponse(out) && there == w'
  }

  lemma ReturnedAs(u: Setup, s: State, id: nat, op: Op, w: World, ins: seq<Input>)
    requires Enabled(u, s, Return(id)) && s.calls.ops[id] == op && !(op.GetUser? && op.email in w.cache)
    requires var p := Exec(u.argon, op, w.store, ins);
             && p.rest == Done(s.db.ended[id].result) && Last(s) == Serve(u.argon, op, w.store, ins).1
             && Handed(s.mails) == w.outbox + p.local.sent && s.cache == FillAll(w.cache, p.local.cached)
    ensures var t := OnReturn(u, s, id);
            DoneAs(u.argon, op, w, ins, t.calls.results[id], WorldOf(t))
  {
    hide Exec, Handed, LoadOrStore, FillAll;
  }

  lemma CachedAs(u: Setup, s: State, id: nat, op: Op, ins: seq<Input>)
    requires Enabled(u, s, Call(id, op, None)) && Hit(s, op)
    ensures var t := OnCall(u, s, id, op, None);
            && DoneAs(u.argon, op, WorldOf(s), ins, t.calls.results[id], WorldOf(t))
            && t.db == s.db && t.calls.ops == s.calls.ops[id := op] && t.clock == s.clock
  {
    hide Called, S.Enabled;
  }

  /** The call has run its body, and not more than that. */
  ghost predicate BodyDone(u: Setup, s: State, t: State, id: nat, op: Op) {
    && Grounded(u, t) && Clear(t.db, id) && LetsOut(s, t, id) && t.db.active[id].rest.Done?
    && t.clock == s.clock && Last(t) == Last(s) && id in t.calls.ops && t.calls.ops == s.calls.ops[id := op]
    && id !in t.calls.results && Good(t.db.active[id].inputs, s.clock, {})
    && (t.db.mutex.None? || t.db.mutex == Some(id))
  }

  lemma RunsBody(u: Setup, s: State, op: Op) returns (id: nat, t: State)
    requires Grounded(u, s) && Free(s) && !Hit(s, op) && (Issuing(op) ==> op.baseURL == u.baseURL)
    ensures Reaches(u, s, t) && id !in s.calls.ops && BodyDone(u, s, t, id, op)
  {
    hide Grounded, Reaches, Good, Handed, S.Latest, Enabled;
    var ready: State;
    id, ready := Opens(u, s, op);
    RanWhole(u, ready, id);
    NothingIsGood(s.clock, {});
    assert Handed(s.mails) + [] == Handed(s.mails);
    t := WorksAlone(u, s, ready, id);
    ReachesOn(u, s, ready, t);
  }

  lemma ComesBack(u: Setup, s: State, t: State, id: nat, op: Op) returns (r: State, ins: seq<Input>)
    requires BodyDone(u, s, t, id, op) && s.clock > 0 && !Hit(s, op)
    ensures Reaches(u, t, r) && Grounded(u, r) && Free(r) && r.clock == s.clock
    ensures Good(ins, s.clock, {}) && Undisturbed(op, ins) && Timely(ins) && |ins| >= 8
    ensures r.calls.ops == t.calls.ops && id in r.calls.results
    ensures DoneAs(u.argon, op, WorldOf(s), ins, r.calls.results[id], WorldOf(r))
  {
    hide Grounded, Reaches, Exec, Undisturbed, Settle, Serve, Good, Timely, DoneAs, Handed, S.Latest, Last;
    RanWhole(u, t, id);
    ins := Padded(u.argon, op, Last(s), t.db.active[id].inputs, s.clock, {});
    var closed := CloseTx(u, t, id);
    ClosedIsServed(u, t, closed, id, ins);
    r := Returns(u, closed, id);
    ReturnedAs(u, closed, id, op, WorldOf(s), ins);
    ReachesOn(u, t, closed, r);
  }

  lemma NotCached(u: Setup, s: State, op: Op) returns (id: nat, t: State, ins: seq<Input>)
    requires Grounded(u, s) && Free(s) && !Hit(s, op) && (Issuing(op) ==> op.baseURL == u.baseURL)
    ensures Reaches(u, s, t) && Grounded(u, t) && Free(t) && t.clock == s.clock
    ensures Good(ins, s.clock, {}) && Undisturbed(op, ins) && Timely(ins) && |ins| >= 8
    ensures id !in s.calls.ops && t.calls.ops == s.calls.ops[id := op] && id in t.calls.results
    ensures DoneAs(u.argon, op, WorldOf(s), ins, t.calls.results[id], WorldOf(t))
  {
    assert s.clock > 0;
    var done: State;
    id, done := RunsBody(u, s, op);
    assert done.calls.ops == s.calls.ops[id := op];
    hide *;
    t, ins := ComesBack(u, s, done, id, op);
    ReachesOn(u, s, done, t);
  }

  lemma Cached(u: Setup, s: State, op: Op) returns (id: nat, t: State, ins: seq<Input>)
    requires Grounded(u, s) && Free(s) && Hit(s, op)
    ensures Reaches(u, s, t) && Grounded(u, t) && Free(t) && t.clock == s.clock && t.db == s.db
    ensures Good(ins, s.clock, {}) && Undisturbed(op, ins) && Timely(ins) && |ins| >= 8
    ensures id !in s.calls.ops && t.calls.ops == s.calls.ops[id := op] && id in t.calls.results
    ensures DoneAs(u.argon, op, WorldOf(s), ins, t.calls.results[id], WorldOf(t))
  {
    id := IdsBelow(s.calls.ops.Keys);
    ins := seq(8, i => Input(false, s.clock, "", (j: nat) => 0));
    var e := Call(id, op, None);
    assert s.clock > 0;
    hide Grounded, Reaches, DoneAs, Handed;
    CachedAs(u, s, id, op, ins);
    ReachesNext(u, s, e);
    NextIsGrounded(u, s, e);
    t := Next(u, s, e);
  }

  /** One call alone. From every grounded state whose locks are free, any call can be made and comes back, without a
      failure, with the result that the method of the class gives in the same world, and leaves the store, the mails
      handed over and the cache that the method leaves. */
  lemma AloneIsTheService(u: Setup, s: State, op: Op) returns (id: nat, t: State, ins: seq<Input>)
    requires Grounded(u, s) && Free(s) && (Issuing(op) ==> op.baseURL == u.baseURL)
    ensures Reaches(u, s, t) && Grounded(u, t) && Free(t) && t.clock == s.clock
    ensures Good(ins, s.clock, {}) && Undisturbed(op, ins) && Timely(ins) && |ins| >= 8
    ensures id !in s.calls.ops && t.calls.ops == s.calls.ops[id := op] && id in t.calls.results
    ensures op.GetUser? || op.Signin? ==>
              (t.calls.results[id], WorldOf(t)) == Looked(u.argon, op, WorldOf(s), ins, true, true)
    ensures !op.GetUser? && !op.Signin? ==>
              var (out, there) := Called(u.argon, op, WorldOf(s), ins, true, true);
              t.calls.results[id] == ToResponse(out) && WorldOf(t) == there
    ensures op.GetUser? && op.email in s.cache ==> t.db == s.db
  {
    hide Grounded, Reaches, Undisturbed, Good, Timely, WorldOf, Looked, Called;
    if Hit(s, op) {
      id, t, ins := Cached(u, s, op);
    } else {
      id, t, ins := NotCached(u, s, op);
    }
  }
}
