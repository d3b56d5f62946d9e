/** Results, cache and sessions in every reachable state of the interleaved system. */
module Sessions {
  import opened Datastore
  import opened Argon2id
  import opened Effects
  import opened Operations
  import opened Changes
  import opened History
  import opened Accounts
  import opened Midway
  import opened System
  import S = Storage

  // ---- Facts about every committed version

  lemma VersionsSatisfyInvariant(u: Setup, s: State, i: nat)
    requires Grounded(u, s) && i < |s.db.versions|
    ensures Invariant(s.db.versions[i])
  {
    CommitsAreLegal(u, s);
    EveryStoreIsInvariant(u.argon, s.db.versions, HistoryOf(u, s.db, s.calls), i);
  }

  lemma VersionsExtend(u: Setup, s: State, i: nat, j: nat)
    requires Grounded(u, s) && i <= j < |s.db.versions|
    ensures Extends(s.db.versions[i], s.db.versions[j])
  {
    CommitsAreLegal(u, s);
    HistoryExtends(u.argon, s.db.versions, HistoryOf(u, s.db, s.calls), i, j);
  }

  // ---- Every call returns what it would return alone, at one moment of the call

  /** What the transaction of a finished call did, run alone at version b; a fault may also mean that it could not
      begin or its success not commit. */
  ghost predicate RanAt(u: Setup, s: State, id: nat, b: nat)
    requires id in s.db.ended && id in s.calls.ops
  {
    var e, op := s.db.ended[id], s.calls.ops[id];
    && (if e.version.Some? then b + 1 else b) < |s.db.versions|
    && var p := Exec(u.argon, op, s.db.versions[b], e.inputs);
       && (|| p.rest == Done(e.result)
           || (e.result == Err(Fault) && (e.inputs == [] || (p.rest.Done? && p.rest.outcome.Ok?))))
       && (e.result.Ok? ==> p.local.view == s.db.versions[if e.version.Some? then b + 1 else b])
  }

  lemma EndedCallRanAlone(u: Setup, s: State, id: nat) returns (b: nat)
    requires Grounded(u, s) && id in s.db.ended
    ensures id in s.calls.ops && id in s.calls.begun && s.calls.begun[id] <= b <= |s.db.log|
    ensures s.db.ended[id].version.Some? ==> b < |s.db.log| && s.db.ended[id].version.value == b
    ensures b == S.Place(s.db.ended[id]) && RanAt(u, s, id, b)
  {
    var e := s.db.ended[id];
    assert EndIsOurs(u, s.calls, id, e) && S.EndRuns(s.db.versions, s.db.log, id, e);
    b := S.Place(e);
    assert S.EndsAs(s.db.versions[b], e);
    if e.version.Some? {
      assert S.Replays(s.db.log[b], s.db.versions[b], s.db.versions[b + 1]);
    }
  }

  predicate Mentions(s: Store, account: Account) {
    account.email in s.users && account == Account(s.users[account.email].name, account.email)
  }

  lemma MentionsPersist(s: Store, t: Store, account: Account)
    requires Extends(s, t) && Mentions(s, account)
    ensures Mentions(t, account)
  {
  }

  /** A transaction only ever offers the cache a row of an account committed at its base version. */
  lemma OfferedRowIsCommitted(argon: Argon2idHash, op: Op, s: Store, inputs: seq<Input>)
    requires Invariant(s)
    requires Exec(argon, op, s, inputs).rest.Do? && Exec(argon, op, s, inputs).rest.effect.CacheUser?
    ensures var user := Exec(argon, op, s, inputs).rest.effect.user;
            Mentions(s, Account(user.name, user.email))
  {
    if Issuing(op) { IssuingProgress(argon, op, s, inputs); } else { OtherProgress(argon, op, s, inputs); }
  }

  lemma VerifiedPersists(s: Store, t: Store, email: string)
    requires Extends(s, t) && IsVerified(s, email)
    ensures IsVerified(t, email)
  {
  }

  /** Whoever a handler signs in is verified in the store the call left, and the row answered is an account of it. */
  lemma AnsweredUserIsCommitted(argon: Argon2idHash, op: Op, s: Store, inputs: seq<Input>)
    requires Invariant(s) && Answers(op) && Timely(inputs)
    requires var p := Exec(argon, op, s, inputs); p.rest.Done? && p.rest.outcome.Ok?
    ensures var p := Exec(argon, op, s, inputs);
            && p.rest.outcome.user.Some?
            && var user := p.rest.outcome.user.value;
               && Mentions(p.local.view, Account(user.name, user.email))
               && user.email == Target(op, s)
               && (SignsIn(op) ==> IsVerified(p.local.view, user.email))
  {
    Meaning(argon, op, s, inputs);
    if op.ChangePasswordWithToken? {
      assert Live(s, op.token);
    }
  }

  // ---- What a sign-in opens

  /** The email of an answered sign-in, validation or change with a token can be put into any session; from then on the
      look-up and the password change on its behalf can always be called, whoever holds the locks. */
  lemma SignedInCanCall(u: Setup, s: State, session: string, id: nat, next: nat, password: Bytes)
    requires Grounded(u, s) && id in s.calls.results && s.calls.results[id].Found? && id in s.calls.ops
    requires var op := s.calls.ops[id]; op.Signin? || op.ValidateSignupToken? || op.ChangePasswordWithToken?
    requires s.calls.results[id].account.email != "" && next !in s.calls.ops
    ensures var email := s.calls.results[id].account.email;
            && Enabled(u, s, Put(session, id))
            && var t := Next(u, s, Put(session, id));
               && t.sessions == s.sessions[session := email]
               && (forall op {:trigger Call(next, op, Some(email))} ::
                     Enabled(u, t, Call(next, op, Some(email)))
                     <==> op == Op.GetUser(email) || (op.ChangePassword? && op.email == email))
               && next in Next(u, t, Call(next, Op.ChangePassword(email, password), Some(email))).calls.trusted
  {
    CallIdIsNew(u, s, next);
    assert s.db.versions != [];
    hide Grounded, Program;
  }

  // ---- The invariant

  function Last(s: State): Store { if s.db.versions == [] then EMPTY else s.db.versions[|s.db.versions| - 1] }

  ghost predicate CacheHolds(t: Store, cache: map<string, Account>) {
    forall e :: e in cache ==> cache[e].email == e && Mentions(t, cache[e])
  }

  ghost predicate CachedResponse(versions: seq<Store>, op: Op, begun: nat, r: Response) {
    && op.GetUser? && begun < |versions|
    && r.Found? && r.account.email == op.email && Mentions(versions[begun], r.account)
  }

  /** A result is the settled answer of the call's transaction, or the cached account, committed when the call began. */
  ghost predicate ResponseHolds(u: Setup, db: S.DB, c: Calls, id: nat)
    requires id in c.results
  {
    && id in c.ops && id in c.begun
    && ((id in db.ended && c.results[id] == ToResponse(Settle(u.argon, c.ops[id], db.ended[id].result))) ||
        CachedResponse(db.versions, c.ops[id], c.begun[id], c.results[id]))
  }

  ghost predicate TrustHolds(db: S.DB, c: Calls, id: nat) {
    && id in c.ops && (c.ops[id].GetUser? || c.ops[id].ChangePassword?)
    && id in c.begun && c.begun[id] < |db.versions|
    && IsVerified(db.versions[c.begun[id]], c.ops[id].email)
  }

  ghost predicate SessionsHold(t: Store, s: State) {
    && (forall session :: session in s.sessions ==> s.sessions[session] in s.held)
    && (forall e :: e in s.held ==> IsVerified(t, e))
  }

  ghost predicate CallsHold(u: Setup, d: S.DB, c: Calls) {
    && (forall id :: id in c.results ==> ResponseHolds(u, d, c, id))
    && (forall id :: id in c.trusted ==> TrustHolds(d, c, id))
  }

  ghost predicate Sound(u: Setup, s: State) {
    && Grounded(u, s)
    && CacheHolds(Last(s), s.cache)
    && CallsHold(u, s.db, s.calls)
    && SessionsHold(Last(s), s)
  }

  ghost predicate Grew(d: S.DB, d': S.DB) {
    && d.versions <= d'.versions
    && forall id :: id in d.ended ==> id in d'.ended && d'.ended[id] == d.ended[id]
  }

  lemma DatabaseGrows(u: Setup, s: State, e: Event)
    requires Grounded(u, s) && Enabled(u, s, e)
    ensures Grew(s.db, Next(u, s, e).db)
  {
    if e.Database? {
      S.NextGrows(s.db, e.event);
    } else if e.Call? && !Hit(s, e.op) {
      S.NextGrows(s.db, OpenOf(u, e.id, e.op));
    }
    hide S.Next, S.Valid, S.Enabled, Known;
  }

  lemma GrownLastExtends(u: Setup, s: State, t: State)
    requires Grounded(u, s) && Grounded(u, t) && Grew(s.db, t.db)
    ensures Extends(Last(s), Last(t))
  {
    assert s.db.versions != [];
    hide Grounded, Extends;
    VersionsExtend(u, t, |s.db.versions| - 1, |t.db.versions| - 1);
  }

  lemma LastExtends(u: Setup, s: State, e: Event)
    requires Grounded(u, s) && Enabled(u, s, e)
    ensures Grounded(u, Next(u, s, e))
    ensures Extends(Last(s), Last(Next(u, s, e)))
  {
    hide *;
    DatabaseGrows(u, s, e);
    NextIsGrounded(u, s, e);
    GrownLastExtends(u, s, Next(u, s, e));
  }

  lemma CacheKeepsHolding(s: Store, t: Store, cache: map<string, Account>)
    requires CacheHolds(s, cache) && Extends(s, t)
    ensures CacheHolds(t, cache)
  {
    forall e | e in cache ensures Mentions(t, cache[e]) {
      MentionsPersist(s, t, cache[e]);
    }
  }

  lemma EmptyStoreIsInvariant()
    ensures Invariant(EMPTY)
  {
  }

  lemma EmptyStoreMentionsNobody(account: Account)
    ensures !Mentions(EMPTY, account)
  {
  }

  lemma OfferedUserIsCommitted(u: Setup, s: State, id: nat)
    requires Grounded(u, s) && id in s.db.active
    requires s.db.active[id].rest.Do? && s.db.active[id].rest.effect.CacheUser?
    ensures var user := s.db.active[id].rest.effect.user; Mentions(Last(s), Account(user.name, user.email))
  {
    var tx := s.db.active[id];
    assert TxIsOurs(u, s.calls, id, tx) && S.TxRuns(s.db.versions, tx);
    var op := s.calls.ops[id];
    assert Exec(u.argon, op, if tx.base.Some? then s.db.versions[tx.base.value] else EMPTY, tx.inputs).rest == tx.rest;
    hide S.Valid, S.TxRuns, TxIsOurs, Known, Program, Invariant, Mentions, Extends;
    if tx.base.Some? {
      VersionsSatisfyInvariant(u, s, tx.base.value);
      OfferedRowIsCommitted(u.argon, op, s.db.versions[tx.base.value], tx.inputs);
      VersionsExtend(u, s, tx.base.value, |s.db.versions| - 1);
      MentionsPersist(s.db.versions[tx.base.value], Last(s),
                      Account(tx.rest.effect.user.name, tx.rest.effect.user.email));
    } else {
      EmptyStoreIsInvariant();
      OfferedRowIsCommitted(u.argon, op, EMPTY, tx.inputs);
      EmptyStoreMentionsNobody(Account(tx.rest.effect.user.name, tx.rest.effect.user.email));
    }
  }

  /** What a step of a transaction puts into the cache is committed already. */
  lemma OutsideCacheHolds(u: Setup, s: State, e: S.Event)
    requires Sound(u, s) && S.Enabled(s.db, e)
    ensures CacheHolds(Last(s), Outside(s, e).cache)
  {
    hide Grounded, Mentions, CallsHold, SessionsHold;
    if e.Work? && s.db.active[e.id].rest.effect.CacheUser? {
      OfferedUserIsCommitted(u, s, e.id);
    }
  }

  /** The account a finished call was answered is committed, and verified if the call signs in. */
  lemma EndedCallAnswersCommitted(u: Setup, s: State, id: nat)
    requires Grounded(u, s) && id in s.db.ended && id in s.calls.ops && Answers(s.calls.ops[id])
    requires s.db.ended[id].result.Ok?
    ensures var out := s.db.ended[id].result;
            && out.user.Some?
            && Mentions(Last(s), Account(out.user.value.name, out.user.value.email))
            && (SignsIn(s.calls.ops[id]) ==> IsVerified(Last(s), out.user.value.email))
  {
    var b := EndedCallRanAlone(u, s, id);
    var e, op := s.db.ended[id], s.calls.ops[id];
    assert EndIsOurs(u, s.calls, id, e);
    VersionsSatisfyInvariant(u, s, b);
    AnsweredUserIsCommitted(u.argon, op, s.db.versions[b], e.inputs);
    var after: nat := if e.version.Some? then b + 1 else b;
    VersionsExtend(u, s, after, |s.db.versions| - 1);
    MentionsPersist(s.db.versions[after], Last(s), Account(e.result.user.value.name, e.result.user.value.email));
  }

  lemma ResponseKeepsHolding(u: Setup, d: S.DB, c: Calls, d': S.DB, c': Calls, id: nat)
    requires Grew(d, d') && id in c.results && ResponseHolds(u, d, c, id)
    requires id in c'.ops && id in c'.begun && c'.ops[id] == c.ops[id] && c'.begun[id] == c.begun[id]
    requires id in c'.results && c'.results[id] == c.results[id]
    ensures ResponseHolds(u, d', c', id)
  {
  }

  lemma TrustKeepsHolding(d: S.DB, c: Calls, d': S.DB, c': Calls, id: nat)
    requires Grew(d, d') && TrustHolds(d, c, id)
    requires id in c'.ops && id in c'.begun && c'.ops[id] == c.ops[id] && c'.begun[id] == c.begun[id]
    ensures TrustHolds(d', c', id)
  {
  }

  /** Calls are never forgotten or changed. */
  ghost predicate Remembered(c: Calls, c': Calls) {
    && (forall id :: id in c.ops ==> id in c'.ops && c'.ops[id] == c.ops[id])
    && (forall id :: id in c.begun ==> id in c'.begun && c'.begun[id] == c.begun[id])
    && (forall id :: id in c.results ==> id in c'.results && c'.results[id] == c.results[id])
  }

  lemma CallsKeepHolding(u: Setup, d: S.DB, c: Calls, d': S.DB, c': Calls, id: nat)
    requires Grew(d, d') && Remembered(c, c') && CallsHold(u, d, c)
    requires c'.results.Keys <= c.results.Keys + {id} && c'.trusted <= c.trusted + {id}
    requires id in c'.results ==> ResponseHolds(u, d', c', id)
    requires id in c'.trusted ==> TrustHolds(d', c', id)
    ensures CallsHold(u, d', c')
  {
    forall i | i in c'.results ensures ResponseHolds(u, d', c', i) {
      if i != id { ResponseKeepsHolding(u, d, c, d', c', i); }
    }
    forall i | i in c'.trusted ensures TrustHolds(d', c', i) {
      if i != id { TrustKeepsHolding(d, c, d', c', i); }
    }
  }

  lemma CallsPersist(u: Setup, d: S.DB, c: Calls, d': S.DB)
    requires Grew(d, d') && CallsHold(u, d, c)
    requires c.begun.Keys == c.ops.Keys
    ensures CallsHold(u, d', c)
  {
    forall i | i in c.results ensures ResponseHolds(u, d', c, i) {
      ResponseKeepsHolding(u, d, c, d', c, i);
    }
    forall i | i in c.trusted ensures TrustHolds(d', c, i) {
      TrustKeepsHolding(d, c, d', c, i);
    }
  }

  lemma CallKeys(u: Setup, s: State)
    requires Grounded(u, s)
    ensures s.calls.results.Keys <= s.calls.ops.Keys && s.calls.begun.Keys == s.calls.ops.Keys
    ensures s.calls.trusted <= s.calls.ops.Keys
  {
  }

  lemma NewCallHolds(u: Setup, s: State, id: nat, op: Op, onBehalf: Option<string>)
    requires Sound(u, s) && Enabled(u, s, Call(id, op, onBehalf)) && Grew(s.db, OnCall(u, s, id, op, onBehalf).db)
    ensures var t := OnCall(u, s, id, op, onBehalf);
            && (id in t.calls.results ==> ResponseHolds(u, t.db, t.calls, id))
            && (id in t.calls.trusted ==> TrustHolds(t.db, t.calls, id))
  {
    CallKeys(u, s);
    assert |s.db.versions| == |s.db.log| + 1;
    hide S.Valid, S.Next, S.Enabled, Known, Program, IsVerified, Mentions, CallsHold;
    assert OnCall(u, s, id, op, onBehalf).db.versions[|s.db.log|] == Last(s);
  }

  lemma CallIsSound(u: Setup, s: State, id: nat, op: Op, onBehalf: Option<string>)
    requires Sound(u, s) && Enabled(u, s, Call(id, op, onBehalf))
    ensures CallsHold(u, OnCall(u, s, id, op, onBehalf).db, OnCall(u, s, id, op, onBehalf).calls)
  {
    hide Grounded, S.Next, S.Enabled, Program, ResponseHolds, TrustHolds, CallsHold, CacheHolds, SessionsHold, Grew;
    var t := OnCall(u, s, id, op, onBehalf);
    DatabaseGrows(u, s, Call(id, op, onBehalf));
    NewCallHolds(u, s, id, op, onBehalf);
    CallKeys(u, s);
    CallsKeepHolding(u, s.db, s.calls, t.db, t.calls, id);
  }

  lemma ReturnIsSound(u: Setup, s: State, id: nat)
    requires Sound(u, s) && Enabled(u, s, Return(id))
    ensures CallsHold(u, s.db, OnReturn(u, s, id).calls)
    ensures CacheHolds(Last(s), OnReturn(u, s, id).cache)
  {
    var s' := OnReturn(u, s, id);
    CallKeys(u, s);
    var op, out := s.calls.ops[id], s.db.ended[id].result;
    if out.Ok? && (op.GetUser? || op.Signin?) {
      EndedCallAnswersCommitted(u, s, id);
    }
    hide S.Valid, Known, Program, Mentions;
    CallsKeepHolding(u, s.db, s.calls, s.db, s'.calls, id);
  }

  lemma PutIsSound(u: Setup, s: State, session: string, id: nat)
    requires Sound(u, s) && Enabled(u, s, Put(session, id))
    ensures IsVerified(Last(s), s.calls.results[id].account.email)
  {
    assert ResponseHolds(u, s.db, s.calls, id);
    EndedCallAnswersCommitted(u, s, id);
  }

  lemma SessionsKept(u: Setup, s: State, e: Event)
    requires Enabled(u, s, e) && !e.Put?
    ensures Next(u, s, e).held == s.held
    ensures var after := Next(u, s, e).sessions;
            forall session :: session in after ==>
              after[session] in s.held || (session in s.sessions && after[session] == s.sessions[session])
  {
    hide S.Next, S.Enabled, Program, Settle;
  }

  lemma SessionsStayVerified(u: Setup, s: State, e: Event)
    requires Sound(u, s) && Enabled(u, s, e)
    ensures SessionsHold(Last(s), Next(u, s, e))
  {
    hide S.Next, S.Enabled, S.Valid, Known, IsVerified, CacheHolds, CallsHold, OnCall, OnReturn;
    if e.Put? {
      PutIsSound(u, s, e.session, e.id);
    } else {
      SessionsKept(u, s, e);
    }
  }

  lemma CacheStaysCommitted(u: Setup, s: State, e: Event)
    requires Sound(u, s) && Enabled(u, s, e)
    ensures CacheHolds(Last(s), Next(u, s, e).cache)
  {
    hide S.Next, S.Enabled, S.Valid, Known, IsVerified, CacheHolds, CallsHold;
    if e.Return? {
      ReturnIsSound(u, s, e.id);
    } else if e.Database? {
      OutsideCacheHolds(u, s, e.event);
    }
  }

  lemma CallsStaySound(u: Setup, s: State, e: Event)
    requires Sound(u, s) && Enabled(u, s, e)
    ensures CallsHold(u, Next(u, s, e).db, Next(u, s, e).calls)
  {
    hide S.Next, S.Enabled, S.Valid, Known, IsVerified, CacheHolds, Grew, ResponseHolds, TrustHolds;
    DatabaseGrows(u, s, e);
    CallKeys(u, s);
    if e.Call? {
      CallIsSound(u, s, e.id, e.op, e.onBehalf);
    } else if e.Return? {
      ReturnIsSound(u, s, e.id);
    } else if e.Database? {
      CallsPersist(u, s.db, s.calls, Next(u, s, e).db);
    }
  }

  lemma NextIsSound(u: Setup, s: State, e: Event)
    requires Sound(u, s) && Enabled(u, s, e)
    ensures Sound(u, Next(u, s, e))
  {
    var s' := Next(u, s, e);
    LastExtends(u, s, e);
    CallsStaySound(u, s, e);
    CacheStaysCommitted(u, s, e);
    SessionsStayVerified(u, s, e);
    hide Grounded, IsVerified, CacheHolds, Enabled, CallsHold, Next, Extends;
    CacheKeepsHolding(Last(s), Last(s'), s'.cache);
    forall email | email in s'.held ensures IsVerified(Last(s'), email) {
      VerifiedPersists(Last(s), Last(s'), email);
    }
  }

  lemma {:induction false} EveryStateIsSound(u: Setup, ss: seq<State>, es: seq<Event>, n: nat)
    requires Execution(u, ss, es) && n < |ss|
    ensures Sound(u, ss[n])
  {
    if n == 0 {
      EveryStateIsGrounded(u, ss, es, 0);
    } else {
      var m := n - 1;
      EveryStateIsSound(u, ss, es, m);
      assert Enabled(u, ss[m], es[m]) && ss[m + 1] == Next(u, ss[m], es[m]);
      NextIsSound(u, ss[m], es[m]);
    }
  }

  /** Signing out ends the session and no other; a slower request of the same session, which writes its copy only now,
      can still put it back. */
  lemma SignoutCanBeUndone(u: Setup, ss: seq<State>, es: seq<Event>, n: nat, session: string)
    requires Execution(u, ss, es) && n < |ss| && session in ss[n].sessions
    ensures var s, out := ss[n], Destroy(session);
            && Enabled(u, s, out)
            && var t, back := Next(u, s, out), Save(session, s.sessions[session]);
               && t.sessions == s.sessions - {session} && Enabled(u, t, back)
               && Next(u, t, back) == s
  {
    EveryStateIsSound(u, ss, es, n);
    hide Sound, Execution;
    var s := ss[n];
    assert (s.sessions - {session})[session := s.sessions[session]] == s.sessions;
  }
}
