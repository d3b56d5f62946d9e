/** What users of the service can rely on, in every state of every interleaving. */
module Guarantees {
  import opened Datastore
  import opened Argon2id
  import opened Effects
  import opened Operations
  import opened Changes
  import opened History
  import opened Accounts
  import opened Midway
  import opened Readings
  import opened System
  import opened Sessions
  import S = Storage

  /** Every committed version satisfies the joint invariant, and versions only extend one another. */
  lemma CommittedStoresAreConsistent(u: Setup, ss: seq<State>, es: seq<Event>, n: nat)
    requires Execution(u, ss, es) && n < |ss|
    ensures forall i :: 0 <= i < |ss[n].db.versions| ==> Invariant(ss[n].db.versions[i])
    ensures forall i, j :: 0 <= i <= j < |ss[n].db.versions| ==> Extends(ss[n].db.versions[i], ss[n].db.versions[j])
  {
    EveryStateIsGrounded(u, ss, es, n);
    var s := ss[n];
    forall i | 0 <= i < |s.db.versions| ensures Invariant(s.db.versions[i]) {
      VersionsSatisfyInvariant(u, s, i);
    }
    forall i, j | 0 <= i <= j < |s.db.versions| ensures Extends(s.db.versions[i], s.db.versions[j]) {
      VersionsExtend(u, s, i, j);
    }
  }

  /** The answer op gives alone on a store, to some inputs. */
  ghost predicate AnsweredOn(u: Setup, op: Op, s: Store, r: Response) {
    exists inputs :: r == ToResponse(Serve(u.argon, op, s, inputs).0)
  }

  /** The settled answer of a finished call's transaction, and the version it left, are those the service gives alone at
      version b to the very inputs the call drew; or it is a fault, and the transaction never began or its success did
      not commit. A writer leaves the next version, and its b is the version that its commit replaced. */
  ghost predicate ServedAt(u: Setup, s: State, id: nat, b: nat)
    requires id in s.db.ended && id in s.calls.ops && b < |s.db.versions|
  {
    var op, e := s.calls.ops[id], s.db.ended[id];
    var after := if e.version.Some? then b + 1 else b;
    && (e.version.Some? ==> e.version.value == b && after < |s.db.versions|)
    && (|| (Settle(u.argon, op, e.result), s.db.versions[after]) == Serve(u.argon, op, s.db.versions[b], e.inputs)
        || (&& e.result == Err(Fault) && e.version.None?
            && (|| e.inputs == []
                || (Undisturbed(op, e.inputs) && Refusal(u.argon, op, s.db.versions[b], e.inputs).None?))))
  }

  lemma WritersSucceed(u: Setup, s: State, id: nat)
    requires Grounded(u, s) && id in s.db.ended
    ensures s.db.ended[id].version.Some? ==> s.db.ended[id].result.Ok?
  {
    assert S.EndRuns(s.db.versions, s.db.log, id, s.db.ended[id]);
  }

  lemma EndedCallIsServed(u: Setup, s: State, id: nat) returns (b: nat)
    requires Grounded(u, s) && id in s.db.ended
    ensures id in s.calls.ops && id in s.calls.begun && s.calls.begun[id] <= b <= |s.db.log| < |s.db.versions|
    ensures b == S.Place(s.db.ended[id]) && RanAt(u, s, id, b) && ServedAt(u, s, id, b)
  {
    b := EndedCallRanAlone(u, s, id);
    WritersSucceed(u, s, id);
    ServeSucceeds(u.argon, s.calls.ops[id], s.db.versions[b], s.db.ended[id].inputs);
    hide Grounded, Exec;
  }

  /** Answered from the cache: what an uncached read answers on the store committed when the call started. */
  ghost predicate ServedFromCache(u: Setup, s: State, id: nat)
    requires id in s.calls.ops && id in s.calls.results && id in s.calls.begun && s.calls.begun[id] < |s.db.versions|
  {
    && s.calls.ops[id].GetUser? && s.calls.results[id].Found?
    && AnsweredOn(u, s.calls.ops[id], s.db.versions[s.calls.begun[id]], s.calls.results[id])
  }

  /** Every call returns, and leaves, exactly what the service, used by nobody else, would on one of the stores that
      were the committed one between the call's start and its return, to the inputs the call drew; its clock readings
      are values of the clock in that same time. A committed writer is placed at the version its commit replaced and
      leaves the next one, so the writers' places are their commit order. A fault may also mean a transaction that did
      not begin or did not commit its success. A read answered from the cache agrees with the store at its start. */
  lemma CallsAreLinearizable(u: Setup, ss: seq<State>, es: seq<Event>, n: nat, id: nat)
    requires Execution(u, ss, es) && n < |ss| && id in ss[n].calls.results
    ensures var s := ss[n];
            && id in s.calls.ops && id in s.calls.begun && s.calls.begun[id] < |s.db.versions|
            && (|| ServedFromCache(u, s, id)
                || (&& id in s.db.ended
                    && s.calls.results[id] == ToResponse(Settle(u.argon, s.calls.ops[id], s.db.ended[id].result))
                    && TakenBy(s, id, s.db.ended[id].inputs)
                    && exists b {:trigger s.db.versions[b]} ::
                         s.calls.begun[id] <= b < |s.db.versions| && ServedAt(u, s, id, b)))
  {
    EveryStateIsSound(u, ss, es, n);
    EveryStateReads(u, ss, es, n);
    var s := ss[n];
    assert ResponseHolds(u, s.db, s.calls, id);
    var op, r := s.calls.ops[id], s.calls.results[id];
    if id in s.db.ended && r == ToResponse(Settle(u.argon, op, s.db.ended[id].result)) {
      var b := EndedCallIsServed(u, s, id);
    } else {
      var b := s.calls.begun[id];
      assert CachedResponse(s.db.versions, op, b, r);
      VersionsSatisfyInvariant(u, s, b);
      ServeSucceeds(u.argon, op, s.db.versions[b], [IDLE]);
      assert r == ToResponse(Serve(u.argon, op, s.db.versions[b], [IDLE]).0);
    }
  }

  lemma CommittedCallSucceeds(u: Setup, s: State, i: nat)
    requires Grounded(u, s) && i < |s.db.log|
    ensures var id := s.db.log[i].id;
            && id in s.db.ended && s.db.ended[id].result.Ok?
            && id in s.calls.ops && Settle(u.argon, s.calls.ops[id], s.db.ended[id].result).Ok?
  {
    var entry := s.db.log[i];
    assert EntryIsOurs(u, s.calls, entry);
    assert s.db.ended[entry.id].version == Some(i);
    assert S.EndRuns(s.db.versions, s.db.log, entry.id, s.db.ended[entry.id]);
  }

  /** All or nothing: a refused call is in no version. */
  lemma RefusedCallsCommitNothing(u: Setup, ss: seq<State>, es: seq<Event>, n: nat, id: nat)
    requires Execution(u, ss, es) && n < |ss| && id in ss[n].calls.results && ss[n].calls.results[id].Refused?
    ensures forall i :: 0 <= i < |ss[n].db.log| ==> ss[n].db.log[i].id != id
  {
    EveryStateIsSound(u, ss, es, n);
    var s := ss[n];
    assert ResponseHolds(u, s.db, s.calls, id);
    hide S.Valid, Known;
    forall i | 0 <= i < |s.db.log| ensures s.db.log[i].id != id {
      CommittedCallSucceeds(u, s, i);
    }
  }

  predicate Redeems(op: Op, token: string) {
    (op.ValidateSignupToken? || op.ChangePasswordWithToken?) && op.token == token
  }

  lemma RedemptionChangesStore(argon: Argon2idHash, op: Op, s: Store, inputs: seq<Input>, token: string)
    requires Redeems(op, token) && Timely(inputs)
    requires Exec(argon, op, s, inputs).rest.Done? && Exec(argon, op, s, inputs).rest.outcome.Ok?
    ensures Exec(argon, op, s, inputs).local.view != s
  {
    ServeSucceeds(argon, op, s, inputs);
    assert Redeemable(s, if op.ValidateSignupToken? then SIGNUP else PASSWORD, token, inputs[0].now);
    assert After(argon, op, s, inputs).tokens[token].deletedAt != 0;
  }

  /** A successful redemption is in the log: it changed the store it ran on. */
  lemma RedemptionIsLogged(u: Setup, s: State, id: nat, token: string) returns (i: nat)
    requires Grounded(u, s) && id in s.db.ended && s.db.ended[id].result.Ok?
    requires id in s.calls.ops && Redeems(s.calls.ops[id], token)
    ensures i < |s.db.log| && s.db.log[i].id == id
    ensures s.db.log[i].id in s.calls.ops && MakesChange(OpAt(s, i)) && |s.db.versions| > i
    ensures Consumes(ChangeAt(u, s.db, s.calls, i)) && ChangeAt(u, s.db, s.calls, i).token == token
  {
    var b := EndedCallRanAlone(u, s, id);
    var e, op := s.db.ended[id], s.calls.ops[id];
    assert EndIsOurs(u, s.calls, id, e) && S.EndRuns(s.db.versions, s.db.log, id, e);
    RedemptionChangesStore(u.argon, op, s.db.versions[b], e.inputs, token);
    hide S.Valid, Known, Exec, Program;
    assert e.version.Some?;
    i := e.version.value;
    EntryCommits(u, s, i);
  }

  /** At most once. However the calls overlap, at most one call with a given token succeeds. */
  lemma TokenRedeemedOnce(u: Setup, ss: seq<State>, es: seq<Event>, n: nat, token: string, id: nat, id': nat)
    requires Execution(u, ss, es) && n < |ss|
    requires id in ss[n].db.ended && ss[n].db.ended[id].result.Ok?
    requires id in ss[n].calls.ops && Redeems(ss[n].calls.ops[id], token)
    requires id' in ss[n].db.ended && ss[n].db.ended[id'].result.Ok?
    requires id' in ss[n].calls.ops && Redeems(ss[n].calls.ops[id'], token)
    ensures id == id'
  {
    var s := ss[n];
    EveryStateIsGrounded(u, ss, es, n);
    var i := RedemptionIsLogged(u, s, id, token);
    var j := RedemptionIsLogged(u, s, id', token);
    CommitsAreLegal(u, s);
    TokenConsumedOnce(u.argon, s.db.versions, HistoryOf(u, s.db, s.calls), i, j);
  }

  /** Session soundness. Every email a session holds is a verified user of every later committed store. */
  lemma SessionsHoldVerifiedUsers(u: Setup, ss: seq<State>, es: seq<Event>, n: nat, session: string)
    requires Execution(u, ss, es) && n < |ss| && session in ss[n].sessions
    ensures var e := ss[n].sessions[session]; HasUser(Last(ss[n]), e) && Last(ss[n]).users[e].verifiedAt > 0
  {
    EveryStateIsSound(u, ss, es, n);
    VersionsSatisfyInvariant(u, ss[n], |ss[n].db.versions| - 1);
  }

  /** So the middleware's panic and a signed-in ErrEmailNotFound need a database fault: a call made with a session's
      email is only ever refused for a fault (an empty or unhashable password counts as one). */
  lemma SessionCallsFindTheirUser(u: Setup, ss: seq<State>, es: seq<Event>, n: nat, id: nat)
    requires Execution(u, ss, es) && n < |ss| && id in ss[n].calls.trusted && id in ss[n].calls.results
    requires ss[n].calls.results[id].Refused?
    ensures ss[n].calls.results[id].error == Fault
  {
    hide Execution, Grounded, CacheHolds, SessionsHold, Invariant, Extends;
    EveryStateIsSound(u, ss, es, n);
    var s := ss[n];
    assert ResponseHolds(u, s.db, s.calls, id) && TrustHolds(s.db, s.calls, id);
    if s.db.ended[id].result != Err(Fault) {
      var b := EndedCallIsServed(u, s, id);
      var op, start := s.calls.ops[id], s.calls.begun[id];
      VersionsExtend(u, s, start, b);
      VersionsSatisfyInvariant(u, s, b);
      VerifiedPersists(s.db.versions[start], s.db.versions[b], op.email);
      Meaning(u.argon, op, s.db.versions[b], s.db.ended[id].inputs);
    }
  }

  /** How a store at the end of a legal history judges a sign-in: email, password, and what came of it. */
  ghost predicate Judged(argon: Argon2idHash, t: Store, h: seq<Change>, n: nat, email: string, password: Bytes,
                         r: Response)
    requires n <= |h|
  {
    var p := PasswordsOf(h, n);
    && t.users.Keys == p.Keys
    && var matches := email in p && password != [] && SameKey(argon, t.users[email].salt, password, p[email]);
       && (r.Found? <==> VerifiedBefore(h, n, email) && matches)
       && (email in p && (SameKey(argon, t.users[email].salt, password, p[email]) ==> password == p[email]) ==>
             (matches <==> password == p[email]))
       && (r == Refused(InvalidCredentials) <==> email !in p || (VerifiedBefore(h, n, email) && !matches))
       && (r == Refused(UserNotVerified) <==> email in p && !VerifiedBefore(h, n, email))
  }

  lemma SigninIsJudged(argon: Argon2idHash, v: seq<Store>, h: seq<Change>, n: nat,
                       email: string, password: Bytes, inputs: seq<Input>)
    requires Legal(argon, v, h) && n <= |h| && Usable(argon)
    requires Serve(argon, Signin(email, password), v[n], inputs).0 != Err(Fault)
    ensures Judged(argon, v[n], h, n, email, password,
                   ToResponse(Serve(argon, Signin(email, password), v[n], inputs).0))
  {
    Meaning(argon, Signin(email, password), v[n], inputs);
    StoredPairsHashLastPassword(argon, v, h, n);
    EveryStoreIsInvariant(argon, v, h, n);
    VerifiedMeansConsumedToken(argon, v, h, n, email);
    hide Exec, Legal;
    if email in v[n].users {
      assert |argon.kdf(PasswordsOf(h, n)[email], v[n].users[email].salt,
                       argon.time, argon.memory, argon.threads, argon.keyLen)| == argon.keyLen;
    }
  }

  /** Unless it met a fault, a sign-in was judged by the last committed password and the verifying commits of one
      store of the call: found, refused for credentials, or refused as unverified, each exactly when it should be. */
  lemma SigninProvesPassword(u: Setup, ss: seq<State>, es: seq<Event>, n: nat, id: nat) returns (b: nat)
    requires Execution(u, ss, es) && n < |ss| && id in ss[n].calls.results && id in ss[n].calls.ops
    requires ss[n].calls.ops[id].Signin? && ss[n].calls.results[id] != Refused(Fault) && Usable(u.argon)
    ensures |ss[n].db.log| <= |ss[n].db.versions|
    ensures forall i :: 0 <= i < |ss[n].db.log| ==>
              ss[n].db.log[i].id in ss[n].calls.ops && MakesChange(ss[n].calls.ops[ss[n].db.log[i].id])
    ensures id in ss[n].calls.begun && ss[n].calls.begun[id] <= b <= |ss[n].db.log| < |ss[n].db.versions|
    ensures var s, op := ss[n], ss[n].calls.ops[id];
            Judged(u.argon, s.db.versions[b], HistoryOf(u, s.db, s.calls), b,
                   op.email, op.password, s.calls.results[id])
  {
    EveryStateIsSound(u, ss, es, n);
    var s := ss[n];
    assert ResponseHolds(u, s.db, s.calls, id);
    b := EndedCallIsServed(u, s, id);
    CommitsAreLegal(u, s);
    var op, inputs, h := s.calls.ops[id], s.db.ended[id].inputs, HistoryOf(u, s.db, s.calls);
    hide Grounded, HistoryOf, ResponseHolds, CallsHold, Execution;
    SigninIsJudged(u.argon, s.db.versions, h, b, op.email, op.password, inputs);
  }

  /** With a derivation that keeps passwords apart, only the last committed password of some store of the call is
      found. */
  lemma SigninNeedsLastPassword(u: Setup, ss: seq<State>, es: seq<Event>, n: nat, id: nat) returns (b: nat)
    requires Execution(u, ss, es) && n < |ss| && id in ss[n].calls.results && id in ss[n].calls.ops
    requires ss[n].calls.ops[id].Signin? && ss[n].calls.results[id].Found?
    requires Usable(u.argon) && KeepsApart(u.argon)
    ensures |ss[n].db.log| <= |ss[n].db.versions|
    ensures forall i :: 0 <= i < |ss[n].db.log| ==>
              ss[n].db.log[i].id in ss[n].calls.ops && MakesChange(ss[n].calls.ops[ss[n].db.log[i].id])
    ensures id in ss[n].calls.begun && ss[n].calls.begun[id] <= b <= |ss[n].db.log|
    ensures var s, op := ss[n], ss[n].calls.ops[id];
            var p := PasswordsOf(HistoryOf(u, s.db, s.calls), b);
            op.email in p && op.password == p[op.email]
  {
    hide Execution, HistoryOf, PasswordsOf, VerifiedBefore;
    b := SigninProvesPassword(u, ss, es, n, id);
  }

  /** Commit i is a call that issued this token, still in time, and nothing later touched its slot. */
  ghost predicate IssuedLast(u: Setup, s: State, kind: TokenType, token: string, now: int, i: nat) {
    && |s.db.log| < |s.db.versions| && i < |s.db.log|
    && (forall j :: 0 <= j < |s.db.log| ==> s.db.log[j].id in s.calls.ops && MakesChange(s.calls.ops[s.db.log[j].id]))
    && var op, inputs := OpAt(s, i), s.db.log[i].inputs;
       && Issuing(op) && KindOf(op) == kind && |inputs| >= Cost(op)
       && inputs[MintAt(op)].uuid == token
       && now <= inputs[MintAt(op) + 2].now + (if kind == SIGNUP then 43_200_000 else 3_600_000)
       && forall j :: i < j < |s.db.log| ==>
            var later := ChangeAt(u, s.db, s.calls, j);
            !Grants(later, kind, op.email) && !Spends(later, kind, op.email)
  }

  /** The row a committed issuing call inserted, from its inputs. */
  lemma IssuedRow(u: Setup, s: State, i: nat)
    requires Grounded(u, s) && i < |s.db.log| < |s.db.versions|
    requires s.db.log[i].id in s.calls.ops && MakesChange(OpAt(s, i))
    ensures var c, op, inputs := ChangeAt(u, s.db, s.calls, i), OpAt(s, i), s.db.log[i].inputs;
            && (c.Registered? || c.Issued? <==> Issuing(op))
            && (Issuing(op) ==>
                  && |inputs| >= Cost(op)
                  && c.issue == TokenRow(inputs[MintAt(op)].uuid, KindOf(op), op.email,
                                      inputs[MintAt(op) + 2].now + Duration(KindOf(op)), 0))
  {
    EntryCommits(u, s, i);
  }

  lemma IssuedLastIsLatestGrant(u: Setup, s: State, h: seq<Change>, kind: TokenType, token: string, now: int, i: nat)
    requires Grounded(u, s) && i < |s.db.log| < |s.db.versions|
    requires forall j :: 0 <= j < |s.db.log| ==>
              s.db.log[j].id in s.calls.ops && MakesChange(s.calls.ops[s.db.log[j].id])
    requires h == HistoryOf(u, s.db, s.calls)
    ensures IssuedLast(u, s, kind, token, now, i) <==>
              exists e :: LatestGrant(h, |h|, kind, e, i) && h[i].issue.token == token && now <= h[i].issue.expiresAt
  {
    hide Grounded, ChangeAt, Undisturbed, NewMail;
    IssuedRow(u, s, i);
    var op := OpAt(s, i);
    assert forall j {:trigger h[j]} :: i <= j < |h| ==> h[j] == ChangeAt(u, s.db, s.calls, j);
    hide HistoryOf;
    if IssuedLast(u, s, kind, token, now, i) {
      assert LatestGrant(h, |h|, kind, op.email, i);
    }
    if e :| LatestGrant(h, |h|, kind, e, i) && h[i].issue.token == token && now <= h[i].issue.expiresAt {
      assert e == op.email;
      forall j | i < j < |s.db.log|
        ensures !Grants(ChangeAt(u, s.db, s.calls, j), kind, op.email)
        ensures !Spends(ChangeAt(u, s.db, s.calls, j), kind, op.email)
      {
        assert h[j] == ChangeAt(u, s.db, s.calls, j);
      }
    }
  }

  lemma LatestGrantIsInHistory(h: seq<Change>, kind: TokenType, email: string, i: nat)
    requires LatestGrant(h, |h|, kind, email, i)
    ensures i < |h|
  {
  }

  lemma IssuedLastIsInLog(u: Setup, s: State, kind: TokenType, token: string, now: int, i: nat)
    requires IssuedLast(u, s, kind, token, now, i)
    ensures i < |s.db.log|
  {
  }

  lemma LatestIssueAccepted(u: Setup, s: State, kind: TokenType, token: string, now: int)
    requires Grounded(u, s)
    ensures Redeemable(Last(s), kind, token, now) <==> exists i: nat :: IssuedLast(u, s, kind, token, now, i)
  {
    CommitsAreLegal(u, s);
    assert |s.db.versions| == |s.db.log| + 1;
    var h := HistoryOf(u, s.db, s.calls);
    assert |h| == |s.db.log| && Last(s) == s.db.versions[|h|];
    TokenAccepted(u.argon, s.db.versions, h, |h|, kind, token, now);
    hide *;
    if Redeemable(Last(s), kind, token, now) {
      assert Redeemable(s.db.versions[|h|], kind, token, now);
      var i: nat, e :| LatestGrant(h, |h|, kind, e, i) && h[i].issue.token == token && now <= h[i].issue.expiresAt;
      LatestGrantIsInHistory(h, kind, e, i);
      IssuedLastIsLatestGrant(u, s, h, kind, token, now, i);
    }
    if i: nat :| IssuedLast(u, s, kind, token, now, i) {
      IssuedLastIsInLog(u, s, kind, token, now, i);
      IssuedLastIsLatestGrant(u, s, h, kind, token, now, i);
    }
  }

  /** Token refinement in the running system: the committed store accepts a token exactly when a committed call
      issued it, no later commit issued or redeemed one for the same email and type, and the time is within the
      lifetime counted from the issuer's clock reading. */
  lemma AcceptedTokenIsLatest(u: Setup, ss: seq<State>, es: seq<Event>, n: nat, kind: TokenType, token: string,
                              now: int)
    requires Execution(u, ss, es) && n < |ss|
    ensures Redeemable(Last(ss[n]), kind, token, now) <==> exists i: nat :: IssuedLast(u, ss[n], kind, token, now, i)
  {
    EveryStateIsGrounded(u, ss, es, n);
    LatestIssueAccepted(u, ss[n], kind, token, now);
  }

  /** Time runs out for every token: it stays accepted while nothing but the clock moves, until the first moment after
      its expiry and never from then on. */
  lemma EveryTokenRunsOut(u: Setup, s: State, kind: TokenType, token: string) returns (end: int)
    requires Redeemable(Last(s), kind, token, s.clock)
    ensures end == Last(s).tokens[token].expiresAt + 1
    ensures forall now {:trigger Tick(now)} :: now >= s.clock ==>
              && Enabled(u, s, Tick(now))
              && var t := Next(u, s, Tick(now));
                 Redeemable(Last(t), kind, token, t.clock) <==> now < end
  {
    end := Last(s).tokens[token].expiresAt + 1;
  }

  // ---- The two-step reset

  lemma OneVersionMore(u: Setup, s: State)
    requires Grounded(u, s)
    ensures |s.db.versions| == |s.db.log| + 1
  {
  }

  lemma OpsAreKept(u: Setup, s: State, e: Event)
    requires Enabled(u, s, e)
    ensures forall id :: id in s.calls.ops ==>
              id in Next(u, s, e).calls.ops && Next(u, s, e).calls.ops[id] == s.calls.ops[id]
  {
    hide S.Next, S.Enabled, Program, Settle;
  }

  lemma OneStepGrows(u: Setup, s: State, e: Event)
    requires Grounded(u, s) && Enabled(u, s, e)
    ensures var t := Next(u, s, e);
            && |s.db.log| <= |t.db.log|
            && (forall id :: id in s.db.ended ==> id in t.db.ended && t.db.ended[id] == s.db.ended[id])
            && (forall id :: id in s.calls.ops ==> id in t.calls.ops && t.calls.ops[id] == s.calls.ops[id])
  {
    hide Grounded, Next, Enabled;
    DatabaseGrows(u, s, e);
    NextIsGrounded(u, s, e);
    OneVersionMore(u, s);
    OneVersionMore(u, Next(u, s, e));
    OpsAreKept(u, s, e);
  }

  lemma BegunIsKnown(u: Setup, s: State)
    requires Grounded(u, s)
    ensures s.calls.begun.Keys == s.calls.ops.Keys
  {
  }

  lemma BegunAfter(u: Setup, s: State, e: Event)
    requires Enabled(u, s, e)
    ensures e.Call? ==> e.id !in s.calls.ops
    ensures Next(u, s, e).calls.begun == if e.Call? then s.calls.begun[e.id := |s.db.log|] else s.calls.begun
  {
    hide S.Next, S.Enabled, Program, Settle, LoadOrStore, ForSession, InputFits;
  }

  /** A call that just began saw the latest version, and what it saw is never changed. */
  lemma StepBegins(u: Setup, s: State, e: Event, id: nat)
    requires Grounded(u, s) && Enabled(u, s, e) && id in Next(u, s, e).calls.begun
    ensures Next(u, s, e).calls.begun[id] == if id in s.calls.begun then s.calls.begun[id] else |s.db.log|
  {
    hide Next, Enabled, Grounded;
    BegunIsKnown(u, s);
    BegunAfter(u, s, e);
  }

  lemma {:induction false} LogGrows(u: Setup, ss: seq<State>, es: seq<Event>, k: nat, n: nat)
    requires Execution(u, ss, es) && k <= n < |ss|
    ensures |ss[k].db.log| <= |ss[n].db.log|
    ensures forall id :: id in ss[k].db.ended ==> id in ss[n].db.ended && ss[n].db.ended[id] == ss[k].db.ended[id]
    ensures forall id :: id in ss[k].calls.ops ==> id in ss[n].calls.ops && ss[n].calls.ops[id] == ss[k].calls.ops[id]
  {
    hide Next, Enabled, Grounded;
    if k == n {
    } else {
      LogGrows(u, ss, es, k, n - 1);
      assert Enabled(u, ss[n - 1], es[n - 1]) && ss[n - 1 + 1] == Next(u, ss[n - 1], es[n - 1]);
      EveryStateIsGrounded(u, ss, es, n - 1);
      OneStepGrows(u, ss[n - 1], es[n - 1]);
    }
  }

  lemma {:induction false} LaterCallsSeeMore(u: Setup, ss: seq<State>, es: seq<Event>, k: nat, n: nat, id: nat)
    requires Execution(u, ss, es) && k <= n < |ss| && id !in ss[k].calls.ops && id in ss[n].calls.begun
    ensures |ss[k].db.log| <= ss[n].calls.begun[id]
  {
    hide Next, Enabled, Grounded;
    EveryStateIsGrounded(u, ss, es, k);
    if k == n {
      BegunIsKnown(u, ss[k]);
    } else {
      assert Enabled(u, ss[n - 1], es[n - 1]) && ss[n - 1 + 1] == Next(u, ss[n - 1], es[n - 1]);
      LogGrows(u, ss, es, k, n - 1);
      EveryStateIsGrounded(u, ss, es, n - 1);
      StepBegins(u, ss[n - 1], es[n - 1], id);
      if id in ss[n - 1].calls.begun {
        LaterCallsSeeMore(u, ss, es, k, n - 1, id);
      }
    }
  }

  /** No commit from version i to version j issues or consumes a token of this type for this email. */
  ghost predicate Untouched(u: Setup, s: State, kind: TokenType, email: string, i: nat, j: nat) {
    && j <= |s.db.log| < |s.db.versions|
    && forall m :: i <= m < j ==>
         && s.db.log[m].id in s.calls.ops && MakesChange(s.calls.ops[s.db.log[m].id])
         && !Grants(ChangeAt(u, s.db, s.calls, m), kind, email) && !Spends(ChangeAt(u, s.db, s.calls, m), kind, email)
  }

  lemma TokenExtends(s: Store, t: Store, token: string)
    requires Extends(s, t) && token in s.tokens
    ensures token in t.tokens && t.tokens[token] == s.tokens[token].(deletedAt := t.tokens[token].deletedAt)
  {
  }

  lemma CheckFound(argon: Argon2idHash, s: Store, token: string, check: seq<Input>)
    requires var p := Exec(argon, ResetPasswordToken(token), s, check); p.rest.Done? && p.rest.outcome.Ok?
    ensures check != [] && Redeemable(s, PASSWORD, token, check[0].now)
  {
    ServeSucceeds(argon, ResetPasswordToken(token), s, check);
    hide Exec;
  }

  lemma UntouchedInHistory(u: Setup, s: State, h: seq<Change>, kind: TokenType, email: string, i: nat, j: nat)
    requires |s.db.log| <= |s.db.versions|
    requires forall m :: 0 <= m < |s.db.log| ==>
              s.db.log[m].id in s.calls.ops && MakesChange(s.calls.ops[s.db.log[m].id])
    requires h == HistoryOf(u, s.db, s.calls) && Untouched(u, s, kind, email, i, j)
    ensures j <= |h| && forall m :: i <= m < j ==> !Grants(h[m], kind, email) && !Spends(h[m], kind, email)
  {
    hide ChangeAt, Grants, Spends;
    assert forall m {:trigger h[m]} :: 0 <= m < |h| ==> h[m] == ChangeAt(u, s.db, s.calls, m);
  }

  /** On the later version the change is not refused. */
  lemma CheckedTokenIsAccepted(argon: Argon2idHash, v: seq<Store>, h: seq<Change>, i: nat, j: nat,
                               token: string, password: Bytes, check: seq<Input>, change: seq<Input>)
    requires Legal(argon, v, h) && i <= j <= |h| && argon.Runs() && password != []
    requires check != [] && Redeemable(v[i], PASSWORD, token, check[0].now)
    requires change != [] ==> change[0].now <= v[i].tokens[token].expiresAt
    requires var e := v[i].tokens[token].email;
             forall m :: i <= m < j ==> !Grants(h[m], PASSWORD, e) && !Spends(h[m], PASSWORD, e)
    ensures var (op, p) := (ChangePasswordWithToken(token, password),
                            Exec(argon, ChangePasswordWithToken(token, password), v[j], change));
            && (p.rest.Done? && p.rest.outcome.Err? ==> p.rest.outcome.error == Fault)
            && (Undisturbed(op, change) ==> Refusal(argon, op, v[j], change).None?)
  {
    assert change == [] ==> Exec(argon, ChangePasswordWithToken(token, password), v[j], change).rest.Do?;
    hide Exec, Makes;
    var row := v[i].tokens[token];
    var first := if change == [] then row.expiresAt else change[0].now;
    TokenSurvives(argon, v, h, i, j, PASSWORD, token, check[0].now, first);
    EveryStoreIsInvariant(argon, v, h, j);
    assert Live(v[j], token);
    Meaning(argon, ChangePasswordWithToken(token, password), v[j], change);
  }

  lemma ChangeStillWorks(u: Setup, s: State, check: nat, change: nat, token: string, password: Bytes, i: nat, j: nat)
    requires Grounded(u, s) && u.argon.Runs() && password != [] && i <= j <= |s.db.log| < |s.db.versions|
    requires check in s.db.ended && check in s.calls.ops && s.db.ended[check].result.Ok? && RanAt(u, s, check, i)
    requires change in s.db.ended && change in s.calls.ops && RanAt(u, s, change, j)
    requires s.calls.ops[check] == ResetPasswordToken(token)
    requires s.calls.ops[change] == ChangePasswordWithToken(token, password)
    requires var e := s.db.ended[change];
             token in Last(s).tokens ==>
               && (e.inputs != [] ==> e.inputs[0].now <= Last(s).tokens[token].expiresAt)
               && Untouched(u, s, PASSWORD, Last(s).tokens[token].email, i, j)
    ensures var e := s.db.ended[change];
            && token in Last(s).tokens
            && (e.result.Ok? || e.result == Err(Fault))
            && (Undisturbed(s.calls.ops[change], e.inputs) ==>
                  Refusal(u.argon, s.calls.ops[change], s.db.versions[j], e.inputs).None?)
  {
    hide Grounded, Exec, Extends, Untouched, Permitted;
    var e := s.db.ended[change];
    CommitsAreLegal(u, s);
    var h := HistoryOf(u, s.db, s.calls);
    VersionsExtend(u, s, i, |s.db.versions| - 1);
    CheckFound(u.argon, s.db.versions[i], token, s.db.ended[check].inputs);
    TokenExtends(s.db.versions[i], Last(s), token);
    UntouchedInHistory(u, s, h, PASSWORD, Last(s).tokens[token].email, i, j);
    CheckedTokenIsAccepted(u.argon, s.db.versions, h, i, j, token, password, s.db.ended[check].inputs, e.inputs);
  }

  /** The two-step reset in the running system. After a check of a reset token succeeded, a change with that token that
      starts later and reads the clock within the expiry is refused only for a fault, as long as nothing in between
      issues or consumes a reset token of that email; and if none of its effects failed, only its commit can have. */
  lemma CheckedTokenKeepsWorking(u: Setup, ss: seq<State>, es: seq<Event>, k: nat, n: nat, check: nat, change: nat,
                                 token: string, password: Bytes)
    requires Execution(u, ss, es) && k <= n < |ss| && u.argon.Runs() && password != []
    requires check in ss[k].db.ended && ss[k].db.ended[check].result.Ok?
    requires check in ss[k].calls.ops && ss[k].calls.ops[check] == ResetPasswordToken(token)
    requires change !in ss[k].calls.ops && change in ss[n].calls.ops && change in ss[n].db.ended
    requires ss[n].calls.ops[change] == ChangePasswordWithToken(token, password)
    requires var s, e := ss[n], ss[n].db.ended[change];
             token in Last(s).tokens ==>
               && (e.inputs != [] ==> e.inputs[0].now <= Last(s).tokens[token].expiresAt)
               && Untouched(u, s, PASSWORD, Last(s).tokens[token].email, S.Place(ss[k].db.ended[check]), S.Place(e))
    ensures var s, e := ss[n], ss[n].db.ended[change];
            && token in Last(s).tokens
            && (e.result.Ok? || e.result == Err(Fault))
            && (Undisturbed(s.calls.ops[change], e.inputs) ==>
                  S.Place(e) < |s.db.versions|
                  && Refusal(u.argon, s.calls.ops[change], s.db.versions[S.Place(e)], e.inputs).None?)
  {
    var s := ss[n];
    EveryStateIsGrounded(u, ss, es, k);
    EveryStateIsGrounded(u, ss, es, n);
    LogGrows(u, ss, es, k, n);
    var b := EndedCallIsServed(u, ss[k], check);
    var i := EndedCallIsServed(u, s, check);
    var j := EndedCallIsServed(u, s, change);
    LaterCallsSeeMore(u, ss, es, k, n, change);
    ChangeStillWorks(u, s, check, change, token, password, i, j);
  }

  // ---- Crashes

  ghost predicate GoneFrom(d: S.DB, id: nat) {
    id !in d.active && id !in d.ended && forall i :: 0 <= i < |d.log| ==> d.log[i].id != id
  }

  /** A call that started and will never come back. */
  ghost predicate Gone(s: State, id: nat) {
    id in s.calls.ops && id !in s.calls.results && GoneFrom(s.db, id)
  }

  lemma CrashLoses(u: Setup, s: State, id: nat)
    requires Grounded(u, s) && id in s.db.active
    ensures Enabled(u, s, Database(S.Crash))
    ensures var t := Next(u, s, Database(S.Crash));
            && Gone(t, id)
            && t.cache == map[] && t.db.mutex.None? && t.db.writer.None?
            && t.db.versions == s.db.versions && t.sessions == s.sessions && t.calls == s.calls && t.mails == s.mails
  {
    assert TxIsOurs(u, s.calls, id, s.db.active[id]);
    assert s.db.versions != [];
    hide Known, Program, S.TxRuns, S.Locks, S.LogReplays, S.EndRuns;
  }

  lemma StaysGoneFrom(d: S.DB, id: nat, e: S.Event)
    requires S.Enabled(d, e) && GoneFrom(d, id) && (e.Open? ==> e.id != id)
    ensures GoneFrom(S.Next(d, e), id)
  {
    hide S.Worked, S.Snapshot;
  }

  lemma OnlyEndedCallsAnswer(u: Setup, s: State, id: nat, e: Event)
    requires Enabled(u, s, e) && id in s.calls.ops && id !in s.calls.results && id !in s.db.ended
    ensures id !in Next(u, s, e).calls.results
  {
    hide Settle, Program, S.Next, S.Enabled, LoadOrStore, ForSession;
  }

  lemma GoneTxStays(u: Setup, s: State, id: nat, e: Event)
    requires Enabled(u, s, e) && id in s.calls.ops && GoneFrom(s.db, id)
    ensures GoneFrom(Next(u, s, e).db, id)
  {
    hide Settle, Program, S.Next, S.Enabled, LoadOrStore, ForSession, GoneFrom;
    if e.Database? {
      StaysGoneFrom(s.db, id, e.event);
    } else if e.Call? && !Hit(s, e.op) {
      StaysGoneFrom(s.db, id, OpenOf(u, e.id, e.op));
    }
  }

  lemma GoneForNow(u: Setup, s: State, id: nat, e: Event)
    requires Enabled(u, s, e) && Gone(s, id)
    ensures Gone(Next(u, s, e), id)
  {
    hide Next, Enabled;
    OpsAreKept(u, s, e);
    OnlyEndedCallsAnswer(u, s, id, e);
    GoneTxStays(u, s, id, e);
  }

  /** A crash loses every call whose transaction is open, for good: it never answers and commits nothing. What was
      committed, mailed or kept in a session stays; the cache is empty and the locks are free. */
  lemma {:induction false} CrashedCallsAreGone(u: Setup, ss: seq<State>, es: seq<Event>, k: nat, n: nat, id: nat)
    requires Execution(u, ss, es) && k < n < |ss| && es[k] == Database(S.Crash) && id in ss[k].db.active
    ensures Gone(ss[n], id)
    ensures var s, t := ss[k], ss[k + 1];
            && t.cache == map[] && t.db.mutex.None? && t.db.writer.None?
            && t.db.versions == s.db.versions && t.sessions == s.sessions && t.calls == s.calls && t.mails == s.mails
  {
    hide Next, Enabled, Grounded, Gone;
    assert Enabled(u, ss[k], es[k]) && ss[k + 1] == Next(u, ss[k], es[k]);
    EveryStateIsGrounded(u, ss, es, k);
    CrashLoses(u, ss[k], id);
    if n == k + 1 {
    } else {
      var m := n - 1;
      assert Enabled(u, ss[m], es[m]) && ss[m + 1] == Next(u, ss[m], es[m]);
      EveryStateIsGrounded(u, ss, es, m);
      CrashedCallsAreGone(u, ss, es, k, m, id);
      GoneForNow(u, ss[m], id, es[m]);
    }
  }

  /** Nothing is safe from failure, and a failure costs nothing but the call: a call can fail to begin, and one whose
      body succeeded can fail to commit; it then answers a fault, and versions and log stay as they were. */
  lemma BeginAndCommitCanFail(u: Setup, s: State, id: nat, e: S.Event)
    requires Grounded(u, s) && id in s.db.active
    requires (e == S.BeginFails(id) && s.db.active[id].inputs == [] && s.db.active[id].base.None?)
             || (e == S.Commit(id, false) && s.db.active[id].rest.Done? && s.db.active[id].rest.outcome.Ok?)
    ensures Enabled(u, s, Database(e))
    ensures var t := Next(u, s, Database(e));
            && t.db.versions == s.db.versions && t.db.log == s.db.log && id !in t.db.active && id in t.db.ended
            && Enabled(u, t, Return(id)) && id in OnReturn(u, t, id).calls.results
            && OnReturn(u, t, id).calls.results[id] == Refused(Fault)
  {
    assert TxIsOurs(u, s.calls, id, s.db.active[id]);
    assert s.db.versions != [];
    hide Grounded, Program;
  }
}
