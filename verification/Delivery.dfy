/** Mail and token conservation. Mail leaves before the commit, so the two cannot be atomic; these are the exact
    relations between the mails handed over, the UUIDs drawn and the committed tokens. */
module Delivery {
  import opened Datastore
  import opened Encoding
  import opened Argon2id
  import opened Effects
  import opened Operations
  import opened Changes
  import opened History
  import opened Accounts
  import opened Midway
  import opened System
  import opened Sessions
  import opened Guarantees
  import S = Storage

  type Mails = seq<Posted>
  type Minted = map<nat, string>

  ghost predicate HasMail(mails: Mails, id: nat) { exists m :: 0 <= m < |mails| && mails[m].id == id }

  /** A mail of a call carries the UUID the call drew, to the email the call named, under the call's URL. */
  ghost predicate Fits(c: Calls, minted: Minted, p: Posted) {
    && p.id in c.ops && Issuing(c.ops[p.id]) && p.id in minted
    && exists name :: p.mail == NewMail(KindOf(c.ops[p.id]), c.ops[p.id].baseURL, c.ops[p.id].email, name, minted[p.id])
  }

  ghost predicate MailsFit(c: Calls, minted: Minted, mails: Mails) {
    && (forall m :: 0 <= m < |mails| ==> Fits(c, minted, mails[m]))
    && (forall m, m' :: 0 <= m < m' < |mails| ==> mails[m].id != mails[m'].id)
  }

  ghost predicate MintsFit(c: Calls, minted: Minted) {
    && minted.Keys <= c.ops.Keys
    && forall id, id' :: id in minted && id' in minted && minted[id] == minted[id'] ==> id == id'
  }

  /** A running call has drawn its UUID once it is past that effect, and mailed exactly what its body sent. */
  ghost predicate TxDelivers(c: Calls, mails: Mails, minted: Minted, id: nat, tx: S.Tx) {
    && id in c.ops
    && (HasMail(mails, id) <==> tx.local.sent != [])
    && (if Issuing(c.ops[id]) then
          && (id in minted <==> |tx.inputs| > MintAt(c.ops[id]))
          && (id in minted ==> minted[id] == tx.inputs[MintAt(c.ops[id])].uuid)
        else id !in minted)
  }

  ghost predicate EntryDelivers(c: Calls, mails: Mails, minted: Minted, e: S.Entry) {
    e.id in c.ops && Issuing(c.ops[e.id]) ==>
      && HasMail(mails, e.id)
      && |e.inputs| > MintAt(c.ops[e.id])
      && e.id in minted && minted[e.id] == e.inputs[MintAt(c.ops[e.id])].uuid
  }

  /** A call that mailed and is not in the log answered a fault although its body had mailed. */
  ghost predicate EndDelivers(versions: seq<Store>, mails: Mails, id: nat, e: S.End) {
    HasMail(mails, id) && e.version.None? ==>
      && e.result == Err(Fault)
      && S.Place(e) < |versions|
      && RunOn(e.body, versions[S.Place(e)], e.inputs).local.sent != []
  }

  ghost predicate Delivers(d: S.DB, c: Calls, mails: Mails, minted: Minted) {
    && MailsFit(c, minted, mails)
    && MintsFit(c, minted)
    && (forall id :: id in d.active ==> TxDelivers(c, mails, minted, id, d.active[id]))
    && (forall i :: 0 <= i < |d.log| ==> EntryDelivers(c, mails, minted, d.log[i]))
    && (forall id :: id in d.ended ==> EndDelivers(d.versions, mails, id, d.ended[id]))
  }

  /** Where a running issuing call stands. */
  lemma ActiveProgress(u: Setup, s: State, id: nat)
    requires Grounded(u, s) && id in s.db.active
    ensures var tx := s.db.active[id];
            && id in s.calls.ops
            && var op := s.calls.ops[id];
               && (Issuing(op) ==> IssuesAt(op, tx.inputs, Progress(tx.rest, tx.local)))
               && (!Issuing(op) && tx.rest.Do? ==> !tx.rest.effect.NewToken? && !tx.rest.effect.Send?)
               && (tx.inputs == [] ==> tx.local.sent == [])
               && (tx.rest.Done? && tx.rest.outcome.Ok? && Issuing(op) ==>
                     tx.local.sent != [] && |tx.inputs| > MintAt(op) && tx.writing)
  {
    var tx := s.db.active[id];
    assert TxIsOurs(u, s.calls, id, tx) && S.TxRuns(s.db.versions, tx) && S.Locks(s.db, id);
    var op, t := s.calls.ops[id], if tx.base.Some? then s.db.versions[tx.base.value] else EMPTY;
    var p := Exec(u.argon, op, t, tx.inputs);
    assert p == Progress(tx.rest, if tx.base.Some? then tx.local else tx.local.(view := t));
    assert Issuing(op) && tx.base.None? ==> tx.inputs == [];
    hide S.Valid, S.TxRuns, Known, TxIsOurs, S.Locks;
    if Issuing(op) {
      IssuingProgress(u.argon, op, t, tx.inputs);
      Meaning(u.argon, op, t, tx.inputs);
    } else {
      OtherProgress(u.argon, op, t, tx.inputs);
    }
  }

  lemma WorkedSends(d: S.DB, tx: S.Tx, x: Input)
    requires d.versions != [] && tx.rest.Do?
    ensures S.Worked(d, tx, x).local.sent ==
            tx.local.sent + (if tx.rest.effect.Send? && !x.fail then [tx.rest.effect.mail] else [])
    ensures S.Worked(d, tx, x).local.cached ==
            tx.local.cached + (if tx.rest.effect.CacheUser? then [tx.rest.effect.user] else [])
  {
  }

  lemma MailAppended(mails: Mails, p: Posted, id: nat)
    ensures HasMail(mails + [p], id) <==> HasMail(mails, id) || p.id == id
  {
    if HasMail(mails, id) {
      var m :| 0 <= m < |mails| && mails[m].id == id;
      assert (mails + [p])[m].id == id;
    }
    if p.id == id {
      assert (mails + [p])[|mails|].id == id;
    }
  }

  /** Nothing but the working call's own mail and UUID moves. */
  ghost predicate OnlyOwn(id: nat, mails: Mails, minted: Minted, mails': Mails, minted': Minted) {
    && (forall i :: i != id ==> (HasMail(mails', i) <==> HasMail(mails, i)))
    && (HasMail(mails, id) ==> HasMail(mails', id))
    && (forall i :: i in minted ==> i in minted' && minted'[i] == minted[i])
    && (forall i :: i in minted' ==> i in minted || i == id)
  }

  lemma RestKeepsDelivering(d: S.DB, c: Calls, mails: Mails, minted: Minted, mails': Mails, minted': Minted, id: nat)
    requires Delivers(d, c, mails, minted) && OnlyOwn(id, mails, minted, mails', minted')
    requires id !in d.ended
    ensures forall i :: i in d.active && i != id ==> TxDelivers(c, mails', minted', i, d.active[i])
    ensures forall i :: 0 <= i < |d.log| ==> EntryDelivers(c, mails', minted', d.log[i])
    ensures forall i :: i in d.ended ==> EndDelivers(d.versions, mails', i, d.ended[i])
  {
    hide MailsFit, MintsFit, HasMail;
  }

  lemma MintIsFirst(u: Setup, s: State, id: nat, x: Input)
    requires Grounded(u, s) && Delivers(s.db, s.calls, s.mails, s.minted)
    requires Enabled(u, s, Database(S.Work(id, x))) && s.db.active[id].rest.effect.NewToken?
    ensures !HasMail(s.mails, id) && id !in s.minted && id in s.calls.ops && x.uuid !in s.minted.Values
    ensures TxDelivers(s.calls, s.mails, s.minted[id := x.uuid], id, S.Worked(s.db, s.db.active[id], x))
  {
    var tx := s.db.active[id];
    ActiveProgress(u, s, id);
    assert TxDelivers(s.calls, s.mails, s.minted, id, tx);
    S.WorkedKeeps(s.db, tx, x);
    WorkedSends(s.db, tx, x);
    hide S.Worked, S.Valid, Known, HasMail, MailsFit;
  }

  lemma MintDelivers(c: Calls, mails: Mails, minted: Minted, id: nat, uuid: string)
    requires MailsFit(c, minted, mails) && MintsFit(c, minted)
    requires !HasMail(mails, id) && id !in minted && id in c.ops && uuid !in minted.Values
    ensures MailsFit(c, minted[id := uuid], mails) && MintsFit(c, minted[id := uuid])
    ensures OnlyOwn(id, mails, minted, mails, minted[id := uuid])
  {
    var minted' := minted[id := uuid];
    forall m | 0 <= m < |mails| ensures Fits(c, minted', mails[m]) {
      assert HasMail(mails, mails[m].id);
      assert Fits(c, minted, mails[m]);
    }
    assert forall i :: i in minted ==> minted[i] in minted.Values;
  }

  /** The mail a call is about to hand over is its first, and its own. */
  lemma SendsOwnMail(u: Setup, s: State, id: nat, x: Input)
    requires Grounded(u, s) && Delivers(s.db, s.calls, s.mails, s.minted)
    requires Enabled(u, s, Database(S.Work(id, x))) && s.db.active[id].rest.effect.Send? && !x.fail
    ensures MailsFit(s.calls, s.minted, s.mails) && !HasMail(s.mails, id)
    ensures Fits(s.calls, s.minted, Posted(id, s.db.active[id].rest.effect.mail))
    ensures forall mails' :: HasMail(mails', id) ==>
              TxDelivers(s.calls, mails', s.minted, id, S.Worked(s.db, s.db.active[id], x))
  {
    var tx := s.db.active[id];
    ActiveProgress(u, s, id);
    assert TxDelivers(s.calls, s.mails, s.minted, id, tx);
    S.WorkedKeeps(s.db, tx, x);
    WorkedSends(s.db, tx, x);
    hide S.Worked, S.Valid, Known, HasMail, MailsFit;
  }

  lemma MailAdded(c: Calls, mails: Mails, minted: Minted, id: nat, mail: Mail)
    requires MailsFit(c, minted, mails) && !HasMail(mails, id) && Fits(c, minted, Posted(id, mail))
    ensures MailsFit(c, minted, mails + [Posted(id, mail)])
  {
    hide Fits;
    assert forall m :: 0 <= m < |mails| ==> mails[m].id != id;
  }

  lemma MailMovesOnlyOwn(mails: Mails, minted: Minted, p: Posted)
    ensures OnlyOwn(p.id, mails, minted, mails + [p], minted) && HasMail(mails + [p], p.id)
  {
    hide HasMail;
    forall i ensures HasMail(mails + [p], i) <==> HasMail(mails, i) || i == p.id {
      MailAppended(mails, p, i);
    }
  }

  lemma SendDelivers(u: Setup, s: State, id: nat, x: Input)
    requires Grounded(u, s) && Delivers(s.db, s.calls, s.mails, s.minted)
    requires Enabled(u, s, Database(S.Work(id, x))) && s.db.active[id].rest.effect.Send? && !x.fail
    ensures var mails' := s.mails + [Posted(id, s.db.active[id].rest.effect.mail)];
            && MailsFit(s.calls, s.minted, mails')
            && OnlyOwn(id, s.mails, s.minted, mails', s.minted)
            && TxDelivers(s.calls, mails', s.minted, id, S.Worked(s.db, s.db.active[id], x))
  {
    hide Grounded;
    var tx := s.db.active[id];
    SendsOwnMail(u, s, id, x);
    hide Delivers, TxDelivers, MailsFit, MintsFit, HasMail, S.Worked, Fits, NewMail, OnlyOwn;
    MailAdded(s.calls, s.mails, s.minted, id, tx.rest.effect.mail);
    MailMovesOnlyOwn(s.mails, s.minted, Posted(id, tx.rest.effect.mail));
  }

  lemma QuietDelivers(u: Setup, s: State, id: nat, x: Input)
    requires Grounded(u, s) && Delivers(s.db, s.calls, s.mails, s.minted)
    requires Enabled(u, s, Database(S.Work(id, x)))
    requires var e := s.db.active[id].rest.effect; !e.NewToken? && !(e.Send? && !x.fail)
    ensures TxDelivers(s.calls, s.mails, s.minted, id, S.Worked(s.db, s.db.active[id], x))
  {
    var tx := s.db.active[id];
    ActiveProgress(u, s, id);
    assert TxDelivers(s.calls, s.mails, s.minted, id, tx);
    S.WorkedKeeps(s.db, tx, x);
    WorkedSends(s.db, tx, x);
  }

  lemma NothingMoves(id: nat, mails: Mails, minted: Minted)
    ensures OnlyOwn(id, mails, minted, mails, minted)
  {
  }

  lemma DeliversParts(d: S.DB, c: Calls, mails: Mails, minted: Minted)
    requires Delivers(d, c, mails, minted)
    ensures MailsFit(c, minted, mails) && MintsFit(c, minted)
  {
  }

  lemma WorkShape(u: Setup, s: State, id: nat, x: Input)
    requires Enabled(u, s, Database(S.Work(id, x)))
    ensures id in s.db.active && s.db.active[id].rest.Do? && s.db.versions != []
    ensures var t, e := Next(u, s, Database(S.Work(id, x))), s.db.active[id].rest.effect;
            && t.calls == s.calls && t.db.log == s.db.log && t.db.ended == s.db.ended && t.db.versions == s.db.versions
            && t.db.active == s.db.active[id := S.Worked(s.db, s.db.active[id], x)]
            && t.mails == (if e.Send? && !x.fail then s.mails + [Posted(id, e.mail)] else s.mails)
            && t.minted == (if e.NewToken? then s.minted[id := x.uuid] else s.minted)
            && t.cache == (if e.CacheUser? then LoadOrStore(s.cache, e.user) else s.cache)
  {
    hide S.Worked, LoadOrStore;
  }

  lemma Assemble(d: S.DB, d': S.DB, c: Calls, mails: Mails, minted: Minted, id: nat)
    requires d'.log == d.log && d'.ended == d.ended && d'.versions == d.versions
    requires id in d'.active && d'.active == d.active[id := d'.active[id]]
    requires MailsFit(c, minted, mails) && MintsFit(c, minted)
    requires TxDelivers(c, mails, minted, id, d'.active[id])
    requires forall i :: i in d.active && i != id ==> TxDelivers(c, mails, minted, i, d.active[i])
    requires forall i :: 0 <= i < |d.log| ==> EntryDelivers(c, mails, minted, d.log[i])
    requires forall i :: i in d.ended ==> EndDelivers(d.versions, mails, i, d.ended[i])
    ensures Delivers(d', c, mails, minted)
  {
    hide MailsFit, MintsFit, TxDelivers, EntryDelivers, EndDelivers;
  }

  lemma WorkDelivers(u: Setup, s: State, id: nat, x: Input)
    requires Grounded(u, s) && Delivers(s.db, s.calls, s.mails, s.minted)
    requires Enabled(u, s, Database(S.Work(id, x)))
    ensures var t := Next(u, s, Database(S.Work(id, x))); Delivers(t.db, t.calls, t.mails, t.minted)
  {
    var t := Next(u, s, Database(S.Work(id, x)));
    var e := s.db.active[id].rest.effect;
    assert id !in s.db.ended;
    WorkShape(u, s, id, x);
    hide *;
    if e.NewToken? {
      MintIsFirst(u, s, id, x);
      DeliversParts(s.db, s.calls, s.mails, s.minted);
      MintDelivers(s.calls, s.mails, s.minted, id, x.uuid);
    } else if e.Send? && !x.fail {
      DeliversParts(s.db, s.calls, s.mails, s.minted);
      SendDelivers(u, s, id, x);
    } else {
      QuietDelivers(u, s, id, x);
      DeliversParts(s.db, s.calls, s.mails, s.minted);
      NothingMoves(id, s.mails, s.minted);
    }
    RestKeepsDelivering(s.db, s.calls, s.mails, s.minted, t.mails, t.minted, id);
    Assemble(s.db, t.db, t.calls, t.mails, t.minted, id);
  }

  lemma NothingBeforeCall(c: Calls, mails: Mails, minted: Minted, id: nat)
    requires MailsFit(c, minted, mails) && MintsFit(c, minted) && id !in c.ops
    ensures !HasMail(mails, id) && id !in minted
  {
  }

  lemma LoggedCallIsKnown(u: Setup, s: State, i: nat)
    requires Grounded(u, s) && i < |s.db.log|
    ensures s.db.log[i].id in s.calls.ops
  {
    assert EntryIsOurs(u, s.calls, s.db.log[i]);
  }

  lemma CallDelivers(u: Setup, s: State, id: nat, op: Op, onBehalf: Option<string>)
    requires Grounded(u, s) && Delivers(s.db, s.calls, s.mails, s.minted)
    requires Enabled(u, s, Call(id, op, onBehalf))
    ensures var t := OnCall(u, s, id, op, onBehalf); Delivers(t.db, t.calls, s.mails, s.minted)
  {
    hide Grounded, HasMail, Program, OnCall, Enabled;
    var t := OnCall(u, s, id, op, onBehalf);
    CallShape(u, s, id, op, onBehalf);
    CallIdIsNew(u, s, id);
    NothingBeforeCall(s.calls, s.mails, s.minted, id);
    forall m | 0 <= m < |s.mails| ensures Fits(t.calls, s.minted, s.mails[m]) {
      assert Fits(s.calls, s.minted, s.mails[m]);
    }
    forall i | i in t.db.active ensures TxDelivers(t.calls, s.mails, s.minted, i, t.db.active[i]) {
      assert i != id ==> TxDelivers(s.calls, s.mails, s.minted, i, s.db.active[i]);
    }
    forall i | 0 <= i < |s.db.log| ensures EntryDelivers(t.calls, s.mails, s.minted, s.db.log[i]) {
      assert EntryDelivers(s.calls, s.mails, s.minted, s.db.log[i]);
      LoggedCallIsKnown(u, s, i);
    }
  }

  /** What a transaction leaves behind when it ends. */
  lemma EndOfCallDelivers(u: Setup, s: State, id: nat, result: Outcome)
    requires Grounded(u, s) && Delivers(s.db, s.calls, s.mails, s.minted) && id in s.db.active
    requires S.EndsWith(s.db.active[id], result)
    ensures var tx := s.db.active[id];
            EndDelivers(s.db.versions, s.mails, id, S.End(tx.body, tx.inputs, tx.since, tx.base, result, None))
  {
    var tx := s.db.active[id];
    ActiveProgress(u, s, id);
    assert TxDelivers(s.calls, s.mails, s.minted, id, tx) && S.TxRuns(s.db.versions, tx);
    hide S.Valid, Known;
    if HasMail(s.mails, id) {
      var m :| 0 <= m < |s.mails| && s.mails[m].id == id;
      assert Fits(s.calls, s.minted, s.mails[m]);
    }
  }

  lemma EntryOfCallDelivers(u: Setup, s: State, id: nat)
    requires Grounded(u, s) && Delivers(s.db, s.calls, s.mails, s.minted) && id in s.db.active
    requires s.db.active[id].rest.Done? && s.db.active[id].rest.outcome.Ok?
    ensures EntryDelivers(s.calls, s.mails, s.minted, S.Entry(id, s.db.active[id].body, s.db.active[id].inputs))
  {
    ActiveProgress(u, s, id);
    assert TxDelivers(s.calls, s.mails, s.minted, id, s.db.active[id]);
  }

  lemma BeginDelivers(u: Setup, s: State, id: nat)
    requires Grounded(u, s) && Delivers(s.db, s.calls, s.mails, s.minted)
    requires S.Enabled(s.db, S.BeginImmediate(id))
    ensures Delivers(S.Next(s.db, S.BeginImmediate(id)), s.calls, s.mails, s.minted)
  {
    var tx := s.db.active[id];
    assert TxDelivers(s.calls, s.mails, s.minted, id, tx);
    assert TxDelivers(s.calls, s.mails, s.minted, id, S.Snapshot(s.db, tx).(writing := true));
    hide Grounded, HasMail, MailsFit, MintsFit, EntryDelivers, EndDelivers, TxDelivers;
  }

  lemma EndDeliversAll(u: Setup, s: State, e: S.Event)
    requires Grounded(u, s) && Delivers(s.db, s.calls, s.mails, s.minted)
    requires S.Enabled(s.db, e) && (e.BeginFails? || e.Commit? || e.Rollback?)
    ensures Delivers(S.Next(s.db, e), s.calls, s.mails, s.minted)
  {
    hide Grounded, HasMail, MailsFit, MintsFit, EntryDelivers, TxDelivers;
    if e.Commit? && e.ok && s.db.active[e.id].writing {
      EntryOfCallDelivers(u, s, e.id);
    } else {
      EndOfCallDelivers(u, s, e.id, S.Next(s.db, e).ended[e.id].result);
    }
  }

  lemma ReturnDelivers(u: Setup, s: State, id: nat)
    requires Delivers(s.db, s.calls, s.mails, s.minted) && Enabled(u, s, Return(id))
    ensures Delivers(s.db, OnReturn(u, s, id).calls, s.mails, s.minted)
  {
  }

  lemma NextDelivers(u: Setup, s: State, e: Event)
    requires Grounded(u, s) && Delivers(s.db, s.calls, s.mails, s.minted) && Enabled(u, s, e)
    ensures var t := Next(u, s, e); Delivers(t.db, t.calls, t.mails, t.minted)
  {
    if e.Database? {
      var step := e.event;
      if step.Work? {
        WorkDelivers(u, s, step.id, step.input);
      } else if step.BeginImmediate? {
        BeginDelivers(u, s, step.id);
      } else if !step.Crash? {
        EndDeliversAll(u, s, step);
      }
    } else if e.Call? {
      CallDelivers(u, s, e.id, e.op, e.onBehalf);
    } else if e.Return? {
      ReturnDelivers(u, s, e.id);
    }
  }

  ghost predicate OneURL(u: Setup, c: Calls) {
    forall id :: id in c.ops && Issuing(c.ops[id]) ==> c.ops[id].baseURL == u.baseURL
  }

  lemma NextKeepsURL(u: Setup, s: State, e: Event)
    requires OneURL(u, s.calls) && Enabled(u, s, e)
    ensures OneURL(u, Next(u, s, e).calls)
  {
    hide S.Next, S.Enabled, Program, Settle;
  }

  lemma {:induction false} EveryStateDelivers(u: Setup, ss: seq<State>, es: seq<Event>, n: nat)
    requires Execution(u, ss, es) && n < |ss|
    ensures Delivers(ss[n].db, ss[n].calls, ss[n].mails, ss[n].minted) && OneURL(u, ss[n].calls)
  {
    if n == 0 {
    } else {
      var m := n - 1;
      EveryStateDelivers(u, ss, es, m);
      EveryStateIsGrounded(u, ss, es, m);
      assert Enabled(u, ss[m], es[m]) && ss[m + 1] == Next(u, ss[m], es[m]);
      NextDelivers(u, ss[m], es[m]);
      NextKeepsURL(u, ss[m], es[m]);
    }
  }

  function Link(u: Setup, kind: TokenType, token: string): string {
    u.baseURL + (if kind == SIGNUP then "/auth/signup/" else "/auth/reset-password/") + QueryEscape(token)
  }

  lemma LinksAreDistinct(u: Setup, kind: TokenType, token: string, kind': TokenType, token': string)
    requires Link(u, kind, token) == Link(u, kind', token')
    ensures kind == kind' && token == token'
  {
    var a, b, n := Link(u, kind, token), Link(u, kind', token'), |u.baseURL|;
    assert a[n + 6] == Endpoint(kind)[6] && b[n + 6] == Endpoint(kind')[6];
    assert kind == kind';
    assert a[n + |Endpoint(kind)|..] == QueryEscape(token) && b[n + |Endpoint(kind)|..] == QueryEscape(token');
    QueryEscapeIsInjective(token, token');
  }

  lemma IssuerOf(u: Setup, s: State, token: string) returns (i: nat)
    requires Grounded(u, s) && token in Last(s).tokens
    ensures i < |s.db.log| < |s.db.versions| && s.db.log[i].id in s.calls.ops && MakesChange(OpAt(s, i))
    ensures var c := ChangeAt(u, s.db, s.calls, i);
            (c.Registered? || c.Issued?) && c.issue.token == token
            && c.issue.email == Last(s).tokens[token].email && c.issue.kind == Last(s).tokens[token].kind
  {
    CommitsAreLegal(u, s);
    assert |s.db.versions| == |s.db.log| + 1;
    var h := HistoryOf(u, s.db, s.calls);
    TokensAreIssued(u.argon, s.db.versions, h, |h|, token);
    i :| 0 <= i < |h| && (h[i].Registered? || h[i].Issued?) && h[i].issue.token == token
      && Grants(h[i], s.db.versions[|h|].tokens[token].kind, s.db.versions[|h|].tokens[token].email);
    EntryCommits(u, s, i);
    assert h[i] == ChangeAt(u, s.db, s.calls, i);
  }

  /** The mail of a call is the only one with its link. */
  lemma OneMailPerLink(u: Setup, c: Calls, mails: Mails, minted: Minted, m: nat, kind: TokenType, token: string)
    requires MailsFit(c, minted, mails) && MintsFit(c, minted) && OneURL(u, c) && m < |mails|
    requires var id := mails[m].id; id in c.ops && KindOf(c.ops[id]) == kind && id in minted && minted[id] == token
    ensures mails[m].mail.to == c.ops[mails[m].id].email && mails[m].mail.url == Link(u, kind, token)
    ensures forall m' :: 0 <= m' < |mails| && mails[m'].mail.url == Link(u, kind, token) ==> m' == m
  {
    assert Fits(c, minted, mails[m]);
    forall m' | 0 <= m' < |mails| && mails[m'].mail.url == Link(u, kind, token) ensures m' == m {
      assert Fits(c, minted, mails[m']);
      LinksAreDistinct(u, kind, token, KindOf(c.ops[mails[m'].id]), minted[mails[m'].id]);
    }
  }

  /** Every committed token row was handed to the mailer exactly once, addressed to its own email under its own link. */
  lemma CommittedTokensWereMailedOnce(u: Setup, ss: seq<State>, es: seq<Event>, n: nat, token: string)
    requires Execution(u, ss, es) && n < |ss| && token in Last(ss[n]).tokens
    ensures var row, mails := Last(ss[n]).tokens[token], ss[n].mails;
            exists m {:trigger mails[m]} :: 0 <= m < |mails|
              && mails[m].mail.to == row.email && mails[m].mail.url == Link(u, row.kind, token)
              && forall m' :: 0 <= m' < |mails| && mails[m'].mail.url == Link(u, row.kind, token) ==> m' == m
  {
    var s := ss[n];
    EveryStateDelivers(u, ss, es, n);
    EveryStateIsGrounded(u, ss, es, n);
    hide Execution, Grounded, MakesChange;
    var i := IssuerOf(u, s, token);
    IssuedRow(u, s, i);
    var id, row := s.db.log[i].id, Last(s).tokens[token];
    assert EntryDelivers(s.calls, s.mails, s.minted, s.db.log[i]) && s.minted[id] == token;
    hide ChangeAt, Fits, MailsFit, MintsFit, OneURL;
    var m :| 0 <= m < |s.mails| && s.mails[m].id == id;
    OneMailPerLink(u, s.calls, s.mails, s.minted, m, row.kind, token);
  }

  lemma IssueStaysIn(argon: Argon2idHash, s: Store, c: Change, t: Store)
    requires Makes(argon, s, c, t) && (c.Registered? || c.Issued?)
    ensures c.issue.token in t.tokens
  {
  }

  lemma LoggedTokenIsCommitted(u: Setup, s: State, i: nat)
    requires Grounded(u, s) && i < |s.db.log| && s.db.log[i].id in s.calls.ops && Issuing(OpAt(s, i))
    ensures |s.db.log[i].inputs| > MintAt(OpAt(s, i))
    ensures s.db.log[i].inputs[MintAt(OpAt(s, i))].uuid in Last(s).tokens
  {
    hide Grounded, ChangeAt, Undisturbed, Refusal, Extends;
    EntryCommits(u, s, i);
    IssuedRow(u, s, i);
    IssueStaysIn(u.argon, s.db.versions[i], ChangeAt(u, s.db, s.calls, i), s.db.versions[i + 1]);
    VersionsExtend(u, s, i + 1, |s.db.versions| - 1);
  }

  lemma CommittedEndIsLogged(u: Setup, s: State, id: nat)
    requires Grounded(u, s) && id in s.db.ended && s.db.ended[id].version.Some?
    ensures var i := s.db.ended[id].version.value; i < |s.db.log| && s.db.log[i].id == id
  {
    assert S.EndRuns(s.db.versions, s.db.log, id, s.db.ended[id]);
  }

  /** The call answered a fault, although its body ran to its success on the version it worked on. */
  ghost predicate CommitFailed(u: Setup, s: State, id: nat) {
    && id in s.calls.ops && id in s.db.ended
    && var e := s.db.ended[id];
       && e.result == Err(Fault) && e.version.None? && S.Place(e) < |s.db.versions|
       && Exec(u.argon, s.calls.ops[id], s.db.versions[S.Place(e)], e.inputs).rest == Done(Ok(None))
  }

  lemma MailedBodySucceeds(argon: Argon2idHash, op: Op, s: Store, inputs: seq<Input>)
    requires Issuing(op) && Exec(argon, op, s, inputs).local.sent != [] && Exec(argon, op, s, inputs).rest.Done?
    ensures Exec(argon, op, s, inputs).rest == Done(Ok(None))
  {
    IssuingProgress(argon, op, s, inputs);
    Meaning(argon, op, s, inputs);
    hide Exec;
  }

  lemma MailersIssue(c: Calls, mails: Mails, minted: Minted, id: nat)
    requires MailsFit(c, minted, mails) && HasMail(mails, id)
    ensures id in c.ops && Issuing(c.ops[id])
  {
    var m :| 0 <= m < |mails| && mails[m].id == id;
    assert Fits(c, minted, mails[m]);
  }

  lemma EndedBodyIsDone(u: Setup, s: State, id: nat)
    requires Grounded(u, s) && id in s.db.ended
    ensures var e := s.db.ended[id];
            && id in s.calls.ops && S.Place(e) < |s.db.versions|
            && var p := Exec(u.argon, s.calls.ops[id], s.db.versions[S.Place(e)], e.inputs);
               && p == RunOn(e.body, s.db.versions[S.Place(e)], e.inputs)
               && (p.local.sent != [] ==> p.rest.Done?)
  {
    var e := s.db.ended[id];
    assert EndIsOurs(u, s.calls, id, e) && S.EndRuns(s.db.versions, s.db.log, id, e);
    assert S.EndsAs(s.db.versions[S.Place(e)], e);
    hide S.Valid, Known, Program;
  }

  /** A call whose body mailed had come to its success. */
  lemma MailingMeansSuccess(u: Setup, s: State, id: nat)
    requires Grounded(u, s) && Delivers(s.db, s.calls, s.mails, s.minted) && HasMail(s.mails, id)
    requires id in s.db.ended && s.db.ended[id].version.None?
    ensures CommitFailed(u, s, id)
  {
    hide Grounded, Exec, Program, HasMail, MailsFit, MintsFit;
    MailersIssue(s.calls, s.mails, s.minted, id);
    EndedBodyIsDone(u, s, id);
    assert EndDelivers(s.db.versions, s.mails, id, s.db.ended[id]);
    MailedBodySucceeds(u.argon, s.calls.ops[id], s.db.versions[S.Place(s.db.ended[id])], s.db.ended[id].inputs);
  }

  lemma MailerIsDone(u: Setup, s: State, id: nat)
    requires Grounded(u, s) && Delivers(s.db, s.calls, s.mails, s.minted) && HasMail(s.mails, id)
    requires id in s.db.active && id in s.calls.ops && Issuing(s.calls.ops[id])
    ensures s.db.active[id].rest.Done? && s.db.active[id].rest.outcome.Ok?
  {
    hide Grounded, HasMail, MailsFit, MintsFit;
    ActiveProgress(u, s, id);
    assert TxDelivers(s.calls, s.mails, s.minted, id, s.db.active[id]);
  }

  lemma CommittedMailer(u: Setup, s: State, id: nat)
    requires Grounded(u, s) && Delivers(s.db, s.calls, s.mails, s.minted)
    requires id in s.db.ended && s.db.ended[id].version.Some? && id in s.calls.ops && Issuing(s.calls.ops[id])
    ensures id in s.minted && s.minted[id] in Last(s).tokens
  {
    hide Grounded, HasMail, MailsFit, MintsFit, EndDelivers, TxDelivers;
    var i := s.db.ended[id].version.value;
    CommittedEndIsLogged(u, s, id);
    assert EntryDelivers(s.calls, s.mails, s.minted, s.db.log[i]);
    LoggedTokenIsCommitted(u, s, i);
  }

  /** Every mail handed over is accounted for: its token is committed, its call is still waiting to commit,
      its commit failed, or a crash took the call away. */
  lemma MailsAreAccountedFor(u: Setup, ss: seq<State>, es: seq<Event>, n: nat, m: nat)
    requires Execution(u, ss, es) && n < |ss| && m < |ss[n].mails|
    ensures var s, id := ss[n], ss[n].mails[m].id;
            && id in s.minted
            && (|| s.minted[id] in Last(s).tokens
                || (id in s.db.active && s.db.active[id].rest.Done? && s.db.active[id].rest.outcome.Ok?)
                || CommitFailed(u, s, id)
                || (id !in s.db.active && id !in s.db.ended))
  {
    hide Execution, Grounded;
    var s, id := ss[n], ss[n].mails[m].id;
    EveryStateDelivers(u, ss, es, n);
    EveryStateIsGrounded(u, ss, es, n);
    assert Fits(s.calls, s.minted, s.mails[m]);
    assert HasMail(s.mails, id);
    hide Delivers, HasMail, Fits, OneURL, CommitFailed;
    if id in s.db.active {
      MailerIsDone(u, s, id);
    } else if id in s.db.ended && s.db.ended[id].version.Some? {
      CommittedMailer(u, s, id);
    } else if id in s.db.ended {
      MailingMeansSuccess(u, s, id);
    }
  }
}
