/** Deletion stamps along every interleaved run: with one non-decreasing clock they never decrease, although
    deletes stamp rows already deleted again. */
module Tombstones {
  import opened Datastore
  import opened Effects
  import opened System
  import opened Sessions
  import S = Storage

  ghost predicate Stamped(s: Store, now: int) {
    forall k :: k in s.tokens ==> s.tokens[k].deletedAt <= now
  }

  /** Every row of s is in t with the same type, email and expiry, and a stamp no earlier. */
  ghost predicate Advances(s: Store, t: Store) {
    forall k :: k in s.tokens ==>
      && k in t.tokens
      && t.tokens[k] == s.tokens[k].(deletedAt := t.tokens[k].deletedAt)
      && s.tokens[k].deletedAt <= t.tokens[k].deletedAt
  }

  lemma StatementAdvances(q: Statement, now: int, s: Store)
    requires Stamped(s, now) && now > 0
    ensures Stamped(Execute(q, now, s).0, now) && Advances(s, Execute(q, now, s).0)
  {
  }

  lemma AdvancesIsTransitive(s: Store, t: Store, r: Store)
    requires Advances(s, t) && Advances(t, r)
    ensures Advances(s, r)
  {
  }

  ghost predicate TxStamped(versions: seq<Store>, clock: int, tx: S.Tx) {
    && Stamped(tx.local.view, clock)
    && (tx.base.Some? ==> tx.base.value < |versions| && Advances(versions[tx.base.value], tx.local.view))
  }

  ghost predicate VersionsStamped(versions: seq<Store>, clock: int) {
    && (forall i :: 0 <= i < |versions| ==> Stamped(versions[i], clock))
    && (forall i, j :: 0 <= i <= j < |versions| ==> Advances(versions[i], versions[j]))
  }

  ghost predicate StampsHold(s: State) {
    && VersionsStamped(s.db.versions, s.clock)
    && forall id :: id in s.db.active ==> TxStamped(s.db.versions, s.clock, s.db.active[id])
  }

  lemma WorkedIsStamped(db: S.DB, clock: int, tx: S.Tx, x: Input)
    requires db.versions != [] && VersionsStamped(db.versions, clock) && TxStamped(db.versions, clock, tx)
    requires x.now == clock > 0 && tx.rest.Do?
    ensures TxStamped(db.versions, clock, S.Worked(db, tx, x))
  {
    var ready := S.Prepared(db, tx);
    assert TxStamped(db.versions, clock, ready);
    if tx.rest.effect.Sql? {
      StatementAdvances(tx.rest.effect.query, x.now, ready.local.view);
      if ready.base.Some? {
        AdvancesIsTransitive(db.versions[ready.base.value], ready.local.view,
                             Execute(tx.rest.effect.query, x.now, ready.local.view).0);
      }
    }
  }

  lemma VersionAdded(versions: seq<Store>, clock: int, t: Store)
    requires versions != [] && VersionsStamped(versions, clock)
    requires Stamped(t, clock) && Advances(versions[|versions| - 1], t)
    ensures VersionsStamped(versions + [t], clock)
  {
    var w := versions + [t];
    forall i, j | 0 <= i <= j < |w| ensures Advances(w[i], w[j]) {
      if i < |versions| == j {
        AdvancesIsTransitive(versions[i], versions[|versions| - 1], t);
      }
    }
  }

  lemma DatabaseStamps(u: Setup, s: State, e: S.Event)
    requires Grounded(u, s) && StampsHold(s) && S.Enabled(s.db, e)
    requires e.Work? ==> e.input.now == s.clock
    ensures StampsHold(s.(db := S.Next(s.db, e)))
  {
    var d' := S.Next(s.db, e);
    if e.Work? {
      WorkedIsStamped(s.db, s.clock, s.db.active[e.id], e.input);
    } else if e.Commit? && e.ok && s.db.active[e.id].writing {
      assert S.TxRuns(s.db.versions, s.db.active[e.id]);
      VersionAdded(s.db.versions, s.clock, s.db.active[e.id].local.view);
    }
    hide Grounded, Stamped, S.Worked, VersionsStamped;
    forall id | id in d'.active ensures TxStamped(d'.versions, s.clock, d'.active[id]) {
      if id in s.db.active {
        assert TxStamped(s.db.versions, s.clock, s.db.active[id]);
      }
    }
  }

  lemma TickStamps(s: State, now: int)
    requires StampsHold(s) && now >= s.clock
    ensures StampsHold(s.(clock := now))
  {
    hide Advances;
  }

  lemma NextStamps(u: Setup, s: State, e: Event)
    requires Grounded(u, s) && StampsHold(s) && Enabled(u, s, e)
    ensures StampsHold(Next(u, s, e))
  {
    hide Grounded, S.Next, VersionsStamped, TxStamped;
    match e
    case Tick(now) => TickStamps(s, now);
    case Call(id, op, _) =>
      if !Hit(s, op) {
        DatabaseStamps(u, s, OpenOf(u, id, op));
      }
    case Database(event) => DatabaseStamps(u, s, event);
    case _ =>
  }

  lemma {:induction false} EveryStateIsStamped(u: Setup, ss: seq<State>, es: seq<Event>, n: nat)
    requires Execution(u, ss, es) && n < |ss|
    ensures StampsHold(ss[n])
  {
    if n == 0 {
    } else {
      var m := n - 1;
      EveryStateIsStamped(u, ss, es, m);
      EveryStateIsGrounded(u, ss, es, m);
      assert Enabled(u, ss[m], es[m]) && ss[m + 1] == Next(u, ss[m], es[m]);
      NextStamps(u, ss[m], es[m]);
    }
  }

  /** No run removes a token row, changes its type, email or expiry, or lowers its deletion stamp. */
  lemma TokenRowsOnlyAge(u: Setup, ss: seq<State>, es: seq<Event>, n: nat, i: nat, j: nat, token: string)
    requires Execution(u, ss, es) && n < |ss| && i <= j < |ss[n].db.versions| && token in ss[n].db.versions[i].tokens
    ensures var before, after := ss[n].db.versions[i].tokens, ss[n].db.versions[j].tokens;
            && token in after
            && after[token] == before[token].(deletedAt := after[token].deletedAt)
            && before[token].deletedAt <= after[token].deletedAt <= ss[n].clock
            && (before[token].deletedAt != 0 ==> after[token].deletedAt != 0)
  {
    EveryStateIsStamped(u, ss, es, n);
    EveryStateIsGrounded(u, ss, es, n);
    VersionsExtend(u, ss[n], i, j);
    hide Grounded;
    assert Advances(ss[n].db.versions[i], ss[n].db.versions[j]);
  }
}
