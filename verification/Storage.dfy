/** Transactions over the two connection pools, interleaved effect by effect, and their serialisability.

    The write-ahead-log rule of SQLite is the guard of Work: a transaction reads the snapshot it took at its first
    statement; its first update succeeds only when no other transaction holds the write lock and its
    snapshot is the latest committed version, otherwise the statement errors. */
module Storage {
  import opened Datastore
  import opened Effects

  /** A transaction in flight. since is the latest version when it was asked for, base the version it reads. */
  datatype Tx = Tx(
    pool: Pool, body: Body, since: nat, base: Option<nat>, writing: bool,
    rest: Body, local: Local, inputs: seq<Input>)

  /** A committed writer. */
  datatype Entry = Entry(id: nat, body: Body, inputs: seq<Input>)

  /** A finished transaction; version is the store its commit replaced. */
  datatype End = End(body: Body, inputs: seq<Input>, since: nat, base: Option<nat>, result: Outcome,
                     version: Option<nat>)

  datatype DB = DB(
    versions: seq<Store>, log: seq<Entry>, mutex: Option<nat>, writer: Option<nat>,
    active: map<nat, Tx>, ended: map<nat, End>)

  datatype Event =
    | Open(id: nat, pool: Pool, body: Body)
    | BeginImmediate(id: nat)
    | BeginFails(id: nat)
    | Work(id: nat, input: Input)
    | Commit(id: nat, ok: bool)
    | Rollback(id: nat)
    | Crash

  function Init(s: Store): DB { DB([s], [], None, None, map[], map[]) }

  function Latest(d: DB): int { |d.versions| - 1 }

  predicate Enabled(d: DB, e: Event) {
    && d.versions != []
    && match e
       case Open(id, pool, _) => id !in d.active && id !in d.ended && (pool.Write? ==> d.mutex.None?)
       case BeginImmediate(id) =>
         id in d.active && d.active[id].pool.Write? && d.active[id].base.None? && d.writer.None?
       case BeginFails(id) => id in d.active && d.active[id].base.None? && d.active[id].inputs == []
       case Work(id, _) =>
         id in d.active && d.active[id].rest.Do? && (d.active[id].pool.Write? ==> d.active[id].base.Some?)
       case Commit(id, _) => id in d.active && d.active[id].rest.Done? && d.active[id].rest.outcome.Ok?
       case Rollback(id) => id in d.active && d.active[id].rest.Done? && d.active[id].rest.outcome.Err?
       case Crash => true
  }

  /** The first statement takes a snapshot of the latest version. */
  function Snapshot(d: DB, tx: Tx): Tx
    requires d.versions != []
  {
    if tx.base.Some? then tx
    else tx.(base := Some(Latest(d)), local := tx.local.(view := d.versions[Latest(d)]))
  }

  predicate CanUpgrade(d: DB, tx: Tx) {
    d.writer.None? && (tx.base.None? || tx.base.value == Latest(d))
  }

  predicate Updates(tx: Tx) { tx.rest.Do? && tx.rest.effect.Sql? && tx.rest.effect.query.Writes() }

  /** An update that can get the write lock neither now nor from before. */
  predicate Denied(d: DB, tx: Tx) { Updates(tx) && !tx.writing && !CanUpgrade(d, tx) }

  /** The transaction ready for its next effect. */
  function Prepared(d: DB, tx: Tx): Tx
    requires d.versions != []
  {
    if Denied(d, tx) then tx
    else if tx.rest.Do? && tx.rest.effect.Sql? then Snapshot(d, tx).(writing := tx.writing || Updates(tx))
    else tx
  }

  function Worked(d: DB, tx: Tx, input: Input): Tx
    requires d.versions != []
  {
    var ready, x := Prepared(d, tx), if Denied(d, tx) then input.(fail := true) else input;
    var p := Advance(Progress(ready.rest, ready.local), x);
    ready.(rest := p.rest, local := p.local, inputs := tx.inputs + [x])
  }

  function Released(holder: Option<nat>, id: nat): Option<nat> { if holder == Some(id) then None else holder }

  function Finish(d: DB, id: nat, result: Outcome, version: Option<nat>): DB
    requires id in d.active
  {
    var tx := d.active[id];
    d.(mutex := Released(d.mutex, id), writer := Released(d.writer, id), active := d.active - {id},
       ended := d.ended[id := End(tx.body, tx.inputs, tx.since, tx.base, result, version)])
  }

  function Next(d: DB, e: Event): DB
    requires Enabled(d, e)
  {
    match e
    case Open(id, pool, body) =>
      d.(mutex := if pool.Write? then Some(id) else d.mutex,
         active := d.active[id := Tx(pool, body, Latest(d), None, false, body, Local(EMPTY, [], []), [])])
    case BeginImmediate(id) =>
      d.(writer := Some(id), active := d.active[id := Snapshot(d, d.active[id]).(writing := true)])
    case BeginFails(id) => Finish(d, id, Err(Fault), None)
    case Work(id, input) =>
      var tx := Worked(d, d.active[id], input);
      d.(writer := if tx.writing then Some(id) else d.writer, active := d.active[id := tx])
    case Commit(id, ok) =>
      var tx := d.active[id];
      if !ok then Finish(d, id, Err(Fault), None)
      else if !tx.writing then Finish(d, id, tx.rest.outcome, None)
      else
        Finish(d.(versions := d.versions + [tx.local.view], log := d.log + [Entry(id, tx.body, tx.inputs)]),
               id, tx.rest.outcome, Some(Latest(d)))
    case Rollback(id) => Finish(d, id, d.active[id].rest.outcome, None)
    case Crash => d.(mutex := None, writer := None, active := map[])
  }

  // ---- The invariant

  /** Alone on store s, the body answers these inputs with success and leaves store t. */
  ghost predicate Replays(e: Entry, s: Store, t: Store) {
    var p := RunOn(e.body, s, e.inputs);
    p.rest.Done? && p.rest.outcome.Ok? && p.local.view == t
  }

  ghost predicate LogReplays(d: DB) {
    && |d.versions| == |d.log| + 1
    && forall i {:trigger d.log[i]} :: 0 <= i < |d.log| ==> Replays(d.log[i], d.versions[i], d.versions[i + 1])
  }

  /** Until its first statement a transaction does not depend on the store; from then on it is
      the run of its body on its base version. */
  ghost predicate TxRuns(versions: seq<Store>, tx: Tx) {
    && tx.since < |versions|
    && match tx.base
       case Some(b) =>
         && tx.since <= b < |versions|
         && RunOn(tx.body, versions[b], tx.inputs) == Progress(tx.rest, tx.local)
         && (!tx.writing ==> tx.local.view == versions[b])
         && (tx.writing ==> b == |versions| - 1)
       case None =>
         && !tx.writing
         && forall s :: RunOn(tx.body, s, tx.inputs) == Progress(tx.rest, tx.local.(view := s))
  }

  ghost predicate Locks(d: DB, id: nat)
    requires id in d.active
  {
    var tx := d.active[id];
    && (tx.writing <==> d.writer == Some(id))
    && (tx.pool.Write? <==> d.mutex == Some(id))
    && (tx.pool.Write? ==> if tx.base.Some? then tx.writing else tx.inputs == [])
  }

  /** A finished transaction answered what its body, alone on s, answers these inputs; otherwise it answered a fault and
      either never began or failed to commit a success. */
  ghost predicate EndsAs(s: Store, e: End) {
    var p := RunOn(e.body, s, e.inputs);
    && (|| p.rest == Done(e.result)
        || (e.result == Err(Fault) && (e.inputs == [] || (p.rest.Done? && p.rest.outcome.Ok?))))
    && (e.result.Ok? && e.version.None? ==> p.local.view == s)
  }

  /** The store a transaction without a base would have run on does not matter; what was committed is in the log. */
  ghost predicate EndRuns(versions: seq<Store>, log: seq<Entry>, id: nat, e: End) {
    && e.since < |versions|
    && (e.version.Some? ==>
          && e.base == e.version
          && e.version.value < |log| && log[e.version.value] == Entry(id, e.body, e.inputs)
          && e.result.Ok?)
    && match e.base
       case Some(b) => e.since <= b < |versions| && EndsAs(versions[b], e)
       case None => e.version.None? && forall s :: EndsAs(s, e)
  }

  ghost predicate Valid(d: DB) {
    && LogReplays(d)
    && (forall id :: id in d.active ==> TxRuns(d.versions, d.active[id]) && Locks(d, id) && id !in d.ended)
    && (d.writer.Some? ==> d.writer.value in d.active)
    && (d.mutex.Some? ==> d.mutex.value in d.active)
    && (forall id :: id in d.ended ==> EndRuns(d.versions, d.log, id, d.ended[id]))
    && (forall i :: 0 <= i < |d.log| ==> d.log[i].id in d.ended && d.ended[d.log[i].id].version == Some(i))
  }

  // ---- Every step keeps it

  /** Effects other than statements, and failing statements, neither read nor change the view. */
  lemma PerformIgnoresView(e: Effect, l: Local, s: Store, x: Input)
    requires e.Sql? ==> x.fail
    ensures var (m, r) := Perform(e, l, x);
            Perform(e, l.(view := s), x) == (m.(view := s), r) && m.view == l.view
  {
  }

  lemma SnapshotRuns(d: DB, tx: Tx)
    requires d.versions != [] && TxRuns(d.versions, tx) && !tx.writing
    requires tx.base.None? || tx.base.value == Latest(d)
    ensures TxRuns(d.versions, Snapshot(d, tx))
    ensures TxRuns(d.versions, Snapshot(d, tx).(writing := true))
  {
  }

  lemma PreparedRuns(d: DB, tx: Tx)
    requires d.versions != [] && TxRuns(d.versions, tx)
    ensures TxRuns(d.versions, Prepared(d, tx))
  {
    if !tx.writing && (tx.base.None? || tx.base.value == Latest(d)) {
      SnapshotRuns(d, tx);
    }
  }

  lemma WorkedRuns(d: DB, tx: Tx, input: Input)
    requires d.versions != [] && TxRuns(d.versions, tx) && tx.rest.Do?
    ensures TxRuns(d.versions, Worked(d, tx, input))
  {
    var ready, x := Prepared(d, tx), if Denied(d, tx) then input.(fail := true) else input;
    var e := tx.rest.effect;
    PreparedRuns(d, tx);
    forall s ensures RunOn(tx.body, s, tx.inputs + [x]) == Advance(RunOn(tx.body, s, tx.inputs), x) {
      RunAppend(tx.body, Local(s, [], []), tx.inputs, x, 0);
    }
    if ready.base.None? {
      forall s ensures RunOn(tx.body, s, tx.inputs + [x]) == Advance(Progress(ready.rest, ready.local.(view := s)), x) {
      }
      forall s { PerformIgnoresView(e, ready.local, s, x); }
    } else if !ready.writing && e.Sql? && !x.fail {
      SelectsChangeNothing(e.query, x.now, ready.local.view);
    }
  }

  /** What one effect changes of the record of its transaction. */
  lemma WorkedKeeps(d: DB, tx: Tx, input: Input)
    requires d.versions != []
    ensures var t := Worked(d, tx, input);
            && t.body == tx.body && t.pool == tx.pool && t.since == tx.since
            && |t.inputs| == |tx.inputs| + 1 && t.inputs[..|tx.inputs|] == tx.inputs
            && t.inputs[|tx.inputs|].now == input.now && t.inputs[|tx.inputs|].uuid == input.uuid
            && (t.writing ==> tx.writing || Updates(tx))
  {
  }

  lemma TxRunsGrows(versions: seq<Store>, t: Store, tx: Tx)
    requires TxRuns(versions, tx) && !tx.writing
    ensures TxRuns(versions + [t], tx)
  {
  }

  lemma EndRunsGrows(versions: seq<Store>, t: Store, log: seq<Entry>, entry: Entry, id: nat, e: End)
    requires EndRuns(versions, log, id, e)
    ensures EndRuns(versions + [t], log + [entry], id, e)
  {
  }

  /** The ways to end without a new version: the body's own end, a failing commit, or a failing begin. */
  predicate EndsWith(tx: Tx, result: Outcome) {
    || (tx.rest == Done(result) && (result.Ok? ==> !tx.writing))
    || (result == Err(Fault) && tx.rest.Done? && tx.rest.outcome.Ok?)
    || (result == Err(Fault) && tx.base.None? && tx.inputs == [])
  }

  lemma EndOfRun(versions: seq<Store>, log: seq<Entry>, id: nat, tx: Tx, result: Outcome)
    requires TxRuns(versions, tx) && EndsWith(tx, result)
    ensures EndRuns(versions, log, id, End(tx.body, tx.inputs, tx.since, tx.base, result, None))
  {
  }

  lemma FinishIsValid(d: DB, id: nat, result: Outcome)
    requires Valid(d) && id in d.active && EndsWith(d.active[id], result)
    ensures Valid(Finish(d, id, result, None))
  {
    var d', tx := Finish(d, id, result, None), d.active[id];
    EndOfRun(d.versions, d.log, id, tx, result);
    hide EndsAs, EndsWith;
    forall i | i in d'.active ensures TxRuns(d'.versions, d'.active[i]) && Locks(d', i) && i !in d'.ended {
      assert i in d.active && TxRuns(d.versions, d.active[i]) && Locks(d, i);
    }
    forall i | 0 <= i < |d'.log| ensures d'.log[i].id in d'.ended && d'.ended[d'.log[i].id].version == Some(i) {
      assert d.log[i].id in d.ended;
    }
  }

  lemma CommitIsValid(d: DB, id: nat)
    requires Valid(d) && Enabled(d, Commit(id, true)) && d.active[id].writing
    ensures Valid(Next(d, Commit(id, true)))
  {
    var d', tx := Next(d, Commit(id, true)), d.active[id];
    var t, entry := tx.local.view, Entry(id, tx.body, tx.inputs);
    assert TxRuns(d.versions, tx) && Locks(d, id);
    assert Replays(entry, d.versions[Latest(d)], t);
    forall i | 0 <= i < |d'.log| ensures Replays(d'.log[i], d'.versions[i], d'.versions[i + 1]) {
      if i < |d.log| {
        assert Replays(d.log[i], d.versions[i], d.versions[i + 1]);
      }
    }
    forall i | i in d'.active ensures TxRuns(d'.versions, d'.active[i]) && Locks(d', i) && i !in d'.ended {
      assert i in d.active && TxRuns(d.versions, d.active[i]) && Locks(d, i);
      TxRunsGrows(d.versions, t, d.active[i]);
    }
    forall i | i in d'.ended ensures EndRuns(d'.versions, d'.log, i, d'.ended[i]) {
      if i != id {
        EndRunsGrows(d.versions, t, d.log, entry, i, d.ended[i]);
      }
    }
    forall i | 0 <= i < |d'.log| ensures d'.log[i].id in d'.ended && d'.ended[d'.log[i].id].version == Some(i) {
      if i < |d.log| {
        assert d.log[i].id in d.ended && d.log[i].id != id;
      }
    }
  }

  lemma WorkIsValid(d: DB, id: nat, input: Input)
    requires Valid(d) && Enabled(d, Work(id, input))
    ensures Valid(Next(d, Work(id, input)))
  {
    var d' := Next(d, Work(id, input));
    assert TxRuns(d.versions, d.active[id]) && Locks(d, id);
    WorkedRuns(d, d.active[id], input);
    forall i | i in d'.active ensures TxRuns(d'.versions, d'.active[i]) && Locks(d', i) && i !in d'.ended {
      assert i in d.active && TxRuns(d.versions, d.active[i]) && Locks(d, i);
    }
  }

  lemma BeginIsValid(d: DB, e: Event)
    requires Valid(d) && Enabled(d, e) && (e.Open? || e.BeginImmediate?)
    ensures Valid(Next(d, e))
  {
    var d' := Next(d, e);
    if e.BeginImmediate? {
      assert TxRuns(d.versions, d.active[e.id]) && Locks(d, e.id);
      SnapshotRuns(d, d.active[e.id]);
    }
    forall i | i in d'.active ensures TxRuns(d'.versions, d'.active[i]) && Locks(d', i) && i !in d'.ended {
      assert i != e.id ==> i in d.active && TxRuns(d.versions, d.active[i]) && Locks(d, i);
    }
  }

  lemma NextIsValid(d: DB, e: Event)
    requires Valid(d) && Enabled(d, e)
    ensures Valid(Next(d, e))
  {
    match e
    case Open(_, _, _) => BeginIsValid(d, e);
    case BeginImmediate(_) => BeginIsValid(d, e);
    case BeginFails(id) => FinishIsValid(d, id, Err(Fault));
    case Work(id, input) => WorkIsValid(d, id, input);
    case Commit(id, ok) =>
      if ok && d.active[id].writing {
        CommitIsValid(d, id);
      } else {
        FinishIsValid(d, id, if ok then d.active[id].rest.outcome else Err(Fault));
      }
    case Rollback(id) => FinishIsValid(d, id, d.active[id].rest.outcome);
    case Crash =>
  }

  /** Versions, log and answers only grow. */
  lemma NextGrows(d: DB, e: Event)
    requires Valid(d) && Enabled(d, e)
    ensures d.versions <= Next(d, e).versions && d.log <= Next(d, e).log
    ensures forall id :: id in d.ended ==> id in Next(d, e).ended && Next(d, e).ended[id] == d.ended[id]
  {
    hide LogReplays, TxRuns, Locks, EndRuns, Worked, Snapshot, CanUpgrade;
  }

  // ---- Serialisability

  ghost predicate Behaviour(ds: seq<DB>, es: seq<Event>, s: Store) {
    && |ds| == |es| + 1
    && ds[0] == Init(s)
    && forall i {:trigger es[i]} :: 0 <= i < |es| ==> Enabled(ds[i], es[i]) && ds[i + 1] == Next(ds[i], es[i])
  }

  lemma {:induction false} BehaviourIsValid(ds: seq<DB>, es: seq<Event>, s: Store, n: nat)
    requires Behaviour(ds, es, s) && n < |ds|
    ensures Valid(ds[n]) && ds[n].versions[0] == s
  {
    if n == 0 {
    } else {
      var m := n - 1;
      BehaviourIsValid(ds, es, s, m);
      assert Enabled(ds[m], es[m]) && ds[m + 1] == Next(ds[m], es[m]);
      NextIsValid(ds[m], es[m]);
    }
  }

  /** The committed writers run one after the other, alone, in commit order. */
  function Serial(log: seq<Entry>, n: nat, s: Store): Store
    requires n <= |log|
  {
    if n == 0 then s else RunOn(log[n - 1].body, Serial(log, n - 1, s), log[n - 1].inputs).local.view
  }

  lemma {:induction false} VersionsAreSerial(d: DB, n: nat)
    requires LogReplays(d) && n <= |d.log|
    ensures d.versions[n] == Serial(d.log, n, d.versions[0])
  {
    if n == 0 {
    } else {
      VersionsAreSerial(d, n - 1);
      assert Replays(d.log[n - 1], d.versions[n - 1], d.versions[n]);
    }
  }

  /** The serial store a finished transaction answered on: its place in the log for a writer, its snapshot for a
      reader, and for one that read nothing the store current at its start. */
  function Place(e: End): nat { if e.base.Some? then e.base.value else e.since }

  /** Serialisability. In every interleaving the committed store is the one-at-a-time run of the committed writers in
      commit order. Every finished transaction, successful or not, answered what its body answers alone on the serial
      store of one point between its start and its end, or a fault because it could not begin or its success not
      commit. */
  lemma Serialisable(ds: seq<DB>, es: seq<Event>, s: Store, n: nat)
    requires Behaviour(ds, es, s) && n < |ds|
    ensures var d := ds[n];
            && |d.versions| == |d.log| + 1
            && (forall i :: 0 <= i <= |d.log| ==> d.versions[i] == Serial(d.log, i, s))
            && (forall id :: id in d.ended ==>
                  var e := d.ended[id];
                  && e.since <= Place(e) <= |d.log|
                  && EndsAs(Serial(d.log, Place(e), s), e)
                  && (e.version.Some? ==>
                        && e.version == Some(Place(e)) && e.result.Ok?
                        && Place(e) < |d.log| && d.log[Place(e)] == Entry(id, e.body, e.inputs)))
  {
    var d := ds[n];
    BehaviourIsValid(ds, es, s, n);
    forall i | 0 <= i <= |d.log| ensures d.versions[i] == Serial(d.log, i, s) {
      VersionsAreSerial(d, i);
    }
    hide EndsAs, TxRuns, Locks, Replays;
    forall id | id in d.ended ensures EndRuns(d.versions, d.log, id, d.ended[id]) {
    }
  }

  /** A transaction of the write pool never meets the stale-snapshot error: once it began, it holds the lock. */
  lemma WritePoolIsNeverDenied(ds: seq<DB>, es: seq<Event>, s: Store, n: nat, id: nat)
    requires Behaviour(ds, es, s) && n < |ds|
    requires id in ds[n].active && ds[n].active[id].pool.Write? && ds[n].active[id].base.Some?
    ensures !Denied(ds[n], ds[n].active[id])
  {
    BehaviourIsValid(ds, es, s, n);
    assert Locks(ds[n], id);
  }
}
