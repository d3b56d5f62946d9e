/** Two calls on one token, side by side: the price of updating through the read pool. */
module Contention {
  import opened Datastore
  import opened Argon2id
  import opened Effects
  import opened Operations
  import S = Storage

  /** A failed statement is all that a denied update gets, and it takes no lock. */
  lemma DeniedUpdateFails(d: S.DB, id: nat, x: Input)
    requires S.Enabled(d, S.Work(id, x)) && S.Denied(d, d.active[id])
    ensures var t := S.Next(d, S.Work(id, x));
            && t.active[id].rest == d.active[id].rest.andThen(Failed)
            && t.active[id].local == d.active[id].local && !t.active[id].writing
  {
  }

  /** Once a transaction that has read saw another one upgrade, its own update is denied, while the other holds the
      lock and after it committed. */
  lemma OverlapIsDenied(d: S.DB, a: nat, b: nat, x: Input)
    requires S.Valid(d) && d.writer.None? && a != b && a in d.active && b in d.active
    requires S.Updates(d.active[a]) && d.active[a].base == Some(S.Latest(d))
    requires S.Updates(d.active[b]) && d.active[b].base.Some?
    ensures S.Enabled(d, S.Work(a, x))
    ensures var e := S.Next(d, S.Work(a, x));
            && S.Denied(e, e.active[b])
            && (S.Enabled(e, S.Commit(a, true)) ==>
                  var f := S.Next(e, S.Commit(a, true)); S.Denied(f, f.active[b]))
  {
    assert S.Locks(d, a) && S.Locks(d, b) && S.TxRuns(d.versions, d.active[a]) && S.TxRuns(d.versions, d.active[b]);
    hide S.Valid, S.TxRuns;
    S.WorkedKeeps(d, d.active[a], x);
  }

  /** A validation reads the clock and the token on a snapshot of the latest version, and then asks for its update. */
  lemma ValidationReads(argon: Argon2idHash, d: S.DB, id: nat, token: string, x: Input) returns (c: S.DB, e: S.DB)
    requires d.versions != [] && id in d.active && !x.fail
    requires var p := Program(argon, ValidateSignupToken(token));
             d.active[id] == S.Tx(Read, p, 0, None, false, p, Local(EMPTY, [], []), [])
    requires Redeemable(d.versions[S.Latest(d)], SIGNUP, token, x.now)
    ensures S.Enabled(d, S.Work(id, x)) && c == S.Next(d, S.Work(id, x))
    ensures S.Enabled(c, S.Work(id, x)) && e == S.Next(c, S.Work(id, x))
    ensures id in e.active && S.Updates(e.active[id]) && e.active[id].base == Some(S.Latest(d)) && !e.active[id].writing
    ensures e == d.(active := d.active[id := e.active[id]])
    ensures e.active[id].pool == d.active[id].pool && e.active[id].body == d.active[id].body
    ensures e.active[id].rest == Verify(d.versions[S.Latest(d)].tokens[token].email)
  {
    c := S.Next(d, S.Work(id, x));
    assert c == d.(active := d.active[id := c.active[id]]);
    e := S.Next(c, S.Work(id, x));
  }

  lemma OneMore(ds: seq<S.DB>, es: seq<S.Event>, s: Store, e: S.Event) returns (more: seq<S.DB>, steps: seq<S.Event>)
    requires ds != [] && S.Behaviour(ds, es, s) && S.Enabled(ds[|ds| - 1], e)
    ensures more == ds + [S.Next(ds[|ds| - 1], e)] && steps == es + [e] && S.Behaviour(more, steps, s)
  {
    hide S.Enabled, S.Next;
    more, steps := ds + [S.Next(ds[|ds| - 1], e)], es + [e];
    forall i {:trigger steps[i]} | 0 <= i < |steps|
      ensures S.Enabled(more[i], steps[i]) && more[i + 1] == S.Next(more[i], steps[i])
    {
      if i < |es| {
        assert steps[i] == es[i] && more[i] == ds[i] && more[i + 1] == ds[i + 1];
      }
    }
  }

  lemma TwoOpen(s: Store, p: Body) returns (ds: seq<S.DB>, es: seq<S.Event>)
    ensures ds != [] && es == [S.Open(0, Read, p), S.Open(1, Read, p)] && S.Behaviour(ds, es, s)
    ensures var d, tx := ds[|ds| - 1], S.Tx(Read, p, 0, None, false, p, Local(EMPTY, [], []), []);
            d.versions == [s] && d.writer == None && d.active == map[0 := tx, 1 := tx]
  {
    var d := S.Init(s);
    ds, es := OneMore([d], [], s, S.Open(0, Read, p));
    ds, es := OneMore(ds, es, s, S.Open(1, Read, p));
  }

  lemma SameCall(d: S.DB, x: Input)
    requires S.Enabled(d, S.Work(0, x)) && 1 in d.active && S.Updates(d.active[1]) && d.active[1].pool.Read?
    ensures var e := S.Next(d, S.Work(0, x));
            1 in e.active && e.active[1] == d.active[1] && S.Enabled(e, S.Work(1, x))
  {
  }

  /** The denied update ends the validation in a fault, which rolls it back. */
  lemma DeniedValidationFaults(d: S.DB, id: nat, email: string, x: Input) returns (c: S.DB, e: S.DB)
    requires S.Enabled(d, S.Work(id, x)) && S.Denied(d, d.active[id]) && d.active[id].rest == Verify(email)
    ensures c == S.Next(d, S.Work(id, x)) && S.Enabled(c, S.Rollback(id)) && e == S.Next(c, S.Rollback(id))
    ensures id in e.ended && e.ended[id].result == Err(Fault) && e.ended[id].body == d.active[id].body
    ensures e.versions == d.versions && e.log == d.log
  {
    DeniedUpdateFails(d, id, x);
    c := S.Next(d, S.Work(id, x));
    assert c.active[id].rest == Done(Err(Fault)) && c.active[id].body == d.active[id].body;
    e := S.Next(c, S.Rollback(id));
  }

  /** The run up to the denied update. */
  function Steps(p: Body, x: Input): seq<S.Event> {
    [S.Open(0, Read, p), S.Open(1, Read, p), S.Work(0, x), S.Work(0, x), S.Work(1, x), S.Work(1, x), S.Work(0, x)]
  }

  lemma StepsSoFar(p: Body, x: Input)
    ensures [S.Open(0, Read, p), S.Open(1, Read, p)]
            + [S.Work(0, x)] + [S.Work(0, x)] + [S.Work(1, x)] + [S.Work(1, x)] + [S.Work(0, x)] == Steps(p, x)
  {
  }

  lemma ValidationsMeet(argon: Argon2idHash, s: Store, token: string, x: Input) returns (ds: seq<S.DB>)
    requires Redeemable(s, SIGNUP, token, x.now) && !x.fail
    ensures ds != [] && S.Behaviour(ds, Steps(Program(argon, ValidateSignupToken(token)), x), s)
    ensures var d := ds[|ds| - 1];
            && 1 in d.active && d.active[1].pool.Read? && d.active[1].body == Program(argon, ValidateSignupToken(token))
            && d.active[1].rest == Verify(s.tokens[token].email)
            && S.Enabled(d, S.Work(1, x)) && S.Denied(d, d.active[1])
  {
    assert token in s.tokens;
    hide Program, Redeemable, S.Behaviour, S.Next, S.Enabled, S.Denied, S.Updates, S.Valid, Verify, Steps;
    var p := Program(argon, ValidateSignupToken(token));
    var es;
    ds, es := TwoOpen(s, p);
    var d1, d2 := ValidationReads(argon, ds[|ds| - 1], 0, token, x);
    var d3, d4 := ValidationReads(argon, d2, 1, token, x);
    ds, es := OneMore(ds, es, s, S.Work(0, x));
    ds, es := OneMore(ds, es, s, S.Work(0, x));
    ds, es := OneMore(ds, es, s, S.Work(1, x));
    ds, es := OneMore(ds, es, s, S.Work(1, x));
    S.BehaviourIsValid(ds, es, s, |ds| - 1);
    OverlapIsDenied(d4, 0, 1, x);
    ds, es := OneMore(ds, es, s, S.Work(0, x));
    SameCall(d4, x);
    StepsSoFar(p, x);
  }

  /** On any store that accepts a sign-up token, two overlapping validations of it can meet: both read, the first
      updates, and the second, a transaction of the read pool, is denied and ends in an error although nothing failed
      by itself. */
  lemma OverlappingValidationIsDenied(argon: Argon2idHash, s: Store, token: string, now: int)
    returns (ds: seq<S.DB>, x: Input)
    requires Redeemable(s, SIGNUP, token, now)
    ensures !x.fail && |ds| > 2
    ensures var p := Program(argon, ValidateSignupToken(token));
            && S.Behaviour(ds, Steps(p, x) + [S.Work(1, x)] + [S.Rollback(1)], s)
            && var d, e := ds[|ds| - 3], ds[|ds| - 1];
               && 1 in d.active && d.active[1].pool.Read? && d.active[1].body == p && S.Denied(d, d.active[1])
               && 1 in e.ended && e.ended[1].body == p && e.ended[1].result == Err(Fault)
  {
    assert token in s.tokens;
    hide Program, Redeemable, S.Behaviour, S.Next, S.Enabled, S.Denied, Verify, Steps;
    x := Input(false, now, "", (i: nat) => 0);
    var p := Program(argon, ValidateSignupToken(token));
    ds := ValidationsMeet(argon, s, token, x);
    var es := Steps(p, x);
    var c, e := DeniedValidationFaults(ds[|ds| - 1], 1, s.tokens[token].email, x);
    ds, es := OneMore(ds, es, s, S.Work(1, x));
    ds, es := OneMore(ds, es, s, S.Rollback(1));
  }
}
