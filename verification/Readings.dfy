/** The clock readings a call draws: values of the one clock between the call's start and now, in order. */
module Readings {
  import opened Datastore
  import opened Effects
  import opened Operations
  import opened System
  import S = Storage

  /** Readings taken one after the other between two moments. */
  ghost predicate Taken(inputs: seq<Input>, start: int, end: int) {
    && start <= end
    && (forall i :: 0 <= i < |inputs| ==> start <= inputs[i].now <= end)
    && (forall i, j :: 0 <= i <= j < |inputs| ==> inputs[i].now <= inputs[j].now)
  }

  ghost predicate TakenBy(s: State, id: nat, inputs: seq<Input>) {
    id in s.calls.started && Taken(inputs, s.calls.started[id], s.clock)
  }

  ghost predicate ReadingsHold(s: State) {
    && (forall id :: id in s.db.active ==> TakenBy(s, id, s.db.active[id].inputs))
    && (forall id :: id in s.db.ended ==> TakenBy(s, id, s.db.ended[id].inputs))
  }

  lemma DatabaseReads(s: State, e: S.Event)
    requires ReadingsHold(s) && S.Enabled(s.db, e) && !e.Open?
    requires e.Work? ==> e.input.now == s.clock
    ensures ReadingsHold(s.(db := S.Next(s.db, e)))
  {
    var t := s.(db := S.Next(s.db, e));
    if e.Work? {
      assert TakenBy(s, e.id, s.db.active[e.id].inputs);
      S.WorkedKeeps(s.db, s.db.active[e.id], e.input);
      assert TakenBy(t, e.id, t.db.active[e.id].inputs);
    }
    hide Taken, S.Worked, S.Snapshot;
  }

  lemma NothingTaken(clock: int)
    ensures Taken([], clock, clock)
  {
  }

  lemma TickReads(s: State, now: int)
    requires ReadingsHold(s) && now >= s.clock
    ensures ReadingsHold(s.(clock := now))
  {
  }

  lemma CallReads(u: Setup, s: State, id: nat, op: Op, onBehalf: Option<string>)
    requires Grounded(u, s) && ReadingsHold(s) && Enabled(u, s, Call(id, op, onBehalf))
    ensures ReadingsHold(OnCall(u, s, id, op, onBehalf))
  {
    hide Grounded, Taken, OnCall, Enabled;
    CallShape(u, s, id, op, onBehalf);
    CallIdIsNew(u, s, id);
    NothingTaken(s.clock);
  }

  lemma NextReads(u: Setup, s: State, e: Event)
    requires Grounded(u, s) && ReadingsHold(s) && Enabled(u, s, e)
    ensures ReadingsHold(Next(u, s, e))
  {
    hide Grounded, S.Next, Taken;
    match e
    case Tick(now) => TickReads(s, now);
    case Call(id, op, onBehalf) => CallReads(u, s, id, op, onBehalf);
    case Database(event) => DatabaseReads(s, event);
    case _ =>
  }

  lemma {:induction false} EveryStateReads(u: Setup, ss: seq<State>, es: seq<Event>, n: nat)
    requires Execution(u, ss, es) && n < |ss|
    ensures ReadingsHold(ss[n])
  {
    if n == 0 {
    } else {
      var m := n - 1;
      EveryStateReads(u, ss, es, m);
      EveryStateIsGrounded(u, ss, es, m);
      assert Enabled(u, ss[m], es[m]) && ss[m + 1] == Next(u, ss[m], es[m]);
      NextReads(u, ss[m], es[m]);
    }
  }
}
