/** What a worker does in a few steps: take a domain, sleep in an engine, wake and send, run a
    domain and put it back.  The place of the divider and the stamp are left open. */
module WakeupMoves {
  import opened Wakeup
  import opened WakeupRuns
  import opened Seqs

  /** The state with the divider there. */
  function With(st: State, a: nat, stamp: nat): State {
    st.(divider := Behind(a), stamp := stamp)
  }

  /** This state is reached, with the divider somewhere in the queue. */
  ghost predicate Comes(from: State, st: State) {
    exists a: nat, stamp: nat :: a <= |st.queue| && Reaches(from, With(st, a, stamp))
  }

  lemma ComesHere(st: State)
    requires st.divider == Behind(0)
    ensures Comes(st, st)
  {
    Here(st);
    assert With(st, 0, st.stamp) == st;
  }

  predicate Gets(step: Step) {
    step.Take? || step.Lift? || step.PutBack? || step.Read? || step.SeeEnd? || step.Leave?
  }

  lemma SameElsewhere(st: State, a: nat, stamp: nat, t: Tid, step: Step)
    requires Enabled(st, t, step) && !Gets(step)
    ensures Enabled(With(st, a, stamp), t, step)
    ensures Next(With(st, a, stamp), t, step) == With(Next(st, t, step), a, stamp)
    ensures |Next(st, t, step).queue| >= |st.queue|
  {
  }

  /** One step that has nothing to do with the divider. */
  lemma Go(from: State, st: State, t: Tid, step: Step, st': State)
    requires Comes(from, st) && Enabled(st, t, step) && !Gets(step) && With(st', 0, 0) == With(Next(st, t, step), 0, 0)
    ensures Comes(from, st')
  {
    var a: nat, stamp: nat :| a <= |st.queue| && Reaches(from, With(st, a, stamp));
    SameElsewhere(st, a, stamp, t, step);
    hide Next, Enabled, Reaches;
    assert With(With(st', 0, 0), a, stamp) == With(With(Next(st, t, step), 0, 0), a, stamp);
    Then(from, With(st, a, stamp), t, step, With(st', a, stamp));
  }

  /** The divider is not at the end. */
  ghost predicate ComesShort(from: State, st: State) {
    exists a: nat, stamp: nat :: a < |st.queue| && Reaches(from, With(st, a, stamp))
  }

  /** A step that makes the run queue longer. */
  lemma GoLonger(from: State, st: State, t: Tid, step: Step, st': State)
    requires Comes(from, st) && Enabled(st, t, step) && !Gets(step) && With(st', 0, 0) == With(Next(st, t, step), 0, 0)
    requires |st'.queue| > |st.queue|
    ensures ComesShort(from, st')
  {
    var a: nat, stamp: nat :| a <= |st.queue| && Reaches(from, With(st, a, stamp));
    SameElsewhere(st, a, stamp, t, step);
    hide Next, Enabled, Reaches;
    assert With(With(st', 0, 0), a, stamp) == With(With(Next(st, t, step), 0, 0), a, stamp);
    Then(from, With(st, a, stamp), t, step, With(st', a, stamp));
  }

  lemma ShortComes(from: State, st: State)
    requires ComesShort(from, st)
    ensures Comes(from, st)
  {
  }

  /** Thread t at pc, and domain g as d. */
  function Put(st: State, t: Tid, g: Gid, pc: Pc, d: Dom): State
    requires t < |st.threads| && g < |st.doms|
  {
    st.(threads := st.threads[t := Thread(pc, Nothing)], doms := st.doms[g := d])
  }

  lemma PutTwice(st: State, t: Tid, g: Gid, pc: Pc, d: Dom, pc': Pc, d': Dom)
    requires t < |st.threads| && g < |st.doms|
    ensures Put(Put(st, t, g, pc, d), t, g, pc', d') == Put(st, t, g, pc', d')
  {
    assert st.threads[t := Thread(pc, Nothing)][t := Thread(pc', Nothing)] == st.threads[t := Thread(pc', Nothing)];
    assert st.doms[g := d][g := d'] == st.doms[g := d'];
  }

  /** A worker that is free, and a domain in front of it. */
  predicate Facing(st: State, t: Tid) {
    t < |st.threads| && st.threads[t] == Thread(Idle, Nothing) && st.queue != [] && st.queue[0] < |st.doms|
  }

  function TakenBy(st: State, t: Tid): State
    requires Facing(st, t)
  {
    var g := st.queue[0];
    Put(st.(queue := st.queue[1..]), t, g, Took(g), st.doms[g].(place := Held(t)))
  }

  lemma TakeNow(st: State, t: Tid, a: nat, stamp: nat)
    requires Facing(st, t) && 0 < a <= |st.queue|
    ensures var now := With(st, a, stamp); Enabled(now, t, Take) && Next(now, t, Take) == With(TakenBy(st, t), a - 1, stamp + 1)
  {
  }

  lemma DividerAside(from: State, st: State, t: Tid, stamp: nat)
    requires Facing(st, t) && Reaches(from, With(st, 0, stamp))
    ensures Reaches(from, With(st, |st.queue|, stamp + 1))
  {
    hide Reaches;
    var lifting := st.(divider := Away, stamp := stamp + 1, threads := st.threads[t := Thread(Lifting, Nothing)]);
    Then(from, With(st, 0, stamp), t, Lift, lifting);
    assert lifting.threads[t := Thread(Idle, Nothing)] == st.threads;
    Then(from, lifting, t, PutBack, With(st, |st.queue|, stamp + 1));
  }

  /** A free worker sees to it that a domain comes first. */
  lemma DividerLater(from: State, st: State, t: Tid) returns (a: nat, stamp: nat)
    requires Comes(from, st) && Facing(st, t)
    ensures 0 < a <= |st.queue| && Reaches(from, With(st, a, stamp))
  {
    a, stamp :| a <= |st.queue| && Reaches(from, With(st, a, stamp));
    if a == 0 {
      DividerAside(from, st, t, stamp);
      a, stamp := |st.queue|, stamp + 1;
    }
  }

  /** A free worker takes the first domain, moving the divider out of the way if need be. */
  lemma Takes(from: State, st: State, t: Tid)
    requires Comes(from, st) && Facing(st, t)
    ensures Comes(from, TakenBy(st, t))
  {
    var a, stamp := DividerLater(from, st, t);
    TakeNow(st, t, a, stamp);
    hide Reaches, Next, Enabled;
    Then(from, With(st, a, stamp), t, Take, With(TakenBy(st, t), a - 1, stamp + 1));
  }

  predicate Inside(step: Step) {
    step.Poison? || step.Splice? || step.StartFlush? || step.EndFlush? || step.Block? || step.Wake? || step.Consume?
  }

  lemma InsideStep(st: State, t: Tid, step: Step)
    requires Enabled(st, t, step) && Inside(step) && st.threads[t].owed == Nothing
    ensures var st' := Next(st, t, step); var g := st.threads[t].pc.gid;
            st' == Put(st, t, g, st'.threads[t].pc, st'.doms[g])
  {
    var st', g := Next(st, t, step), st.threads[t].pc.gid;
    assert st'.threads == Put(st, t, g, st'.threads[t].pc, st'.doms[g]).threads;
    assert st'.doms == Put(st, t, g, st'.threads[t].pc, st'.doms[g]).doms;
  }

  /** One step of a worker inside its domain. */
  lemma Goes(from: State, st: State, t: Tid, g: Gid, pc: Pc, d: Dom, step: Step, pc': Pc, d': Dom)
    requires t < |st.threads| && g < |st.doms| && Holds(pc) && pc.gid == g && Inside(step)
    requires Enabled(Put(st, t, g, pc, d), t, step) && Comes(from, Put(st, t, g, pc, d))
    requires Next(Put(st, t, g, pc, d), t, step).threads[t].pc == pc' && Next(Put(st, t, g, pc, d), t, step).doms[g] == d'
    ensures Comes(from, Put(st, t, g, pc', d'))
  {
    InsideStep(Put(st, t, g, pc, d), t, step);
    PutTwice(st, t, g, pc, d, pc', d');
    hide Next, Enabled, Comes, Put;
    Go(from, Put(st, t, g, pc, d), t, step, Put(st, t, g, pc', d'));
  }

  /** An enqueued engine, and one that worker t has. */
  const IDLE_ENGINE: Dom := Dom(false, [], [], 0, 1, true, Queued)

  function EngineOf(t: Tid): Dom {
    Dom(true, [], [], 0, 1, true, Held(t))
  }

  // Running a domain

  /** Domain d as worker t has it once it is marked. */
  function OnceTaken(d: Dom, t: Tid): Dom {
    d.(poison := true, place := Held(t))
  }

  predicate NoMail(d: Dom) {
    !d.poison && d.remote == [] && d.local == []
  }

  /** The run queue without its first domain, which worker t runs at pc. */
  function Running(st: State, t: Tid, pc: Pc): State
    requires Facing(st, t)
  {
    Put(st.(queue := st.queue[1..]), t, st.queue[0], pc, OnceTaken(st.doms[st.queue[0]], t))
  }

  /** A free worker takes a domain, as far as its first run. */
  lemma Begins(from: State, st: State, t: Tid)
    requires Comes(from, st) && Facing(st, t) && !st.doms[st.queue[0]].poison
    ensures var g := st.queue[0]; var d := OnceTaken(st.doms[g], t);
            Comes(from, Put(st.(queue := st.queue[1..]), t, g, Run1(g), d.(local := d.local + d.remote, remote := [])))
  {
    var g := st.queue[0];
    Takes(from, st, t);
    hide Comes;
    Marks(from, st.(queue := st.queue[1..]), t, g, OnceTaken(st.doms[g], t));
  }

  lemma Marks(from: State, st: State, t: Tid, g: Gid, d: Dom)
    requires t < |st.threads| && g < |st.doms| && d.poison && Comes(from, Put(st, t, g, Took(g), d.(poison := false)))
    ensures Comes(from, Put(st, t, g, Run1(g), d.(local := d.local + d.remote, remote := [])))
  {
    hide Comes;
    Goes(from, st, t, g, Took(g), d.(poison := false), Poison, Fresh(g), d);
    Goes(from, st, t, g, Fresh(g), d, Splice, Run1(g), d.(local := d.local + d.remote, remote := []));
  }

  lemma Starts(from: State, st: State, t: Tid)
    requires Comes(from, st) && Facing(st, t) && NoMail(st.doms[st.queue[0]])
    ensures Comes(from, Running(st, t, Run1(st.queue[0])))
  {
    var d := OnceTaken(st.doms[st.queue[0]], t);
    assert d.(local := d.local + d.remote, remote := []) == d;
    Begins(from, st, t);
  }

  /** As far as the flush at its end. */
  lemma ComesToFlush(from: State, st: State, t: Tid)
    requires Comes(from, st) && Facing(st, t) && NoMail(st.doms[st.queue[0]])
    ensures Comes(from, Running(st, t, Flush(st.queue[0], false, 0, 0)))
  {
    var g := st.queue[0];
    Starts(from, st, t);
    hide Comes;
    Goes(from, st.(queue := st.queue[1..]), t, g, Run1(g), OnceTaken(st.doms[g], t), StartFlush, Flush(g, false, 0, 0), OnceTaken(st.doms[g], t));
  }

  // Falling asleep

  function AsleepBy(st: State, t: Tid): State
    requires Facing(st, t)
  {
    Put(st.(queue := st.queue[1..]), t, st.queue[0], Blocked(st.queue[0], 0), EngineOf(t))
  }

  /** A free worker takes an engine without mail and comes to sleep in it. */
  lemma Sleeps(from: State, st: State, t: Tid)
    requires Comes(from, st) && Facing(st, t) && st.doms[st.queue[0]] == IDLE_ENGINE
    ensures Comes(from, AsleepBy(st, t))
  {
    ComesToFlush(from, st, t);
    hide Comes;
    SleepsThere(from, st.(queue := st.queue[1..]), t, st.queue[0]);
  }

  lemma SleepsThere(from: State, st: State, t: Tid, g: Gid)
    requires t < |st.threads| && g < |st.doms| && Comes(from, Put(st, t, g, Flush(g, false, 0, 0), EngineOf(t)))
    ensures Comes(from, Put(st, t, g, Blocked(g, 0), EngineOf(t)))
  {
    hide Comes;
    var d := EngineOf(t);
    assert d.local + d.remote == [];
    Goes(from, st, t, g, Flush(g, false, 0, 0), d, EndFlush, Ready(g, 0), d);
    Goes(from, st, t, g, Ready(g, 0), d, Splice, Run2(g, 0), d);
    Goes(from, st, t, g, Run2(g, 0), d, Block, Blocked(g, 0), d);
  }

  // Sending

  /** Domain d when mail for it has come, and its pipe was written to if it is not enqueued. */
  function Mailed(d: Dom, m: Msg): Dom {
    d.(remote := d.remote + [m], pipe := if d.poison then Min(d.pipe + 1, PIPE_CAPACITY) else d.pipe)
  }

  function WithMail(st: State, x: Gid, m: Msg): State
    requires x < |st.doms|
  {
    st.(doms := st.doms[x := Mailed(st.doms[x], m)])
  }

  /** Appending, looking and, if need be, writing to the pipe. */
  lemma SendsTo(from: State, st: State, t: Tid, x: Gid, m: Msg, pc': Pc)
    requires t < |st.threads| && x < |st.doms| && Comes(from, st) && st.threads[t].owed == Nothing && Enabled(st, t, Append(x, [m]))
    requires pc' == if st.threads[t].pc.Flush? then st.threads[t].pc.(served := st.threads[t].pc.served + 1) else st.threads[t].pc
    ensures Comes(from, WithMail(st, x, m).(threads := st.threads[t := Thread(pc', Nothing)]))
  {
    hide Comes;
    var d := st.doms[x].(remote := st.doms[x].remote + [m]);
    var appended := st.(doms := st.doms[x := d], threads := st.threads[t := Thread(pc', Check(x))]);
    AppendStep(st, t, x, m, pc');
    Go(from, st, t, Append(x, [m]), appended);
    if d.poison {
      var looked := appended.(threads := st.threads[t := Thread(pc', Write(x))]);
      assert appended.threads[t := Thread(pc', Write(x))] == looked.threads;
      Go(from, appended, t, Look, looked);
      PokeStep(looked, t, x, st.doms, m);
      Go(from, looked, t, Poke, WithMail(st, x, m).(threads := st.threads[t := Thread(pc', Nothing)]));
    } else {
      assert appended.threads[t := Thread(pc', Nothing)] == st.threads[t := Thread(pc', Nothing)];
      Go(from, appended, t, Look, WithMail(st, x, m).(threads := st.threads[t := Thread(pc', Nothing)]));
    }
  }

  lemma AppendStep(st: State, t: Tid, x: Gid, m: Msg, pc': Pc)
    requires Enabled(st, t, Append(x, [m])) && st.threads[t].owed == Nothing
    requires pc' == if st.threads[t].pc.Flush? then st.threads[t].pc.(served := st.threads[t].pc.served + 1) else st.threads[t].pc
    ensures Next(st, t, Append(x, [m])) ==
            st.(doms := st.doms[x := st.doms[x].(remote := st.doms[x].remote + [m])], threads := st.threads[t := Thread(pc', Check(x))])
  {
    assert Next(st, t, Append(x, [m])).threads == st.threads[t := Thread(pc', Check(x))];
  }

  lemma PokeStep(st: State, t: Tid, x: Gid, doms: seq<Dom>, m: Msg)
    requires t < |st.threads| && x < |doms| && st.threads[t].owed == Write(x) && Enabled(st, t, Poke)
    requires st.doms == doms[x := doms[x].(remote := doms[x].remote + [m])] && doms[x].poison
    ensures Next(st, t, Poke).doms == doms[x := Mailed(doms[x], m)]
    ensures Next(st, t, Poke).threads == st.threads[t := Thread(st.threads[t].pc, Nothing)]
    ensures Next(st, t, Poke).queue == st.queue && Next(st, t, Poke).divider == st.divider
  {
  }

  // Putting a domain back

  /** Worker t is free again, and domain g enqueued as d. */
  function Back(st: State, t: Tid, g: Gid, d: Dom): State
    requires t < |st.threads| && g < |st.doms|
  {
    Put(st, t, g, Idle, d).(queue := st.queue + [g])
  }

  lemma PutsBack(from: State, st: State, t: Tid, g: Gid, pc: Pc, d: Dom)
    requires t < |st.threads| && g < |st.doms| && pc.Flush? && pc.gid == g && d.alive && d.poison
    requires pc.left == 0 && (pc.second || pc.served > 0 || d.hungry == 0)
    requires Comes(from, Put(st, t, g, pc, d))
    ensures Comes(from, Back(st, t, g, d.(poison := false, place := Queued)))
    ensures ComesShort(from, Back(st, t, g, d.(poison := false, place := Queued)))
  {
    hide Comes, ComesShort;
    Goes(from, st, t, g, pc, d, EndFlush, Finished(g), d);
    ReturnStep(st, t, g, d);
    Go(from, Put(st, t, g, Finished(g), d), t, Return, Put(st, t, g, Putting(g), d.(poison := false)));
    LinkStep(st, t, g, d.(poison := false));
    GoLonger(from, Put(st, t, g, Putting(g), d.(poison := false)), t, LinkIn, Back(st, t, g, d.(poison := false, place := Queued)));
    ShortComes(from, Back(st, t, g, d.(poison := false, place := Queued)));
  }

  lemma ReturnStep(st: State, t: Tid, g: Gid, d: Dom)
    requires t < |st.threads| && g < |st.doms| && d.alive
    ensures var now := Put(st, t, g, Finished(g), d);
            Enabled(now, t, Return) && Next(now, t, Return) == Put(st, t, g, Putting(g), d.(poison := false))
  {
    PutTwice(st, t, g, Finished(g), d, Putting(g), d.(poison := false));
  }

  lemma LinkStep(st: State, t: Tid, g: Gid, d: Dom)
    requires t < |st.threads| && g < |st.doms|
    ensures var now := Put(st, t, g, Putting(g), d);
            Enabled(now, t, LinkIn) && Next(now, t, LinkIn) == Back(st, t, g, d.(place := Queued))
  {
    PutTwice(st, t, g, Putting(g), d, Idle, d.(place := Queued));
  }

  // A domain without hungry processes

  predicate Plain(d: Dom) {
    d == Dom(false, [], [], d.pipe, 0, true, Queued)
  }

  function Rotated(st: State): State
    requires st.queue != []
  {
    st.(queue := st.queue[1..] + [st.queue[0]])
  }

  /** A free worker takes a domain with nothing to do, and puts it back. */
  lemma Passes(from: State, st: State, t: Tid)
    requires Comes(from, st) && Facing(st, t) && Plain(st.doms[st.queue[0]])
    ensures Comes(from, Rotated(st))
  {
    var g := st.queue[0];
    var base := st.(queue := st.queue[1..]);
    ComesToFlush(from, st, t);
    hide Comes;
    PutsBack(from, base, t, g, Flush(g, false, 0, 0), OnceTaken(st.doms[g], t));
    assert base.threads[t := Thread(Idle, Nothing)] == st.threads;
    assert base.doms[g := OnceTaken(st.doms[g], t).(poison := false, place := Queued)] == st.doms;
  }

  /** All of xs, one after another. */
  lemma {:induction false} PassAll(from: State, st: State, t: Tid, xs: seq<Gid>, rest: seq<Gid>)
    requires Comes(from, st) && t < |st.threads| && st.threads[t] == Thread(Idle, Nothing) && st.queue == xs + rest
    requires forall i | 0 <= i < |xs| :: xs[i] < |st.doms| && Plain(st.doms[xs[i]])
    ensures Comes(from, st.(queue := rest + xs))
    decreases |xs|
  {
    hide Comes;
    if xs == [] {
      assert xs + rest == rest + xs;
      assert st.(queue := rest + xs) == st;
    } else {
      assert st.queue[0] == xs[0] && st.queue[1..] == xs[1..] + rest;
      Passes(from, st, t);
      var st' := Rotated(st);
      assert st'.queue == xs[1..] + (rest + [xs[0]]);
      PassAll(from, st', t, xs[1..], rest + [xs[0]]);
      assert (rest + [xs[0]]) + xs[1..] == rest + xs;
    }
  }

  // Several workers

  predicate Fit(st: State, ts: seq<Tid>, gs: seq<Gid>) {
    |ts| == |gs| && forall i | 0 <= i < |ts| :: ts[i] < |st.threads| && gs[i] < |st.doms|
  }

  /** Worker ts[i] asleep in engine gs[i]. */
  function AllAsleepBy(st: State, ts: seq<Tid>, gs: seq<Gid>): State
    requires Fit(st, ts, gs)
    decreases |ts|
  {
    if ts == [] then st
    else
      var st' := Put(st, ts[0], gs[0], Blocked(gs[0], 0), EngineOf(ts[0]));
      AllAsleepBy(if st.queue == [] then st' else st'.(queue := st.queue[1..]), ts[1..], gs[1..])
  }

  lemma {:induction false} SleepEach(from: State, st: State, ts: seq<Tid>, gs: seq<Gid>, rest: seq<Gid>)
    requires Fit(st, ts, gs) && NoDup(ts) && NoDup(gs) && st.queue == gs + rest && Comes(from, st)
    requires forall i | 0 <= i < |ts| :: st.threads[ts[i]] == Thread(Idle, Nothing) && st.doms[gs[i]] == IDLE_ENGINE
    ensures Comes(from, AllAsleepBy(st, ts, gs)) && AllAsleepBy(st, ts, gs).queue == rest
    decreases |ts|
  {
    hide Comes;
    if ts == [] {
      assert st.queue == rest;
    } else {
      assert st.queue[0] == gs[0] && st.queue[1..] == gs[1..] + rest;
      Sleeps(from, st, ts[0]);
      var st' := AsleepBy(st, ts[0]);
      forall i | 0 <= i < |ts| - 1
        ensures st'.threads[ts[1..][i]] == Thread(Idle, Nothing) && st'.doms[gs[1..][i]] == IDLE_ENGINE
      {
        assert ts[1..][i] == ts[i + 1] && gs[1..][i] == gs[i + 1];
      }
      SleepEach(from, st', ts[1..], gs[1..], rest);
    }
  }

  lemma {:induction false} AsleepFacts(st: State, ts: seq<Tid>, gs: seq<Gid>)
    requires NoDup(ts) && NoDup(gs) && Fit(st, ts, gs)
    ensures var st' := AllAsleepBy(st, ts, gs);
            && |st'.threads| == |st.threads| && |st'.doms| == |st.doms|
            && (forall i | 0 <= i < |ts| :: st'.threads[ts[i]] == Thread(Blocked(gs[i], 0), Nothing) && st'.doms[gs[i]] == EngineOf(ts[i]))
            && (forall t | 0 <= t < |st.threads| && t !in ts :: st'.threads[t] == st.threads[t])
            && (forall g | 0 <= g < |st.doms| && g !in gs :: st'.doms[g] == st.doms[g])
    decreases |ts|
  {
    if ts != [] {
      var put := Put(st, ts[0], gs[0], Blocked(gs[0], 0), EngineOf(ts[0]));
      var st' := if st.queue == [] then put else put.(queue := st.queue[1..]);
      var r := AllAsleepBy(st', ts[1..], gs[1..]);
      FirstOnly(ts);
      FirstOnly(gs);
      AsleepFacts(st', ts[1..], gs[1..]);
      hide NoDup, AllAsleepBy;
      forall i | 0 <= i < |ts| ensures r.threads[ts[i]] == Thread(Blocked(gs[i], 0), Nothing) && r.doms[gs[i]] == EngineOf(ts[i]) {
        assert i > 0 ==> ts[1..][i - 1] == ts[i] && gs[1..][i - 1] == gs[i];
      }
      AsleepUnfold(st, ts, gs, st');
    }
  }

  lemma AsleepUnfold(st: State, ts: seq<Tid>, gs: seq<Gid>, st': State)
    requires Fit(st, ts, gs) && ts != []
    requires var put := Put(st, ts[0], gs[0], Blocked(gs[0], 0), EngineOf(ts[0]));
             st' == if st.queue == [] then put else put.(queue := st.queue[1..])
    ensures Fit(st', ts[1..], gs[1..]) && AllAsleepBy(st, ts, gs) == AllAsleepBy(st', ts[1..], gs[1..])
  {
  }

  // Waking up

  /** A worker that sleeps in an engine wakes for an event, and the engine sends. */
  lemma WakesAndSends(from: State, st: State, t: Tid, g: Gid, x: Gid, m: Msg)
    requires Comes(from, st) && t < |st.threads| && g < |st.doms| && x < |st.doms| && x != g
    requires st.threads[t] == Thread(Blocked(g, 0), Nothing) && st.doms[g] == EngineOf(t)
    ensures Comes(from, Back(WithMail(st, x, m), t, g, IDLE_ENGINE))
  {
    var d := EngineOf(t);
    assert Put(st, t, g, Blocked(g, 0), d) == st;
    hide Comes;
    Goes(from, st, t, g, Blocked(g, 0), d, Wake(false), Woken(g, 0), d);
    Goes(from, st, t, g, Woken(g, 0), d, StartFlush, Flush(g, true, 0, 0), d);
    FlushSends(from, st, t, g, Flush(g, true, 0, 0), d, x, m);
    PutsBack(from, WithMail(st, x, m), t, g, Flush(g, true, 1, 0), d);
  }

  /** A send in the flush of domain g. */
  lemma FlushSends(from: State, st: State, t: Tid, g: Gid, pc: Pc, d: Dom, x: Gid, m: Msg)
    requires t < |st.threads| && g < |st.doms| && x < |st.doms| && x != g && pc.Flush? && pc.gid == g
    requires Comes(from, Put(st, t, g, pc, d))
    ensures Comes(from, Put(WithMail(st, x, m), t, g, pc.(served := pc.served + 1), d))
  {
    hide Comes;
    var now := Put(st, t, g, pc, d);
    SendsTo(from, now, t, x, m, pc.(served := pc.served + 1));
    assert now.threads[t := Thread(pc.(served := pc.served + 1), Nothing)] == st.threads[t := Thread(pc.(served := pc.served + 1), Nothing)];
    assert WithMail(now, x, m).doms == WithMail(st, x, m).doms[g := d];
  }

  /** A domain without hungry processes, and without mail or with one message. */
  function PlainWith(remote: seq<Msg>): Dom {
    Dom(false, remote, [], 0, 0, true, Queued)
  }

  /** A free worker takes a domain with a message, which sends in turn, and puts it back. */
  lemma RunsAndSends(from: State, st: State, t: Tid, m: Msg, x: Gid, m': Msg)
    requires Comes(from, st) && Facing(st, t) && st.doms[st.queue[0]] == PlainWith([m]) && x < |st.doms| && x != st.queue[0]
    ensures Comes(from, Back(WithMail(st.(queue := st.queue[1..]), x, m'), t, st.queue[0], PlainWith([])))
  {
    var g := st.queue[0];
    var base := st.(queue := st.queue[1..]);
    var d := OnceTaken(PlainWith([]), t);
    Begins(from, st, t);
    hide Comes;
    assert [] + [m] == [m];
    HasMailToFlush(from, base, t, g, m, d);
    FlushSends(from, base, t, g, Flush(g, false, 0, 0), d, x, m');
    PutsBack(from, WithMail(base, x, m'), t, g, Flush(g, false, 1, 0), d);
  }

  lemma HasMailToFlush(from: State, st: State, t: Tid, g: Gid, m: Msg, d: Dom)
    requires t < |st.threads| && g < |st.doms| && d.local == [] && Comes(from, Put(st, t, g, Run1(g), d.(local := [m])))
    ensures Comes(from, Put(st, t, g, Flush(g, false, 0, 0), d))
  {
    hide Comes;
    assert [m][1..] == [];
    Goes(from, st, t, g, Run1(g), d.(local := [m]), Consume(d.hungry, d.alive), Run1(g), d);
    Goes(from, st, t, g, Run1(g), d, StartFlush, Flush(g, false, 0, 0), d);
  }

  /** A free worker takes an engine with a request, has it served, and sleeps there. */
  lemma SleepsAsked(from: State, st: State, t: Tid, m: Msg)
    requires Comes(from, st) && Facing(st, t) && st.doms[st.queue[0]] == IDLE_ENGINE.(remote := [m])
    ensures Comes(from, AsleepBy(st, t))
  {
    var g := st.queue[0];
    var base := st.(queue := st.queue[1..]);
    Begins(from, st, t);
    hide Comes;
    assert [] + [m] == [m];
    HasMailToFlush(from, base, t, g, m, EngineOf(t));
    SleepsThere(from, base, t, g);
  }

  // Consecutive numbers

  function Range(a: nat, b: nat): (r: seq<nat>)
    requires a <= b
    ensures |r| == b - a && forall i | 0 <= i < b - a :: r[i] == a + i
  {
    seq(b - a, (i: nat) => a + i)
  }

  lemma RangeFacts(a: nat, b: nat)
    requires a <= b
    ensures NoDup(Range(a, b)) && |Range(a, b)| == b - a && |Elements(Range(a, b))| == b - a
    ensures forall x: nat :: x in Range(a, b) <==> a <= x < b
  {
    forall x: nat | a <= x < b ensures x in Range(a, b) {
      assert Range(a, b)[x - a] == x;
    }
    SizeOfElements(Range(a, b));
  }

  lemma RangeFirst(a: nat, b: nat)
    requires a < b
    ensures Range(a, b)[0] == a && Range(a, b)[1..] == Range(a + 1, b)
  {
  }

  lemma RangeJoin(a: nat, b: nat, c: nat)
    requires a <= b <= c
    ensures Range(a, b) + Range(b, c) == Range(a, c)
  {
  }
}
